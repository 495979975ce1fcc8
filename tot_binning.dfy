/**
 * TOT binning (`binTOT`): the samples a channel collects from the events, and
 * the bin edges computed from them — equal-width edges, or edges placed at
 * midpoints between sorted samples so that every bin holds about the same
 * number of hits.
 */
module TotBinning {

  import opened CalibData

  /** The TOT a channel contributes from one event: its hit count side must exceed `minHits`, its TOT lie strictly inside the window. */
  function EventSample(k: Constants, ev: Event, j: int): (r: seq<real>)
    requires EventOk(ev) && IsChannel(j)
    ensures |r| <= 1
    ensures forall i :: 0 <= i < |r| ==> InOpenWindow(k, r[i])
  {
    var side := if IsWest(j) then ev.numberOfVpdWest else ev.numberOfVpdEast;
    if side > k.minHits && InOpenWindow(k, ev.tot[j]) then [ev.tot[j]] else []
  }

  /** All TOT samples channel `j` collects, in event order (`tots[j]` after the event loop). */
  function Samples(k: Constants, evs: seq<Event>, j: int): (r: seq<real>)
    requires EventsOk(evs) && IsChannel(j)
    ensures |r| <= |evs|
    ensures forall i :: 0 <= i < |r| ==> InOpenWindow(k, r[i])
  {
    if evs == [] then []
    else Samples(k, evs[..|evs| - 1], j) + EventSample(k, evs[|evs| - 1], j)
  }

  predicate Sorted(s: seq<real>)
  {
    forall i, j :: 0 <= i <= j < |s| ==> s[i] <= s[j]
  }

  /** Inserts `x` before the first element that is not smaller. */
  function Insert(x: real, s: seq<real>): (r: seq<real>)
    ensures |r| == |s| + 1
  {
    if s == [] || x <= s[0] then [x] + s else [s[0]] + Insert(x, s[1..])
  }

  /** Insertion adds exactly the one element. */
  lemma {:induction false} InsertMultiset(x: real, s: seq<real>)
    ensures multiset(Insert(x, s)) == multiset(s) + multiset{x}
  {
    if s != [] && x > s[0] {
      InsertMultiset(x, s[1..]);
      assert s == [s[0]] + s[1..];
    }
  }

  /** Inserting into a sorted sequence keeps it sorted; the head is the smaller of `x` and the old head. */
  lemma {:induction false} InsertSorted(x: real, s: seq<real>)
    requires Sorted(s)
    ensures Sorted(Insert(x, s))
    ensures Insert(x, s)[0] == (if s == [] || x <= s[0] then x else s[0])
  {
    if s != [] && x > s[0] {
      InsertSorted(x, s[1..]);
      var t := Insert(x, s[1..]);
      assert Insert(x, s) == [s[0]] + t;
      InsertMultiset(x, s[1..]);
      forall i | 0 <= i < |t|
        ensures s[0] <= t[i]
      {
        assert t[i] in multiset(t);
        if t[i] != x {
          assert t[i] in multiset(s[1..]);
        }
      }
    }
  }

  /** The ascending order `std::sort` leaves the samples in. */
  function SortSeq(s: seq<real>): (r: seq<real>)
    ensures Sorted(r)
    ensures multiset(r) == multiset(s)
    ensures |r| == |s|
  {
    if s == [] then []
    else
      assert s == [s[0]] + s[1..];
      InsertSorted(s[0], SortSeq(s[1..]));
      InsertMultiset(s[0], SortSeq(s[1..]));
      Insert(s[0], SortSeq(s[1..]))
  }

  /** Sorting only reorders: every sorted value is one of the samples and the first is the smallest. */
  lemma SortSeqValues(s: seq<real>)
    ensures forall i :: 0 <= i < |s| ==> SortSeq(s)[i] in s
    ensures forall i :: 0 <= i < |s| ==> SortSeq(s)[0] <= s[i]
  {
    var r := SortSeq(s);
    forall i | 0 <= i < |s|
      ensures r[i] in s
    {
      assert r[i] in multiset(r);
    }
    forall i | 0 <= i < |s|
      ensures r[0] <= s[i]
    {
      assert s[i] in multiset(s);
      var p :| 0 <= p < |r| && r[p] == s[i];
    }
  }

  /** A channel with fewer than three samples per bin is declared dead. */
  predicate TooFewSamples(n: int, samples: seq<real>)
  {
    |samples| < n * 3
  }

  /** Equal-width edge `s` of `n` bins over [minTOT, maxTOT]. */
  function UniformEdge(k: Constants, n: int, s: int): real
    requires n >= 1
  {
    ((k.maxTOT - k.minTOT) / (n as real)) * (s as real) + k.minTOT
  }

  function UniformEdges(k: Constants, n: int): (e: seq<real>)
    requires n >= 1
    ensures |e| == n + 1
  {
    seq(n + 1, s requires 0 <= s <= n => UniformEdge(k, n, s))
  }

  /** `step * j` stays inside the samples for every interior or first edge. */
  lemma StepIndexInRange(size: int, n: int, j: int)
    requires n >= 1 && size >= n * 3 && 0 <= j < n
    ensures 1 <= size / (n + 1)
    ensures 0 <= (size / (n + 1)) * j < size
  {
    var step := size / (n + 1);
    assert size >= n + 1;
    assert step * (n + 1) <= size;
    assert step * j <= step * (n + 1) by {
      assert step * (n + 1) == step * j + step * (n + 1 - j);
    }
  }

  /** The sorted sample at position `step * j`, `step = size div (n + 1)`. */
  function QuantileSample(s: seq<real>, n: int, j: int): real
    requires n >= 1 && |s| >= n * 3 && 0 <= j < n
  {
    StepIndexInRange(|s|, n, j);
    s[(|s| / (n + 1)) * j]
  }

  /** Edge `j` of the equal-population binning of the sorted samples `s`. */
  function AdaptiveEdge(s: seq<real>, n: int, maxTOT: real, j: int): real
    requires n >= 1 && |s| >= n * 3 && 0 <= j <= n
  {
    if j == 0 then s[0]
    else if j == n then maxTOT
    else (QuantileSample(s, n, j) + QuantileSample(s, n, j - 1)) / 2.0
  }

  function AdaptiveEdges(s: seq<real>, n: int, maxTOT: real): (e: seq<real>)
    requires n >= 1 && |s| >= n * 3
    ensures |e| == n + 1
  {
    seq(n + 1, j requires 0 <= j <= n => AdaptiveEdge(s, n, maxTOT, j))
  }

  /** The edges `binTOT(true)` gives a channel with these samples. */
  function ChannelEdges(k: Constants, n: int, samples: seq<real>): (e: seq<real>)
    requires n >= 1
    ensures |e| == n + 1
  {
    if TooFewSamples(n, samples) then UniformEdges(k, n)
    else AdaptiveEdges(SortSeq(samples), n, k.maxTOT)
  }

  predicate NonDecreasing(e: seq<real>)
  {
    forall i, j :: 0 <= i <= j < |e| ==> e[i] <= e[j]
  }

  /** Equal-width edges start at minTOT, end at maxTOT and strictly increase. */
  lemma UniformEdgesShape(k: Constants, n: int)
    requires ConstantsOk(k) && n >= 1
    ensures UniformEdges(k, n)[0] == k.minTOT && UniformEdges(k, n)[n] == k.maxTOT
    ensures forall i, j :: 0 <= i < j <= n ==> UniformEdges(k, n)[i] < UniformEdges(k, n)[j]
  {
    var w := (k.maxTOT - k.minTOT) / (n as real);
    assert w > 0.0;
    assert w * (n as real) == k.maxTOT - k.minTOT;
    forall i, j | 0 <= i < j <= n
      ensures UniformEdges(k, n)[i] < UniformEdges(k, n)[j]
    {
      assert w * (j as real) - w * (i as real) == w * ((j - i) as real);
      assert w * ((j - i) as real) > 0.0;
    }
  }

  /**
   * The interior edges split the sorted samples at the quantile positions:
   * edge `j` lies between the samples at `step * (j - 1)` and `step * j`.
   */
  lemma AdaptiveEdgeBetween(s: seq<real>, n: int, maxTOT: real, j: int)
    requires n >= 1 && |s| >= n * 3 && 0 < j < n && Sorted(s)
    ensures QuantileSample(s, n, j - 1) <= AdaptiveEdges(s, n, maxTOT)[j] <= QuantileSample(s, n, j)
  {
    StepIndexInRange(|s|, n, j);
    StepIndexInRange(|s|, n, j - 1);
    var step := |s| / (n + 1);
    assert step * (j - 1) <= step * j by {
      assert step * j == step * (j - 1) + step;
    }
  }

  /** Every edge before the last is bounded by the samples on either side of it. */
  lemma AdaptiveEdgeBounds(s: seq<real>, n: int, maxTOT: real, j: int)
    requires n >= 1 && |s| >= n * 3 && Sorted(s) && 0 <= j < n
    requires forall i :: 0 <= i < |s| ==> s[i] < maxTOT
    ensures s[0] <= AdaptiveEdges(s, n, maxTOT)[j] < maxTOT
  {
    if j > 0 {
      AdaptiveEdgeBetween(s, n, maxTOT, j);
      StepIndexInRange(|s|, n, j - 1);
      StepIndexInRange(|s|, n, j);
    }
  }

  lemma AdaptiveEdgesOrdered(s: seq<real>, n: int, maxTOT: real, i: int, j: int)
    requires n >= 1 && |s| >= n * 3 && Sorted(s) && 0 <= i <= j <= n
    requires forall i :: 0 <= i < |s| ==> s[i] < maxTOT
    ensures AdaptiveEdges(s, n, maxTOT)[i] <= AdaptiveEdges(s, n, maxTOT)[j]
  {
    var e := AdaptiveEdges(s, n, maxTOT);
    if j == n {
      if i < n {
        AdaptiveEdgeBounds(s, n, maxTOT, i);
      }
    } else if i == 0 {
      AdaptiveEdgeBounds(s, n, maxTOT, j);
    } else if i < j {
      AdaptiveEdgeBetween(s, n, maxTOT, i);
      AdaptiveEdgeBetween(s, n, maxTOT, j);
      QuantileMonotone(s, n, i, j - 1);
    }
  }

  lemma QuantileMonotone(s: seq<real>, n: int, i: int, j: int)
    requires n >= 1 && |s| >= n * 3 && Sorted(s) && 0 <= i <= j < n
    ensures QuantileSample(s, n, i) <= QuantileSample(s, n, j)
  {
    var step := |s| / (n + 1);
    StepIndexInRange(|s|, n, i);
    StepIndexInRange(|s|, n, j);
    assert step * i <= step * j by {
      assert step * j == step * i + step * (j - i);
    }
  }

  /**
   * Equal-population edges of sorted samples that all lie below maxTOT: the
   * first edge is the smallest sample, the last is maxTOT, and the edges never
   * decrease.
   */
  lemma AdaptiveEdgesShape(s: seq<real>, n: int, maxTOT: real)
    requires n >= 1 && |s| >= n * 3 && Sorted(s)
    requires forall i :: 0 <= i < |s| ==> s[i] < maxTOT
    ensures AdaptiveEdges(s, n, maxTOT)[0] == s[0]
    ensures AdaptiveEdges(s, n, maxTOT)[n] == maxTOT
    ensures forall j :: 0 <= j < n ==> AdaptiveEdges(s, n, maxTOT)[j] < maxTOT
    ensures NonDecreasing(AdaptiveEdges(s, n, maxTOT))
  {
    forall j | 0 <= j < n
      ensures AdaptiveEdges(s, n, maxTOT)[j] < maxTOT
    {
      AdaptiveEdgeBounds(s, n, maxTOT, j);
    }
    forall i, j | 0 <= i <= j < n + 1
      ensures AdaptiveEdges(s, n, maxTOT)[i] <= AdaptiveEdges(s, n, maxTOT)[j]
    {
      AdaptiveEdgesOrdered(s, n, maxTOT, i, j);
    }
  }

  /**
   * The edges a live channel gets: the smallest collected sample first,
   * maxTOT last, never decreasing, and every edge inside (minTOT, maxTOT].
   */
  lemma ChannelEdgesShape(k: Constants, n: int, samples: seq<real>)
    requires ConstantsOk(k) && n >= 1
    requires forall i :: 0 <= i < |samples| ==> InOpenWindow(k, samples[i])
    ensures NonDecreasing(ChannelEdges(k, n, samples))
    ensures ChannelEdges(k, n, samples)[n] == k.maxTOT
    ensures TooFewSamples(n, samples) ==> ChannelEdges(k, n, samples) == UniformEdges(k, n)
    ensures !TooFewSamples(n, samples) ==> ChannelEdges(k, n, samples)[0] in samples
    ensures !TooFewSamples(n, samples) ==>
      forall i :: 0 <= i < |samples| ==> ChannelEdges(k, n, samples)[0] <= samples[i]
    ensures !TooFewSamples(n, samples) ==>
      forall j :: 0 <= j <= n ==> k.minTOT < ChannelEdges(k, n, samples)[j] <= k.maxTOT
  {
    if TooFewSamples(n, samples) {
      UniformEdgesShape(k, n);
    } else {
      var s := SortSeq(samples);
      SortSeqValues(samples);
      forall i | 0 <= i < |s|
        ensures k.minTOT < s[i] < k.maxTOT
      {
        var p :| 0 <= p < |samples| && samples[p] == s[i];
      }
      AdaptiveEdgesShape(s, n, k.maxTOT);
      var e := AdaptiveEdges(s, n, k.maxTOT);
      forall j | 0 <= j <= n
        ensures k.minTOT < e[j]
      {
        assert e[0] <= e[j];
      }
    }
  }
}

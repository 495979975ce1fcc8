/**
 * What one calibration step computes, as functions of a snapshot of the
 * engine's tables: the correction lookup, per-event outlier rejection, the
 * per-event aliasing of channel values, the same-bank averages and the
 * histogram fills each event makes.
 */
module StepSpec {

  import opened Wrappers
  import opened HistoBook
  import opened CalibData

  /**
   * The tables a step reads and never changes: the iteration number, the
   * dead flags, the initial offsets, the correction table (rows of n+1
   * entries), the word stored just past each row, and the two switches.
   */
  datatype Env = Env(
    k: Constants,
    n: int,
    it: int,
    dead: seq<bool>,
    offsets: seq<real>,
    corr: seq<seq<real>>,
    pastEnd: seq<real>,
    outliers: bool,
    removeOffset: bool)

  predicate EnvOk(e: Env)
  {
    e.n >= 1 && |e.dead| == NChannels && |e.offsets| == NChannels && |e.corr| == NChannels &&
    |e.pastEnd| == NChannels && (forall j :: 0 <= j < NChannels ==> |e.corr[j]| == e.n + 1)
  }

  /** `correction[ch][b]`; a bin past the row reads the word after it. */
  function CorrectionAt(e: Env, ch: int, b: nat): real
    requires EnvOk(e) && IsChannel(ch)
  {
    if b <= e.n then e.corr[ch][b] else e.pastEnd[ch]
  }

  /** The histogram `binForTOT` consults: the previous iteration's `totcor` of the channel. */
  function LookupKey(e: Env, ch: int): string
  {
    ChannelKey(ch, e.it - 1, "totcor")
  }

  /** `binForTOT`: the bin of `tot` on that histogram's x axis, or 0 when it is absent. */
  function BinFor(e: Env, m: map<string, Hist>, ch: int, tot: real): nat
  {
    var key := LookupKey(e, ch);
    if key in m then FindBin(m[key].xAxis, tot) else 0
  }

  /** `getCorrection`. */
  function CorrFor(e: Env, m: map<string, Hist>, ch: int, tot: real): real
    requires EnvOk(e) && IsChannel(ch)
  {
    CorrectionAt(e, ch, BinFor(e, m, ch, tot))
  }

  /** Without last iteration's correction histogram the lookup reads bin 0 of the row. */
  lemma LookupWithoutHistogram(e: Env, m: map<string, Hist>, ch: int, tot: real)
    requires EnvOk(e) && IsChannel(ch)
    requires LookupKey(e, ch) !in m
    ensures BinFor(e, m, ch, tot) == 0
    ensures CorrFor(e, m, ch, tot) == e.corr[ch][0]
  {
  }

  /** A fill into the store: key and sample. */
  datatype FillOp = FillOp(key: string, s: Sample)

  /** Applies fills in order. */
  function ApplyFills(m: map<string, Hist>, fs: seq<FillOp>): map<string, Hist>
  {
    if fs == [] then m else ApplyFills(FillEntry(m, fs[0].key, fs[0].s), fs[1..])
  }

  /** Fills applied one list after another are the fills of the joined list. */
  lemma {:induction false} ApplyFillsAppend(m: map<string, Hist>, a: seq<FillOp>, b: seq<FillOp>)
    ensures ApplyFills(m, a + b) == ApplyFills(ApplyFills(m, a), b)
    decreases |a|
  {
    if a == [] {
      assert a + b == b;
    } else {
      assert (a + b)[0] == a[0];
      assert (a + b)[1..] == a[1..] + b;
      ApplyFillsAppend(FillEntry(m, a[0].key, a[0].s), a[1..], b);
    }
  }

  /** One more fill after a list of fills. */
  lemma ApplyFillsSnoc(m: map<string, Hist>, fs: seq<FillOp>, f: FillOp)
    ensures ApplyFills(m, fs + [f]) == FillEntry(ApplyFills(m, fs), f.key, f.s)
  {
    ApplyFillsAppend(m, fs, [f]);
    ApplyOneFill(ApplyFills(m, fs), f);
  }

  /** Three fills in a row. */
  lemma ApplyThreeFills(m: map<string, Hist>, fs: seq<FillOp>)
    requires |fs| == 3
    ensures ApplyFills(m, fs) == FillEntry(FillEntry(FillEntry(m, fs[0].key, fs[0].s), fs[1].key, fs[1].s), fs[2].key, fs[2].s)
  {
    ApplyOneFill(m, fs[0]);
    ApplyFillsSnoc(m, [fs[0]], fs[1]);
    ApplyFillsSnoc(m, [fs[0], fs[1]], fs[2]);
    assert [fs[0], fs[1], fs[2]] == fs;
  }

  /** The fills of a list of three parts, part by part. */
  lemma ApplyFillsThree(m: map<string, Hist>, a: seq<FillOp>, b: seq<FillOp>, c: seq<FillOp>)
    ensures ApplyFills(m, a + b + c) == ApplyFills(ApplyFills(ApplyFills(m, a), b), c)
  {
    ApplyFillsAppend(m, a + b, c);
    ApplyFillsAppend(m, a, b);
  }

  /** A single list up front, then three parts. */
  lemma ApplyFillsFirst(m: map<string, Hist>, a: seq<FillOp>, b: seq<FillOp>, c: seq<FillOp>, d: seq<FillOp>)
    ensures ApplyFills(m, a + b + c + d) == ApplyFills(ApplyFills(m, a), b + c + d)
  {
    assert a + b + c + d == a + (b + c + d);
    ApplyFillsAppend(m, a, b + c + d);
  }

  /** One fill is one `FillEntry`. */
  lemma ApplyOneFill(m: map<string, Hist>, f: FillOp)
    ensures ApplyFills(m, [f]) == FillEntry(m, f.key, f.s)
  {
    assert [f][1..] == [];
  }

  /** The samples the fills `fs` make on `key`, in order. */
  function SamplesFor(fs: seq<FillOp>, key: string): (r: seq<Sample>)
    ensures |r| <= |fs|
  {
    if fs == [] then []
    else (if fs[0].key == key then [fs[0].s] else []) + SamplesFor(fs[1..], key)
  }

  lemma {:induction false} SamplesForAppend(a: seq<FillOp>, b: seq<FillOp>, key: string)
    ensures SamplesFor(a + b, key) == SamplesFor(a, key) + SamplesFor(b, key)
  {
    if a != [] {
      var ab := a + b;
      assert ab[0] == a[0];
      assert ab[1..] == a[1..] + b;
      SamplesForAppend(a[1..], b, key);
      var h: seq<Sample> := if a[0].key == key then [a[0].s] else [];
      assert SamplesFor(ab, key) == h + SamplesFor(a[1..] + b, key);
      assert SamplesFor(a, key) == h + SamplesFor(a[1..], key);
      assert h + (SamplesFor(a[1..], key) + SamplesFor(b, key)) == (h + SamplesFor(a[1..], key)) + SamplesFor(b, key);
    } else {
      assert a + b == b;
    }
  }

  /**
   * Filling changes no key and no axis; each stored histogram gains exactly
   * the samples aimed at its key, in order.
   */
  lemma {:induction false} ApplyFillsEffect(m: map<string, Hist>, fs: seq<FillOp>)
    ensures ApplyFills(m, fs).Keys == m.Keys
    ensures forall key :: key in m ==>
      ApplyFills(m, fs)[key] == m[key].(fills := m[key].fills + SamplesFor(fs, key))
  {
    if fs != [] {
      var m1 := FillEntry(m, fs[0].key, fs[0].s);
      ApplyFillsEffect(m1, fs[1..]);
      forall key | key in m
        ensures ApplyFills(m, fs)[key] == m[key].(fills := m[key].fills + SamplesFor(fs, key))
      {
        var rest := SamplesFor(fs[1..], key);
        if key == fs[0].key {
          assert m1[key].fills == m[key].fills + [fs[0].s];
          assert SamplesFor(fs, key) == [fs[0].s] + rest;
          assert m[key].fills + [fs[0].s] + rest == m[key].fills + ([fs[0].s] + rest);
        } else {
          assert m1[key] == m[key];
          assert SamplesFor(fs, key) == [] + rest == rest;
        }
      }
    }
  }

  /** The lookup tables of a step do not move while the step fills histograms. */
  lemma LookupUnchangedByFills(e: Env, m: map<string, Hist>, fs: seq<FillOp>, ch: int, tot: real)
    requires EnvOk(e) && IsChannel(ch)
    ensures BinFor(e, ApplyFills(m, fs), ch, tot) == BinFor(e, m, ch, tot)
    ensures CorrFor(e, ApplyFills(m, fs), ch, tot) == CorrFor(e, m, ch, tot)
  {
    ApplyFillsEffect(m, fs);
  }

  // ---------------------------------------------------------------------
  // Outlier rejection
  // ---------------------------------------------------------------------

  function Abs(x: real): real { if x < 0.0 then -x else x }

  /** A channel that takes part in pairing: not dead and its TOT in the window. */
  predicate Live(e: Env, ev: Event, j: int)
    requires EnvOk(e) && EventOk(ev) && IsChannel(j)
  {
    !e.dead[j] && InAnalysisWindow(e.k, ev.tot[j])
  }

  /** The channel time with the offset and the current correction taken off. */
  function VpdTime(e: Env, m: map<string, Hist>, ev: Event, j: int): real
    requires EnvOk(e) && EventOk(ev) && IsChannel(j)
  {
    ev.tdc[j] - e.offsets[j] - CorrFor(e, m, j, ev.tot[j])
  }

  /** The vertex of a west/east time pair agrees with the TPC vertex `tpcZ` within this iteration's cut (strictly). */
  predicate VertexAgrees(k: Constants, it: int, tpcZ: real, tWest: real, tEast: real)
  {
    Abs(tpcZ - VpdZ(k, tWest, tEast)) < VzCut(it)
  }

  /** The vertex position the time difference of a west/east pair gives. */
  function VpdZ(k: Constants, tWest: real, tEast: real): real
  {
    k.c * (tEast - tWest) / 2.0
  }

  /**
   * What the pairing loops of `outlierRejection` work on: the constants, the
   * iteration (which picks the vertex cut), the TPC vertex, and per channel
   * whether it is live and its corrected time (0 when it is not live; that
   * time is never used).
   */
  datatype Pairing = Pairing(k: Constants, it: int, tpcZ: real, live: seq<bool>, times: seq<real>)

  predicate PairingOk(p: Pairing)
  {
    |p.live| == NChannels && |p.times| == NChannels
  }

  /** The corrected time the pairing uses for channel `j`. */
  function PairTime(e: Env, m: map<string, Hist>, ev: Event, j: int): real
    requires EnvOk(e) && EventOk(ev) && IsChannel(j)
  {
    if Live(e, ev, j) then VpdTime(e, m, ev, j) else 0.0
  }

  /** The pairing of event `ev` under the correction tables of `e` and the store `m`. */
  function PairingOf(e: Env, m: map<string, Hist>, ev: Event): (p: Pairing)
    requires EnvOk(e) && EventOk(ev)
    ensures PairingOk(p)
  {
    Pairing(e.k, e.it, ev.vertexZ,
      seq(NChannels, j requires 0 <= j < NChannels => Live(e, ev, j)),
      seq(NChannels, j requires 0 <= j < NChannels => PairTime(e, m, ev, j)))
  }

  /** The live flags of the channels below `n`, channel by channel. */
  function LiveFlags(e: Env, ev: Event, n: nat): (r: seq<bool>)
    requires EnvOk(e) && EventOk(ev) && n <= NChannels
    ensures |r| == n
  {
    if n == 0 then [] else LiveFlags(e, ev, n - 1) + [Live(e, ev, n - 1)]
  }

  /** The pairing times of the channels below `n`, channel by channel. */
  function PairTimes(e: Env, m: map<string, Hist>, ev: Event, n: nat): (r: seq<real>)
    requires EnvOk(e) && EventOk(ev) && n <= NChannels
    ensures |r| == n
  {
    if n == 0 then [] else PairTimes(e, m, ev, n - 1) + [PairTime(e, m, ev, n - 1)]
  }

  lemma {:induction false} LiveFlagsAt(e: Env, ev: Event, n: nat)
    requires EnvOk(e) && EventOk(ev) && n <= NChannels
    ensures forall j :: 0 <= j < n ==> LiveFlags(e, ev, n)[j] == Live(e, ev, j)
  {
    if n > 0 {
      LiveFlagsAt(e, ev, n - 1);
      var r, p := LiveFlags(e, ev, n), LiveFlags(e, ev, n - 1);
      assert forall j :: 0 <= j < n - 1 ==> r[j] == p[j];
    }
  }

  lemma {:induction false} PairTimesAt(e: Env, m: map<string, Hist>, ev: Event, n: nat)
    requires EnvOk(e) && EventOk(ev) && n <= NChannels
    ensures forall j :: 0 <= j < n ==> PairTimes(e, m, ev, n)[j] == PairTime(e, m, ev, j)
  {
    if n > 0 {
      PairTimesAt(e, m, ev, n - 1);
      var p := PairTimes(e, m, ev, n - 1);
      assert PairTimes(e, m, ev, n) == p + [PairTime(e, m, ev, n - 1)];
    }
  }

  /** The pairing built channel by channel is the pairing of the event. */
  lemma PairingOfPrefixes(e: Env, m: map<string, Hist>, ev: Event)
    requires EnvOk(e) && EventOk(ev)
    ensures PairingOf(e, m, ev) == Pairing(e.k, e.it, ev.vertexZ, LiveFlags(e, ev, NChannels), PairTimes(e, m, ev, NChannels))
  {
    LiveFlagsAt(e, ev, NChannels);
    PairTimesAt(e, m, ev, NChannels);
  }

  /** The pairing does not depend on the outlier-rejection switch. */
  lemma PairingIgnoresRejection(e: Env, reject: bool, m: map<string, Hist>, ev: Event)
    requires EnvOk(e) && EventOk(ev)
    ensures PairingOf(e.(outliers := reject), m, ev) == PairingOf(e, m, ev)
  {
    var p, q := PairingOf(e.(outliers := reject), m, ev), PairingOf(e, m, ev);
    forall j | 0 <= j < NChannels
      ensures p.times[j] == q.times[j]
    {
      assert CorrFor(e.(outliers := reject), m, j, ev.tot[j]) == CorrFor(e, m, j, ev.tot[j]);
    }
    assert p.times == q.times;
  }

  /** A west/east pair of live channels whose vertex agrees with the TPC vertex. */
  predicate PairOk(p: Pairing, j: int, kk: int)
    requires PairingOk(p) && IsWest(j) && IsEast(kk)
  {
    p.live[j] && p.live[kk] && VertexAgrees(p.k, p.it, p.tpcZ, p.times[j], p.times[kk])
  }

  /** On an event's own pairing: both channels live and the vertex of their corrected times agrees. */
  lemma PairOkOf(e: Env, m: map<string, Hist>, ev: Event, j: int, kk: int)
    requires EnvOk(e) && EventOk(ev) && IsWest(j) && IsEast(kk)
    ensures PairOk(PairingOf(e, m, ev), j, kk) <==>
      Live(e, ev, j) && Live(e, ev, kk) && VertexAgrees(e.k, e.it, ev.vertexZ, VpdTime(e, m, ev, j), VpdTime(e, m, ev, kk))
  {
  }

  /** West channel `j` pairs with some east channel below `hi`. */
  predicate EastPartner(p: Pairing, j: int, hi: int)
    requires PairingOk(p) && IsWest(j) && hi <= EndEast
    decreases hi
  {
    if hi <= StartEast then false
    else EastPartner(p, j, hi - 1) || PairOk(p, j, hi - 1)
  }

  /** East channel `kk` pairs with some west channel below `hi`. */
  predicate WestPartner(p: Pairing, kk: int, hi: int)
    requires PairingOk(p) && IsEast(kk) && hi <= EndWest
    decreases hi
  {
    if hi <= StartWest then false
    else WestPartner(p, kk, hi - 1) || PairOk(p, hi - 1, kk)
  }

  /** Some west channel below `hi` pairs with some east channel. */
  predicate SomePair(p: Pairing, hi: int)
    requires PairingOk(p) && hi <= EndWest
    decreases hi
  {
    if hi <= StartWest then false
    else SomePair(p, hi - 1) || EastPartner(p, hi - 1, EndEast)
  }

  /** `useDetector` after `outlierRejection`: east entries keep their old value unless a pair sets them. */
  function OutlierUse(e: Env, m: map<string, Hist>, ev: Event, use: seq<bool>): (r: seq<bool>)
    requires EnvOk(e) && EventOk(ev) && |use| == NChannels
    ensures |r| == NChannels
  {
    if !e.outliers then seq(NChannels, j => true)
    else RejectionUses(PairingOf(e, m, ev), use)
  }

  /** `useDetector` after the pairing loops of `outlierRejection(true)`. */
  function RejectionUses(p: Pairing, use: seq<bool>): (r: seq<bool>)
    requires PairingOk(p) && |use| == NChannels
    ensures |r| == NChannels
  {
    seq(NChannels, j requires 0 <= j < NChannels => RejectionUse(p, use, j))
  }

  /** The entry of channel `j` after `outlierRejection(true)`. */
  predicate RejectionUse(p: Pairing, use: seq<bool>, j: int)
    requires PairingOk(p) && |use| == NChannels && IsChannel(j)
  {
    if IsWest(j) then EastPartner(p, j, EndEast) else use[j] || WestPartner(p, j, EndWest)
  }

  /** Both bank flags after `outlierRejection`; they are always set together. */
  predicate OutlierFlag(e: Env, m: map<string, Hist>, ev: Event)
    requires EnvOk(e) && EventOk(ev)
  {
    !e.outliers || SomePair(PairingOf(e, m, ev), EndWest)
  }

  /** A west channel that is not live pairs with nothing. */
  lemma {:induction false} NotLiveNoPartner(p: Pairing, j: int, hi: int)
    requires PairingOk(p) && IsWest(j) && hi <= EndEast && !p.live[j]
    ensures !EastPartner(p, j, hi)
    decreases hi
  {
    if hi > StartEast {
      NotLiveNoPartner(p, j, hi - 1);
    }
  }

  lemma {:induction false} EastPartnerIntro(p: Pairing, j: int, kk: int, hi: int)
    requires PairingOk(p) && IsWest(j) && hi <= EndEast
    requires StartEast <= kk < hi && PairOk(p, j, kk)
    ensures EastPartner(p, j, hi)
    decreases hi
  {
    if kk < hi - 1 {
      EastPartnerIntro(p, j, kk, hi - 1);
    }
  }

  lemma {:induction false} EastPartnerElim(p: Pairing, j: int, hi: int) returns (kk: int)
    requires PairingOk(p) && IsWest(j) && hi <= EndEast
    requires EastPartner(p, j, hi)
    ensures StartEast <= kk < hi && PairOk(p, j, kk)
    decreases hi
  {
    if PairOk(p, j, hi - 1) {
      kk := hi - 1;
    } else {
      kk := EastPartnerElim(p, j, hi - 1);
    }
  }

  lemma EastPartnerIff(p: Pairing, j: int, hi: int)
    requires PairingOk(p) && IsWest(j) && hi <= EndEast
    ensures EastPartner(p, j, hi) <==> exists kk :: StartEast <= kk < hi && PairOk(p, j, kk)
  {
    if EastPartner(p, j, hi) {
      var kk := EastPartnerElim(p, j, hi);
    }
    if exists kk :: StartEast <= kk < hi && PairOk(p, j, kk) {
      var kk :| StartEast <= kk < hi && PairOk(p, j, kk);
      EastPartnerIntro(p, j, kk, hi);
    }
  }

  lemma {:induction false} WestPartnerIntro(p: Pairing, kk: int, j: int, hi: int)
    requires PairingOk(p) && IsEast(kk) && hi <= EndWest
    requires StartWest <= j < hi && PairOk(p, j, kk)
    ensures WestPartner(p, kk, hi)
    decreases hi
  {
    if j < hi - 1 {
      WestPartnerIntro(p, kk, j, hi - 1);
    }
  }

  lemma {:induction false} WestPartnerElim(p: Pairing, kk: int, hi: int) returns (j: int)
    requires PairingOk(p) && IsEast(kk) && hi <= EndWest
    requires WestPartner(p, kk, hi)
    ensures StartWest <= j < hi && PairOk(p, j, kk)
    decreases hi
  {
    if PairOk(p, hi - 1, kk) {
      j := hi - 1;
    } else {
      j := WestPartnerElim(p, kk, hi - 1);
    }
  }

  lemma WestPartnerIff(p: Pairing, kk: int, hi: int)
    requires PairingOk(p) && IsEast(kk) && hi <= EndWest
    ensures WestPartner(p, kk, hi) <==> exists j :: StartWest <= j < hi && PairOk(p, j, kk)
  {
    if WestPartner(p, kk, hi) {
      var j := WestPartnerElim(p, kk, hi);
    }
    if exists j :: StartWest <= j < hi && PairOk(p, j, kk) {
      var j :| StartWest <= j < hi && PairOk(p, j, kk);
      WestPartnerIntro(p, kk, j, hi);
    }
  }

  lemma {:induction false} SomePairIntro(p: Pairing, j: int, hi: int)
    requires PairingOk(p) && hi <= EndWest
    requires StartWest <= j < hi && EastPartner(p, j, EndEast)
    ensures SomePair(p, hi)
    decreases hi
  {
    if j < hi - 1 {
      SomePairIntro(p, j, hi - 1);
    }
  }

  lemma {:induction false} SomePairElim(p: Pairing, hi: int) returns (j: int)
    requires PairingOk(p) && hi <= EndWest
    requires SomePair(p, hi)
    ensures StartWest <= j < hi && EastPartner(p, j, EndEast)
    decreases hi
  {
    if EastPartner(p, hi - 1, EndEast) {
      j := hi - 1;
    } else {
      j := SomePairElim(p, hi - 1);
    }
  }

  /**
   * Outlier rejection, stated pair by pair: with rejection on, a west channel
   * is usable exactly when it forms an accepted pair with some east channel.
   */
  lemma RejectionWest(e: Env, m: map<string, Hist>, ev: Event, use: seq<bool>, j: int)
    requires EnvOk(e) && EventOk(ev) && |use| == NChannels && IsWest(j) && e.outliers
    ensures OutlierUse(e, m, ev, use)[j] <==> exists kk :: IsEast(kk) && PairOk(PairingOf(e, m, ev), j, kk)
  {
    EastPartnerIff(PairingOf(e, m, ev), j, EndEast);
  }

  /** An east channel is usable when it was before, or when it forms an accepted pair with some west channel. */
  lemma RejectionEast(e: Env, m: map<string, Hist>, ev: Event, use: seq<bool>, kk: int)
    requires EnvOk(e) && EventOk(ev) && |use| == NChannels && IsEast(kk) && e.outliers
    ensures OutlierUse(e, m, ev, use)[kk] <==> use[kk] || exists j :: IsWest(j) && PairOk(PairingOf(e, m, ev), j, kk)
  {
    WestPartnerIff(PairingOf(e, m, ev), kk, EndWest);
  }

  /** The flags are set exactly when some pair is accepted. */
  lemma RejectionFlagsPairs(e: Env, m: map<string, Hist>, ev: Event)
    requires EnvOk(e) && EventOk(ev) && e.outliers
    ensures OutlierFlag(e, m, ev) <==> exists j, kk :: IsWest(j) && IsEast(kk) && PairOk(PairingOf(e, m, ev), j, kk)
  {
    var p := PairingOf(e, m, ev);
    if OutlierFlag(e, m, ev) {
      var j := SomePairElim(p, EndWest);
      var kk := EastPartnerElim(p, j, EndEast);
      assert IsWest(j) && IsEast(kk) && PairOk(p, j, kk);
    }
    if exists j, kk :: IsWest(j) && IsEast(kk) && PairOk(p, j, kk) {
      var j, kk :| IsWest(j) && IsEast(kk) && PairOk(p, j, kk);
      EastPartnerIntro(p, j, kk, EndEast);
      SomePairIntro(p, j, EndWest);
    }
  }

  /** The flags are set exactly when some west channel is left usable. */
  lemma RejectionFlagsWest(e: Env, m: map<string, Hist>, ev: Event, use: seq<bool>)
    requires EnvOk(e) && EventOk(ev) && |use| == NChannels && e.outliers
    ensures OutlierFlag(e, m, ev) <==> exists j :: IsWest(j) && OutlierUse(e, m, ev, use)[j]
  {
    var p := PairingOf(e, m, ev);
    var r := OutlierUse(e, m, ev, use);
    if OutlierFlag(e, m, ev) {
      var j := SomePairElim(p, EndWest);
      assert RejectionUse(p, use, j);
      assert IsWest(j) && r[j];
    }
    if exists j :: IsWest(j) && r[j] {
      var j :| IsWest(j) && r[j];
      assert RejectionUse(p, use, j);
      SomePairIntro(p, j, EndWest);
    }
  }

  /** With rejection off every channel is usable and both flags are set. */
  lemma NoRejection(e: Env, m: map<string, Hist>, ev: Event, use: seq<bool>)
    requires EnvOk(e) && EventOk(ev) && |use| == NChannels && !e.outliers
    ensures OutlierFlag(e, m, ev)
    ensures forall j :: 0 <= j < NChannels ==> OutlierUse(e, m, ev, use)[j]
  {
  }

  /** A west channel rejection leaves usable, or an east one it turned usable, is live. */
  lemma UsableAfterRejectionIsLive(e: Env, m: map<string, Hist>, ev: Event, use: seq<bool>, j: int)
    requires EnvOk(e) && EventOk(ev) && |use| == NChannels && IsChannel(j)
    requires e.outliers && OutlierUse(e, m, ev, use)[j]
    requires IsWest(j) || !use[j]
    ensures Live(e, ev, j)
  {
    if IsWest(j) {
      RejectionWest(e, m, ev, use, j);
    } else {
      RejectionEast(e, m, ev, use, j);
    }
  }

  // ---------------------------------------------------------------------
  // Aliasing and same-bank averages
  // ---------------------------------------------------------------------

  /** The step's per-channel locals `tot[j]`, `tdc[j]`, `off[j]`, `tAll[j]`; they persist from event to event. */
  datatype Chan = Chan(tot: real, tdc: real, off: real, tAll: real)

  predicate Usable(e: Env, use: seq<bool>, k: int)
    requires EnvOk(e) && |use| == NChannels && IsChannel(k)
  {
    !e.dead[k] && use[k]
  }

  /**
   * The alias loop for one channel: an unusable channel keeps last event's
   * values; `tAll` is reset from tdc and offset only when `removeOffset` is
   * set, and loses the current correction only when the TOT is in the window.
   */
  function AliasChan(e: Env, m: map<string, Hist>, ev: Event, use: seq<bool>, c: Chan, j: int): (r: Chan)
    requires EnvOk(e) && EventOk(ev) && |use| == NChannels && IsChannel(j)
    ensures !Usable(e, use, j) ==> r == c
    ensures Usable(e, use, j) ==> r.tot == ev.tot[j] && r.tdc == ev.tdc[j] && r.off == e.offsets[j]
  {
    if !Usable(e, use, j) then c
    else
      var base := if e.removeOffset then ev.tdc[j] - e.offsets[j] else c.tAll;
      var tAll := if InAnalysisWindow(e.k, ev.tot[j]) then base - CorrFor(e, m, j, ev.tot[j]) else base;
      Chan(ev.tot[j], ev.tdc[j], e.offsets[j], tAll)
  }

  function Aliased(e: Env, m: map<string, Hist>, ev: Event, use: seq<bool>, loc: seq<Chan>): (r: seq<Chan>)
    requires EnvOk(e) && EventOk(ev) && |use| == NChannels && |loc| == NChannels
    ensures |r| == NChannels
  {
    seq(NChannels, j requires 0 <= j < NChannels => AliasChan(e, m, ev, use, loc[j], j))
  }

  /** With offsets removed, a usable in-window channel's time is its tdc less offset and correction, as in pairing. */
  lemma AliasedTime(e: Env, m: map<string, Hist>, ev: Event, use: seq<bool>, loc: seq<Chan>, j: int)
    requires EnvOk(e) && EventOk(ev) && |use| == NChannels && |loc| == NChannels && IsChannel(j)
    requires e.removeOffset && Usable(e, use, j) && InAnalysisWindow(e.k, ev.tot[j])
    ensures Aliased(e, m, ev, use, loc)[j].tAll == VpdTime(e, m, ev, j)
  {
  }

  /** Channel `k` enters the average of channel `j`. */
  predicate Counted(e: Env, use: seq<bool>, j: int, k: int)
    requires EnvOk(e) && |use| == NChannels && IsChannel(k)
  {
    Usable(e, use, k) && k != j
  }

  /** Number of counted channels in [lo, hi). */
  function BankCount(e: Env, use: seq<bool>, j: int, lo: int, hi: int): (r: nat)
    requires EnvOk(e) && |use| == NChannels && 0 <= lo && hi <= NChannels
    ensures r <= if hi > lo then hi - lo else 0
    decreases hi - lo
  {
    if hi <= lo then 0
    else BankCount(e, use, j, lo, hi - 1) + (if Counted(e, use, j, hi - 1) then 1 else 0)
  }

  /** Sum of `tAll` over the counted channels in [lo, hi). */
  function BankSum(e: Env, use: seq<bool>, loc: seq<Chan>, j: int, lo: int, hi: int): real
    requires EnvOk(e) && |use| == NChannels && |loc| == NChannels && 0 <= lo && hi <= NChannels
    decreases hi - lo
  {
    if hi <= lo then 0.0
    else BankSum(e, use, loc, j, lo, hi - 1) + (if Counted(e, use, j, hi - 1) then loc[hi - 1].tAll else 0.0)
  }

  /** A counted channel close enough (strictly) to the uncut average. */
  predicate InCut(e: Env, use: seq<bool>, loc: seq<Chan>, j: int, k: int, avg: real)
    requires EnvOk(e) && |use| == NChannels && |loc| == NChannels && IsChannel(k)
  {
    Counted(e, use, j, k) && loc[k].tAll - avg < OutlierCut(e.it) && loc[k].tAll - avg > -OutlierCut(e.it)
  }

  function CutCount(e: Env, use: seq<bool>, loc: seq<Chan>, j: int, avg: real, lo: int, hi: int): (r: nat)
    requires EnvOk(e) && |use| == NChannels && |loc| == NChannels && 0 <= lo && hi <= NChannels
    decreases hi - lo
  {
    if hi <= lo then 0
    else CutCount(e, use, loc, j, avg, lo, hi - 1) + (if InCut(e, use, loc, j, hi - 1, avg) then 1 else 0)
  }

  function CutSum(e: Env, use: seq<bool>, loc: seq<Chan>, j: int, avg: real, lo: int, hi: int): real
    requires EnvOk(e) && |use| == NChannels && |loc| == NChannels && 0 <= lo && hi <= NChannels
    decreases hi - lo
  {
    if hi <= lo then 0.0
    else CutSum(e, use, loc, j, avg, lo, hi - 1) + (if InCut(e, use, loc, j, hi - 1, avg) then loc[hi - 1].tAll else 0.0)
  }

  /**
   * The averages of channel `j`'s bank, leaving `j` out: the count and mean
   * of the counted channels, then the count and mean of those within the cut
   * of that mean. A mean over no channel is undefined in the source and is
   * never used here; it is given the value 0.
   */
  datatype Averages = Averages(count: nat, avg: real, cutCount: nat, cutAvg: real)

  function ChannelAverages(e: Env, use: seq<bool>, loc: seq<Chan>, j: int): Averages
    requires EnvOk(e) && |use| == NChannels && |loc| == NChannels && IsChannel(j)
  {
    var lo, hi := BankStart(j), BankEnd(j);
    var count := BankCount(e, use, j, lo, hi);
    var avg := if count > 0 then BankSum(e, use, loc, j, lo, hi) / (count as real) else 0.0;
    var cutCount := CutCount(e, use, loc, j, avg, lo, hi);
    var cutAvg := if cutCount > 0 then CutSum(e, use, loc, j, avg, lo, hi) / (cutCount as real) else 0.0;
    Averages(count, avg, cutCount, cutAvg)
  }

  lemma {:induction false} CutCountAtMostCount(e: Env, use: seq<bool>, loc: seq<Chan>, j: int, avg: real, lo: int, hi: int)
    requires EnvOk(e) && |use| == NChannels && |loc| == NChannels && 0 <= lo && hi <= NChannels
    ensures CutCount(e, use, loc, j, avg, lo, hi) <= BankCount(e, use, j, lo, hi)
    decreases hi - lo
  {
    if hi > lo {
      CutCountAtMostCount(e, use, loc, j, avg, lo, hi - 1);
    }
  }

  /** The mean cut only removes channels, and `j` never counts itself: at most bank size less one. */
  lemma AveragesBounds(e: Env, use: seq<bool>, loc: seq<Chan>, j: int)
    requires EnvOk(e) && |use| == NChannels && |loc| == NChannels && IsChannel(j)
    ensures ChannelAverages(e, use, loc, j).cutCount <= ChannelAverages(e, use, loc, j).count
    ensures ChannelAverages(e, use, loc, j).count < BankEnd(j) - BankStart(j)
  {
    var lo, hi := BankStart(j), BankEnd(j);
    var a := ChannelAverages(e, use, loc, j);
    CutCountAtMostCount(e, use, loc, j, a.avg, lo, hi);
    BankCountLeavesOut(e, use, j, lo, hi);
  }

  lemma {:induction false} BankCountLeavesOut(e: Env, use: seq<bool>, j: int, lo: int, hi: int)
    requires EnvOk(e) && |use| == NChannels && 0 <= lo <= j < hi <= NChannels
    ensures BankCount(e, use, j, lo, hi) <= hi - lo - 1
    decreases hi - lo
  {
    if hi - 1 > j {
      BankCountLeavesOut(e, use, j, lo, hi - 1);
    }
  }

  /** Two sets of locals that agree on the counted channels of a range. */
  predicate AgreeOnCounted(e: Env, use: seq<bool>, loc: seq<Chan>, loc2: seq<Chan>, j: int, lo: int, hi: int)
    requires EnvOk(e) && |use| == NChannels && |loc| == NChannels && |loc2| == NChannels && 0 <= lo && hi <= NChannels
  {
    forall k :: lo <= k < hi && Counted(e, use, j, k) ==> loc[k].tAll == loc2[k].tAll
  }

  lemma {:induction false} SumsAgree(e: Env, use: seq<bool>, loc: seq<Chan>, loc2: seq<Chan>, j: int, avg: real, lo: int, hi: int)
    requires EnvOk(e) && |use| == NChannels && |loc| == NChannels && |loc2| == NChannels && 0 <= lo && hi <= NChannels
    requires AgreeOnCounted(e, use, loc, loc2, j, lo, hi)
    ensures BankSum(e, use, loc, j, lo, hi) == BankSum(e, use, loc2, j, lo, hi)
    ensures CutCount(e, use, loc, j, avg, lo, hi) == CutCount(e, use, loc2, j, avg, lo, hi)
    ensures CutSum(e, use, loc, j, avg, lo, hi) == CutSum(e, use, loc2, j, avg, lo, hi)
    decreases hi - lo
  {
    if hi > lo {
      SumsAgree(e, use, loc, loc2, j, avg, lo, hi - 1);
    }
  }

  /**
   * Leave-one-out and same-bank: the averages of channel `j` depend only on
   * the other usable, non-dead channels of `j`'s own bank.
   */
  lemma AveragesDependOnCountedOnly(e: Env, use: seq<bool>, loc: seq<Chan>, loc2: seq<Chan>, j: int)
    requires EnvOk(e) && |use| == NChannels && |loc| == NChannels && |loc2| == NChannels && IsChannel(j)
    requires AgreeOnCounted(e, use, loc, loc2, j, BankStart(j), BankEnd(j))
    ensures ChannelAverages(e, use, loc, j) == ChannelAverages(e, use, loc2, j)
  {
    var lo, hi := BankStart(j), BankEnd(j);
    SumsAgree(e, use, loc, loc2, j, 0.0, lo, hi);
    var a := ChannelAverages(e, use, loc, j);
    SumsAgree(e, use, loc, loc2, j, a.avg, lo, hi);
  }

  // ---------------------------------------------------------------------
  // Fills of one event
  // ---------------------------------------------------------------------

  /** `"initialOffset" + "correctedOffsets"`, the key the offset check fills. */
  const CorrectedOffsetsKey := "initialOffset" + "correctedOffsets"

  /** A channel the fill loop handles: usable, with its aliased TOT in the window. */
  predicate Selected(e: Env, use: seq<bool>, loc: seq<Chan>, j: int)
    requires EnvOk(e) && |use| == NChannels && |loc| == NChannels && IsChannel(j)
  {
    Usable(e, use, j) && InAnalysisWindow(e.k, loc[j].tot)
  }

  /** The `avgN` fills of channel `j`: one per counted channel `k` of the bank below `hi`. */
  function AvgNFills(e: Env, use: seq<bool>, loc: seq<Chan>, j: int, a: Averages, lo: int, hi: int): (r: seq<FillOp>)
    requires EnvOk(e) && |use| == NChannels && |loc| == NChannels && 0 <= lo && hi <= NChannels
    ensures forall i :: 0 <= i < |r| ==> r[i].key == ChannelKey(j, e.it, "avgN")
    decreases hi - lo
  {
    if hi <= lo then []
    else
      AvgNFills(e, use, loc, j, a, lo, hi - 1) +
      (if Counted(e, use, j, hi - 1) then [FillOp(ChannelKey(j, e.it, "avgN"), Sample(a.count as real, loc[hi - 1].tAll - a.avg))] else [])
  }

  /** Proof step, not a property: the recursive case of `AvgNFills` at hi + 1. */
  lemma AvgNFillsStep(e: Env, use: seq<bool>, loc: seq<Chan>, j: int, a: Averages, lo: int, hi: int)
    requires EnvOk(e) && |use| == NChannels && |loc| == NChannels && 0 <= lo <= hi < NChannels
    ensures AvgNFills(e, use, loc, j, a, lo, hi + 1) ==
      AvgNFills(e, use, loc, j, a, lo, hi) +
      (if Counted(e, use, j, hi) then [FillOp(ChannelKey(j, e.it, "avgN"), Sample(a.count as real, loc[hi].tAll - a.avg))] else [])
  {
  }

  /**
   * The `tdctot`, `tdccor` and `tdc` fills: made when more than `minHits`
   * channels were counted and some channel passed the cut. With none in the
   * cut the source still makes them, with values 0/0, and they are not
   * recorded here.
   */
  function GatedFills(e: Env, loc: seq<Chan>, j: int, a: Averages): seq<FillOp>
    requires |loc| == NChannels && IsChannel(j)
  {
    if a.count as int <= e.k.minHits || a.cutCount == 0 then []
    else
      [FillOp(ChannelKey(j, e.it, "tdctot"), Sample(loc[j].tot, loc[j].tdc - loc[j].off - a.cutAvg)),
       FillOp(ChannelKey(j, e.it, "tdccor"), Sample(loc[j].tot, loc[j].tAll - a.cutAvg)),
       FillOp(ChannelKey(j, e.it, "tdc"), Sample(loc[j].tAll - a.cutAvg, 1.0))]
  }

  /** The offset check of iteration 0. */
  function OffsetFill(e: Env, ev: Event, loc: seq<Chan>, j: int): (r: seq<FillOp>)
    requires |loc| == NChannels && IsChannel(j)
    ensures forall i :: 0 <= i < |r| ==> r[i].key == CorrectedOffsetsKey
  {
    if e.it == 0 then [FillOp(CorrectedOffsetsKey, Sample(j as real, loc[j].tdc - ev.vpdLeWest0 - loc[j].off))] else []
  }

  /** The `avgN` fills, made only when both banks are good and the mean is non-zero. */
  function AvgNPart(e: Env, use: seq<bool>, good: bool, loc: seq<Chan>, j: int, a: Averages): (r: seq<FillOp>)
    requires EnvOk(e) && |use| == NChannels && |loc| == NChannels && IsChannel(j)
    ensures forall i :: 0 <= i < |r| ==> r[i].key == ChannelKey(j, e.it, "avgN")
  {
    if good && a.avg != 0.0 then AvgNFills(e, use, loc, j, a, BankStart(j), BankEnd(j)) else []
  }

  /** The `cutAvgN` fill; with no channel in the cut its value would be 0/0 and it is not recorded. */
  function CutAvgNFill(e: Env, loc: seq<Chan>, j: int, a: Averages): (r: seq<FillOp>)
    requires |loc| == NChannels && IsChannel(j)
    ensures forall i :: 0 <= i < |r| ==> r[i].key == ChannelKey(j, e.it, "cutAvgN")
  {
    if a.cutCount > 0 then [FillOp(ChannelKey(j, e.it, "cutAvgN"), Sample(a.count as real, loc[j].tAll - a.cutAvg))] else []
  }

  /**
   * Everything the fill loop records for channel `j`, in order: the offset
   * check, the `avgN` fills, the `cutAvgN` fill, then the gated fills.
   */
  function ChannelFills(e: Env, ev: Event, use: seq<bool>, good: bool, loc: seq<Chan>, j: int): seq<FillOp>
    requires EnvOk(e) && EventOk(ev) && |use| == NChannels && |loc| == NChannels && IsChannel(j)
  {
    if !Selected(e, use, loc, j) then []
    else
      var a := ChannelAverages(e, use, loc, j);
      OffsetFill(e, ev, loc, j) + AvgNPart(e, use, good, loc, j, a) + CutAvgNFill(e, loc, j, a) + GatedFills(e, loc, j, a)
  }

  /** The per-channel fill lists of one event, indexed by channel. */
  function ChannelParts(e: Env, ev: Event, use: seq<bool>, good: bool, loc: seq<Chan>): (r: seq<seq<FillOp>>)
    requires EnvOk(e) && EventOk(ev) && |use| == NChannels && |loc| == NChannels
    ensures |r| == NChannels
  {
    seq(NChannels, j requires 0 <= j < NChannels => ChannelFills(e, ev, use, good, loc, j))
  }

  /** The lists of `parts`, one after another. */
  function Concat(parts: seq<seq<FillOp>>): seq<FillOp>
  {
    if parts == [] then [] else Concat(parts[..|parts| - 1]) + parts[|parts| - 1]
  }

  /** The first `j + 1` parts are the first `j` parts followed by part `j`. */
  lemma ConcatStep(parts: seq<seq<FillOp>>, j: int)
    requires 0 <= j < |parts|
    ensures Concat(parts[..j + 1]) == Concat(parts[..j]) + parts[j]
  {
    assert parts[..j + 1][..j] == parts[..j];
  }

  /** All fills of one event, in channel order. */
  function EventFills(e: Env, ev: Event, use: seq<bool>, good: bool, loc: seq<Chan>): seq<FillOp>
    requires EnvOk(e) && EventOk(ev) && |use| == NChannels && |loc| == NChannels
  {
    Concat(ChannelParts(e, ev, use, good, loc))
  }

  /** A key that only part `j` touches receives exactly that part's samples. */
  lemma {:induction false} ConcatOnly(parts: seq<seq<FillOp>>, j: int, key: string)
    requires 0 <= j
    requires forall i :: 0 <= i < |parts| && i != j ==> SamplesFor(parts[i], key) == []
    ensures SamplesFor(Concat(parts), key) == if j < |parts| then SamplesFor(parts[j], key) else []
  {
    if parts != [] {
      var prev, last := parts[..|parts| - 1], parts[|parts| - 1];
      ConcatOnly(prev, j, key);
      SamplesForAppend(Concat(prev), last, key);
      if j == |parts| - 1 {
        assert [] + SamplesFor(last, key) == SamplesFor(last, key);
      } else {
        assert SamplesFor(Concat(prev), key) + [] == SamplesFor(Concat(prev), key);
      }
    }
  }

  /** The directory the fill loop leaves: that of the last channel handled below `hi`, else `dir`. */
  function EventDir(e: Env, use: seq<bool>, loc: seq<Chan>, hi: int, dir: string): string
    requires EnvOk(e) && |use| == NChannels && |loc| == NChannels && 0 <= hi <= NChannels
  {
    if hi == 0 then dir
    else if Selected(e, use, loc, hi - 1) then ChannelDir(hi - 1)
    else EventDir(e, use, loc, hi - 1, dir)
  }

  lemma TdcTotKeyIsNotOffsetKey(j: int, it: int, s: string)
    ensures ChannelKey(j, it, s) != CorrectedOffsetsKey
  {
    assert ChannelKey(j, it, s)[0] == 'c';
    assert CorrectedOffsetsKey[0] == 'i';
  }

  /** Channel `j2`'s fills never touch the `tdctot` histogram of another channel, and only its gated fill touches its own. */
  lemma ChannelFillsTdcTot(e: Env, ev: Event, use: seq<bool>, good: bool, loc: seq<Chan>, j2: int, j: int)
    requires EnvOk(e) && EventOk(ev) && |use| == NChannels && |loc| == NChannels && IsChannel(j2) && IsChannel(j)
    ensures SamplesFor(ChannelFills(e, ev, use, good, loc, j2), ChannelKey(j, e.it, "tdctot")) ==
      if j2 == j && Selected(e, use, loc, j) then OwnTdcTot(e, use, loc, j) else []
  {
    if Selected(e, use, loc, j2) {
      var a := ChannelAverages(e, use, loc, j2);
      PartsTdcTot(e, ev, use, good, loc, j2, j, a);
    }
  }

  lemma PartsTdcTot(e: Env, ev: Event, use: seq<bool>, good: bool, loc: seq<Chan>, j2: int, j: int, a: Averages)
    requires EnvOk(e) && EventOk(ev) && |use| == NChannels && |loc| == NChannels && IsChannel(j2) && IsChannel(j)
    ensures var key := ChannelKey(j, e.it, "tdctot");
      SamplesFor(OffsetFill(e, ev, loc, j2) + AvgNPart(e, use, good, loc, j2, a) + CutAvgNFill(e, loc, j2, a) + GatedFills(e, loc, j2, a), key) ==
      if j2 == j then SamplesFor(GatedFills(e, loc, j, a), key) else []
  {
    var key := ChannelKey(j, e.it, "tdctot");
    var f0, f1, f2, f3 := OffsetFill(e, ev, loc, j2), AvgNPart(e, use, good, loc, j2, a), CutAvgNFill(e, loc, j2, a), GatedFills(e, loc, j2, a);
    SamplesForAppend(f0 + f1 + f2, f3, key);
    SamplesForAppend(f0 + f1, f2, key);
    SamplesForAppend(f0, f1, key);
    TdcTotKeyIsNotOffsetKey(j, e.it, "tdctot");
    NoSamplesForOtherKey(f0, key);
    ChannelKeysDiffer(j2, e.it, "avgN", j, e.it, "tdctot");
    NoSamplesForOtherKey(f1, key);
    ChannelKeysDiffer(j2, e.it, "cutAvgN", j, e.it, "tdctot");
    NoSamplesForOtherKey(f2, key);
    if j2 != j {
      GatedFillsOtherChannel(e, loc, j2, j, a);
    }
  }

  lemma GatedFillsOtherChannel(e: Env, loc: seq<Chan>, j2: int, j: int, a: Averages)
    requires |loc| == NChannels && IsChannel(j2) && IsChannel(j) && j2 != j
    ensures SamplesFor(GatedFills(e, loc, j2, a), ChannelKey(j, e.it, "tdctot")) == []
  {
    ChannelKeysDiffer(j2, e.it, "tdctot", j, e.it, "tdctot");
    ChannelKeysDiffer(j2, e.it, "tdccor", j, e.it, "tdctot");
    ChannelKeysDiffer(j2, e.it, "tdc", j, e.it, "tdctot");
    NoSamplesForOtherKey(GatedFills(e, loc, j2, a), ChannelKey(j, e.it, "tdctot"));
  }

  lemma {:induction false} NoSamplesForOtherKey(fs: seq<FillOp>, key: string)
    requires forall i :: 0 <= i < |fs| ==> fs[i].key != key
    ensures SamplesFor(fs, key) == []
  {
    if fs != [] {
      NoSamplesForOtherKey(fs[1..], key);
    }
  }

  /** The gated `tdctot` samples channel `j` makes when it is handled. */
  function OwnTdcTot(e: Env, use: seq<bool>, loc: seq<Chan>, j: int): seq<Sample>
    requires EnvOk(e) && |use| == NChannels && |loc| == NChannels && IsChannel(j)
  {
    SamplesFor(GatedFills(e, loc, j, ChannelAverages(e, use, loc, j)), ChannelKey(j, e.it, "tdctot"))
  }

  /**
   * The fill gating of one event: channel `j`'s `tdctot` histogram receives
   * exactly one sample, (tot, tdc − offset − cut mean), when `j` is handled,
   * more than `minHits` channels were counted and some passed the cut — and
   * nothing otherwise. The bank-good flags play no part. With no channel in
   * the cut the source still fills, with a 0/0 value, which is not recorded.
   */
  lemma TdcTotGating(e: Env, ev: Event, use: seq<bool>, good: bool, loc: seq<Chan>, j: int)
    requires EnvOk(e) && EventOk(ev) && |use| == NChannels && |loc| == NChannels && IsChannel(j)
    ensures var a := ChannelAverages(e, use, loc, j);
      SamplesFor(EventFills(e, ev, use, good, loc), ChannelKey(j, e.it, "tdctot")) ==
      if Selected(e, use, loc, j) && a.count as int > e.k.minHits && a.cutCount > 0
      then [Sample(loc[j].tot, loc[j].tdc - loc[j].off - a.cutAvg)]
      else []
  {
    var key := ChannelKey(j, e.it, "tdctot");
    var parts := ChannelParts(e, ev, use, good, loc);
    forall j2 | 0 <= j2 < |parts| && j2 != j
      ensures SamplesFor(parts[j2], key) == []
    {
      ChannelFillsTdcTot(e, ev, use, good, loc, j2, j);
    }
    ConcatOnly(parts, j, key);
    ChannelFillsTdcTot(e, ev, use, good, loc, j, j);
    OwnTdcTotValue(e, use, loc, j);
  }

  /** The gated `tdctot` samples of channel `j`: one, when enough channels were counted and some passed the cut. */
  lemma OwnTdcTotValue(e: Env, use: seq<bool>, loc: seq<Chan>, j: int)
    requires EnvOk(e) && |use| == NChannels && |loc| == NChannels && IsChannel(j)
    ensures var a := ChannelAverages(e, use, loc, j);
      OwnTdcTot(e, use, loc, j) ==
      if a.count as int > e.k.minHits && a.cutCount > 0
      then [Sample(loc[j].tot, loc[j].tdc - loc[j].off - a.cutAvg)]
      else []
  {
    var key := ChannelKey(j, e.it, "tdctot");
    var a := ChannelAverages(e, use, loc, j);
    if a.count as int > e.k.minHits && a.cutCount > 0 {
      var g := GatedFills(e, loc, j, a);
      ChannelKeysDiffer(j, e.it, "tdccor", j, e.it, "tdctot");
      ChannelKeysDiffer(j, e.it, "tdc", j, e.it, "tdctot");
      assert SamplesFor(g, key) == [g[0].s] + SamplesFor(g[1..], key);
      assert SamplesFor(g[1..], key) == SamplesFor(g[2..], key);
    }
  }

  // ---------------------------------------------------------------------
  // One event, and the event loop
  // ---------------------------------------------------------------------

  /** The event selection of `step`: transverse vertex within 1, more than one TOF hit, |z| ≤ 100. */
  predicate PassesCuts(ev: Event)
  {
    !(ev.vertexX * ev.vertexX + ev.vertexY * ev.vertexY > 1.0) && !(ev.nTofHits <= 1) && !(Abs(ev.vertexZ) > 100.0)
  }

  /** What the event loop of `step` carries from event to event. */
  datatype StepState = StepState(
    use: seq<bool>,
    westGood: bool,
    eastGood: bool,
    loc: seq<Chan>,
    m: map<string, Hist>,
    dir: string)

  predicate StateOk(st: StepState)
  {
    |st.use| == NChannels && |st.loc| == NChannels
  }

  /**
   * One event of `step`: outlier rejection; the event cuts; `averageN`, whose
   * only lasting effect is that it leaves the cursor in the last west channel
   * directory; the alias loop; the fill loop.
   */
  function EventStep(e: Env, st: StepState, ev: Event): (r: StepState)
    requires EnvOk(e) && EventOk(ev) && StateOk(st)
    ensures StateOk(r)
  {
    var use := OutlierUse(e, st.m, ev, st.use);
    var flag := OutlierFlag(e, st.m, ev);
    if !PassesCuts(ev) then st.(use := use, westGood := flag, eastGood := flag)
    else
      var loc := Aliased(e, st.m, ev, use, st.loc);
      var fs := EventFills(e, ev, use, flag && flag, loc);
      StepState(use, flag, flag, loc, ApplyFills(st.m, fs), EventDir(e, use, loc, NChannels, ChannelDir(EndWest - 1)))
  }

  /** The event loop over `evs`, in order. */
  function Steps(e: Env, st: StepState, evs: seq<Event>): (r: StepState)
    requires EnvOk(e) && EventsOk(evs) && StateOk(st)
    ensures StateOk(r)
  {
    if evs == [] then st else EventStep(e, Steps(e, st, evs[..|evs| - 1]), evs[|evs| - 1])
  }

  /** The loop over the first i + 1 events is one more event step after the loop over the first i. */
  lemma StepsPrefix(e: Env, st: StepState, evs: seq<Event>, i: int)
    requires EnvOk(e) && EventsOk(evs) && StateOk(st) && 0 <= i < |evs|
    ensures EventsOk(evs[..i]) && EventsOk(evs[..i + 1])
    ensures Steps(e, st, evs[..i + 1]) == EventStep(e, Steps(e, st, evs[..i]), evs[i])
  {
    var pre := evs[..i + 1];
    assert pre[..|pre| - 1] == evs[..i];
  }

  /**
   * Across the whole event loop the store keeps its keys and its axes, so
   * every lookup gives the same correction at the end as at the start; the
   * two bank flags agree once an event was seen.
   */
  lemma {:induction false} StepsKeepTables(e: Env, st: StepState, evs: seq<Event>)
    requires EnvOk(e) && EventsOk(evs) && StateOk(st)
    ensures Steps(e, st, evs).m.Keys == st.m.Keys
    ensures forall key :: key in st.m ==> Steps(e, st, evs).m[key].xAxis == st.m[key].xAxis
    ensures forall ch, tot :: IsChannel(ch) ==> CorrFor(e, Steps(e, st, evs).m, ch, tot) == CorrFor(e, st.m, ch, tot)
    ensures evs != [] ==> Steps(e, st, evs).westGood == Steps(e, st, evs).eastGood
  {
    if evs != [] {
      var prev := Steps(e, st, evs[..|evs| - 1]);
      StepsKeepTables(e, st, evs[..|evs| - 1]);
      var ev := evs[|evs| - 1];
      if PassesCuts(ev) {
        var use := OutlierUse(e, prev.m, ev, prev.use);
        var flag := OutlierFlag(e, prev.m, ev);
        var loc := Aliased(e, prev.m, ev, use, prev.loc);
        ApplyFillsEffect(prev.m, EventFills(e, ev, use, flag && flag, loc));
      }
    }
  }
}

/**
 * The calibration engine (`calib`): its tables, updated in place, and the
 * operations of one calibration run — TOT binning, the correction lookup,
 * per-event outlier rejection, the booking, the event loop of a step, the
 * correction update, and the parameter export and import.
 */
module Calibration {

  import opened Wrappers
  import opened Tokens
  import opened HistoBook
  import opened CalibData
  import opened TotBinning
  import opened StepSpec
  import opened Booking
  import opened Parameters
  import opened EngineSpec

  /** Row `i` of a two-dimensional table. */
  function Row(a: array2<real>, i: int): (r: seq<real>)
    requires 0 <= i < a.Length0
    reads a
    ensures |r| == a.Length1
    ensures forall j :: 0 <= j < a.Length1 ==> r[j] == a[i, j]
  {
    seq(a.Length1, j requires 0 <= j < a.Length1 reads a => a[i, j])
  }

  /** All rows of a two-dimensional table. */
  function Rows(a: array2<real>): (r: seq<seq<real>>)
    reads a
    ensures |r| == a.Length0
    ensures forall i :: 0 <= i < a.Length0 ==> r[i] == Row(a, i)
  {
    seq(a.Length0, i requires 0 <= i < a.Length0 reads a => Row(a, i))
  }

  /**
   * `cnt` extractions into `tmp`, each stored in the next entry of row
   * `row` of `a`: the row starts with the values read, nothing else
   * changes, and `tmp` holds the last of them.
   */
  method ReadList(a: array2<real>, row: int, rd: Reader, tmp: real, cnt: nat) returns (rd': Reader, tmp': real)
    requires 0 <= row < a.Length0 && cnt <= a.Length1
    modifies a
    ensures var (vs, r) := ReadReals(rd, tmp, cnt);
      Rows(a) == old(Rows(a))[row := Overwrite(old(Row(a, row)), vs)] && rd' == r && tmp' == LastOr(vs, tmp)
  {
    ghost var before := Rows(a);
    ghost var done;
    rd', tmp', done := ReadCells(a, row, rd, tmp, cnt);
    forall r | 0 <= r < a.Length0
      ensures Row(a, r) == before[row := Overwrite(before[row], done)][r]
    {
      if r != row {
        assert Row(a, r) == before[r];
      }
    }
  }

  /** The loop of `ReadList`, cell by cell: entry c < cnt of the row holds the c-th value read. */
  method ReadCells(a: array2<real>, row: int, rd: Reader, tmp: real, cnt: nat) returns (rd': Reader, tmp': real, ghost done: seq<real>)
    requires 0 <= row < a.Length0 && cnt <= a.Length1
    modifies a
    ensures ReadReals(rd, tmp, cnt) == (done, rd') && |done| == cnt && tmp' == LastOr(done, tmp)
    ensures forall r, c :: 0 <= r < a.Length0 && 0 <= c < a.Length1 ==>
      a[r, c] == if r == row && c < cnt then done[c] else old(a[r, c])
  {
    done := [];
    rd', tmp' := rd, tmp;
    for i := 0 to cnt
      invariant |done| == i && tmp' == LastOr(done, tmp)
      invariant ReadReals(rd, tmp, cnt).0 == done + ReadReals(rd', tmp', cnt - i).0
      invariant ReadReals(rd, tmp, cnt).1 == ReadReals(rd', tmp', cnt - i).1
      invariant forall r, c :: 0 <= r < a.Length0 && 0 <= c < a.Length1 ==>
        a[r, c] == if r == row && c < i then done[c] else old(a[r, c])
    {
      ReadRealsStep(rd', tmp', cnt - i, done);
      var (x, r1) := ReadReal(rd', tmp');
      rd', tmp' := r1, x;
      a[row, i] := tmp';
      done := done + [x];
    }
    assert done + ReadReals(rd', tmp', 0).0 == done;
  }

  class Calib {
    /** The compile-time constants and the configuration. */
    const k: Constants
    const cfg: Config
    /** The event chain, read in order by every pass. */
    const events: seq<Event>
    const maxIterations: nat
    const numTOTBins: int
    /** The word stored just past each correction row, read by out-of-range accesses. */
    const pastEnd: seq<real>
    const book: Book

    /** `correction[j][b]` and `totBins[j][b]`, rows of numTOTBins + 1 entries. */
    const correction: array2<real>
    const totBins: array2<real>
    const deadDetector: array<bool>
    const useDetector: array<bool>
    const initialOffsets: array<real>

    var westMinusEast: real
    var westIsGood: bool
    var eastIsGood: bool
    var currentIteration: int

    predicate Valid()
    {
      ConstantsOk(k) && numTOTBins >= 1 && EventsOk(events) && |pastEnd| == NChannels &&
      correction.Length0 == NChannels && correction.Length1 == numTOTBins + 1 &&
      totBins.Length0 == NChannels && totBins.Length1 == numTOTBins + 1 &&
      deadDetector.Length == NChannels && useDetector.Length == NChannels &&
      initialOffsets.Length == NChannels &&
      correction != totBins && deadDetector != useDetector
    }

    /** The tables a step reads, as a value. */
    function StepEnv(): (e: Env)
      reads this`currentIteration, deadDetector, initialOffsets, correction
      ensures Valid() ==> EnvOk(e)
    {
      Env(k, numTOTBins, currentIteration, deadDetector[..], initialOffsets[..], Rows(correction), pastEnd,
          cfg.outlierRejection, cfg.removeOffset)
    }

    /** What a run of steps reads and never changes, as a value. */
    function RunOf(): (r: Run)
      reads deadDetector, initialOffsets, totBins
      ensures Valid() ==> RunOk(r)
    {
      Run(k, cfg, events, numTOTBins, deadDetector[..], initialOffsets[..], pastEnd, Rows(totBins))
    }

    /** What a step changes, as a value. */
    function EngineOf(): (s: Engine)
      reads this, useDetector, book, correction
      ensures Valid() ==> EngineOk(RunOf(), s)
    {
      Engine(useDetector[..], westIsGood, eastIsGood, book.book, book.currentDir, Rows(correction), currentIteration)
    }

    /** The tables `writeParameters` exports, as a value. */
    function ExportTables(): (t: Tables)
      reads totBins, correction
      ensures Valid() ==> TablesOk(t)
    {
      Tables(numTOTBins, Rows(totBins), Rows(correction), pastEnd)
    }

    /**
     * The configured bin count (or the default), zeroed corrections and
     * offsets, no dead channel, iteration 0, and a fresh store whose file name
     * comes from the configured base name and ROOT output name.
     */
    constructor (k: Constants, cfg: Config, events: seq<Event>, nIterations: nat, pastEnd: seq<real>)
      requires ConstantsOk(k) && EventsOk(events) && |pastEnd| == NChannels
      ensures Valid()
      ensures this.k == k && this.cfg == cfg && this.events == events && this.pastEnd == pastEnd
      ensures numTOTBins == TOTBinCount(cfg, k) && maxIterations == nIterations
      ensures forall j, b :: 0 <= j < NChannels && 0 <= b <= numTOTBins ==> correction[j, b] == 0.0
      ensures forall j :: 0 <= j < NChannels ==> !deadDetector[j] && initialOffsets[j] == 0.0
      ensures currentIteration == 0
      ensures book.filename == OutputFileName(cfg.baseName + cfg.rootOutput)
      ensures book.book == map[] && book.currentDir == "/"
      ensures fresh(book) && fresh(correction) && fresh(totBins) && fresh(deadDetector) && fresh(useDetector) && fresh(initialOffsets)
    {
      this.k := k;
      this.cfg := cfg;
      this.events := events;
      this.pastEnd := pastEnd;
      var n := k.numTOTBins;
      if cfg.numTOTBins >= 1 {
        n := cfg.numTOTBins;
      }
      numTOTBins := n;
      correction := new real[NChannels, n + 1];
      totBins := new real[NChannels, n + 1]((i, j) => 0.0);
      deadDetector := new bool[NChannels];
      useDetector := new bool[NChannels](j => false);
      initialOffsets := new real[NChannels];
      maxIterations := nIterations;
      book := new Book(cfg.baseName + cfg.rootOutput);
      currentIteration := 0;
      new;
      for j := 0 to NChannels
        modifies deadDetector
        invariant forall i :: 0 <= i < j ==> !deadDetector[i]
      {
        deadDetector[j] := false;
      }
      for j := 0 to NChannels
        modifies correction, initialOffsets
        invariant forall i, b :: 0 <= i < j && 0 <= b <= n ==> correction[i, b] == 0.0
        invariant forall i :: 0 <= i < j ==> initialOffsets[i] == 0.0
      {
        for b := 0 to n + 1
          modifies correction
          invariant forall i, b2 :: 0 <= i < j && 0 <= b2 <= n ==> correction[i, b2] == 0.0
          invariant forall b2 :: 0 <= b2 < b ==> correction[j, b2] == 0.0
        {
          correction[j, b] := 0.0;
        }
        initialOffsets[j] := 0.0;
      }
    }

    /**
     * `binForTOT`: the bin of `tot` on the previous iteration's `totcor`
     * histogram of the channel, or 0 when there is none. The cursor is moved
     * to the channel's directory and back; the store itself does not change.
     */
    method BinForTOT(ch: int, tot: real) returns (bin: nat)
      requires Valid() && IsChannel(ch)
      modifies book
      ensures bin == BinFor(StepEnv(), book.book, ch, tot)
      ensures book.book == old(book.book) && book.currentDir == old(book.currentDir) && book.styling == old(book.styling)
      ensures book.dirs == old(book.dirs) + {ChannelDir(ch), old(book.currentDir)}
    {
      var previous := book.Cd(ChannelDir(ch));
      var h := book.Get(ItName(currentIteration - 1, "totcor"));
      ChannelKeySplit(ch, currentIteration - 1, "totcor");
      bin := 0;
      if h.Some? {
        bin := FindBin(h.value.xAxis, tot);
      }
      previous := book.Cd(previous);
    }

    /** `getCorrection`: the correction of the channel in the bin of `tot`; a bin past the row reads the word after it. */
    method GetCorrection(ch: int, tot: real) returns (c: real)
      requires Valid() && IsChannel(ch)
      modifies book
      ensures c == CorrFor(StepEnv(), book.book, ch, tot)
      ensures book.book == old(book.book) && book.currentDir == old(book.currentDir) && book.styling == old(book.styling)
      ensures old(book.dirs) <= book.dirs
    {
      var bin := BinForTOT(ch, tot);
      if bin <= numTOTBins {
        c := correction[ch, bin];
      } else {
        c := pastEnd[ch];
      }
    }

    /** Row `i` of the edge table set to the `numTOTBins` equal-width edges over [minTOT, maxTOT]; no other row changes. */
    method SetUniformRow(i: int)
      requires Valid() && IsChannel(i)
      modifies totBins
      ensures Rows(totBins) == old(Rows(totBins))[i := UniformEdges(k, numTOTBins)]
    {
      var n := numTOTBins;
      for s := 0 to n + 1
        invariant forall r, c :: 0 <= r < NChannels && 0 <= c <= n ==>
          totBins[r, c] == if r == i && c < s then UniformEdge(k, n, c) else old(totBins[r, c])
      {
        var edge := ((k.maxTOT - k.minTOT) / (n as real)) * (s as real);
        edge := edge + k.minTOT;
        totBins[i, s] := edge;
      }
      forall r | 0 <= r < NChannels
        ensures Row(totBins, r) == old(Rows(totBins))[i := UniformEdges(k, n)][r]
      {
        if r != i {
          assert Row(totBins, r) == old(Row(totBins, r));
        }
      }
    }

    /** Row `i` set to the equal-population edges of the sorted samples `s`; no other row changes. */
    method SetAdaptiveRow(i: int, s: seq<real>)
      requires Valid() && IsChannel(i) && |s| >= numTOTBins * 3
      modifies totBins
      ensures Rows(totBins) == old(Rows(totBins))[i := AdaptiveEdges(s, numTOTBins, k.maxTOT)]
    {
      var n := numTOTBins;
      var step := |s| / (n + 1);
      StepIndexInRange(|s|, n, 0);
      totBins[i, 0] := s[0];
      totBins[i, n] := k.maxTOT;
      for j := 1 to n
        invariant forall r, c :: 0 <= r < NChannels && 0 <= c <= n ==>
          totBins[r, c] == if r == i && (c < j || c == n) then AdaptiveEdge(s, n, k.maxTOT, c) else old(totBins[r, c])
      {
        StepIndexInRange(|s|, n, j);
        StepIndexInRange(|s|, n, j - 1);
        var d1 := s[step * j];
        var d2 := s[step * (j - 1)];
        totBins[i, j] := (d1 + d2) / 2.0;
      }
      forall r | 0 <= r < NChannels
        ensures Row(totBins, r) == old(Rows(totBins))[i := AdaptiveEdges(s, n, k.maxTOT)][r]
      {
        if r != i {
          assert Row(totBins, r) == old(Row(totBins, r));
        }
      }
    }

    /**
     * `binTOT`. Fixed binning gives every channel the equal-width edges and
     * leaves the dead flags alone. Variable binning collects each channel's
     * samples over the events; a channel with fewer than three per bin is
     * dead and gets the equal-width edges, any other channel is live and gets
     * the equal-population edges of its sorted samples.
     */
    method BinTOT(variableBinning: bool)
      requires Valid()
      modifies totBins, deadDetector
      ensures !variableBinning ==> forall i :: 0 <= i < NChannels ==> Row(totBins, i) == UniformEdges(k, numTOTBins)
      ensures !variableBinning ==> deadDetector[..] == old(deadDetector[..])
      ensures variableBinning ==> forall i :: 0 <= i < NChannels ==>
        Row(totBins, i) == ChannelEdges(k, numTOTBins, Samples(k, events, i)) &&
        deadDetector[i] == TooFewSamples(numTOTBins, Samples(k, events, i))
    {
      var n := numTOTBins;
      if !variableBinning {
        for i := 0 to NChannels
          modifies totBins
          invariant forall r :: 0 <= r < i ==> Row(totBins, r) == UniformEdges(k, n)
        {
          SetUniformRow(i);
        }
        return;
      }
      var tots := CollectSamples();
      for i := 0 to NChannels
        invariant forall r :: 0 <= r < i ==>
          Row(totBins, r) == ChannelEdges(k, n, tots[r]) && deadDetector[r] == TooFewSamples(n, tots[r])
      {
        var size := |tots[i]|;
        if size < n * 3 {
          SetUniformRow(i);
          deadDetector[i] := true;
        } else {
          deadDetector[i] := false;
          var sorted := SortSeq(tots[i]);
          SetAdaptiveRow(i, sorted);
        }
      }
    }

    /** The event loop of `binTOT(true)`: every channel's in-window TOTs from events whose side has more than `minHits` hits. */
    method CollectSamples() returns (tots: seq<seq<real>>)
      requires Valid()
      ensures |tots| == NChannels && forall j :: 0 <= j < NChannels ==> tots[j] == Samples(k, events, j)
    {
      tots := seq(NChannels, j => []);
      for i := 0 to |events|
        invariant |tots| == NChannels && forall j :: 0 <= j < NChannels ==> tots[j] == Samples(k, events[..i], j)
      {
        assert events[..i + 1][..i] == events[..i];
        tots := AddEventSamples(tots, events[i]);
      }
      assert events[..|events|] == events;
    }

    /** One event of that loop: each side with more than `minHits` hits appends its channels' in-window TOTs. */
    method AddEventSamples(tots: seq<seq<real>>, ev: Event) returns (r: seq<seq<real>>)
      requires |tots| == NChannels && EventOk(ev)
      ensures |r| == NChannels && forall j :: 0 <= j < NChannels ==> r[j] == tots[j] + EventSample(k, ev, j)
    {
      r := tots;
      var numEast := ev.numberOfVpdEast;
      var numWest := ev.numberOfVpdWest;
      if numWest > k.minHits {
        for j := 0 to EndWest
          invariant |r| == NChannels
          invariant forall jj :: 0 <= jj < j ==> r[jj] == tots[jj] + EventSample(k, ev, jj)
          invariant forall jj :: j <= jj < NChannels ==> r[jj] == tots[jj]
        {
          var tot := ev.tot[j];
          if tot > k.minTOT && tot < k.maxTOT {
            r := r[j := r[j] + [tot]];
          }
        }
      } else {
        assert forall jj :: 0 <= jj < EndWest ==> EventSample(k, ev, jj) == [];
      }
      if numEast > k.minHits {
        for j := StartEast to EndEast
          invariant |r| == NChannels
          invariant forall jj :: 0 <= jj < j ==> r[jj] == tots[jj] + EventSample(k, ev, jj)
          invariant forall jj :: j <= jj < NChannels ==> r[jj] == tots[jj]
        {
          var tot := ev.tot[j];
          if tot > k.minTOT && tot < k.maxTOT {
            r := r[j := r[j] + [tot]];
          }
        }
      } else {
        assert forall jj :: StartEast <= jj < EndEast ==> EventSample(k, ev, jj) == [];
      }
    }

    /**
     * `outlierRejection` for the event `ev`. Without rejection every channel
     * becomes usable and both bank flags are set. With it, the west entries
     * are cleared and every west/east pair of live channels whose vertex
     * agrees with the TPC vertex within this iteration's cut makes both
     * channels usable and sets both flags; east entries are never cleared.
     * The store and its cursor are as before.
     */
    method OutlierRejection(ev: Event, reject: bool)
      requires Valid() && EventOk(ev)
      modifies this, useDetector, book
      ensures useDetector[..] == OutlierUse(StepEnv().(outliers := reject), book.book, ev, old(useDetector[..]))
      ensures westIsGood == eastIsGood == OutlierFlag(StepEnv().(outliers := reject), book.book, ev)
      ensures currentIteration == old(currentIteration) && westMinusEast == old(westMinusEast)
      ensures book.book == old(book.book) && book.currentDir == old(book.currentDir) && book.styling == old(book.styling)
    {
      var good := true;
      if reject == false {
        for j := StartWest to EndEast
          modifies useDetector
          invariant forall i :: 0 <= i < j ==> useDetector[i]
        {
          useDetector[j] := true;
        }
      } else {
        good := RejectionLoops(ev);
        PairingIgnoresRejection(StepEnv(), true, book.book, ev);
      }
      westIsGood := good;
      eastIsGood := good;
    }

    /**
     * `outlierRejection(true)`: the corrected times are taken, then the
     * pairing loops run on them with this iteration's vertex cut.
     */
    method RejectionLoops(ev: Event) returns (good: bool)
      requires Valid() && EventOk(ev)
      modifies useDetector, book
      ensures useDetector[..] == RejectionUses(PairingOf(StepEnv(), book.book, ev), old(useDetector[..]))
      ensures good == SomePair(PairingOf(StepEnv(), book.book, ev), EndWest)
      ensures book.book == old(book.book) && book.currentDir == old(book.currentDir) && book.styling == old(book.styling)
    {
      var vzCut := VertexCut(currentIteration);
      var live, times := ChannelTimes(ev);
      good := PairBanks(ev.vertexZ, live, times, vzCut, currentIteration);
    }

    /** The vertex cut of `outlierRejection`, chosen by iteration. */
    static method VertexCut(it: int) returns (vzCut: real)
      ensures vzCut == VzCut(it)
    {
      vzCut := 40.0;
      if it == 0 {
        vzCut := 40.0;
      } else if it == 1 {
        vzCut := 20.0;
      } else if it == 2 {
        vzCut := 15.0;
      } else if it == 3 {
        vzCut := 8.0;
      } else if it >= 4 {
        vzCut := 5.0;
      }
    }

    /**
     * The corrected time of channel `ch` in `outlierRejection`: the raw time
     * less the initial offset and the looked-up correction, when the channel
     * is live (not dead, TOT inside the analysis window).
     */
    method ChannelTime(ev: Event, ch: int) returns (live: bool, t: real)
      requires Valid() && EventOk(ev) && IsChannel(ch)
      modifies book
      ensures live == Live(StepEnv(), ev, ch)
      ensures t == PairTime(StepEnv(), old(book.book), ev, ch)
      ensures book.book == old(book.book) && book.currentDir == old(book.currentDir) && book.styling == old(book.styling)
    {
      if deadDetector[ch] {
        return false, 0.0;
      }
      t := ev.tdc[ch];
      var tot := ev.tot[ch];
      t := t - initialOffsets[ch];
      if tot <= k.minTOT || tot > k.maxTOT {
        return false, 0.0;
      }
      var cor := GetCorrection(ch, tot);
      t := t - cor;
      live := true;
    }

    /**
     * The corrected times of all channels of `ev`, with which of them are
     * live. The source looks the corrections up inside the pairing loops; a
     * lookup changes nothing but the cursor, which it restores, so looking
     * each channel up once beforehand gives the same times.
     */
    method ChannelTimes(ev: Event) returns (live: seq<bool>, times: seq<real>)
      requires Valid() && EventOk(ev)
      modifies book
      ensures Pairing(k, currentIteration, ev.vertexZ, live, times) == PairingOf(StepEnv(), book.book, ev)
      ensures book.book == old(book.book) && book.currentDir == old(book.currentDir) && book.styling == old(book.styling)
    {
      ghost var e := StepEnv();
      ghost var m := book.book;
      live, times := [], [];
      for ch := 0 to NChannels
        invariant live == LiveFlags(e, ev, ch) && times == PairTimes(e, m, ev, ch)
        invariant book.book == m && book.currentDir == old(book.currentDir) && book.styling == old(book.styling)
      {
        var l, t := ChannelTime(ev, ch);
        live, times := live + [l], times + [t];
      }
      assert StepEnv() == e;
      PairingOfPrefixes(e, m, ev);
    }

    /**
     * The pairing loops of `outlierRejection` on the corrected times: the west
     * entries are cleared, then every live west/east pair whose vertex agrees
     * with the TPC vertex `tpcZ` makes both channels usable; `good` says
     * whether there was such a pair.
     */
    method PairBanks(tpcZ: real, live: seq<bool>, times: seq<real>, vzCut: real, ghost it: int) returns (good: bool)
      requires Valid() && |live| == NChannels && |times| == NChannels && vzCut == VzCut(it)
      modifies useDetector
      ensures useDetector[..] == RejectionUses(Pairing(k, it, tpcZ, live, times), old(useDetector[..]))
      ensures good == SomePair(Pairing(k, it, tpcZ, live, times), EndWest)
    {
      ghost var p := Pairing(k, it, tpcZ, live, times);
      for j := StartWest to EndWest
        invariant forall i :: StartWest <= i < j ==> !useDetector[i]
        invariant forall i :: j <= i < NChannels ==> useDetector[i] == old(useDetector[i])
      {
        useDetector[j] := false;
      }
      good := false;
      for j := StartWest to EndWest
        invariant forall i :: StartWest <= i < j ==> useDetector[i] == EastPartner(p, i, EndEast)
        invariant forall i :: j <= i < EndWest ==> !useDetector[i]
        invariant forall q :: StartEast <= q < EndEast ==> useDetector[q] == (old(useDetector[q]) || WestPartner(p, q, j))
        invariant good == SomePair(p, j)
      {
        assert SomePair(p, j + 1) == (SomePair(p, j) || EastPartner(p, j, EndEast));
        if !live[j] {
          NotLiveNoPartner(p, j, EndEast);
          continue;
        }
        var paired := PairWithEast(tpcZ, live, times, vzCut, it, j);
        good := good || paired;
      }
      ghost var use := old(useDetector[..]);
      assert forall i :: 0 <= i < NChannels ==> useDetector[i] == RejectionUse(p, use, i);
    }

    /** The inner pairing loop for the live west channel `j`. */
    method PairWithEast(tpcZ: real, live: seq<bool>, times: seq<real>, vzCut: real, ghost it: int, j: int) returns (paired: bool)
      requires Valid() && |live| == NChannels && |times| == NChannels && vzCut == VzCut(it)
      requires IsWest(j) && live[j]
      modifies useDetector
      ensures paired == EastPartner(Pairing(k, it, tpcZ, live, times), j, EndEast)
      ensures useDetector[j] == (old(useDetector[j]) || paired)
      ensures forall q :: StartWest <= q < EndWest && q != j ==> useDetector[q] == old(useDetector[q])
      ensures forall q :: StartEast <= q < EndEast ==> useDetector[q] == (old(useDetector[q]) || PairOk(Pairing(k, it, tpcZ, live, times), j, q))
    {
      ghost var p := Pairing(k, it, tpcZ, live, times);
      paired := false;
      for q := StartEast to EndEast
        invariant paired == EastPartner(p, j, q)
        invariant useDetector[j] == (old(useDetector[j]) || paired)
        invariant forall i :: 0 <= i < NChannels && i != j && !(StartEast <= i < q) ==> useDetector[i] == old(useDetector[i])
        invariant forall i :: StartEast <= i < q ==> useDetector[i] == (old(useDetector[i]) || PairOk(p, j, i))
      {
        if live[q] && Abs(tpcZ - VpdZ(k, times[j], times[q])) < vzCut {
          useDetector[q] := true;
          useDetector[j] := true;
          paired := true;
        }
      }
    }

    /**
     * `prepareStepHistograms`: the offset check histogram when it is missing,
     * the seven histograms of every channel, binned in TOT on the channel's
     * current edges, and the four outlier-rejection histograms; the cursor is
     * left in "OutlierRejection".
     */
    method PrepareStepHistograms()
      requires Valid()
      modifies book
      ensures Booked(book.book, book.currentDir) == PreparedBook(Booked(old(book.book), old(book.currentDir)), currentIteration, Rows(totBins))
      ensures book.styling == old(book.styling)
    {
      ghost var b1 := OffsetCheckBook(Booked(book.book, book.currentDir));
      BookOffsetCheck();
      BookChannels(b1.m);
      BookOutliers();
    }

    /** The channel loop of `prepareStepHistograms`: the seven bookings of every channel, each in its directory. */
    method BookChannels(ghost m: map<string, Hist>)
      requires Valid() && book.book == m
      modifies book
      ensures book.book == ChannelsBook(m, currentIteration, Rows(totBins), NChannels)
      ensures book.styling == old(book.styling)
    {
      ghost var rows := Rows(totBins);
      for ch := StartWest to EndEast
        invariant book.book == ChannelsBook(m, currentIteration, rows, ch)
        invariant book.styling == old(book.styling)
      {
        var _ := book.Cd(ChannelDir(ch));
        BookChannel(ch);
        ChannelsBookStep(m, currentIteration, rows, ch);
      }
    }

    /** The outlier-rejection histograms of `prepareStepHistograms`, booked in "OutlierRejection", where the cursor stays. */
    method BookOutliers()
      modifies book
      ensures book.book == AddPrefix(old(book.book), OutlierDir, OutlierNames(currentIteration), OutlierHists(currentIteration), 4)
      ensures book.currentDir == OutlierDir && book.styling == old(book.styling)
    {
      var _ := book.Cd(OutlierDir);
      var names, hs := OutlierNames(currentIteration), OutlierHists(currentIteration);
      for s := 0 to |names|
        invariant book.book == AddPrefix(old(book.book), OutlierDir, names, hs, s)
        invariant book.currentDir == OutlierDir && book.styling == old(book.styling)
      {
        book.Add(names[s], Some(hs[s]));
      }
    }

    /** The offset check histogram of `prepareStepHistograms`, booked in "initialOffset" when it is not there. */
    method BookOffsetCheck()
      modifies book
      ensures Booked(book.book, book.currentDir) == OffsetCheckBook(Booked(old(book.book), old(book.currentDir)))
      ensures book.styling == old(book.styling)
    {
      if book.Get(CorrectedOffsetsName, OffsetDir).None? {
        var _ := book.Cd(OffsetDir);
        book.Make2D(CorrectedOffsetsName, "corrected Initial Offsets", NChannels - 1, 1.0, NChannels as real, 200, -100.0, 100.0);
      }
    }

    /** The seven bookings of one channel in `prepareStepHistograms`, in the channel's directory. */
    method BookChannel(ch: int)
      requires Valid() && IsChannel(ch) && book.currentDir == ChannelDir(ch)
      modifies book
      ensures book.book == AddPrefix(old(book.book), ChannelDir(ch), ChannelNames(currentIteration),
                                     ChannelHists(currentIteration, Rows(totBins)[ch], ch), |Suffixes|)
      ensures book.currentDir == old(book.currentDir) && book.styling == old(book.styling)
    {
      var names, hs := ChannelNames(currentIteration), ChannelHists(currentIteration, Row(totBins, ch), ch);
      for s := 0 to |Suffixes|
        invariant book.book == AddPrefix(old(book.book), ChannelDir(ch), names, hs, s)
        invariant book.currentDir == old(book.currentDir) && book.styling == old(book.styling)
      {
        book.Add(names[s], Some(hs[s]));
      }
    }

    /**
     * `averageN`, as far as it lasts: it enters the directory of every west
     * channel in turn and so leaves the cursor in the last one. Its fills are
     * not part of this model.
     */
    method AverageN()
      modifies book
      ensures book.book == old(book.book) && book.styling == old(book.styling)
      ensures book.currentDir == ChannelDir(EndWest - 1)
    {
      for i := StartWest to EndWest
        invariant book.book == old(book.book) && book.styling == old(book.styling)
        invariant i > StartWest ==> book.currentDir == ChannelDir(i - 1)
      {
        var _ := book.Cd(ChannelDir(i));
      }
    }

    /**
     * `makeCorrections`: for every live channel, the slice fit of this
     * iteration's `tdctot` (or, in differential mode, `tdccor`) histogram is
     * stored as `it<N>totcor` in the channel's directory and folded into bins
     * 1..n of the channel's correction row. The source dereferences the
     * fitted histogram unchecked, so it must exist.
     */
    method MakeCorrections(fit: SliceFit)
      requires Valid() && FitInputs(book.book, deadDetector[..], currentIteration, cfg.differential, NChannels)
      modifies book, correction
      ensures Corrected(book.book, Rows(correction), book.currentDir) ==
        Corrections(Corrected(old(book.book), old(Rows(correction)), old(book.currentDir)),
                    deadDetector[..], currentIteration, numTOTBins, cfg.differential, fit, NChannels)
      ensures book.styling == old(book.styling)
    {
      ghost var c0 := Corrected(book.book, Rows(correction), book.currentDir);
      ghost var dead := deadDetector[..];
      var differential := cfg.differential;
      var hName := "tdctot";
      if differential {
        hName := "tdccor";
      }
      assert hName == FitSuffix(differential);
      for k := StartWest to EndEast
        modifies book, correction
        invariant Corrected(book.book, Rows(correction), book.currentDir) ==
          Corrections(c0, dead, currentIteration, numTOTBins, differential, fit, k)
        invariant book.styling == old(book.styling)
      {
        if deadDetector[k] {
          continue;
        }
        var _ := book.Cd(ChannelDir(k));
        ChannelKeySplit(k, currentIteration, hName);
        var tmp := book.Get(ItName(currentIteration, hName));
        var _ := book.Cd(ChannelDir(k) + "/fit");
        var _ := book.Cd(ChannelDir(k));
        var cor := TotcorHist(currentIteration, k, tmp.value, fit);
        book.Add(ItName(currentIteration, "totcor"), Some(cor));
        UpdateRow(k, tmp.value, fit);
      }
    }

    /** The bin loop of `makeCorrections` for channel `k`: bins 1..n take (or, in differential mode after iteration 0, add) the fitted means. */
    method UpdateRow(k: int, h: Hist, fit: SliceFit)
      requires Valid() && IsChannel(k)
      modifies correction
      ensures Rows(correction) == old(Rows(correction))[k := CorrectedRow(old(Rows(correction))[k], h, currentIteration, cfg.differential, fit)]
    {
      ghost var before := Rows(correction);
      var differential := cfg.differential;
      for ib := 1 to numTOTBins + 1
        invariant forall j, b :: 0 <= j < NChannels && 0 <= b <= numTOTBins && (j != k || b == 0 || ib <= b) ==>
          correction[j, b] == before[j][b]
        invariant forall b :: 1 <= b < ib ==>
          correction[k, b] == NewCorrection(before[k][b], fit(h, b), currentIteration, differential)
      {
        if currentIteration == 0 || !differential {
          correction[k, ib] := fit(h, ib);
        } else if differential && currentIteration >= 1 {
          correction[k, ib] := correction[k, ib] + fit(h, ib);
        }
      }
      assert forall j :: 0 <= j < NChannels ==> Row(correction, j) == before[k := CorrectedRow(before[k], h, currentIteration, differential, fit)][j];
    }

    /** The same-bank cut of `step`, chosen by iteration. */
    static method SameBankCut(it: int) returns (outlierCut: real)
      ensures outlierCut == OutlierCut(it)
    {
      outlierCut := 2.0;
      if it == 1 {
        outlierCut := 1.0;
      } else if it >= 2 {
        outlierCut := 0.6;
      }
    }

    /**
     * The alias loop of `step`: every usable channel takes this event's TOT,
     * time and offset; its all-corrections time is reset from time and offset
     * only when `removeOffset` is set, and loses the looked-up correction only
     * when its TOT is in the window. Other channels keep last event's values.
     */
    method AliasLoop(ev: Event, loc: seq<Chan>) returns (r: seq<Chan>)
      requires Valid() && EventOk(ev) && |loc| == NChannels
      modifies book
      ensures r == Aliased(StepEnv(), old(book.book), ev, useDetector[..], loc)
      ensures book.book == old(book.book) && book.currentDir == old(book.currentDir) && book.styling == old(book.styling)
    {
      ghost var e, m, use := StepEnv(), book.book, useDetector[..];
      var removeOffset := cfg.removeOffset;
      r := loc;
      for j := StartWest to EndEast
        invariant |r| == NChannels
        invariant forall i :: 0 <= i < j ==> r[i] == AliasChan(e, m, ev, use, loc[i], i)
        invariant forall i :: j <= i < NChannels ==> r[i] == loc[i]
        invariant book.book == m && book.currentDir == old(book.currentDir) && book.styling == old(book.styling)
      {
        if deadDetector[j] {
          continue;
        }
        if !useDetector[j] {
          continue;
        }
        var tot, tdc, off, tAll := ev.tot[j], ev.tdc[j], initialOffsets[j], r[j].tAll;
        if removeOffset {
          tAll := tdc - off;
        }
        if tot <= k.minTOT || tot > k.maxTOT {
          r := r[j := Chan(tot, tdc, off, tAll)];
          continue;
        }
        var corr := GetCorrection(j, tot);
        tAll := tAll - corr;
        r := r[j := Chan(tot, tdc, off, tAll)];
      }
    }

    /**
     * The two averaging loops of `step` for channel `j`: the sums and counts
     * of both banks over the usable channels other than `j`, then the same
     * over those within `outlierCut` of their bank's mean; `j`'s own bank is
     * returned. A mean over no channel is 0 here (the source divides by zero
     * and never uses the result).
     */
    method BankAverages(loc: seq<Chan>, j: int, outlierCut: real) returns (a: Averages)
      requires Valid() && |loc| == NChannels && IsChannel(j) && outlierCut == OutlierCut(currentIteration)
      ensures a == ChannelAverages(StepEnv(), useDetector[..], loc, j)
    {
      var sumWest, countWest, sumEast, countEast := BankSums(loc, j);
      var avgWest := if countWest > 0 then sumWest / (countWest as real) else 0.0;
      var avgEast := if countEast > 0 then sumEast / (countEast as real) else 0.0;
      var cutSumWest, cutCountWest, cutSumEast, cutCountEast := CutSums(loc, j, avgWest, avgEast, outlierCut);
      if IsEast(j) {
        a := Averages(countEast, avgEast, cutCountEast, if cutCountEast > 0 then cutSumEast / (cutCountEast as real) else 0.0);
      } else {
        a := Averages(countWest, avgWest, cutCountWest, if cutCountWest > 0 then cutSumWest / (cutCountWest as real) else 0.0);
      }
    }

    /** The first averaging loop: per bank, the sum and count of `tAll` over the usable channels other than `j`. */
    method BankSums(loc: seq<Chan>, j: int) returns (sumWest: real, countWest: nat, sumEast: real, countEast: nat)
      requires Valid() && |loc| == NChannels && IsChannel(j)
      ensures countWest == BankCount(StepEnv(), useDetector[..], j, StartWest, EndWest)
      ensures sumWest == BankSum(StepEnv(), useDetector[..], loc, j, StartWest, EndWest)
      ensures countEast == BankCount(StepEnv(), useDetector[..], j, StartEast, EndEast)
      ensures sumEast == BankSum(StepEnv(), useDetector[..], loc, j, StartEast, EndEast)
    {
      ghost var e, use := StepEnv(), useDetector[..];
      sumWest, sumEast := 0.0, 0.0;
      countWest, countEast := 0, 0;
      for q := StartWest to EndEast
        invariant countWest == BankCount(e, use, j, StartWest, if q < EndWest then q else EndWest)
        invariant sumWest == BankSum(e, use, loc, j, StartWest, if q < EndWest then q else EndWest)
        invariant countEast == BankCount(e, use, j, StartEast, q)
        invariant sumEast == BankSum(e, use, loc, j, StartEast, q)
      {
        sumWest, countWest, sumEast, countEast := SumStep(loc, j, q, sumWest, countWest, sumEast, countEast);
      }
    }

    /** One pass of the `BankSums` loop, for channel `q`. */
    method SumStep(loc: seq<Chan>, j: int, q: int, sumWest: real, countWest: nat, sumEast: real, countEast: nat)
        returns (sumWest': real, countWest': nat, sumEast': real, countEast': nat)
      requires Valid() && |loc| == NChannels && IsChannel(j) && StartWest <= q < EndEast
      requires countWest == BankCount(StepEnv(), useDetector[..], j, StartWest, if q < EndWest then q else EndWest)
      requires sumWest == BankSum(StepEnv(), useDetector[..], loc, j, StartWest, if q < EndWest then q else EndWest)
      requires countEast == BankCount(StepEnv(), useDetector[..], j, StartEast, q)
      requires sumEast == BankSum(StepEnv(), useDetector[..], loc, j, StartEast, q)
      ensures countWest' == BankCount(StepEnv(), useDetector[..], j, StartWest, if q + 1 < EndWest then q + 1 else EndWest)
      ensures sumWest' == BankSum(StepEnv(), useDetector[..], loc, j, StartWest, if q + 1 < EndWest then q + 1 else EndWest)
      ensures countEast' == BankCount(StepEnv(), useDetector[..], j, StartEast, q + 1)
      ensures sumEast' == BankSum(StepEnv(), useDetector[..], loc, j, StartEast, q + 1)
    {
      sumWest', countWest', sumEast', countEast' := sumWest, countWest, sumEast, countEast;
      if deadDetector[q] || !useDetector[q] || j == q {
        return;
      }
      if StartWest <= q < EndWest {
        sumWest', countWest' := sumWest + loc[q].tAll, countWest + 1;
      } else if StartEast <= q < EndEast {
        sumEast', countEast' := sumEast + loc[q].tAll, countEast + 1;
      }
    }

    /** The second averaging loop: per bank, the sum and count over the channels within `outlierCut` of the bank's mean. */
    method CutSums(loc: seq<Chan>, j: int, avgWest: real, avgEast: real, outlierCut: real)
        returns (cutSumWest: real, cutCountWest: nat, cutSumEast: real, cutCountEast: nat)
      requires Valid() && |loc| == NChannels && IsChannel(j) && outlierCut == OutlierCut(currentIteration)
      ensures cutCountWest == CutCount(StepEnv(), useDetector[..], loc, j, avgWest, StartWest, EndWest)
      ensures cutSumWest == CutSum(StepEnv(), useDetector[..], loc, j, avgWest, StartWest, EndWest)
      ensures cutCountEast == CutCount(StepEnv(), useDetector[..], loc, j, avgEast, StartEast, EndEast)
      ensures cutSumEast == CutSum(StepEnv(), useDetector[..], loc, j, avgEast, StartEast, EndEast)
    {
      ghost var e, use := StepEnv(), useDetector[..];
      cutSumWest, cutSumEast := 0.0, 0.0;
      cutCountWest, cutCountEast := 0, 0;
      for q := StartWest to EndEast
        invariant cutCountWest == CutCount(e, use, loc, j, avgWest, StartWest, if q < EndWest then q else EndWest)
        invariant cutSumWest == CutSum(e, use, loc, j, avgWest, StartWest, if q < EndWest then q else EndWest)
        invariant cutCountEast == CutCount(e, use, loc, j, avgEast, StartEast, q)
        invariant cutSumEast == CutSum(e, use, loc, j, avgEast, StartEast, q)
      {
        cutSumWest, cutCountWest, cutSumEast, cutCountEast :=
          CutStep(loc, j, avgWest, avgEast, outlierCut, q, cutSumWest, cutCountWest, cutSumEast, cutCountEast);
      }
    }

    /** One pass of the `CutSums` loop, for channel `q`. */
    method CutStep(loc: seq<Chan>, j: int, avgWest: real, avgEast: real, outlierCut: real, q: int,
                   sumWest: real, countWest: nat, sumEast: real, countEast: nat)
        returns (sumWest': real, countWest': nat, sumEast': real, countEast': nat)
      requires Valid() && |loc| == NChannels && IsChannel(j) && outlierCut == OutlierCut(currentIteration)
      requires StartWest <= q < EndEast
      requires countWest == CutCount(StepEnv(), useDetector[..], loc, j, avgWest, StartWest, if q < EndWest then q else EndWest)
      requires sumWest == CutSum(StepEnv(), useDetector[..], loc, j, avgWest, StartWest, if q < EndWest then q else EndWest)
      requires countEast == CutCount(StepEnv(), useDetector[..], loc, j, avgEast, StartEast, q)
      requires sumEast == CutSum(StepEnv(), useDetector[..], loc, j, avgEast, StartEast, q)
      ensures countWest' == CutCount(StepEnv(), useDetector[..], loc, j, avgWest, StartWest, if q + 1 < EndWest then q + 1 else EndWest)
      ensures sumWest' == CutSum(StepEnv(), useDetector[..], loc, j, avgWest, StartWest, if q + 1 < EndWest then q + 1 else EndWest)
      ensures countEast' == CutCount(StepEnv(), useDetector[..], loc, j, avgEast, StartEast, q + 1)
      ensures sumEast' == CutSum(StepEnv(), useDetector[..], loc, j, avgEast, StartEast, q + 1)
    {
      sumWest', countWest', sumEast', countEast' := sumWest, countWest, sumEast, countEast;
      if deadDetector[q] || !useDetector[q] || j == q {
        return;
      }
      if StartWest <= q < EndWest {
        if loc[q].tAll - avgWest < outlierCut && loc[q].tAll - avgWest > -outlierCut {
          sumWest', countWest' := sumWest + loc[q].tAll, countWest + 1;
        }
      } else if StartEast <= q < EndEast {
        if loc[q].tAll - avgEast < outlierCut && loc[q].tAll - avgEast > -outlierCut {
          sumEast', countEast' := sumEast + loc[q].tAll, countEast + 1;
        }
      }
    }

    /**
     * The fill loop of `step` for channel `j`: nothing unless the channel is
     * usable with its TOT in the window; otherwise its bank averages, the
     * offset check in iteration 0, then in the channel's directory the
     * `avgN` fills when both banks are good, the `cutAvgN` fill, and the
     * gated fills when more than `minHits` channels were counted.
     */
    method FillChannel(ev: Event, loc: seq<Chan>, j: int, outlierCut: real, ghost e: Env, ghost use: seq<bool>)
      requires Valid() && EventOk(ev) && |loc| == NChannels && IsChannel(j) && outlierCut == OutlierCut(currentIteration)
      requires e == StepEnv() && use == useDetector[..]
      modifies book
      ensures book.book == ApplyFills(old(book.book), ChannelFills(e, ev, use, westIsGood && eastIsGood, loc, j))
      ensures book.currentDir == if Selected(e, use, loc, j) then ChannelDir(j) else old(book.currentDir)
      ensures book.styling == old(book.styling)
    {
      if deadDetector[j] || !useDetector[j] {
        return;
      }
      var tot := loc[j].tot;
      if tot <= k.minTOT || tot > k.maxTOT {
        return;
      }
      var a := BankAverages(loc, j, outlierCut);
      ghost var m0 := book.book;
      OffsetCheckFill(ev, loc, j, e);
      var _ := book.Cd(ChannelDir(j));
      FillInChannel(loc, j, a, e, use);
      ghost var f0, f1, f2, f3 := OffsetFill(e, ev, loc, j), AvgNPart(e, use, westIsGood && eastIsGood, loc, j, a), CutAvgNFill(e, loc, j, a), GatedFills(e, loc, j, a);
      ApplyFillsFirst(m0, f0, f1, f2, f3);
    }

    /** In iteration 0, the offset check fill of channel `j`: its time less the reference and its offset. */
    method OffsetCheckFill(ev: Event, loc: seq<Chan>, j: int, ghost e: Env)
      requires Valid() && |loc| == NChannels && IsChannel(j) && e == StepEnv()
      modifies book
      ensures book.book == ApplyFills(old(book.book), OffsetFill(e, ev, loc, j))
      ensures book.styling == old(book.styling)
    {
      if currentIteration == 0 {
        ghost var m0 := book.book;
        var _ := book.Cd(OffsetDir);
        book.Fill(CorrectedOffsetsName, j as real, loc[j].tdc - ev.vpdLeWest0 - loc[j].off);
        assert OffsetDir + CorrectedOffsetsName == CorrectedOffsetsKey;
        ApplyOneFill(m0, OffsetFill(e, ev, loc, j)[0]);
      }
    }

    /** The fills of a handled channel `j` in its own directory, after the offset check. */
    method FillInChannel(loc: seq<Chan>, j: int, a: Averages, ghost e: Env, ghost use: seq<bool>)
      requires Valid() && |loc| == NChannels && IsChannel(j) && book.currentDir == ChannelDir(j)
      requires e == StepEnv() && use == useDetector[..]
      modifies book
      ensures book.book == ApplyFills(old(book.book),
        AvgNPart(e, use, westIsGood && eastIsGood, loc, j, a) + CutAvgNFill(e, loc, j, a) + GatedFills(e, loc, j, a))
      ensures book.currentDir == old(book.currentDir) && book.styling == old(book.styling)
    {
      ghost var m0 := book.book;
      ghost var f1, f2, f3 := AvgNPart(e, use, westIsGood && eastIsGood, loc, j, a), CutAvgNFill(e, loc, j, a), GatedFills(e, loc, j, a);
      if eastIsGood && westIsGood {
        AvgNLoop(loc, j, a, e, use);
      }
      ghost var m1 := book.book;
      assert m1 == ApplyFills(m0, f1);
      CutAvgFill(loc, j, a, e);
      ghost var m2 := book.book;
      GatedFill(loc, j, a, e);
      assert book.book == ApplyFills(m2, f3);
      ApplyFillsThree(m0, f1, f2, f3);
    }

    /** The `cutAvgN` fill of channel `j`: its time less the cut mean, against the count; none when no channel passed the cut. */
    method CutAvgFill(loc: seq<Chan>, j: int, a: Averages, ghost e: Env)
      requires Valid() && |loc| == NChannels && IsChannel(j) && book.currentDir == ChannelDir(j) && e == StepEnv()
      modifies book
      ensures book.book == ApplyFills(old(book.book), CutAvgNFill(e, loc, j, a))
      ensures book.currentDir == old(book.currentDir) && book.styling == old(book.styling)
    {
      if a.cutCount > 0 {
        ghost var m0 := book.book;
        var it := currentIteration;
        ChannelKeySplit(j, it, "cutAvgN");
        book.Fill(ItName(it, "cutAvgN"), a.count as real, loc[j].tAll - a.cutAvg);
        ApplyOneFill(m0, CutAvgNFill(e, loc, j, a)[0]);
      }
    }

    /**
     * The `tdctot`, `tdccor` and `tdc` fills of channel `j`: none when at most
     * `minHits` channels were counted; none either when no channel passed the
     * cut, where each value would be 0/0.
     */
    method GatedFill(loc: seq<Chan>, j: int, a: Averages, ghost e: Env)
      requires Valid() && |loc| == NChannels && IsChannel(j) && book.currentDir == ChannelDir(j)
      requires e == StepEnv()
      modifies book
      ensures book.book == ApplyFills(old(book.book), GatedFills(e, loc, j, a))
      ensures book.currentDir == old(book.currentDir) && book.styling == old(book.styling)
    {
      if a.count as int <= k.minHits || a.cutCount == 0 {
        return;
      }
      var it := currentIteration;
      ghost var fs := GatedFills(e, loc, j, a);
      ChannelKeySplit(j, it, "tdctot");
      ChannelKeySplit(j, it, "tdccor");
      ChannelKeySplit(j, it, "tdc");
      ghost var m0 := book.book;
      book.Fill(ItName(it, "tdctot"), loc[j].tot, loc[j].tdc - loc[j].off - a.cutAvg);
      ghost var m1 := book.book;
      assert m1 == FillEntry(m0, fs[0].key, fs[0].s);
      book.Fill(ItName(it, "tdccor"), loc[j].tot, loc[j].tAll - a.cutAvg);
      ghost var m2 := book.book;
      assert m2 == FillEntry(m1, fs[1].key, fs[1].s);
      book.Fill(ItName(it, "tdc"), loc[j].tAll - a.cutAvg);
      assert book.book == FillEntry(m2, fs[2].key, fs[2].s);
      ApplyThreeFills(m0, fs);
    }

    /** The `avgN` loop of channel `j`: one fill per counted channel of its bank, none when the mean is 0. */
    method AvgNLoop(loc: seq<Chan>, j: int, a: Averages, ghost e: Env, ghost use: seq<bool>)
      requires Valid() && |loc| == NChannels && IsChannel(j) && book.currentDir == ChannelDir(j)
      requires e == StepEnv() && use == useDetector[..]
      modifies book
      ensures book.book == ApplyFills(old(book.book), if a.avg != 0.0 then AvgNFills(e, use, loc, j, a, BankStart(j), BankEnd(j)) else [])
      ensures book.currentDir == old(book.currentDir) && book.styling == old(book.styling)
    {
      var start, end := StartWest, EndWest;
      if j >= StartEast && j < EndEast {
        start, end := StartEast, EndEast;
      }
      assert start == BankStart(j) && end == BankEnd(j);
      for q := start to end
        invariant book.book == ApplyFills(old(book.book), if a.avg != 0.0 then AvgNFills(e, use, loc, j, a, start, q) else [])
        invariant book.currentDir == old(book.currentDir) && book.styling == old(book.styling)
      {
        AvgNFill(loc, j, a, e, use, start, q, old(book.book));
      }
    }

    /** One pass of the `avgN` loop: channel `q` adds its fill when it is counted and the mean is not 0. */
    method AvgNFill(loc: seq<Chan>, j: int, a: Averages, ghost e: Env, ghost use: seq<bool>, start: int, q: int, ghost m0: map<string, Hist>)
      requires Valid() && |loc| == NChannels && IsChannel(j) && book.currentDir == ChannelDir(j)
      requires e == StepEnv() && use == useDetector[..]
      requires 0 <= start <= q < NChannels
      requires book.book == ApplyFills(m0, if a.avg != 0.0 then AvgNFills(e, use, loc, j, a, start, q) else [])
      modifies book
      ensures book.book == ApplyFills(m0, if a.avg != 0.0 then AvgNFills(e, use, loc, j, a, start, q + 1) else [])
      ensures book.currentDir == old(book.currentDir) && book.styling == old(book.styling)
    {
      var it := currentIteration;
      AvgNFillsStep(e, use, loc, j, a, start, q);
      assert Counted(e, use, j, q) == (!deadDetector[q] && useDetector[q] && j != q);
      if deadDetector[q] || !useDetector[q] || j == q || a.avg == 0.0 {
        assert AvgNFills(e, use, loc, j, a, start, q) + [] == AvgNFills(e, use, loc, j, a, start, q);
        return;
      }
      ghost var f := FillOp(ChannelKey(j, it, "avgN"), Sample(a.count as real, loc[q].tAll - a.avg));
      ChannelKeySplit(j, it, "avgN");
      book.Fill(ItName(it, "avgN"), a.count as real, loc[q].tAll - a.avg);
      ApplyFillsSnoc(m0, AvgNFills(e, use, loc, j, a, start, q), f);
    }

    /** The fill loop of `step` over all channels, west then east, for one event. */
    method FillLoop(ev: Event, loc: seq<Chan>, outlierCut: real, ghost e: Env, ghost use: seq<bool>)
      requires Valid() && EventOk(ev) && |loc| == NChannels && outlierCut == OutlierCut(currentIteration)
      requires e == StepEnv() && use == useDetector[..]
      modifies book
      ensures book.book == ApplyFills(old(book.book), EventFills(e, ev, use, westIsGood && eastIsGood, loc))
      ensures book.currentDir == EventDir(e, use, loc, NChannels, old(book.currentDir))
      ensures book.styling == old(book.styling)
    {
      ghost var parts := ChannelParts(e, ev, use, westIsGood && eastIsGood, loc);
      for j := StartWest to EndEast
        invariant book.book == ApplyFills(old(book.book), Concat(parts[..j]))
        invariant book.currentDir == EventDir(e, use, loc, j, old(book.currentDir))
        invariant book.styling == old(book.styling)
      {
        FillChannel(ev, loc, j, outlierCut, e, use);
        ConcatStep(parts, j);
        ApplyFillsAppend(old(book.book), Concat(parts[..j]), parts[j]);
      }
      assert parts[..NChannels] == parts;
    }

    /**
     * One event of `step`: outlier rejection (as configured), the event cuts,
     * `averageN`, the alias loop and the fill loop. `loc` are the per-channel
     * values carried over from the previous event; the new ones are returned.
     */
    method ProcessEvent(ev: Event, loc: seq<Chan>, outlierCut: real) returns (r: seq<Chan>)
      requires Valid() && EventOk(ev) && |loc| == NChannels && outlierCut == OutlierCut(currentIteration)
      modifies this, useDetector, book
      ensures StepState(useDetector[..], westIsGood, eastIsGood, r, book.book, book.currentDir) ==
        EventStep(StepEnv(), StepState(old(useDetector[..]), old(westIsGood), old(eastIsGood), loc, old(book.book), old(book.currentDir)), ev)
      ensures currentIteration == old(currentIteration) && westMinusEast == old(westMinusEast)
      ensures book.styling == old(book.styling)
    {
      ghost var st := StepState(useDetector[..], westIsGood, eastIsGood, loc, book.book, book.currentDir);
      OutlierRejection(ev, cfg.outlierRejection);
      ghost var e := StepEnv();
      assert e.(outliers := cfg.outlierRejection) == e;
      ghost var use, flag := useDetector[..], westIsGood;
      assert use == OutlierUse(e, st.m, ev, st.use) && flag == OutlierFlag(e, st.m, ev);
      var pass := EventCuts(ev);
      r := loc;
      if pass {
        AverageN();
        r := AliasLoop(ev, loc);
        FillLoop(ev, r, outlierCut, e, use);
      }
    }

    /**
     * `step`: the booking, one pass over the event chain, the correction
     * update, and the next iteration. The per-channel values of the pass start
     * at zero.
     */
    method Step(fit: SliceFit, ghost r: Run, ghost s: Engine)
      requires Valid() && r == RunOf() && s == EngineOf()
      modifies this, useDetector, book, correction
      ensures RunOf() == r && EngineOf() == StepEngine(r, s, fit)
      ensures westMinusEast == old(westMinusEast) && book.styling == old(book.styling)
    {
      StepEvents(r, s);
      ghost var st := EventLoop(r, s);
      EventLoopFitInputs(r, s);
      StepCorrect(fit);
      StepEngineParts(r, s, fit, st, StepCorrections(r, s, fit));
    }

    /**
     * `loop`: `maxIterations` steps. The iteration advances by that many, no
     * histogram is lost and the rows of dead channels are never refitted.
     */
    method Loop(fit: SliceFit)
      requires Valid()
      modifies this, useDetector, book, correction
      ensures RunOf() == old(RunOf()) && EngineOf() == Iterate(RunOf(), old(EngineOf()), fit, maxIterations)
      ensures currentIteration == old(currentIteration) + maxIterations
      ensures old(book.book).Keys <= book.book.Keys
      ensures forall ch :: 0 <= ch < NChannels && deadDetector[ch] ==> Row(correction, ch) == old(Row(correction, ch))
    {
      ghost var r, s0 := RunOf(), EngineOf();
      StepLoop(fit, r, s0);
      IterateKeys(r, s0, fit, maxIterations);
      forall ch | 0 <= ch < NChannels && deadDetector[ch]
        ensures Row(correction, ch) == s0.corr[ch]
      {
        IterateDeadRows(r, s0, fit, maxIterations, ch);
      }
    }

    /** The loop of `loop`. */
    method StepLoop(fit: SliceFit, ghost r: Run, ghost s0: Engine)
      requires Valid() && r == RunOf() && s0 == EngineOf()
      modifies this, useDetector, book, correction
      ensures RunOf() == r && EngineOf() == Iterate(r, s0, fit, maxIterations)
    {
      for i := 0 to maxIterations
        modifies this, useDetector, book, correction
        invariant RunOf() == r && EngineOf() == Iterate(r, s0, fit, i)
      {
        ghost var now := EngineOf();
        Step(fit, r, now);
      }
    }

    /** The first half of `step`: the booking and the event loop. */
    method StepEvents(ghost r: Run, ghost s: Engine)
      requires Valid() && r == RunOf() && s == EngineOf()
      modifies this, useDetector, book
      ensures RunOf() == r && EngineOf() == AfterEvents(r, s)
      ensures westMinusEast == old(westMinusEast) && book.styling == old(book.styling)
    {
      var outlierCut := SameBankCut(currentIteration);
      PrepareStepHistograms();
      assert RunOf() == r;
      EventPass(outlierCut, r, s);
    }

    /** The second half of `step`: the correction update and the next iteration. */
    method StepCorrect(fit: SliceFit)
      requires Valid() && FitInputs(book.book, deadDetector[..], currentIteration, cfg.differential, NChannels)
      modifies this`currentIteration, book, correction
      ensures var c := Corrections(Corrected(old(book.book), old(Rows(correction)), old(book.currentDir)),
                                   deadDetector[..], old(currentIteration), numTOTBins, cfg.differential, fit, NChannels);
        EngineOf() == old(EngineOf()).(m := c.m, dir := c.dir, corr := c.corr, it := old(currentIteration) + 1)
      ensures book.styling == old(book.styling)
    {
      ghost var s := EngineOf();
      MakeCorrections(fit);
      NextIteration(s.(m := book.book, dir := book.currentDir, corr := Rows(correction)));
    }

    /** The last statement of `step`. */
    method NextIteration(ghost now: Engine)
      requires EngineOf() == now
      modifies this`currentIteration
      ensures EngineOf() == now.(it := now.it + 1)
    {
      currentIteration := currentIteration + 1;
    }

    /** The event loop of `step`, from the booked store and zeroed per-channel values. */
    method EventPass(outlierCut: real, ghost r: Run, ghost s: Engine)
      requires Valid() && RunOk(r) && EngineOk(r, s) && outlierCut == OutlierCut(currentIteration)
      requires r.events == events && EnvOf(r, s) == StepEnv()
      requires useDetector[..] == s.use && westIsGood == s.westGood && eastIsGood == s.eastGood
      requires Booked(book.book, book.currentDir) == StepBook(r, s)
      modifies this, useDetector, book
      ensures var st := EventLoop(r, s);
        useDetector[..] == st.use && westIsGood == st.westGood && eastIsGood == st.eastGood &&
        book.book == st.m && book.currentDir == st.dir
      ensures currentIteration == old(currentIteration) && westMinusEast == old(westMinusEast)
      ensures book.styling == old(book.styling)
    {
      ghost var e, st0 := EnvOf(r, s), LoopStart(r, s);
      var loc := ZeroChans();
      for i := 0 to |events|
        modifies this, useDetector, book
        invariant StepState(useDetector[..], westIsGood, eastIsGood, loc, book.book, book.currentDir) == Steps(e, st0, events[..i])
        invariant currentIteration == old(currentIteration) && westMinusEast == old(westMinusEast)
        invariant book.styling == old(book.styling) && StepEnv() == e
      {
        loc := PassEvent(i, loc, outlierCut, e, st0);
      }
      assert events[..|events|] == events;
    }

    /** One pass of the event loop of `step`: the state after events[..i] becomes the state after events[..i + 1]. */
    method PassEvent(i: int, loc: seq<Chan>, outlierCut: real, ghost e: Env, ghost st0: StepState) returns (loc': seq<Chan>)
      requires Valid() && 0 <= i < |events| && |loc| == NChannels && outlierCut == OutlierCut(currentIteration)
      requires e == StepEnv() && StateOk(st0)
      requires StepState(useDetector[..], westIsGood, eastIsGood, loc, book.book, book.currentDir) == Steps(e, st0, events[..i])
      modifies this, useDetector, book
      ensures StepState(useDetector[..], westIsGood, eastIsGood, loc', book.book, book.currentDir) == Steps(e, st0, events[..i + 1])
      ensures currentIteration == old(currentIteration) && westMinusEast == old(westMinusEast)
      ensures book.styling == old(book.styling) && StepEnv() == e
    {
      StepsPrefix(e, st0, events, i);
      loc' := ProcessEvent(events[i], loc, outlierCut);
    }

    /**
     * `writeParameters`: nothing when the output name has at most four
     * characters; otherwise, for every channel, its number, the bin count, its
     * n+1 edges and the n+1 correction words at indices 1..n+1, each with the
     * exported offset folded in.
     */
    method WriteParameters() returns (f: Option<File>)
      requires Valid()
      ensures f == Export(ExportTables(), cfg.baseName + cfg.paramsOutput, cfg.removeOffset, initialOffsets[..], westMinusEast)
    {
      var outName := cfg.baseName + cfg.paramsOutput;
      if |outName| <= 4 {
        return None;
      }
      var removeOffset := cfg.removeOffset;
      ghost var recs := Records(ExportTables(), removeOffset, initialOffsets[..], westMinusEast);
      var toks: seq<Token> := [];
      for j := StartWest to EndEast
        invariant toks == Join(recs[..j])
      {
        var rec := ChannelRecord(j, removeOffset);
        JoinSnoc(recs, j);
        toks := toks + rec;
      }
      JoinWhole(recs);
      f := Some(File(outName, toks));
    }

    /** The lines `writeParameters` writes for channel `j`. */
    method ChannelRecord(j: int, removeOffset: bool) returns (toks: seq<Token>)
      requires Valid() && IsChannel(j)
      ensures toks == Record(ExportTables(), j, ExportOffset(removeOffset, initialOffsets[..], westMinusEast, j))
    {
      var edges := EdgeTokens(j);
      var values := CorrectionTokens(j, removeOffset);
      toks := [Int(j + 1), Int(numTOTBins)] + (edges + values);
    }

    /** The edge line of channel `j` in `writeParameters`. */
    method EdgeTokens(j: int) returns (toks: seq<Token>)
      requires Valid() && IsChannel(j)
      ensures toks == RealTokens(ExportTables().totBins[j])
    {
      ghost var row := Row(totBins, j);
      toks := [];
      for i := 0 to numTOTBins + 1
        invariant toks == RealTokens(row[..i])
      {
        RealTokensSnoc(row[..i], row[i]);
        assert row[..i + 1] == row[..i] + [row[i]];
        toks := toks + [Real(totBins[j, i])];
      }
      assert row[..numTOTBins + 1] == row;
    }

    /**
     * The correction line of channel `j` in `writeParameters`: the words at
     * indices 1..n+1 (the last one past the end of the row) plus the offset,
     * which is the initial offset of the channel, and for east channels also
     * the west-minus-east difference, when offsets are removed, and 0 otherwise.
     */
    method CorrectionTokens(j: int, removeOffset: bool) returns (toks: seq<Token>)
      requires Valid() && IsChannel(j)
      ensures toks == RealTokens(ExportedCorrections(ExportTables(), j, ExportOffset(removeOffset, initialOffsets[..], westMinusEast, j)))
    {
      ghost var t := ExportTables();
      ghost var vs := ExportedCorrections(t, j, ExportOffset(removeOffset, initialOffsets[..], westMinusEast, j));
      toks := [];
      for i := 0 to numTOTBins + 1
        invariant toks == RealTokens(vs[..i])
      {
        var off := 0.0;
        if removeOffset {
          off := initialOffsets[j];
          if StartEast <= j < EndEast {
            off := off + westMinusEast;
          }
        }
        var w := if i + 1 <= numTOTBins then correction[j, i + 1] else pastEnd[j];
        assert w + off == vs[i];
        RealTokensSnoc(vs[..i], vs[i]);
        assert vs[..i + 1] == vs[..i] + [vs[i]];
        toks := toks + [Real(w + off)];
      }
      assert vs[..numTOTBins + 1] == vs;
    }

    /**
     * `readParameters`, given the contents of the input file (`None` when it
     * cannot be opened): for each of the channels a record is read into the
     * rows of the channel it names; the iteration becomes 5 unless a record
     * was bad.
     */
    method ReadParameters(file: Option<seq<Token>>)
      requires Valid()
      modifies this`currentIteration, totBins, correction
      ensures (Rows(totBins), Rows(correction), currentIteration) ==
        ImportFile(file, old(Rows(totBins)), old(Rows(correction)), numTOTBins, old(currentIteration))
    {
      ghost var tb0, corr0, it0 := Rows(totBins), Rows(correction), currentIteration;
      var good := true;
      if file.Some? {
        var rd := Open(file.value);
        ghost var cur := Import(tb0, corr0, true, rd);
        ghost var fin := ReadRecords(cur, numTOTBins, NChannels);
        for i := 0 to NChannels
          invariant ImportOk(cur, numTOTBins) && currentIteration == it0
          invariant cur == Import(Rows(totBins), Rows(correction), good, rd)
          invariant ReadRecords(cur, numTOTBins, NChannels - i) == fin
        {
          ReadRecordsNext(cur, numTOTBins, NChannels - i);
          rd, good := ReadRecordInto(rd, good, cur);
          cur := ReadRecord(cur, numTOTBins);
        }
        ImportFileRead(file.value, tb0, corr0, numTOTBins, it0, fin);
      }
      if good {
        currentIteration := 5;
      }
    }

    /** One pass of the loop of `readParameters`, on the stream `rd` and the flag `good`. */
    method ReadRecordInto(rd: Reader, good: bool, ghost st: Import) returns (rd': Reader, good': bool)
      requires Valid() && st == Import(Rows(totBins), Rows(correction), good, rd)
      modifies totBins, correction
      ensures Import(Rows(totBins), Rows(correction), good', rd') == ReadRecord(st, numTOTBins)
    {
      var (channel, r1) := ReadInt(rd, -1);
      var (tBins, r2) := ReadInt(r1, 0);
      if 1 <= channel <= NChannels && tBins == numTOTBins {
        if tBins <= 50 {
          tBins := tBins + 1;
        }
        ghost var (edges, g3) := ReadReals(r2, 0.0, tBins);
        ghost var (cs, g4) := ReadReals(g3, LastOr(edges, 0.0), tBins);
        ghost var tb1 := st.totBins[channel - 1 := Overwrite(st.totBins[channel - 1], edges)];
        var tmp := 0.0;
        var r3;
        r3, tmp := ReadList(totBins, channel - 1, r2, tmp, tBins);
        assert Rows(totBins) == tb1 && r3 == g3 && tmp == LastOr(edges, 0.0);
        rd', tmp := ReadList(correction, channel - 1, r3, tmp, tBins);
        assert Rows(totBins) == tb1;
        assert Rows(correction) == st.corr[channel - 1 := Overwrite(st.corr[channel - 1], cs)] && rd' == g4;
        good' := good;
      } else {
        good' := false;
        rd' := r2;
      }
    }

    /** The event cuts of `step`: transverse vertex within 1, more than one TOF hit, |z| at most 100. */
    static method EventCuts(ev: Event) returns (pass: bool)
      ensures pass == PassesCuts(ev)
    {
      var vx, vy := ev.vertexX, ev.vertexY;
      if vx * vx + vy * vy > 1.0 {
        return false;
      }
      var tpcZ := ev.vertexZ;
      if ev.nTofHits <= 1 {
        return false;
      }
      if Abs(tpcZ) > 100.0 {
        return false;
      }
      return true;
    }
  }
}

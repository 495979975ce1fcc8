/**
 * The histograms a calibration step books before its event loop
 * (`prepareStepHistograms`), and the correction update after it
 * (`makeCorrections`): one slice fit per live channel, stored as the
 * `it<N>totcor` histogram that the next iteration's lookup reads, and folded
 * into the correction table.
 */
module Booking {

  import opened Wrappers
  import opened Text
  import opened HistoBook
  import opened CalibData
  import opened StepSpec

  /** The store and its cursor. */
  datatype Booked = Booked(m: map<string, Hist>, dir: string)

  const OffsetDir := "initialOffset"
  const CorrectedOffsetsName := "correctedOffsets"
  const OutlierDir := "OutlierRejection"

  /** A 2-D histogram made with `make2D` or `new TH2D`: nothing filled, no style. */
  function H2(name: string, title: string, x: Axis, y: Axis): Hist
  {
    NewHist(TH2D, name, title, x, Some(y))
  }

  function H1(name: string, title: string, x: Axis): Hist
  {
    NewHist(TH1D, name, title, x, None)
  }

  /** 37 bins over [1, 38), one per channel number, as the offset check and `avgN` use. */
  const ChannelAxis := Uniform(NChannels - 1, 1.0, NChannels as real)

  /** A booking never removes or replaces an entry. */
  predicate Extends(m: map<string, Hist>, m2: map<string, Hist>)
  {
    forall key :: key in m ==> key in m2 && m2[key] == m[key]
  }

  /** Proof step, not a property: `Extends` at one key. */
  lemma ExtendsAt(m: map<string, Hist>, m2: map<string, Hist>, key: string)
    requires Extends(m, m2) && key in m
    ensures key in m2 && m2[key] == m[key]
  {
  }

  /** The offset check histogram is booked in "initialOffset" only when it is not there yet. */
  function OffsetCheckBook(b: Booked): (r: Booked)
    ensures CorrectedOffsetsKey in r.m
    ensures forall key :: key in b.m ==> key in r.m && r.m[key] == b.m[key]
    ensures r.m.Keys <= b.m.Keys + {CorrectedOffsetsKey}
  {
    if CorrectedOffsetsKey in b.m then b
    else
      var h := H2(CorrectedOffsetsName, "corrected Initial Offsets", ChannelAxis, Uniform(200, -100.0, 100.0));
      Booked(AddEntry(b.m, OffsetDir, CorrectedOffsetsName, Some(h)), OffsetDir)
  }

  /** `"Channel " << ch << tail`. */
  function ChannelTitle(ch: int, tail: string): string
  {
    "Channel " + (IntToString(ch) + tail)
  }

  /** `"Cut Channel " << ch << " : 1 - <N>;N; tdc"`. */
  function CutTitle(ch: int): string
  {
    "Cut Channel " + (IntToString(ch) + " : 1 - <N>;N; tdc")
  }

  /**
   * The title of a channel's `tdctot` histogram. The title buffer is not
   * cleared before it, so after the first channel it still starts with the
   * previous channel's last title.
   */
  function TdcTotTitle(ch: int): (t: string)
    ensures ch == StartWest ==> t == ChannelTitle(ch, ";tot; tdc")
    ensures ch != StartWest ==> t == CutTitle(ch - 1) + ChannelTitle(ch, ";tot; tdc")
  {
    if ch == StartWest then ChannelTitle(ch, ";tot; tdc") else CutTitle(ch - 1) + ChannelTitle(ch, ";tot; tdc")
  }

  /** The per-channel histogram suffixes, in booking order. */
  const Suffixes := ["tdctot", "tdccor", "tdc", "avgN", "cutAvgN", "avgNB", "cutAvgNB"]

  /** The histogram booked for channel `ch` under suffix number `s`; `row` are the channel's TOT edges. */
  function ChannelHist(it: int, row: seq<real>, ch: int, s: int): Hist
    requires 0 <= s < |Suffixes|
  {
    var name := ItName(it, Suffixes[s]);
    var tdcAxis := Uniform(1000, -20.0, 20.0);
    if s == 0 then H2(name, TdcTotTitle(ch), Edges(row), tdcAxis)
    else if s == 1 then H2(name, ChannelTitle(ch, ";tot; tdc"), Edges(row), tdcAxis)
    else if s == 2 then H1(name, ChannelTitle(ch, "; tdc"), Uniform(500, -10.0, 10.0))
    else if s == 3 || s == 5 then H2(name, ChannelTitle(ch, " : 1 - <N>;N; tdc"), ChannelAxis, tdcAxis)
    else H2(name, CutTitle(ch), ChannelAxis, tdcAxis)
  }

  /** The names of the seven per-channel histograms of iteration `it`. */
  function ChannelNames(it: int): (r: seq<string>)
    ensures |r| == |Suffixes|
  {
    seq(|Suffixes|, t requires 0 <= t < |Suffixes| => ItName(it, Suffixes[t]))
  }

  function ChannelHists(it: int, row: seq<real>, ch: int): (r: seq<Hist>)
    ensures |r| == |Suffixes|
  {
    seq(|Suffixes|, t requires 0 <= t < |Suffixes| => ChannelHist(it, row, ch, t))
  }

  /** The first `s` of the bookings `names`/`hs` in directory `dir`, in order. */
  function AddPrefix(m: map<string, Hist>, dir: string, names: seq<string>, hs: seq<Hist>, s: int): map<string, Hist>
    requires 0 <= s <= |names| && |names| == |hs|
  {
    if s == 0 then m else AddEntry(AddPrefix(m, dir, names, hs, s - 1), dir, names[s - 1], Some(hs[s - 1]))
  }

  /** Every channel's histograms pair up with the names. */
  predicate HistRowsOk(names: seq<string>, hss: seq<seq<Hist>>)
  {
    forall c :: 0 <= c < |hss| ==> |hss[c]| == |names|
  }

  /** A channel loop over the channels below `hi`: channel `c` books `names` with `hss[c]` in its directory. */
  function BookRows(m: map<string, Hist>, names: seq<string>, hss: seq<seq<Hist>>, hi: int): map<string, Hist>
    requires 0 <= hi <= |hss| && HistRowsOk(names, hss)
  {
    if hi == 0 then m
    else AddPrefix(BookRows(m, names, hss, hi - 1), ChannelDir(hi - 1), names, hss[hi - 1], |names|)
  }

  /** The seven histograms of every channel; `rows` are the TOT edge rows. */
  function HistRows(it: int, rows: seq<seq<real>>): (r: seq<seq<Hist>>)
    ensures |r| == |rows| && HistRowsOk(ChannelNames(it), r)
  {
    seq(|rows|, c requires 0 <= c < |rows| => ChannelHists(it, rows[c], c))
  }

  /** The channel loop of `prepareStepHistograms` over the channels below `hi`; `rows` are the TOT edge rows. */
  function ChannelsBook(m: map<string, Hist>, it: int, rows: seq<seq<real>>, hi: int): map<string, Hist>
    requires 0 <= hi <= |rows|
  {
    BookRows(m, ChannelNames(it), HistRows(it, rows), hi)
  }

  /** Proof step, not a property: one unfolding of `ChannelsBook`, used by the booking loop. */
  lemma ChannelsBookStep(m: map<string, Hist>, it: int, rows: seq<seq<real>>, ch: int)
    requires 0 <= ch < |rows|
    ensures ChannelsBook(m, it, rows, ch + 1) ==
      AddPrefix(ChannelsBook(m, it, rows, ch), ChannelDir(ch), ChannelNames(it), ChannelHists(it, rows[ch], ch), |Suffixes|)
  {
    assert HistRows(it, rows)[ch] == ChannelHists(it, rows[ch], ch);
  }

  /** The outlier-rejection histograms, in "OutlierRejection". */
  function OutlierHist(it: int, s: int): Hist
    requires 0 <= s < 4
  {
    var n := IntToString(it);
    var name := ItName(it, OutlierSuffixes[s]);
    if s == 0 then H1(name, "Outlier Rejection: iteration " + n, Uniform(600, -200.0, 200.0))
    else if s == 1 then H1(name, "Number Of Valid Pairs: iteration " + n, Uniform(49, 0.0, 50.0))
    else H1(name, "Number Of Accepted Detectors: iteration " + n, Uniform(39, 0.0, 40.0))
  }

  const OutlierSuffixes := ["All", "nValidPairs", "nAcceptedWest", "nAcceptedEast"]

  function OutlierNames(it: int): (r: seq<string>)
    ensures |r| == 4
  {
    seq(4, s requires 0 <= s < 4 => ItName(it, OutlierSuffixes[s]))
  }

  function OutlierHists(it: int): (r: seq<Hist>)
    ensures |r| == 4
  {
    seq(4, s requires 0 <= s < 4 => OutlierHist(it, s))
  }

  /** The store and cursor after `prepareStepHistograms` at iteration `it`. */
  function PreparedBook(b: Booked, it: int, rows: seq<seq<real>>): Booked
    requires |rows| == NChannels
  {
    var b1 := OffsetCheckBook(b);
    Booked(AddPrefix(ChannelsBook(b1.m, it, rows, NChannels), OutlierDir, OutlierNames(it), OutlierHists(it), |OutlierNames(it)|), OutlierDir)
  }

  // ---------------------------------------------------------------------
  // What booking guarantees
  // ---------------------------------------------------------------------

  lemma {:induction false} AddPrefixExtends(m: map<string, Hist>, dir: string, names: seq<string>, hs: seq<Hist>, s: int)
    requires 0 <= s <= |names| && |names| == |hs|
    ensures Extends(m, AddPrefix(m, dir, names, hs, s))
    ensures forall t :: 0 <= t < s && |names[t]| > 1 ==> dir + names[t] in AddPrefix(m, dir, names, hs, s)
    ensures AddPrefix(m, dir, names, hs, s).Keys <= m.Keys + set t | 0 <= t < s :: dir + names[t]
  {
    if s > 0 {
      AddPrefixExtends(m, dir, names, hs, s - 1);
    }
  }

  /** A booking under a key that nothing before it used leaves exactly its histogram there. */
  lemma {:induction false} AddPrefixFresh(m: map<string, Hist>, dir: string, names: seq<string>, hs: seq<Hist>, s: int, t: int)
    requires 0 <= t < s <= |names| && |names| == |hs|
    requires |names[t]| > 1 && dir + names[t] !in m
    requires forall t2 :: 0 <= t2 < t ==> names[t2] != names[t]
    ensures dir + names[t] in AddPrefix(m, dir, names, hs, s)
    ensures AddPrefix(m, dir, names, hs, s)[dir + names[t]] == hs[t]
  {
    if t < s - 1 {
      AddPrefixFresh(m, dir, names, hs, s - 1, t);
    } else {
      AddPrefixExtends(m, dir, names, hs, s - 1);
      forall t2 | 0 <= t2 < s - 1
        ensures dir + names[t2] != dir + names[t]
      {
        if dir + names[t2] == dir + names[t] {
          StripPrefix(dir, names[t2], names[t]);
        }
      }
    }
  }

  /** The key of `name` in channel `c`'s directory. */
  function DirKey(c: int, name: string): string
  {
    ChannelDir(c) + name
  }

  /** Every name of `names`, in the directory of every channel below `hi`, is in `r`. */
  predicate ChannelKeysIn(r: map<string, Hist>, names: seq<string>, hi: int)
  {
    forall ch, t :: 0 <= ch < hi && 0 <= t < |names| ==> DirKey(ch, names[t]) in r
  }

  predicate LongNames(names: seq<string>)
  {
    forall t :: 0 <= t < |names| ==> |names[t]| > 1
  }

  lemma ChannelNamesLong(it: int)
    ensures LongNames(ChannelNames(it))
  {
  }

  lemma OutlierNamesLong(it: int)
    ensures LongNames(OutlierNames(it))
  {
  }

  lemma {:induction false} BookRowsExtend(m: map<string, Hist>, names: seq<string>, hss: seq<seq<Hist>>, hi: int)
    requires 0 <= hi <= |hss| && HistRowsOk(names, hss)
    ensures Extends(m, BookRows(m, names, hss, hi))
  {
    if hi > 0 {
      var p := BookRows(m, names, hss, hi - 1);
      BookRowsExtend(m, names, hss, hi - 1);
      AddPrefixExtends(p, ChannelDir(hi - 1), names, hss[hi - 1], |names|);
    }
  }

  /** Booking never removes or replaces an entry. */
  lemma ChannelsBookExtend(m: map<string, Hist>, it: int, rows: seq<seq<real>>, hi: int)
    requires 0 <= hi <= |rows|
    ensures Extends(m, ChannelsBook(m, it, rows, hi))
  {
    BookRowsExtend(m, ChannelNames(it), HistRows(it, rows), hi);
  }

  /** Booking one more channel adds its names and keeps those of the channels before. */
  lemma KeysStep(p: map<string, Hist>, names: seq<string>, hs: seq<Hist>, hi: int)
    requires |names| == |hs| && LongNames(names) && hi >= 1
    requires ChannelKeysIn(p, names, hi - 1)
    ensures ChannelKeysIn(AddPrefix(p, ChannelDir(hi - 1), names, hs, |names|), names, hi)
  {
    var r := AddPrefix(p, ChannelDir(hi - 1), names, hs, |names|);
    AddPrefixExtends(p, ChannelDir(hi - 1), names, hs, |names|);
    forall ch2, t | 0 <= ch2 < hi - 1 && 0 <= t < |names|
      ensures DirKey(ch2, names[t]) in r
    {
      assert DirKey(ch2, names[t]) in p;
    }
  }

  lemma {:induction false} BookRowsKeys(m: map<string, Hist>, names: seq<string>, hss: seq<seq<Hist>>, hi: int)
    requires 0 <= hi <= |hss| && HistRowsOk(names, hss) && LongNames(names)
    ensures ChannelKeysIn(BookRows(m, names, hss, hi), names, hi)
  {
    if hi > 0 {
      BookRowsKeys(m, names, hss, hi - 1);
      KeysStep(BookRows(m, names, hss, hi - 1), names, hss[hi - 1], hi);
    }
  }

  /** After the channel loop up to `hi`, every booked name of those channels is in the store. */
  lemma ChannelsBookKeys(m: map<string, Hist>, it: int, rows: seq<seq<real>>, hi: int)
    requires 0 <= hi <= |rows|
    ensures ChannelKeysIn(ChannelsBook(m, it, rows, hi), ChannelNames(it), hi)
  {
    ChannelNamesLong(it);
    BookRowsKeys(m, ChannelNames(it), HistRows(it, rows), hi);
  }

  /**
   * After booking nothing that was there before has been removed or replaced
   * (first writer wins), and the offset check histogram, every per-channel
   * histogram of the iteration and the outlier histograms are in the store.
   */
  lemma PreparedBookKeys(b: Booked, it: int, rows: seq<seq<real>>)
    requires |rows| == NChannels
    ensures Extends(b.m, PreparedBook(b, it, rows).m)
    ensures CorrectedOffsetsKey in PreparedBook(b, it, rows).m
    ensures ChannelKeysIn(PreparedBook(b, it, rows).m, ChannelNames(it), NChannels)
    ensures forall s :: 0 <= s < 4 ==> OutlierDir + OutlierNames(it)[s] in PreparedBook(b, it, rows).m
    ensures PreparedBook(b, it, rows).dir == OutlierDir
  {
    var b1 := OffsetCheckBook(b);
    var m2 := ChannelsBook(b1.m, it, rows, NChannels);
    ChannelsBookExtend(b1.m, it, rows, NChannels);
    ChannelsBookKeys(b1.m, it, rows, NChannels);
    OutlierNamesLong(it);
    AddPrefixExtends(m2, OutlierDir, OutlierNames(it), OutlierHists(it), |OutlierNames(it)|);
  }

  /** The two histograms `makeCorrections` fits are booked for every channel. */
  lemma FitInputsBooked(b: Booked, it: int, rows: seq<seq<real>>, ch: int)
    requires |rows| == NChannels && IsChannel(ch)
    ensures ChannelKey(ch, it, "tdctot") in PreparedBook(b, it, rows).m
    ensures ChannelKey(ch, it, "tdccor") in PreparedBook(b, it, rows).m
  {
    PreparedBookKeys(b, it, rows);
    var names := ChannelNames(it);
    assert DirKey(ch, names[0]) in PreparedBook(b, it, rows).m;
    assert DirKey(ch, names[1]) in PreparedBook(b, it, rows).m;
    ChannelKeySplit(ch, it, "tdctot");
    ChannelKeySplit(ch, it, "tdccor");
  }

  // ---------------------------------------------------------------------
  // Where each booked histogram ends up
  // ---------------------------------------------------------------------

  /** The directory-qualified names of different channels never collide. */
  lemma DirKeysDiffer(c1: int, s1: string, c2: int, s2: string, it: int)
    requires c1 >= 0 && c2 >= 0 && c1 != c2 && LetterSuffix(s1) && LetterSuffix(s2)
    ensures ChannelDir(c1) + ItName(it, s1) != ChannelDir(c2) + ItName(it, s2)
  {
    ChannelKeySplit(c1, it, s1);
    ChannelKeySplit(c2, it, s2);
    ChannelKeysDiffer(c1, it, s1, c2, it, s2);
  }

  /** Name `t` of a channel is its suffix after the iteration, and differs from the names booked before it. */
  lemma ChannelNameFacts(it: int, t: int)
    requires 0 <= t < |Suffixes|
    ensures ChannelNames(it)[t] == ItName(it, Suffixes[t]) && LetterSuffix(Suffixes[t])
    ensures forall t2 :: 0 <= t2 < t ==> ChannelNames(it)[t2] != ChannelNames(it)[t]
  {
    forall t2 | 0 <= t2 < t
      ensures ChannelNames(it)[t2] != ChannelNames(it)[t]
    {
      assert Suffixes[t2] != Suffixes[t];
      if ChannelNames(it)[t2] == ChannelNames(it)[t] {
        ItNameInjective(it, Suffixes[t2], it, Suffixes[t]);
      }
    }
  }

  /** Channel `ch`'s name `t` is no name of another channel below `hi`. */
  lemma OtherChannelsDiffer(it: int, ch: int, t: int, hi: int)
    requires 0 <= t < |Suffixes| && 0 <= hi <= ch
    ensures forall c, t2 :: 0 <= c < hi && 0 <= t2 < |Suffixes| ==> ChannelDir(ch) + ChannelNames(it)[t] != DirKey(c, ChannelNames(it)[t2])
  {
    var names := ChannelNames(it);
    ChannelNameFacts(it, t);
    forall c, t2 | 0 <= c < hi && 0 <= t2 < |Suffixes|
      ensures ChannelDir(ch) + names[t] != ChannelDir(c) + names[t2]
    {
      ChannelNameFacts(it, t2);
      DirKeysDiffer(ch, Suffixes[t], c, Suffixes[t2], it);
    }
  }

  lemma {:induction false} BookRowsMisses(m: map<string, Hist>, names: seq<string>, hss: seq<seq<Hist>>, hi: int, key: string)
    requires 0 <= hi <= |hss| && HistRowsOk(names, hss) && key !in m
    requires forall c, t :: 0 <= c < hi && 0 <= t < |names| ==> key != DirKey(c, names[t])
    ensures key !in BookRows(m, names, hss, hi)
  {
    if hi > 0 {
      BookRowsMisses(m, names, hss, hi - 1, key);
      AddPrefixExtends(BookRows(m, names, hss, hi - 1), ChannelDir(hi - 1), names, hss[hi - 1], |names|);
      forall t | 0 <= t < |names|
        ensures key != ChannelDir(hi - 1) + names[t]
      {
        assert key != DirKey(hi - 1, names[t]);
      }
    }
  }

  /** A key that no channel below `hi` books, and that was not there before, is still absent. */
  lemma ChannelsBookMisses(m: map<string, Hist>, it: int, rows: seq<seq<real>>, hi: int, key: string)
    requires 0 <= hi <= |rows| && key !in m
    requires forall c, t :: 0 <= c < hi && 0 <= t < |Suffixes| ==> key != DirKey(c, ChannelNames(it)[t])
    ensures key !in ChannelsBook(m, it, rows, hi)
  {
    BookRowsMisses(m, ChannelNames(it), HistRows(it, rows), hi, key);
  }

  /**
   * Booking reaches channel `ch`'s name `t` with nothing of the channels
   * before it and none of its own earlier names under that key: from then on
   * the key holds `hss[ch][t]`.
   */
  lemma {:induction false} BookRowsValue(m: map<string, Hist>, names: seq<string>, hss: seq<seq<Hist>>, hi: int, ch: int, t: int)
    requires 0 <= ch < hi <= |hss| && HistRowsOk(names, hss) && 0 <= t < |names|
    requires |names[t]| > 1 && ChannelDir(ch) + names[t] !in m
    requires forall t2 :: 0 <= t2 < t ==> names[t2] != names[t]
    requires forall c, t2 :: 0 <= c < ch && 0 <= t2 < |names| ==> ChannelDir(ch) + names[t] != DirKey(c, names[t2])
    ensures ChannelDir(ch) + names[t] in BookRows(m, names, hss, hi)
    ensures BookRows(m, names, hss, hi)[ChannelDir(ch) + names[t]] == hss[ch][t]
  {
    var key := ChannelDir(ch) + names[t];
    var p := BookRows(m, names, hss, hi - 1);
    if ch < hi - 1 {
      BookRowsValue(m, names, hss, hi - 1, ch, t);
      AddPrefixExtends(p, ChannelDir(hi - 1), names, hss[hi - 1], |names|);
      ExtendsAt(p, AddPrefix(p, ChannelDir(hi - 1), names, hss[hi - 1], |names|), key);
    } else {
      BookRowsMisses(m, names, hss, hi - 1, key);
      AddPrefixFresh(p, ChannelDir(hi - 1), names, hss[hi - 1], |names|, t);
    }
  }

  /** A histogram of channel `ch` booked under a fresh key is exactly the one `ChannelHist` describes. */
  lemma ChannelsBookValue(m: map<string, Hist>, it: int, rows: seq<seq<real>>, hi: int, ch: int, t: int)
    requires 0 <= ch < hi <= |rows| && 0 <= t < |Suffixes|
    requires ChannelDir(ch) + ChannelNames(it)[t] !in m
    ensures ChannelDir(ch) + ChannelNames(it)[t] in ChannelsBook(m, it, rows, hi)
    ensures ChannelsBook(m, it, rows, hi)[ChannelDir(ch) + ChannelNames(it)[t]] == ChannelHists(it, rows[ch], ch)[t]
  {
    ChannelNameFacts(it, t);
    OtherChannelsDiffer(it, ch, t, ch);
    BookRowsValue(m, ChannelNames(it), HistRows(it, rows), hi, ch, t);
    assert HistRows(it, rows)[ch] == ChannelHists(it, rows[ch], ch);
  }

  /** In the booked store every fresh per-channel key holds exactly its `ChannelHist`. */
  lemma PreparedBookValue(b: Booked, it: int, rows: seq<seq<real>>, ch: int, t: int)
    requires |rows| == NChannels && IsChannel(ch) && 0 <= t < |Suffixes|
    requires ChannelDir(ch) + ChannelNames(it)[t] !in b.m
    ensures ChannelDir(ch) + ChannelNames(it)[t] in PreparedBook(b, it, rows).m
    ensures PreparedBook(b, it, rows).m[ChannelDir(ch) + ChannelNames(it)[t]] == ChannelHist(it, rows[ch], ch, t)
  {
    var b1 := OffsetCheckBook(b);
    ChannelNameFacts(it, t);
    ChannelKeySplit(ch, it, Suffixes[t]);
    TdcTotKeyIsNotOffsetKey(ch, it, Suffixes[t]);
    ChannelsBookValue(b1.m, it, rows, NChannels, ch, t);
    AddPrefixExtends(ChannelsBook(b1.m, it, rows, NChannels), OutlierDir, OutlierNames(it), OutlierHists(it), |OutlierNames(it)|);
  }

  // ---------------------------------------------------------------------
  // makeCorrections
  // ---------------------------------------------------------------------

  /** The histogram whose slice fit gives the next corrections: `tdccor` in differential mode, else `tdctot`. */
  function FitSuffix(differential: bool): (s: string)
    ensures LetterSuffix(s)
  {
    if differential then "tdccor" else "tdctot"
  }

  /** The position of the fitted histogram among the booked suffixes. */
  lemma FitSuffixBooked(differential: bool)
    ensures Suffixes[if differential then 1 else 0] == FitSuffix(differential)
  {
  }

  /**
   * After the booking, the histogram `makeCorrections` fits in channel `ch`
   * is binned in TOT on the channel's current bin edges, provided no earlier
   * step had booked it.
   */
  lemma FitHistAxis(b: Booked, it: int, rows: seq<seq<real>>, ch: int, differential: bool)
    requires |rows| == NChannels && IsChannel(ch)
    requires ChannelKey(ch, it, FitSuffix(differential)) !in b.m
    ensures ChannelKey(ch, it, FitSuffix(differential)) in PreparedBook(b, it, rows).m
    ensures PreparedBook(b, it, rows).m[ChannelKey(ch, it, FitSuffix(differential))].xAxis == Edges(rows[ch])
  {
    var t := if differential then 1 else 0;
    FitSuffixBooked(differential);
    ChannelNameFacts(it, t);
    ChannelKeySplit(ch, it, FitSuffix(differential));
    PreparedBookValue(b, it, rows, ch, t);
  }

  /**
   * `fit(h, b)` is the content of bin `b` of the mean histogram (`_1`) that
   * `FitSlicesY` makes of the 2-D histogram `h`; the fit itself is not modelled.
   */
  type SliceFit = (Hist, int) -> real

  /**
   * The clone of the fitted means stored as `it<N>totcor`: a 1-D histogram on
   * the x axis of `h`, with the title "Channel <ch>" it is given after it was
   * added (the stored object and the clone are the same object).
   */
  function TotcorHist(it: int, ch: int, h: Hist, fit: SliceFit): Hist
  {
    var nb := |AxisEdges(h.xAxis)|;
    H1(ItName(it, "totcor"), "Channel " + IntToString(ch), h.xAxis).(contents := seq(nb + 1, b requires 0 <= b <= nb => fit(h, b)))
  }

  /** A correction bin after the fit gave `f` for it. */
  function NewCorrection(c: real, f: real, it: int, differential: bool): real
  {
    if it == 0 || !differential then f
    else if differential && it >= 1 then c + f
    else c
  }

  /** A correction row after the fit of `h`: bin 0 (underflow) is kept, bins 1..n are updated. */
  function CorrectedRow(row: seq<real>, h: Hist, it: int, differential: bool, fit: SliceFit): (r: seq<real>)
    ensures |r| == |row|
    ensures |row| > 0 ==> r[0] == row[0]
  {
    seq(|row|, b requires 0 <= b < |row| => if b == 0 then row[b] else NewCorrection(row[b], fit(h, b), it, differential))
  }

  /** The store, the correction table and the cursor as `makeCorrections` leaves them. */
  datatype Corrected = Corrected(m: map<string, Hist>, corr: seq<seq<real>>, dir: string)

  predicate RowsOf(corr: seq<seq<real>>, n: int)
  {
    |corr| == NChannels && forall j :: 0 <= j < NChannels ==> |corr[j]| == n + 1
  }

  /** Every live channel below `hi` has the histogram to fit; the source dereferences it unchecked. */
  predicate FitInputs(m: map<string, Hist>, dead: seq<bool>, it: int, differential: bool, hi: int)
    requires |dead| == NChannels && hi <= NChannels
  {
    forall k :: 0 <= k < hi && !dead[k] ==> ChannelKey(k, it, FitSuffix(differential)) in m
  }

  /** The channel loop of `makeCorrections` over the channels below `hi`. */
  function Corrections(c: Corrected, dead: seq<bool>, it: int, n: int, differential: bool, fit: SliceFit, hi: int): (r: Corrected)
    requires |dead| == NChannels && 0 <= hi <= NChannels && RowsOf(c.corr, n)
    requires FitInputs(c.m, dead, it, differential, hi)
    ensures Extends(c.m, r.m) && RowsOf(r.corr, n)
  {
    if hi == 0 then c
    else
      var p := Corrections(c, dead, it, n, differential, fit, hi - 1);
      var k := hi - 1;
      if dead[k] then p
      else
        var h := p.m[ChannelKey(k, it, FitSuffix(differential))];
        Corrected(
          AddEntry(p.m, ChannelDir(k), ItName(it, "totcor"), Some(TotcorHist(it, k, h, fit))),
          p.corr[k := CorrectedRow(p.corr[k], h, it, differential, fit)],
          ChannelDir(k))
  }

  /** The correction row of a dead channel or of a channel not reached keeps its value. */
  lemma {:induction false} CorrectionsUntouchedAt(c: Corrected, dead: seq<bool>, it: int, n: int, differential: bool, fit: SliceFit, hi: int, k: int)
    requires |dead| == NChannels && 0 <= hi <= NChannels && RowsOf(c.corr, n)
    requires FitInputs(c.m, dead, it, differential, hi)
    requires 0 <= k < NChannels && (hi <= k || dead[k])
    ensures Corrections(c, dead, it, n, differential, fit, hi).corr[k] == c.corr[k]
  {
    if hi > 0 {
      CorrectionsUntouchedAt(c, dead, it, n, differential, fit, hi - 1, k);
    }
  }

  /** The correction row of a live channel below `hi` is refitted from the histogram it had before the loop. */
  lemma {:induction false} CorrectionsRefittedAt(c: Corrected, dead: seq<bool>, it: int, n: int, differential: bool, fit: SliceFit, hi: int, k: int)
    requires |dead| == NChannels && 0 <= hi <= NChannels && RowsOf(c.corr, n)
    requires FitInputs(c.m, dead, it, differential, hi)
    requires 0 <= k < hi && !dead[k]
    ensures Corrections(c, dead, it, n, differential, fit, hi).corr[k] ==
      CorrectedRow(c.corr[k], c.m[ChannelKey(k, it, FitSuffix(differential))], it, differential, fit)
  {
    var p := Corrections(c, dead, it, n, differential, fit, hi - 1);
    if k < hi - 1 {
      CorrectionsRefittedAt(c, dead, it, n, differential, fit, hi - 1, k);
    } else {
      var key := ChannelKey(k, it, FitSuffix(differential));
      CorrectionsUntouchedAt(c, dead, it, n, differential, fit, hi - 1, k);
      assert key in c.m;
      ExtendsAt(c.m, p.m, key);
    }
  }

  /** The correction rows: every live channel below `hi` is refitted from the histogram it had before the loop, the rest are untouched. */
  lemma CorrectionsTable(c: Corrected, dead: seq<bool>, it: int, n: int, differential: bool, fit: SliceFit, hi: int)
    requires |dead| == NChannels && 0 <= hi <= NChannels && RowsOf(c.corr, n)
    requires FitInputs(c.m, dead, it, differential, hi)
    ensures forall k :: 0 <= k < NChannels && (hi <= k || dead[k]) ==>
      Corrections(c, dead, it, n, differential, fit, hi).corr[k] == c.corr[k]
    ensures forall k :: 0 <= k < hi && !dead[k] ==>
      Corrections(c, dead, it, n, differential, fit, hi).corr[k] ==
      CorrectedRow(c.corr[k], c.m[ChannelKey(k, it, FitSuffix(differential))], it, differential, fit)
  {
    forall k | 0 <= k < NChannels && (hi <= k || dead[k])
      ensures Corrections(c, dead, it, n, differential, fit, hi).corr[k] == c.corr[k]
    {
      CorrectionsUntouchedAt(c, dead, it, n, differential, fit, hi, k);
    }
    forall k | 0 <= k < hi && !dead[k]
      ensures Corrections(c, dead, it, n, differential, fit, hi).corr[k] ==
        CorrectedRow(c.corr[k], c.m[ChannelKey(k, it, FitSuffix(differential))], it, differential, fit)
    {
      CorrectionsRefittedAt(c, dead, it, n, differential, fit, hi, k);
    }
  }

  /** The keys the loop may add: the `totcor` keys of the live channels below `hi`. */
  lemma {:induction false} CorrectionsKeys(c: Corrected, dead: seq<bool>, it: int, n: int, differential: bool, fit: SliceFit, hi: int)
    requires |dead| == NChannels && 0 <= hi <= NChannels && RowsOf(c.corr, n)
    requires FitInputs(c.m, dead, it, differential, hi)
    ensures forall key :: key in Corrections(c, dead, it, n, differential, fit, hi).m ==>
      key in c.m || exists k :: 0 <= k < hi && !dead[k] && key == ChannelKey(k, it, "totcor")
  {
    if hi > 0 {
      CorrectionsKeys(c, dead, it, n, differential, fit, hi - 1);
      ChannelKeySplit(hi - 1, it, "totcor");
    }
  }

  /** The last channel of the loop, when it is live, adds the clone of its fit of the histogram it had before the loop. */
  lemma CorrectionsLast(c: Corrected, dead: seq<bool>, it: int, n: int, differential: bool, fit: SliceFit, hi: int)
    requires |dead| == NChannels && 0 < hi <= NChannels && RowsOf(c.corr, n)
    requires FitInputs(c.m, dead, it, differential, hi) && !dead[hi - 1]
    ensures Corrections(c, dead, it, n, differential, fit, hi).m ==
      AddEntry(Corrections(c, dead, it, n, differential, fit, hi - 1).m, ChannelDir(hi - 1), ItName(it, "totcor"),
        Some(TotcorHist(it, hi - 1, c.m[ChannelKey(hi - 1, it, FitSuffix(differential))], fit)))
  {
    var fitKey := ChannelKey(hi - 1, it, FitSuffix(differential));
    assert Corrections(c, dead, it, n, differential, fit, hi - 1).m[fitKey] == c.m[fitKey];
  }

  /** The `totcor` key of a channel at or above `hi` is not added by the channels below it. */
  lemma TotcorFreshBelow(c: Corrected, dead: seq<bool>, it: int, n: int, differential: bool, fit: SliceFit, hi: int, ch: int)
    requires |dead| == NChannels && 0 <= hi <= ch && hi <= NChannels && RowsOf(c.corr, n)
    requires FitInputs(c.m, dead, it, differential, hi) && ChannelKey(ch, it, "totcor") !in c.m
    ensures ChannelKey(ch, it, "totcor") !in Corrections(c, dead, it, n, differential, fit, hi).m
  {
    CorrectionsKeys(c, dead, it, n, differential, fit, hi);
    forall k | 0 <= k < hi
      ensures ChannelKey(ch, it, "totcor") != ChannelKey(k, it, "totcor")
    {
      ChannelKeysDiffer(ch, it, "totcor", k, it, "totcor");
    }
  }

  /**
   * Every live channel below `hi` has its `totcor` histogram afterwards; one
   * that no earlier step had stored is the clone of this fit.
   */
  lemma {:induction false} CorrectionsBooked(c: Corrected, dead: seq<bool>, it: int, n: int, differential: bool, fit: SliceFit, hi: int, ch: int)
    requires |dead| == NChannels && 0 <= ch < hi <= NChannels && RowsOf(c.corr, n)
    requires FitInputs(c.m, dead, it, differential, hi) && !dead[ch]
    ensures ChannelKey(ch, it, "totcor") in Corrections(c, dead, it, n, differential, fit, hi).m
    ensures ChannelKey(ch, it, "totcor") !in c.m ==>
      Corrections(c, dead, it, n, differential, fit, hi).m[ChannelKey(ch, it, "totcor")] ==
      TotcorHist(it, ch, c.m[ChannelKey(ch, it, FitSuffix(differential))], fit)
  {
    if ch < hi - 1 {
      CorrectionsBooked(c, dead, it, n, differential, fit, hi - 1, ch);
    } else {
      ChannelKeySplit(ch, it, "totcor");
      CorrectionsLast(c, dead, it, n, differential, fit, hi);
      if ChannelKey(ch, it, "totcor") !in c.m {
        TotcorFreshBelow(c, dead, it, n, differential, fit, hi - 1, ch);
      }
    }
  }

  /**
   * What the next iteration's lookup reads: a live channel's bin comes from
   * the x axis of the histogram this iteration fitted, a dead channel (with
   * no correction histogram from before) always reads bin 0.
   */
  lemma NextLookup(c: Corrected, dead: seq<bool>, n: int, differential: bool, fit: SliceFit, e: Env, ch: int, tot: real)
    requires EnvOk(e) && |dead| == NChannels && RowsOf(c.corr, n) && IsChannel(ch) && e.it >= 1
    requires FitInputs(c.m, dead, e.it - 1, differential, NChannels)
    requires ChannelKey(ch, e.it - 1, "totcor") !in c.m
    ensures !dead[ch] ==>
      BinFor(e, Corrections(c, dead, e.it - 1, n, differential, fit, NChannels).m, ch, tot) ==
      FindBin(c.m[ChannelKey(ch, e.it - 1, FitSuffix(differential))].xAxis, tot)
    ensures dead[ch] ==> BinFor(e, Corrections(c, dead, e.it - 1, n, differential, fit, NChannels).m, ch, tot) == 0
  {
    var it := e.it - 1;
    if !dead[ch] {
      CorrectionsBooked(c, dead, it, n, differential, fit, NChannels, ch);
    } else {
      CorrectionsKeys(c, dead, it, n, differential, fit, NChannels);
      forall k | 0 <= k < NChannels && !dead[k]
        ensures ChannelKey(ch, it, "totcor") != ChannelKey(k, it, "totcor")
      {
        ChannelKeysDiffer(ch, it, "totcor", k, it, "totcor");
      }
    }
  }

  /** A correction bin after the fits `fs` of iterations 0, 1, ..., |fs| - 1, starting from `c0`. */
  function BinHistory(c0: real, fs: seq<real>, differential: bool): real
  {
    if fs == [] then c0
    else NewCorrection(BinHistory(c0, fs[..|fs| - 1], differential), fs[|fs| - 1], |fs| - 1, differential)
  }

  function Sum(fs: seq<real>): real
  {
    if fs == [] then 0.0 else Sum(fs[..|fs| - 1]) + fs[|fs| - 1]
  }

  /**
   * In differential mode a bin accumulates: after iterations 0..K it is the
   * sum of their fits, whatever it held before. Otherwise it is the last fit.
   */
  lemma {:induction false} DifferentialSums(c0: real, fs: seq<real>)
    requires fs != []
    ensures BinHistory(c0, fs, true) == Sum(fs)
    ensures BinHistory(c0, fs, false) == fs[|fs| - 1]
  {
    if |fs| > 1 {
      DifferentialSums(c0, fs[..|fs| - 1]);
    } else {
      assert fs[..0] == [];
    }
  }
}

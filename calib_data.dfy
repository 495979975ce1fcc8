/**
 * The detector layout, run constants, configuration, events, iteration
 * schedules and histogram names the calibration engine works with.
 */
module CalibData {

  import opened Text

  /** 38 VPD channels: west 0..18, east 19..37 (`startWest`/`endWest`/`startEast`/`endEast`). */
  const NChannels := 38
  const StartWest := 0
  const EndWest := 19
  const StartEast := 19
  const EndEast := 38

  predicate IsChannel(j: int) { StartWest <= j < EndEast }
  predicate IsWest(j: int) { StartWest <= j < EndWest }
  predicate IsEast(j: int) { StartEast <= j < EndEast }

  /** First and one-past-last channel of the bank (side) that `j` belongs to. */
  function BankStart(j: int): (lo: int)
    requires IsChannel(j)
    ensures lo <= j < BankEnd(j)
    ensures IsWest(j) <==> lo == StartWest
  {
    if IsEast(j) then StartEast else StartWest
  }

  function BankEnd(j: int): (hi: int)
    requires IsChannel(j)
    ensures IsWest(j) ==> hi == EndWest
    ensures IsEast(j) ==> hi == EndEast
  {
    if IsEast(j) then EndEast else EndWest
  }

  /**
   * The compile-time constants of the run: the default number of TOT bins,
   * the minimum hit count, the TOT window and the speed of light used to turn
   * a time difference into a vertex position.
   */
  datatype Constants = Constants(numTOTBins: int, minHits: int, minTOT: real, maxTOT: real, c: real)

  predicate ConstantsOk(k: Constants)
  {
    k.numTOTBins >= 1 && k.minTOT < k.maxTOT
  }

  /** The configuration keys the engine reads. */
  datatype Config = Config(
    numTOTBins: int,
    outlierRejection: bool,
    removeOffset: bool,
    differential: bool,
    baseName: string,
    rootOutput: string,
    paramsOutput: string,
    paramsInput: string)

  /** One event of the chain, as far as the calibration reads it. */
  datatype Event = Event(
    tdc: seq<real>,
    tot: seq<real>,
    numHits: seq<int>,
    vertexX: real,
    vertexY: real,
    vertexZ: real,
    nTofHits: int,
    numberOfVpdEast: int,
    numberOfVpdWest: int,
    vpdLeWest0: real)

  predicate EventOk(ev: Event)
  {
    |ev.tdc| == NChannels && |ev.tot| == NChannels && |ev.numHits| == NChannels
  }

  predicate EventsOk(evs: seq<Event>)
  {
    forall i :: 0 <= i < |evs| ==> EventOk(evs[i])
  }

  /** The TOT bin count: the configured value when it is at least one, else the default. */
  function TOTBinCount(cfg: Config, k: Constants): (n: int)
    ensures cfg.numTOTBins >= 1 ==> n == cfg.numTOTBins
    ensures cfg.numTOTBins < 1 ==> n == k.numTOTBins
    ensures ConstantsOk(k) ==> n >= 1
  {
    if cfg.numTOTBins >= 1 then cfg.numTOTBins else k.numTOTBins
  }

  /** The outlier-rejection vertex cut (cm) for an iteration. */
  function VzCut(it: int): (cut: real)
    ensures it <= 0 ==> cut == 40.0
    ensures it == 1 ==> cut == 20.0
    ensures it == 2 ==> cut == 15.0
    ensures it == 3 ==> cut == 8.0
    ensures it >= 4 ==> cut == 5.0
  {
    if it == 0 then 40.0
    else if it == 1 then 20.0
    else if it == 2 then 15.0
    else if it == 3 then 8.0
    else if it >= 4 then 5.0
    else 40.0
  }

  /** The same-bank average cut (ns) for an iteration. */
  function OutlierCut(it: int): (cut: real)
    ensures it == 1 ==> cut == 1.0
    ensures it >= 2 ==> cut == 0.6
    ensures it <= 0 ==> cut == 2.0
  {
    if it == 1 then 1.0 else if it >= 2 then 0.6 else 2.0
  }

  /** Both schedules only tighten as the iterations go on. */
  lemma SchedulesTighten(i: int, j: int)
    requires 0 <= i <= j
    ensures VzCut(j) <= VzCut(i) && OutlierCut(j) <= OutlierCut(i)
  {
  }

  /** The TOT window of outlier rejection, the step and the lookups: `maxTOT` itself is inside. */
  predicate InAnalysisWindow(k: Constants, tot: real)
  {
    !(tot <= k.minTOT || tot > k.maxTOT)
  }

  /** The TOT window of the binning and of the initial offsets: both ends are outside. */
  predicate InOpenWindow(k: Constants, tot: real)
  {
    k.minTOT < tot < k.maxTOT
  }

  /** The directory of a channel's histograms, `"channel" << ch`. */
  function ChannelDir(ch: int): string
  {
    "channel" + IntToString(ch)
  }

  /** A per-iteration histogram name, `"it" << it << suffix`. */
  function ItName(it: int, suffix: string): string
  {
    "it" + (IntToString(it) + suffix)
  }

  /** The store key of a per-iteration histogram of a channel. */
  function ChannelKey(ch: int, it: int, suffix: string): string
  {
    "channel" + (IntToString(ch) + ItName(it, suffix))
  }

  /** The key is what the store builds from the channel directory and the name. */
  lemma ChannelKeySplit(ch: int, it: int, suffix: string)
    ensures ChannelKey(ch, it, suffix) == ChannelDir(ch) + ItName(it, suffix)
  {
  }

  /** A suffix that cannot be mistaken for more digits of an iteration number. */
  predicate LetterSuffix(s: string)
  {
    |s| > 0 && !IsDigit(s[0]) && s[0] != '-'
  }

  /**
   * Channel keys are unambiguous: the channel number, the iteration number and
   * the suffix can all be read back from the key.
   */
  lemma ChannelKeyInjective(ch1: int, it1: int, s1: string, ch2: int, it2: int, s2: string)
    requires ch1 >= 0 && ch2 >= 0
    requires LetterSuffix(s1) && LetterSuffix(s2)
    requires ChannelKey(ch1, it1, s1) == ChannelKey(ch2, it2, s2)
    ensures ch1 == ch2 && it1 == it2 && s1 == s2
  {
    var x1, x2 := ItName(it1, s1), ItName(it2, s2);
    StripPrefix("channel", NatToString(ch1) + x1, NatToString(ch2) + x2);
    DigitPrefixUnique(NatToString(ch1), x1, NatToString(ch2), x2);
    NatToStringInjective(ch1, ch2);
    ItNameInjective(it1, s1, it2, s2);
  }

  lemma ItNameInjective(it1: int, s1: string, it2: int, s2: string)
    requires LetterSuffix(s1) && LetterSuffix(s2)
    requires ItName(it1, s1) == ItName(it2, s2)
    ensures it1 == it2 && s1 == s2
  {
    StripPrefix("it", IntToString(it1) + s1, IntToString(it2) + s2);
    IntPrefixUnique(it1, s1, it2, s2);
  }

  /** Keys of different channels, iterations or suffixes differ. */
  lemma ChannelKeysDiffer(ch1: int, it1: int, s1: string, ch2: int, it2: int, s2: string)
    requires ch1 >= 0 && ch2 >= 0
    requires LetterSuffix(s1) && LetterSuffix(s2)
    requires ch1 != ch2 || it1 != it2 || s1 != s2
    ensures ChannelKey(ch1, it1, s1) != ChannelKey(ch2, it2, s2)
  {
    if ChannelKey(ch1, it1, s1) == ChannelKey(ch2, it2, s2) {
      ChannelKeyInjective(ch1, it1, s1, ch2, it2, s2);
    }
  }
}

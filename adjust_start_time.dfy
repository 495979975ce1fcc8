/**
 * The parameter-file transform script (`adjustStartTime`): it copies 38
 * channel records, clamping every bin edge above 40 ns to 40 ns and shifting
 * every non-zero correction by minus the measured mean start time.
 */
module AdjustStartTime {

  import opened Tokens

  /** Number of channel records the script copies. */
  const Records := 38

  /** Largest bin edge the output keeps, in ns. */
  const MaxEdge: real := 40.0

  function ClampEdge(bv: real): (r: real)
    ensures r <= MaxEdge
    ensures bv <= MaxEdge ==> r == bv
    ensures bv > MaxEdge ==> r == MaxEdge
  {
    if bv > MaxEdge then MaxEdge else bv
  }

  /** A correction of exactly 0.0 is kept; any other is moved by minus the mean start time. */
  function ShiftCorrection(bv: real, mean: real): (r: real)
    ensures bv == 0.0 ==> r == 0.0
    ensures bv != 0.0 ==> r == bv - mean
  {
    var tdt := if 0.0 == bv then 0.0 else -mean;
    bv + tdt
  }

  /** What the script has read and written so far. */
  datatype Pass = Pass(r: Reader, out: seq<Token>)

  /** One edge read (`bv` starts at -1) and its clamped value written. */
  function EdgeStep(st: Pass): Pass
  {
    var res := ReadReal(st.r, -1.0);
    Pass(res.1, st.out + [Real(ClampEdge(res.0))])
  }

  /** One correction read (`bv` starts at -1) and its shifted value written. */
  function CorrectionStep(st: Pass, mean: real): Pass
  {
    var res := ReadReal(st.r, -1.0);
    Pass(res.1, st.out + [Real(ShiftCorrection(res.0, mean))])
  }

  function CopyEdges(st: Pass, count: int): Pass
    decreases count
  {
    if count <= 0 then st else CopyEdges(EdgeStep(st), count - 1)
  }

  function CopyCorrections(st: Pass, count: int, mean: real): Pass
    decreases count
  {
    if count <= 0 then st else CopyCorrections(CorrectionStep(st, mean), count - 1, mean)
  }

  /** Channel and bin count read (each starts at -1) and copied. */
  function HeaderStep(st: Pass): (Pass, int)
  {
    var c := ReadInt(st.r, -1);
    var n := ReadInt(c.1, -1);
    (Pass(n.1, st.out + [Int(c.0), Int(n.0)]), n.0)
  }

  /** One channel record: channel and bin count copied, then nBins + 1 edges and nBins + 1 corrections. */
  function CopyRecord(st: Pass, mean: real): Pass
  {
    var h := HeaderStep(st);
    CopyCorrections(CopyEdges(h.0, h.1 + 1), h.1 + 1, mean)
  }

  /** Records `done`, …, 37 copied from `st` on. */
  function CopyRecords(st: Pass, done: nat, mean: real): Pass
    decreases Records - done
  {
    if done >= Records then st else CopyRecords(CopyRecord(st, mean), done + 1, mean)
  }

  /** The output file for an input file and a time shift. */
  function Adjusted(input: seq<Token>, mean: real): seq<Token>
  {
    CopyRecords(Pass(Open(input), []), 0, mean).out
  }

  /** The edge loop of one record: nBins + 1 values read, clamped to 40 ns and written. */
  method CopyEdgeLoop(st: Pass, nBins: int) returns (st': Pass)
    ensures st' == CopyEdges(st, nBins + 1)
  {
    var inData, outfile := st.r, st.out;
    var iBin := 0;
    while iBin <= nBins
      invariant 0 <= iBin <= (if nBins + 1 < 0 then 0 else nBins + 1)
      invariant CopyEdges(Pass(inData, outfile), nBins + 1 - iBin) == CopyEdges(st, nBins + 1)
    {
      ghost var before := Pass(inData, outfile);
      var bv := -1.0;
      var rr := ReadReal(inData, bv);
      bv, inData := rr.0, rr.1;
      if bv > 40.0 {
        bv := 40.0;
      }
      outfile := outfile + [Real(bv)];
      assert Pass(inData, outfile) == EdgeStep(before);
      iBin := iBin + 1;
    }
    st' := Pass(inData, outfile);
  }

  /** The correction loop of one record: nBins + 1 values read, moved by minus `mean` unless exactly 0, and written. */
  method CopyCorrectionLoop(st: Pass, nBins: int, mean: real) returns (st': Pass)
    ensures st' == CopyCorrections(st, nBins + 1, mean)
  {
    var inData, outfile := st.r, st.out;
    var iBin := 0;
    while iBin <= nBins
      invariant 0 <= iBin <= (if nBins + 1 < 0 then 0 else nBins + 1)
      invariant CopyCorrections(Pass(inData, outfile), nBins + 1 - iBin, mean) == CopyCorrections(st, nBins + 1, mean)
    {
      ghost var before := Pass(inData, outfile);
      var bv := -1.0;
      var tdt := -mean;
      var rr := ReadReal(inData, bv);
      bv, inData := rr.0, rr.1;
      if 0.0 == bv {
        tdt := 0.0;
      }
      outfile := outfile + [Real(bv + tdt)];
      assert Pass(inData, outfile) == CorrectionStep(before, mean);
      iBin := iBin + 1;
    }
    st' := Pass(inData, outfile);
  }

  /** One pass of the channel loop: header, edges and corrections of one record. */
  method CopyRecordOnce(st: Pass, mean: real) returns (st': Pass)
    ensures st' == CopyRecord(st, mean)
  {
    var channel, nBins := -1, -1;
    var ri := ReadInt(st.r, channel);
    channel := ri.0;
    ri := ReadInt(ri.1, nBins);
    nBins := ri.0;
    st' := Pass(ri.1, st.out + [Int(channel), Int(nBins)]);
    assert HeaderStep(st) == (st', nBins);
    st' := CopyEdgeLoop(st', nBins);
    st' := CopyCorrectionLoop(st', nBins, mean);
  }

  /** The channel loop: 38 records copied from `st` on. */
  method CopyRecordLoop(st: Pass, mean: real) returns (st': Pass)
    ensures st' == CopyRecords(st, 0, mean)
  {
    st' := st;
    for i := 0 to Records
      invariant CopyRecords(st', i, mean) == CopyRecords(st, 0, mean)
    {
      st' := CopyRecordOnce(st', mean);
    }
  }

  /**
   * `adjustStartTime(currentMeanOfFinalTOFDist, vpdParams)`: reads the
   * parameter file token by token and returns what it writes to the output.
   */
  method Adjust(currentMeanOfFinalTOFDist: real, vpdParams: seq<Token>) returns (outfile: seq<Token>)
    ensures outfile == Adjusted(vpdParams, currentMeanOfFinalTOFDist)
  {
    var st := CopyRecordLoop(Pass(Open(vpdParams), []), currentMeanOfFinalTOFDist);
    outfile := st.out;
  }

  /** A well-formed channel record as the calibration writes it. */
  datatype Record = Record(channel: int, nBins: nat, edges: seq<real>, corrections: seq<real>)

  predicate WellFormed(rec: Record)
  {
    |rec.edges| == rec.nBins + 1 && |rec.corrections| == rec.nBins + 1
  }

  /** The record layout on file: channel, nBins, the nBins + 1 edges, the nBins + 1 corrections. */
  function Encode(rec: Record): seq<Token>
  {
    [Int(rec.channel), Int(rec.nBins)] + RealTokens(rec.edges) + RealTokens(rec.corrections)
  }

  function EncodeAll(recs: seq<Record>): seq<Token>
  {
    if recs == [] then [] else Encode(recs[0]) + EncodeAll(recs[1..])
  }

  function ClampAll(vs: seq<real>): (r: seq<real>)
    ensures |r| == |vs|
  {
    if vs == [] then [] else [ClampEdge(vs[0])] + ClampAll(vs[1..])
  }

  function ShiftAll(vs: seq<real>, mean: real): (r: seq<real>)
    ensures |r| == |vs|
  {
    if vs == [] then [] else [ShiftCorrection(vs[0], mean)] + ShiftAll(vs[1..], mean)
  }

  lemma {:induction false} ClampAllAt(vs: seq<real>, i: int)
    requires 0 <= i < |vs|
    ensures ClampAll(vs)[i] == ClampEdge(vs[i])
    decreases |vs|
  {
    if i > 0 {
      ClampAllAt(vs[1..], i - 1);
    }
  }

  lemma {:induction false} ShiftAllAt(vs: seq<real>, mean: real, i: int)
    requires 0 <= i < |vs|
    ensures ShiftAll(vs, mean)[i] == ShiftCorrection(vs[i], mean)
    decreases |vs|
  {
    if i > 0 {
      ShiftAllAt(vs[1..], mean, i - 1);
    }
  }

  /** The transform of one record: same channel and bin count, edges clamped, non-zero corrections shifted. */
  function AdjustRecord(rec: Record, mean: real): (r: Record)
    requires WellFormed(rec)
    ensures WellFormed(r) && r.channel == rec.channel && r.nBins == rec.nBins
  {
    Record(rec.channel, rec.nBins, ClampAll(rec.edges), ShiftAll(rec.corrections, mean))
  }

  /** Every edge of the transform is the clamped edge and at most 40 ns; every correction is the shifted one. */
  lemma AdjustRecordValues(rec: Record, mean: real, i: int)
    requires WellFormed(rec) && 0 <= i <= rec.nBins
    ensures AdjustRecord(rec, mean).edges[i] == ClampEdge(rec.edges[i]) <= MaxEdge
    ensures AdjustRecord(rec, mean).corrections[i] == ShiftCorrection(rec.corrections[i], mean)
  {
    ClampAllAt(rec.edges, i);
    ShiftAllAt(rec.corrections, mean, i);
  }

  function AdjustAll(recs: seq<Record>, mean: real): (rs: seq<Record>)
    requires forall i :: 0 <= i < |recs| ==> WellFormed(recs[i])
    ensures |rs| == |recs|
  {
    if recs == [] then [] else [AdjustRecord(recs[0], mean)] + AdjustAll(recs[1..], mean)
  }

  lemma {:induction false} CopyEdgesOfReals(vs: seq<real>, more: seq<Token>, out: seq<Token>)
    ensures CopyEdges(Pass(Reader(RealTokens(vs) + more, false), out), |vs|)
            == Pass(Reader(more, false), out + RealTokens(ClampAll(vs)))
    decreases |vs|
  {
    if vs == [] {
      assert RealTokens(vs) + more == more;
    } else {
      var out1 := out + [Real(ClampEdge(vs[0]))];
      assert RealTokens(vs) + more == [Real(vs[0])] + (RealTokens(vs[1..]) + more);
      assert EdgeStep(Pass(Reader(RealTokens(vs) + more, false), out)) == Pass(Reader(RealTokens(vs[1..]) + more, false), out1);
      CopyEdgesOfReals(vs[1..], more, out1);
    }
  }

  lemma {:induction false} CopyCorrectionsOfReals(vs: seq<real>, more: seq<Token>, out: seq<Token>, mean: real)
    ensures CopyCorrections(Pass(Reader(RealTokens(vs) + more, false), out), |vs|, mean)
            == Pass(Reader(more, false), out + RealTokens(ShiftAll(vs, mean)))
    decreases |vs|
  {
    if vs == [] {
      assert RealTokens(vs) + more == more;
    } else {
      var out1 := out + [Real(ShiftCorrection(vs[0], mean))];
      assert RealTokens(vs) + more == [Real(vs[0])] + (RealTokens(vs[1..]) + more);
      assert CorrectionStep(Pass(Reader(RealTokens(vs) + more, false), out), mean)
          == Pass(Reader(RealTokens(vs[1..]) + more, false), out1);
      CopyCorrectionsOfReals(vs[1..], more, out1, mean);
    }
  }

  /** Reading one encoded record writes the encoding of its transform. */
  lemma CopyRecordOfEncoded(rec: Record, more: seq<Token>, out: seq<Token>, mean: real)
    requires WellFormed(rec)
    ensures CopyRecord(Pass(Reader(Encode(rec) + more, false), out), mean)
            == Pass(Reader(more, false), out + Encode(AdjustRecord(rec, mean)))
  {
    var rest1 := RealTokens(rec.edges) + (RealTokens(rec.corrections) + more);
    var out1 := out + [Int(rec.channel), Int(rec.nBins)];
    assert Encode(rec) + more == [Int(rec.channel), Int(rec.nBins)] + rest1;
    assert HeaderStep(Pass(Reader(Encode(rec) + more, false), out)) == (Pass(Reader(rest1, false), out1), rec.nBins);
    CopyEdgesOfReals(rec.edges, RealTokens(rec.corrections) + more, out1);
    CopyCorrectionsOfReals(rec.corrections, more, out1 + RealTokens(ClampAll(rec.edges)), mean);
  }

  /** Proof step, not a property: `EncodeAll` unfolded at its first record. */
  lemma EncodeAllCons(recs: seq<Record>, more: seq<Token>)
    requires recs != []
    ensures EncodeAll(recs) + more == Encode(recs[0]) + (EncodeAll(recs[1..]) + more)
  {
  }

  /** Proof step, not a property: `AdjustAll` unfolded at its first record, after `out`. */
  lemma AdjustAllCons(recs: seq<Record>, out: seq<Token>, mean: real)
    requires recs != []
    requires forall i :: 0 <= i < |recs| ==> WellFormed(recs[i])
    ensures out + Encode(AdjustRecord(recs[0], mean)) + EncodeAll(AdjustAll(recs[1..], mean))
            == out + EncodeAll(AdjustAll(recs, mean))
  {
    var rs := AdjustAll(recs, mean);
    assert rs[0] == AdjustRecord(recs[0], mean) && rs[1..] == AdjustAll(recs[1..], mean);
  }

  lemma {:induction false} CopyRecordsOfEncoded(recs: seq<Record>, more: seq<Token>, out: seq<Token>, mean: real)
    requires |recs| <= Records
    requires forall i :: 0 <= i < |recs| ==> WellFormed(recs[i])
    ensures CopyRecords(Pass(Reader(EncodeAll(recs) + more, false), out), Records - |recs|, mean)
            == Pass(Reader(more, false), out + EncodeAll(AdjustAll(recs, mean)))
    decreases |recs|
  {
    if recs == [] {
      assert EncodeAll(recs) + more == more;
    } else {
      var tail := EncodeAll(recs[1..]) + more;
      var out1 := out + Encode(AdjustRecord(recs[0], mean));
      EncodeAllCons(recs, more);
      CopyRecordOfEncoded(recs[0], tail, out, mean);
      CopyRecordsOfEncoded(recs[1..], more, out1, mean);
      AdjustAllCons(recs, out, mean);
    }
  }

  /**
   * On a file holding 38 well-formed records (and anything after them), the
   * output is exactly the 38 transformed records in the same layout.
   */
  lemma {:induction false} AdjustedEncoded(recs: seq<Record>, more: seq<Token>, mean: real)
    requires |recs| == Records
    requires forall i :: 0 <= i < |recs| ==> WellFormed(recs[i])
    ensures Adjusted(EncodeAll(recs) + more, mean) == EncodeAll(AdjustAll(recs, mean))
  {
    CopyRecordsOfEncoded(recs, more, [], mean);
  }

  lemma {:induction false} ClampAllIdentity(vs: seq<real>)
    requires forall i :: 0 <= i < |vs| ==> vs[i] <= MaxEdge
    ensures ClampAll(vs) == vs
    decreases |vs|
  {
    if vs != [] {
      ClampAllIdentity(vs[1..]);
    }
  }

  lemma {:induction false} ShiftAllIdentity(vs: seq<real>)
    ensures ShiftAll(vs, 0.0) == vs
    decreases |vs|
  {
    if vs != [] {
      ShiftAllIdentity(vs[1..]);
    }
  }

  lemma {:induction false} AdjustAllIdentity(recs: seq<Record>)
    requires forall i :: 0 <= i < |recs| ==> WellFormed(recs[i])
    requires forall i, j :: 0 <= i < |recs| && 0 <= j < |recs[i].edges| ==> recs[i].edges[j] <= MaxEdge
    ensures AdjustAll(recs, 0.0) == recs
    decreases |recs|
  {
    if recs != [] {
      ClampAllIdentity(recs[0].edges);
      ShiftAllIdentity(recs[0].corrections);
      AdjustAllIdentity(recs[1..]);
    }
  }

  /** With mean 0 the script reproduces a file of 38 records whose edges are all at most 40 ns. */
  lemma IdentityAtZeroShift(recs: seq<Record>, more: seq<Token>)
    requires |recs| == Records
    requires forall i :: 0 <= i < |recs| ==> WellFormed(recs[i])
    requires forall i, j :: 0 <= i < |recs| && 0 <= j < |recs[i].edges| ==> recs[i].edges[j] <= MaxEdge
    ensures Adjusted(EncodeAll(recs) + more, 0.0) == EncodeAll(recs)
  {
    AdjustedEncoded(recs, more, 0.0);
    AdjustAllIdentity(recs);
  }
}

/**
 * The parameter file `writeParameters` exports and `readParameters` imports:
 * per channel, its number (1-based), the bin count, the TOT bin edges and the
 * correction values, as a stream of numeric tokens.
 */
module Parameters {

  import opened Wrappers
  import opened Tokens
  import opened CalibData

  /** The value folded into every exported correction of channel `j`. */
  function ExportOffset(removeOffset: bool, offsets: seq<real>, westMinusEast: real, j: int): (off: real)
    requires |offsets| == NChannels && IsChannel(j)
    ensures !removeOffset ==> off == 0.0
    ensures removeOffset && IsWest(j) ==> off == offsets[j]
    ensures removeOffset && IsEast(j) ==> off == offsets[j] + westMinusEast
  {
    if !removeOffset then 0.0
    else if StartEast <= j < EndEast then offsets[j] + westMinusEast
    else offsets[j]
  }

  /** The exporting tables: edge rows and correction rows of n+1 entries, and the word past each correction row. */
  datatype Tables = Tables(n: int, totBins: seq<seq<real>>, corr: seq<seq<real>>, pastEnd: seq<real>)

  predicate TablesOk(t: Tables)
  {
    t.n >= 1 && |t.totBins| == NChannels && |t.corr| == NChannels && |t.pastEnd| == NChannels &&
    (forall j :: 0 <= j < NChannels ==> |t.totBins[j]| == t.n + 1 && |t.corr[j]| == t.n + 1)
  }

  /** `correction[j][b]`; the index n+1 reads the word past the row. */
  function Word(t: Tables, j: int, b: int): real
    requires TablesOk(t) && IsChannel(j) && 0 <= b <= t.n + 1
  {
    if b <= t.n then t.corr[j][b] else t.pastEnd[j]
  }

  /** The exported correction list of channel `j`: the words at indices 1..n+1, plus the offset. */
  function ExportedCorrections(t: Tables, j: int, off: real): (vs: seq<real>)
    requires TablesOk(t) && IsChannel(j)
    ensures |vs| == t.n + 1
    ensures forall i :: 0 <= i <= t.n ==> vs[i] == Word(t, j, i + 1) + off
  {
    seq(t.n + 1, i requires 0 <= i <= t.n => Word(t, j, i + 1) + off)
  }

  /** The record of channel `j`. */
  function Record(t: Tables, j: int, off: real): seq<Token>
    requires TablesOk(t) && IsChannel(j)
  {
    [Int(j + 1), Int(t.n)] + (RealTokens(t.totBins[j]) + RealTokens(ExportedCorrections(t, j, off)))
  }

  /** The record of every channel, in channel order. */
  function Records(t: Tables, removeOffset: bool, offsets: seq<real>, westMinusEast: real): (rs: seq<seq<Token>>)
    requires TablesOk(t) && |offsets| == NChannels
    ensures |rs| == NChannels
    ensures forall j :: 0 <= j < NChannels ==> rs[j] == Record(t, j, ExportOffset(removeOffset, offsets, westMinusEast, j))
  {
    seq(NChannels, j requires 0 <= j < NChannels => Record(t, j, ExportOffset(removeOffset, offsets, westMinusEast, j)))
  }

  /** The records of channels `lo` up to the last, in channel order. */
  function RecordsFrom(t: Tables, removeOffset: bool, offsets: seq<real>, westMinusEast: real, lo: int): seq<Token>
    requires TablesOk(t) && |offsets| == NChannels && 0 <= lo <= NChannels
  {
    Join(Records(t, removeOffset, offsets, westMinusEast)[lo..])
  }

  /** The records from `lo` on are the record of `lo`, then those from `lo + 1` on. */
  lemma RecordsFromStep(t: Tables, removeOffset: bool, offsets: seq<real>, westMinusEast: real, lo: int)
    requires TablesOk(t) && |offsets| == NChannels && 0 <= lo < NChannels
    ensures RecordsFrom(t, removeOffset, offsets, westMinusEast, lo) ==
      Record(t, lo, ExportOffset(removeOffset, offsets, westMinusEast, lo)) + RecordsFrom(t, removeOffset, offsets, westMinusEast, lo + 1)
  {
    JoinFront(Records(t, removeOffset, offsets, westMinusEast), lo);
  }

  /** A written file: its name and contents. */
  datatype File = File(name: string, tokens: seq<Token>)

  /** `writeParameters`: nothing is written when the output name has at most four characters. */
  function Export(t: Tables, outName: string, removeOffset: bool, offsets: seq<real>, westMinusEast: real): (f: Option<File>)
    requires TablesOk(t) && |offsets| == NChannels
    ensures f.None? <==> |outName| <= 4
    ensures f.Some? ==> f.value.name == outName
  {
    if |outName| <= 4 then None
    else Some(File(outName, Join(Records(t, removeOffset, offsets, westMinusEast))))
  }

  // ---------------------------------------------------------------------
  // Import
  // ---------------------------------------------------------------------

  /** What an import works on: the two tables, the `good` flag and the stream. */
  datatype Import = Import(totBins: seq<seq<real>>, corr: seq<seq<real>>, good: bool, r: Reader)

  /** Both tables have a row of n+1 entries per channel. */
  predicate RowsOk(totBins: seq<seq<real>>, corr: seq<seq<real>>, n: int)
  {
    |totBins| == NChannels && |corr| == NChannels &&
    (forall j :: 0 <= j < NChannels ==> |totBins[j]| == n + 1 && |corr[j]| == n + 1)
  }

  predicate ImportOk(st: Import, n: int)
  {
    RowsOk(st.totBins, st.corr, n)
  }

  /** `cnt` extractions into a `double` that starts as `tmp`: the values stored, and the stream after them. */
  function ReadReals(r: Reader, tmp: real, cnt: nat): (res: (seq<real>, Reader))
    ensures |res.0| == cnt
    decreases cnt
  {
    if cnt == 0 then ([], r)
    else
      var first := ReadReal(r, tmp);
      var more := ReadReals(first.1, first.0, cnt - 1);
      ([first.0] + more.0, more.1)
  }

  /** One more extraction: the values read so far grow by the one just read, and the rest is read from the stream after it. */
  lemma ReadRealsStep(r: Reader, tmp: real, cnt: nat, done: seq<real>)
    requires cnt > 0
    ensures var first := ReadReal(r, tmp);
      var more := ReadReals(first.1, first.0, cnt - 1);
      done + ReadReals(r, tmp, cnt).0 == (done + [first.0]) + more.0 &&
      ReadReals(r, tmp, cnt).1 == more.1
  {
    var first := ReadReal(r, tmp);
    var more := ReadReals(first.1, first.0, cnt - 1);
    assert done + ([first.0] + more.0) == (done + [first.0]) + more.0;
  }

  /** The value of the carried variable after the reads `vs`. */
  function LastOr(vs: seq<real>, tmp: real): real
  {
    if vs == [] then tmp else vs[|vs| - 1]
  }

  /** `row` with its first |vs| entries replaced by `vs`. */
  function Overwrite(row: seq<real>, vs: seq<real>): (r: seq<real>)
    requires |vs| <= |row|
    ensures |r| == |row|
    ensures forall i :: 0 <= i < |vs| ==> r[i] == vs[i]
    ensures forall i :: |vs| <= i < |row| ==> r[i] == row[i]
  {
    vs + row[|vs|..]
  }

  /** How many values per list a record with the expected bin count `n` holds for the reader. */
  function ListLength(n: int): int
  {
    if n <= 50 then n + 1 else n
  }

  /** One pass of the import loop. */
  function ReadRecord(st: Import, n: int): (r: Import)
    requires n >= 1 && ImportOk(st, n)
    ensures ImportOk(r, n)
  {
    var (channel, r1) := ReadInt(st.r, -1);
    var (tBins, r2) := ReadInt(r1, 0);
    if 1 <= channel <= NChannels && tBins == n then
      var cnt := ListLength(tBins);
      var (edges, r3) := ReadReals(r2, 0.0, cnt);
      var (cs, r4) := ReadReals(r3, LastOr(edges, 0.0), cnt);
      Import(
        st.totBins[channel - 1 := Overwrite(st.totBins[channel - 1], edges)],
        st.corr[channel - 1 := Overwrite(st.corr[channel - 1], cs)],
        st.good, r4)
    else
      st.(good := false, r := r2)
  }

  /** `k` passes of the import loop. */
  function ReadRecords(st: Import, n: int, k: nat): (r: Import)
    requires n >= 1 && ImportOk(st, n)
    ensures ImportOk(r, n)
    decreases k
  {
    if k == 0 then st else ReadRecords(ReadRecord(st, n), n, k - 1)
  }

  /** `readParameters`: the tables after the import, and the iteration (5 when no record was bad, even when the file was missing). */
  function ImportFile(file: Option<seq<Token>>, totBins: seq<seq<real>>, corr: seq<seq<real>>, n: int, it: int): (res: (seq<seq<real>>, seq<seq<real>>, int))
    requires n >= 1 && RowsOk(totBins, corr, n)
  {
    var st := Import(totBins, corr, true, Open([]));
    var fin := if file.Some? then ReadRecords(st.(r := Open(file.value)), n, NChannels) else st;
    (fin.totBins, fin.corr, if fin.good then 5 else it)
  }

  /** Proof step, not a property: one unfolding of `ReadRecords`. */
  lemma ReadRecordsNext(st: Import, n: int, k: nat)
    requires n >= 1 && ImportOk(st, n) && k > 0
    ensures ReadRecords(st, n, k) == ReadRecords(ReadRecord(st, n), n, k - 1)
  {
  }

  /** Proof step, not a property: `ImportFile` unfolded for a file that opened. */
  lemma ImportFileRead(toks: seq<Token>, totBins: seq<seq<real>>, corr: seq<seq<real>>, n: int, it: int, fin: Import)
    requires n >= 1 && RowsOk(totBins, corr, n)
    requires fin == ReadRecords(Import(totBins, corr, true, Open(toks)), n, NChannels)
    ensures ImportFile(Some(toks), totBins, corr, n, it) == (fin.totBins, fin.corr, if fin.good then 5 else it)
  {
  }

  // ---------------------------------------------------------------------
  // What the import guarantees
  // ---------------------------------------------------------------------

  /** A list written with `RealTokens` reads back as itself. */
  lemma {:induction false} ReadRealsTokens(vs: seq<real>, rest: seq<Token>, tmp: real)
    ensures ReadReals(Reader(RealTokens(vs) + rest, false), tmp, |vs|) == (vs, Reader(rest, false))
    decreases |vs|
  {
    if vs != [] {
      var toks := RealTokens(vs) + rest;
      var tail := RealTokens(vs[1..]) + rest;
      assert RealTokens(vs) == [Real(vs[0])] + RealTokens(vs[1..]);
      assert toks == [Real(vs[0])] + tail;
      assert toks[0] == Real(vs[0]) && toks[1..] == tail;
      var first := ReadReal(Reader(toks, false), tmp);
      assert first == (vs[0], Reader(tail, false));
      ReadRealsTokens(vs[1..], rest, vs[0]);
      var more := ReadReals(Reader(tail, false), vs[0], |vs| - 1);
      assert more == (vs[1..], Reader(rest, false));
      assert ReadReals(Reader(toks, false), tmp, |vs|) == ([vs[0]] + more.0, more.1);
      assert [vs[0]] + vs[1..] == vs;
    } else {
      assert RealTokens(vs) + rest == rest;
    }
  }

  /** With at most 50 bins, an exported record is imported into the row of its channel. */
  lemma RecordReadBack(st: Import, t: Tables, j: int, off: real, rest: seq<Token>)
    requires TablesOk(t) && ImportOk(st, t.n) && t.n <= 50 && IsChannel(j) && !st.r.failed
    requires st.r.rest == Record(t, j, off) + rest
    ensures ReadRecord(st, t.n) ==
      Import(st.totBins[j := t.totBins[j]], st.corr[j := ExportedCorrections(t, j, off)], st.good, Reader(rest, false))
  {
    var edges := t.totBins[j];
    var cs := ExportedCorrections(t, j, off);
    var body := RealTokens(edges) + (RealTokens(cs) + rest);
    assert st.r.rest == [Int(j + 1), Int(t.n)] + body;
    var (channel, r1) := ReadInt(st.r, -1);
    assert channel == j + 1 && r1 == Reader([Int(t.n)] + body, false);
    var (tBins, r2) := ReadInt(r1, 0);
    assert tBins == t.n && r2 == Reader(body, false);
    ReadRealsTokens(edges, RealTokens(cs) + rest, 0.0);
    ReadRealsTokens(cs, rest, LastOr(edges, 0.0));
    assert Overwrite(st.totBins[j], edges) == edges;
    assert Overwrite(st.corr[j], cs) == cs;
  }

  /** Importing the records of channels `lo` and up replaces exactly their rows, and nothing is bad. */
  lemma {:induction false} RecordsReadBack(st: Import, t: Tables, removeOffset: bool, offsets: seq<real>, westMinusEast: real, lo: int)
    requires TablesOk(t) && ImportOk(st, t.n) && t.n <= 50 && |offsets| == NChannels && 0 <= lo <= NChannels
    requires st.r == Reader(RecordsFrom(t, removeOffset, offsets, westMinusEast, lo), false)
    ensures var fin := ReadRecords(st, t.n, NChannels - lo);
      fin.good == st.good &&
      (forall j :: 0 <= j < lo ==> fin.totBins[j] == st.totBins[j]) &&
      (forall j :: 0 <= j < lo ==> fin.corr[j] == st.corr[j]) &&
      (forall j :: lo <= j < NChannels ==> fin.totBins[j] == t.totBins[j]) &&
      (forall j :: lo <= j < NChannels ==> fin.corr[j] == ExportedCorrections(t, j, ExportOffset(removeOffset, offsets, westMinusEast, j)))
    decreases NChannels - lo
  {
    if lo < NChannels {
      var off := ExportOffset(removeOffset, offsets, westMinusEast, lo);
      var rest := RecordsFrom(t, removeOffset, offsets, westMinusEast, lo + 1);
      RecordsFromStep(t, removeOffset, offsets, westMinusEast, lo);
      RecordReadBack(st, t, lo, off, rest);
      var st1 := ReadRecord(st, t.n);
      RecordsReadBack(st1, t, removeOffset, offsets, westMinusEast, lo + 1);
    }
  }

  /** The import of an exported file, as `readParameters` sees it. */
  function ReadBack(t: Tables, removeOffset: bool, offsets: seq<real>, westMinusEast: real, totBins: seq<seq<real>>, corr: seq<seq<real>>, it: int): (seq<seq<real>>, seq<seq<real>>, int)
    requires TablesOk(t) && |offsets| == NChannels && RowsOk(totBins, corr, t.n)
  {
    ImportFile(Some(RecordsFrom(t, removeOffset, offsets, westMinusEast, 0)), totBins, corr, t.n, it)
  }

  /** Whatever is written for a name longer than four characters is what `ReadBack` reads. */
  lemma ExportWrites(t: Tables, outName: string, removeOffset: bool, offsets: seq<real>, westMinusEast: real)
    requires TablesOk(t) && |offsets| == NChannels && |outName| > 4
    ensures Export(t, outName, removeOffset, offsets, westMinusEast) ==
      Some(File(outName, RecordsFrom(t, removeOffset, offsets, westMinusEast, 0)))
  {
    JoinWhole(Records(t, removeOffset, offsets, westMinusEast));
  }

  /**
   * Round trip, edges: with at most 50 bins, importing an exported file
   * restores every edge row and ends in iteration 5.
   */
  lemma RoundTripEdges(t: Tables, removeOffset: bool, offsets: seq<real>, westMinusEast: real, totBins: seq<seq<real>>, corr: seq<seq<real>>, it: int)
    requires TablesOk(t) && t.n <= 50 && |offsets| == NChannels && RowsOk(totBins, corr, t.n)
    ensures forall j :: 0 <= j < NChannels ==> ReadBack(t, removeOffset, offsets, westMinusEast, totBins, corr, it).0[j] == t.totBins[j]
    ensures ReadBack(t, removeOffset, offsets, westMinusEast, totBins, corr, it).2 == 5
  {
    var st := Import(totBins, corr, true, Open(RecordsFrom(t, removeOffset, offsets, westMinusEast, 0)));
    RecordsReadBack(st, t, removeOffset, offsets, westMinusEast, 0);
  }

  /**
   * Round trip, corrections: with at most 50 bins, every correction row comes
   * back as the exported list, that is shifted down by one bin (entry i holds
   * what bin i+1 held, the last one the word past the row) plus the folded-in
   * offset, which is zero without `removeOffset`.
   */
  lemma RoundTripCorrections(t: Tables, removeOffset: bool, offsets: seq<real>, westMinusEast: real, totBins: seq<seq<real>>, corr: seq<seq<real>>, it: int)
    requires TablesOk(t) && t.n <= 50 && |offsets| == NChannels && RowsOk(totBins, corr, t.n)
    ensures forall j :: 0 <= j < NChannels ==>
      ReadBack(t, removeOffset, offsets, westMinusEast, totBins, corr, it).1[j] ==
      ExportedCorrections(t, j, ExportOffset(removeOffset, offsets, westMinusEast, j))
  {
    var st := Import(totBins, corr, true, Open(RecordsFrom(t, removeOffset, offsets, westMinusEast, 0)));
    RecordsReadBack(st, t, removeOffset, offsets, westMinusEast, 0);
  }

  /**
   * A record with a wrong channel number or bin count changes no table: it
   * only clears `good` and consumes the two numbers.
   */
  lemma BadRecord(st: Import, n: int)
    requires n >= 1 && ImportOk(st, n)
    requires var (channel, r1) := ReadInt(st.r, -1);
      var (tBins, _) := ReadInt(r1, 0);
      !(1 <= channel <= NChannels && tBins == n)
    ensures ReadRecord(st, n).totBins == st.totBins && ReadRecord(st, n).corr == st.corr
    ensures !ReadRecord(st, n).good
  {
  }

  /** Once a record was bad the import stays bad, and a bad import keeps the iteration. */
  lemma {:induction false} BadIsSticky(st: Import, n: int, k: nat)
    requires n >= 1 && ImportOk(st, n) && !st.good
    ensures !ReadRecords(st, n, k).good
    decreases k
  {
    if k > 0 {
      BadIsSticky(ReadRecord(st, n), n, k - 1);
    }
  }

  /** The iteration becomes 5 exactly when no record was bad. */
  lemma ImportIteration(file: Option<seq<Token>>, totBins: seq<seq<real>>, corr: seq<seq<real>>, n: int, it: int)
    requires n >= 1 && RowsOk(totBins, corr, n)
    ensures file.None? ==> ImportFile(file, totBins, corr, n, it) == (totBins, corr, 5)
    ensures file.Some? ==>
      (ImportFile(file, totBins, corr, n, it).2 == 5 <==> ReadRecords(Import(totBins, corr, true, Open(file.value)), n, NChannels).good || it == 5)
  {
  }
}

/**
 * Text files read and written with `>>` and `<<` on C++ streams, modelled as
 * sequences of numeric tokens. Layout (line breaks, six-digit formatting) is
 * not modelled. A failed extraction leaves the target variable unchanged and
 * puts the stream in the failed state, where every later extraction fails too.
 */
module Tokens {

  datatype Token = Int(i: int) | Real(r: real)

  /** An input stream: the tokens not yet extracted, and whether an extraction has failed. */
  datatype Reader = Reader(rest: seq<Token>, failed: bool)

  function Open(toks: seq<Token>): Reader
  {
    Reader(toks, false)
  }

  /**
   * `in >> v` into an `int` that holds `dflt`. On a failed stream or at the end
   * of input `v` keeps `dflt`; a real-valued token is a malformed number, which
   * stores 0 in `v`. Either way the stream is failed afterwards.
   */
  function ReadInt(r: Reader, dflt: int): (int, Reader)
  {
    if r.failed || |r.rest| == 0 then (dflt, r.(failed := true))
    else if r.rest[0].Int? then (r.rest[0].i, Reader(r.rest[1..], false))
    else (0, r.(failed := true))
  }

  /** `in >> v` into a `double` that holds `dflt`; an integer token reads as its value. */
  function ReadReal(r: Reader, dflt: real): (real, Reader)
  {
    if !r.failed && |r.rest| > 0 then (TokenValue(r.rest[0]), Reader(r.rest[1..], false))
    else (dflt, r.(failed := true))
  }

  function TokenValue(t: Token): real
  {
    match t
    case Int(i) => i as real
    case Real(x) => x
  }

  /** The tokens `out << v << " "` writes for each of `vs`. */
  function RealTokens(vs: seq<real>): (ts: seq<Token>)
    ensures |ts| == |vs|
  {
    if vs == [] then [] else [Real(vs[0])] + RealTokens(vs[1..])
  }

  lemma {:induction false} RealTokensAt(vs: seq<real>, i: int)
    requires 0 <= i < |vs|
    ensures RealTokens(vs)[i] == Real(vs[i])
    decreases |vs|
  {
    if i > 0 {
      RealTokensAt(vs[1..], i - 1);
    }
  }

  lemma {:induction false} RealTokensAppend(vs: seq<real>, ws: seq<real>)
    ensures RealTokens(vs + ws) == RealTokens(vs) + RealTokens(ws)
    decreases |vs|
  {
    if vs == [] {
      assert vs + ws == ws;
    } else {
      assert (vs + ws)[1..] == vs[1..] + ws;
      RealTokensAppend(vs[1..], ws);
    }
  }

  /** Writing one more value appends its token. */
  lemma RealTokensSnoc(vs: seq<real>, x: real)
    ensures RealTokens(vs + [x]) == RealTokens(vs) + [Real(x)]
  {
    RealTokensAppend(vs, [x]);
    assert RealTokens([x]) == [Real(x)] + RealTokens([]);
  }

  /** Proof step, not a property: associativity of token concatenation, spelled out for the solver. */
  lemma AppendTokens(a: seq<Token>, b: seq<Token>, c: seq<Token>)
    ensures a + (b + c) == (a + b) + c
    ensures a + [] == a && [] + a == a
  {
  }

  /** The tokens of several records, written one after another. */
  function Join(recs: seq<seq<Token>>): seq<Token>
  {
    if recs == [] then [] else recs[0] + Join(recs[1..])
  }

  /** Writing one more record appends its tokens. */
  lemma {:induction false} JoinSnoc(recs: seq<seq<Token>>, j: int)
    requires 0 <= j < |recs|
    ensures Join(recs[..j + 1]) == Join(recs[..j]) + recs[j]
    decreases j
  {
    if j == 0 {
      assert recs[..1] == [recs[0]];
      assert Join([recs[0]]) == recs[0] + Join([]);
      AppendTokens(recs[0], [], []);
    } else {
      var tail := recs[1..];
      assert recs[..j + 1][1..] == tail[..j];
      assert recs[..j][1..] == tail[..j - 1];
      JoinSnoc(tail, j - 1);
      AppendTokens(recs[0], Join(tail[..j - 1]), recs[j]);
    }
  }

  /** Reading from record `lo` on starts with the tokens of record `lo`. */
  lemma JoinFront(recs: seq<seq<Token>>, lo: int)
    requires 0 <= lo < |recs|
    ensures Join(recs[lo..]) == recs[lo] + Join(recs[lo + 1..])
  {
    assert recs[lo..][1..] == recs[lo + 1..];
  }

  /** The prefix of all records, and the suffix from the first, are all records. */
  lemma JoinWhole(recs: seq<seq<Token>>)
    ensures Join(recs[..|recs|]) == Join(recs) && Join(recs[0..]) == Join(recs)
  {
    assert recs[..|recs|] == recs && recs[0..] == recs;
  }
}

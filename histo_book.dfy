/**
 * The named-histogram store (`histoBook`): one flat map from qualified names
 * to histograms, a current-directory cursor that prefixes every name, and the
 * name of the histogram that `style`/`set` act on.
 *
 * A histogram is an abstract record of what the calibration relies on: its
 * axes, the samples filled into it, bin contents set by the statistics engine,
 * and the style attributes `set` can change.
 */
module HistoBook {

  import opened Wrappers
  import opened Text

  /** One `Fill(a, w)` call: a 1-D histogram reads the pair as (x, weight), a 2-D one as (x, y). */
  datatype Sample = Sample(a: real, w: real)

  /** A binned axis: `nBins` equal bins over [low, high), or explicit bin edges. */
  datatype Axis = Uniform(nBins: nat, low: real, high: real) | Edges(edges: seq<real>)

  /** The ROOT class the histogram was made as. */
  datatype Kind = TH1F | TH1D | TH2D

  datatype Span = Span(min: real, max: real)

  /**
   * `contents` are bin contents written by the statistics engine (the result
   * of a slice fit); a histogram that is only filled keeps them empty. A style
   * attribute that is `None` still has ROOT's default.
   */
  datatype Hist = Hist(
    kind: Kind,
    name: string,
    title: string,
    xAxis: Axis,
    yAxis: Option<Axis>,
    contents: seq<real>,
    fills: seq<Sample>,
    lineColor: Option<int>,
    markerColor: Option<int>,
    markerStyle: Option<int>,
    xRange: Option<Span>,
    yRange: Option<Span>)

  /** A freshly constructed histogram: nothing filled, no style set. */
  function NewHist(kind: Kind, name: string, title: string, xAxis: Axis, yAxis: Option<Axis>): (h: Hist)
    ensures h.fills == [] && h.contents == []
    ensures h.kind == kind && h.name == name && h.title == title && h.xAxis == xAxis && h.yAxis == yAxis
  {
    Hist(kind, name, title, xAxis, yAxis, [], [], None, None, None, None, None)
  }

  /** The bin edges of an axis; ROOT turns a bin count below one into one bin. */
  function AxisEdges(a: Axis): (e: seq<real>)
    ensures |e| >= 1 || a.Edges?
  {
    match a
    case Uniform(n, lo, hi) =>
      if n == 0 then [lo, hi]
      else seq(n + 1, i requires 0 <= i <= n => lo + (hi - lo) * (i as real) / (n as real))
    case Edges(e) => e
  }

  /** Index of the first of e[lo..] that is at least x, or |e| when there is none. */
  function FirstAtLeast(e: seq<real>, x: real, lo: nat): (p: nat)
    requires lo <= |e|
    ensures lo <= p <= |e|
    ensures p < |e| ==> e[p] >= x
    ensures forall i :: lo <= i < p ==> e[i] < x
    decreases |e| - lo
  {
    if lo == |e| then lo else if e[lo] >= x then lo else FirstAtLeast(e, x, lo + 1)
  }

  /**
   * `TMath::BinarySearch` over the edges: the `std::lower_bound` position when
   * the edge there equals x, else the position before it. So an edge that
   * occurs several times is found at its first copy.
   */
  function BinarySearch(e: seq<real>, x: real): (k: int)
    ensures -1 <= k < |e|
    ensures k >= 0 ==> e[k] <= x
    ensures forall i :: 0 <= i < k ==> e[i] < x
    ensures k + 1 < |e| && (k < 0 || e[k] != x) ==> x < e[k + 1]
  {
    var p := FirstAtLeast(e, x, 0);
    if p < |e| && e[p] == x then p else p - 1
  }

  /**
   * `TAxis::FindBin`: 0 is the underflow bin, |e| (that is, the number of bins
   * plus one) the overflow bin, and in between `1 + TMath::BinarySearch`.
   */
  function FindBinIn(e: seq<real>, x: real): (b: nat)
    ensures b <= |e|
    ensures b == 0 <==> (|e| == 0 || x < e[0])
    ensures |e| > 0 && x >= e[0] ==> (b == |e| <==> x >= e[|e| - 1])
    ensures 0 < b < |e| ==> e[b - 1] <= x
  {
    if |e| == 0 || x < e[0] then 0
    else if x >= e[|e| - 1] then |e|
    else 1 + BinarySearch(e, x)
  }

  /**
   * The in-range bin of `FindBinIn`: bin b holds e[b-1] <= x < e[b], except
   * that x equal to a repeated edge lands in the bin that starts at its first
   * copy, an empty bin.
   */
  lemma FindBinInRange(e: seq<real>, x: real)
    ensures var b := FindBinIn(e, x);
      0 < b < |e| ==> (forall i :: 0 <= i < b - 1 ==> e[i] < x) && (x == e[b - 1] || x < e[b])
  {
  }

  /** With the edge 1 repeated, x = 1 falls in the empty bin [1, 1) that starts at its first copy. */
  lemma FindBinRepeatedEdge()
    ensures FindBinIn([0.0, 1.0, 1.0, 2.0], 1.0) == 2
  {
    assert FirstAtLeast([0.0, 1.0, 1.0, 2.0], 1.0, 1) == 1;
  }

  function FindBin(a: Axis, x: real): nat
  {
    FindBinIn(AxisEdges(a), x)
  }

  /** The output file name: the given name if it mentions ".root" anywhere, else the name plus ".root". */
  function OutputFileName(name: string): (f: string)
    ensures Contains(f, ".root")
    ensures Contains(name, ".root") ==> f == name
    ensures !Contains(name, ".root") ==> f == name + ".root"
  {
    if Contains(name, ".root") then name
    else
      ContainsSuffix(name, ".root");
      name + ".root"
  }

  /** Normalising a file name that is already normalised changes nothing. */
  lemma OutputFileNameIdempotent(name: string)
    ensures OutputFileName(OutputFileName(name)) == OutputFileName(name)
  {
    var f := OutputFileName(name);
    if !Contains(name, ".root") {
      ContainsSuffix(name, ".root");
      assert Contains(f, ".root");
    }
  }

  /**
   * The map after `add(name, h)` in directory `dir`: a name of length at most
   * one or a null object is ignored, and an existing entry is never
   * overwritten (the first writer wins).
   */
  function AddEntry(m: map<string, Hist>, dir: string, name: string, h: Option<Hist>): (r: map<string, Hist>)
    ensures r == m || (h.Some? && dir + name !in m && r == m[dir + name := h.value])
    ensures r.Keys <= m.Keys + {dir + name}
    ensures (|name| <= 1 || h.None?) ==> r == m
    ensures (|name| > 1 && h.Some?) ==> dir + name in r
    ensures (|name| > 1 && h.Some? && dir + name !in m) ==> r[dir + name] == h.value
  {
    if |name| <= 1 || h.None? || dir + name in m then m else m[dir + name := h.value]
  }

  /** The map after one fill of `s` into the entry under `key`: a missing entry is a no-op. */
  function FillEntry(m: map<string, Hist>, key: string, s: Sample): (r: map<string, Hist>)
    ensures r.Keys == m.Keys
    ensures forall k :: k in m && k != key ==> r[k] == m[k]
    ensures key in m ==> r[key] == m[key].(fills := m[key].fills + [s])
    ensures key !in m ==> r == m
  {
    if key in m then m[key := m[key].(fills := m[key].fills + [s])] else m
  }

  /** Adding under a name that is already taken leaves the store as it was. */
  lemma {:induction false} AddTwiceFirstWins(m: map<string, Hist>, dir: string, name: string, h1: Hist, h2: Hist)
    requires |name| > 1
    ensures AddEntry(AddEntry(m, dir, name, Some(h1)), dir, name, Some(h2)) == AddEntry(m, dir, name, Some(h1))
    ensures dir + name !in m ==> AddEntry(AddEntry(m, dir, name, Some(h1)), dir, name, Some(h2))[dir + name] == h1
  {
    var m1 := AddEntry(m, dir, name, Some(h1));
    assert dir + name in m1;
  }

  /** The values `set` accepts after its tag: a string, an integer, or a (min, max) pair. */
  datatype StyleValue = Label(text: string) | Code(n: int) | Limits(min: real, max: real)

  /** The argument the variadic `set` reads after each known tag has that tag's type. */
  predicate FitsTag(tag: string, v: StyleValue)
  {
    && (tag == "title" ==> v.Label?)
    && (tag == "linecolor" || tag == "markercolor" || tag == "markerstyle" ==> v.Code?)
    && (tag == "domain" || tag == "range" ==> v.Limits?)
  }

  predicate KnownTag(tag: string)
  {
    tag in {"title", "linecolor", "domain", "range", "markercolor", "markerstyle"}
  }

  /**
   * One `set(tag, value)` on a histogram, the tag already lower-cased: each
   * known tag changes its one attribute, an unknown tag changes nothing, and
   * the data (axes, contents, fills) never change.
   */
  function ApplyStyle(h: Hist, tag: string, v: StyleValue): (r: Hist)
    requires FitsTag(tag, v)
    ensures r.kind == h.kind && r.name == h.name && r.xAxis == h.xAxis && r.yAxis == h.yAxis
    ensures r.contents == h.contents && r.fills == h.fills
    ensures !KnownTag(tag) ==> r == h
    ensures tag == "title" ==> r == h.(title := v.text)
    ensures tag == "linecolor" ==> r == h.(lineColor := Some(v.n))
    ensures tag == "domain" ==> r == h.(xRange := Some(Span(v.min, v.max)))
    ensures tag == "range" ==> r == h.(yRange := Some(Span(v.min, v.max)))
    ensures tag == "markercolor" ==> r == h.(markerColor := Some(v.n))
    ensures tag == "markerstyle" ==> r == h.(markerStyle := Some(v.n))
  {
    if tag == "title" then h.(title := v.text)
    else if tag == "linecolor" then h.(lineColor := Some(v.n))
    else if tag == "domain" then h.(xRange := Some(Span(v.min, v.max)))
    else if tag == "range" then h.(yRange := Some(Span(v.min, v.max)))
    else if tag == "markercolor" then h.(markerColor := Some(v.n))
    else if tag == "markerstyle" then h.(markerStyle := Some(v.n))
    else h
  }

  /**
   * The store. `book` holds only non-null entries: the null entry that C++'s
   * `map::operator[]` inserts on a lookup miss is never observable as a
   * stored object, so it is not represented.
   */
  class Book {
    var currentDir: string
    var book: map<string, Hist>
    var styling: string
    const filename: string
    /** Directories created in the output file; the TFile itself is not modelled. */
    ghost var dirs: set<string>

    constructor (name: string)
      ensures filename == OutputFileName(name)
      ensures currentDir == "/" && book == map[] && styling == ""
      ensures dirs == {}
    {
      filename := OutputFileName(name);
      currentDir := "/";
      book := map[];
      styling := "";
      dirs := {};
    }

    /** Registers `h` under `currentDir + name`, unless the name is degenerate, `h` is null or the key is taken. */
    method Add(name: string, h: Option<Hist>)
      modifies this
      ensures book == AddEntry(old(book), old(currentDir), name, h)
      ensures currentDir == old(currentDir) && styling == old(styling) && dirs == old(dirs)
    {
      if |name| <= 1 || h.None? {
        return;
      }
      var key := currentDir + name;
      if key in book {
        return;
      }
      book := book[key := h.value];
    }

    /** Switches the cursor to `dir`, creating the directory if missing, and returns the previous cursor. */
    method Cd(dir: string, subd: bool := false) returns (previous: string)
      modifies this
      ensures previous == old(currentDir) && currentDir == dir
      ensures book == old(book) && styling == old(styling)
      ensures dirs == old(dirs) + {dir}
    {
      previous := currentDir;
      dirs := dirs + {dir};
      currentDir := dir;
    }

    /** The qualified name `get(name, sdir)` looks up: an empty `sdir` means the current directory. */
    function KeyFor(name: string, sdir: string): string
      reads this
    {
      (if sdir == "" then currentDir else sdir) + name
    }

    /** `get(name, sdir)`: the stored object, or absent. */
    function Get(name: string, sdir: string := ""): (r: Option<Hist>)
      reads this
      ensures r.Some? <==> KeyFor(name, sdir) in book
      ensures r.Some? ==> r.value == book[KeyFor(name, sdir)]
    {
      var key := KeyFor(name, sdir);
      if key in book then Some(book[key]) else None
    }

    /** Records one `(a, w)` fill on the object `get(name)` names; nothing happens when it is absent. */
    method Fill(name: string, a: real, w: real := 1.0)
      modifies this
      ensures book == FillEntry(old(book), old(currentDir) + name, Sample(a, w))
      ensures currentDir == old(currentDir) && styling == old(styling) && dirs == old(dirs)
    {
      var h := Get(name);
      if h.Some? {
        book := book[currentDir + name := h.value.(fills := h.value.fills + [Sample(a, w)])];
      }
    }

    method Make1F(name: string, title: string, nBins: nat, low: real, hi: real)
      modifies this
      ensures book == AddEntry(old(book), old(currentDir), name, Some(NewHist(TH1F, name, title, Uniform(nBins, low, hi), None)))
      ensures currentDir == old(currentDir) && styling == old(styling) && dirs == old(dirs)
    {
      var h := NewHist(TH1F, name, title, Uniform(nBins, low, hi), None);
      Add(name, Some(h));
    }

    method Make1D(name: string, title: string, nBins: nat, low: real, hi: real)
      modifies this
      ensures book == AddEntry(old(book), old(currentDir), name, Some(NewHist(TH1D, name, title, Uniform(nBins, low, hi), None)))
      ensures currentDir == old(currentDir) && styling == old(styling) && dirs == old(dirs)
    {
      var h := NewHist(TH1D, name, title, Uniform(nBins, low, hi), None);
      Add(name, Some(h));
    }

    method Make2D(name: string, title: string, nBinsX: nat, lowX: real, hiX: real, nBinsY: nat, lowY: real, hiY: real)
      modifies this
      ensures book == AddEntry(old(book), old(currentDir), name,
                               Some(NewHist(TH2D, name, title, Uniform(nBinsX, lowX, hiX), Some(Uniform(nBinsY, lowY, hiY)))))
      ensures currentDir == old(currentDir) && styling == old(styling) && dirs == old(dirs)
    {
      var h := NewHist(TH2D, name, title, Uniform(nBinsX, lowX, hiX), Some(Uniform(nBinsY, lowY, hiY)));
      Add(name, Some(h));
    }

    /** The `make2D` overload with explicit x edges: ROOT reads nBinsX + 1 of them. */
    method Make2DEdges(name: string, title: string, nBinsX: nat, xBins: seq<real>, nBinsY: nat, lowY: real, hiY: real)
      requires |xBins| > nBinsX
      modifies this
      ensures book == AddEntry(old(book), old(currentDir), name,
                               Some(NewHist(TH2D, name, title, Edges(xBins[..nBinsX + 1]), Some(Uniform(nBinsY, lowY, hiY)))))
      ensures currentDir == old(currentDir) && styling == old(styling) && dirs == old(dirs)
    {
      var h := NewHist(TH2D, name, title, Edges(xBins[..nBinsX + 1]), Some(Uniform(nBinsY, lowY, hiY)));
      Add(name, Some(h));
    }

    /** Names the histogram that following `Set` calls act on; returns the store for chaining. */
    method Style(hName: string) returns (self: Book)
      modifies this
      ensures self == this && styling == hName
      ensures book == old(book) && currentDir == old(currentDir) && dirs == old(dirs)
    {
      styling := hName;
      self := this;
    }

    /**
     * Sets one style attribute of the histogram last named by `Style`. The tag
     * is lower-cased first; a missing histogram or an unknown tag changes nothing.
     */
    method Set(param: string, v: StyleValue) returns (self: Book)
      requires FitsTag(Lower(param), v)
      modifies this
      ensures self == this
      ensures styling == old(styling) && currentDir == old(currentDir) && dirs == old(dirs)
      ensures old(KeyFor(styling, "")) !in old(book) ==> book == old(book)
      ensures old(KeyFor(styling, "")) in old(book) ==>
                book == old(book)[old(KeyFor(styling, "")) := ApplyStyle(old(book)[KeyFor(styling, "")], Lower(param), v)]
    {
      var tag := Lower(param);
      var h := Get(styling);
      if h.Some? {
        book := book[currentDir + styling := ApplyStyle(h.value, tag, v)];
      }
      self := this;
    }
  }
}

/** The bokeh geometry adapters: they turn the four coordinate columns of a
    segment or rectangle element into the keyed data a renderer draws. */
module Geometry {

  /** A geometric element with four key dimensions, read in declaration order
      as (x0, y0, x1, y1): one row per segment or rectangle. */
  datatype GeomElement = GeomElement(d0: seq<real>, d1: seq<real>, d2: seq<real>, d3: seq<real>)
  {
    /** Every column of an element has one value per row. */
    predicate WellFormed() {
      |d1| == |d0| && |d2| == |d0| && |d3| == |d0|
    }

    function Rows(): nat {
      |d0|
    }

    /** The values of key dimension `k`. */
    function DimensionValues(k: nat): seq<real>
      requires k < 4
    {
      if k == 0 then d0 else if k == 1 then d1 else if k == 2 then d2 else d3
    }

    /** The same rows with the two coordinates of every corner exchanged. */
    function Transposed(): GeomElement {
      GeomElement(d1, d0, d3, d2)
    }

    /** Row `i` with the first coordinates of its two corners exchanged. */
    function SwapFirst(i: nat): GeomElement
      requires WellFormed() && i < Rows()
    {
      GeomElement(d0[i := d2[i]], d1, d2[i := d0[i]], d3)
    }

    /** Row `i` with the second coordinates of its two corners exchanged. */
    function SwapSecond(i: nat): GeomElement
      requires WellFormed() && i < Rows()
    {
      GeomElement(d0, d1[i := d3[i]], d2, d3[i := d1[i]])
    }
  }

  /** The dimension indices read as (x0, y0, x1, y1). */
  function Indices(invertAxes: bool): (inds: seq<nat>)
    ensures |inds| == 4
    ensures forall k :: 0 <= k < 4 ==> inds[k] < 4
  {
    if invertAxes then [1, 0, 3, 2] else [0, 1, 2, 3]
  }

  /** The four coordinate columns (x0, y0, x1, y1) both adapters start from:
      the dimensions in declaration order, or with each x/y pair exchanged. */
  function Columns(e: GeomElement, invertAxes: bool): (c: (seq<real>, seq<real>, seq<real>, seq<real>))
    ensures !invertAxes ==> c == (e.d0, e.d1, e.d2, e.d3)
    ensures invertAxes ==> c == (e.d1, e.d0, e.d3, e.d2)
  {
    var inds := Indices(invertAxes);
    (e.DimensionValues(inds[0]), e.DimensionValues(inds[1]),
     e.DimensionValues(inds[2]), e.DimensionValues(inds[3]))
  }

  /** A column mapping from renderer field to data key. */
  type Mapping = map<string, string>

  /** True when the mapping has exactly the keys `keys` and sends each to itself. */
  predicate IdentityOn(m: Mapping, keys: set<string>) {
    m.Keys == keys && forall k :: k in m ==> m[k] == k
  }

  // ---------------------------------------------------------------- segments

  datatype SegmentData = SegmentData(x0: seq<real>, x1: seq<real>, y0: seq<real>, y1: seq<real>)

  /** SegmentPlot.get_data: picks the four coordinate columns and returns them
      unchanged, with an identity mapping and the style as given. */
  function SegmentGetData<S>(e: GeomElement, invertAxes: bool, style: S): (r: (SegmentData, Mapping, S))
    ensures !invertAxes ==> r.0 == SegmentData(e.d0, e.d2, e.d1, e.d3)
    ensures invertAxes ==> r.0 == SegmentData(e.d1, e.d3, e.d0, e.d2)
    ensures IdentityOn(r.1, {"x0", "x1", "y0", "y1"})
    ensures r.2 == style
  {
    var c := Columns(e, invertAxes);
    var data := SegmentData(c.0, c.2, c.1, c.3);
    var mapping := map["x0" := "x0", "x1" := "x1", "y0" := "y0", "y1" := "y1"];
    (data, mapping, style)
  }

  /** Inverting the axes exchanges the x and y roles of both endpoints and
      touches no value. */
  lemma SegmentInvertSwapsRoles<S>(e: GeomElement, style: S)
    ensures SegmentGetData(e, true, style).0 ==
            var d := SegmentGetData(e, false, style).0; SegmentData(d.y0, d.y1, d.x0, d.x1)
    ensures SegmentGetData(e, true, style) == SegmentGetData(e.Transposed(), false, style)
  {
  }

  // -------------------------------------------------------------- rectangles

  function Min(a: real, b: real): real { if a <= b then a else b }
  function Max(a: real, b: real): real { if a <= b then b else a }

  /** The element-wise minimum of two columns of equal length. */
  function Lower(a: seq<real>, b: seq<real>): (lo: seq<real>)
    requires |a| == |b|
    ensures |lo| == |a|
  {
    seq(|a|, i requires 0 <= i < |a| => Min(a[i], b[i]))
  }

  /** The element-wise maximum of two columns of equal length. */
  function Upper(a: seq<real>, b: seq<real>): (hi: seq<real>)
    requires |a| == |b|
    ensures |hi| == |a|
  {
    seq(|a|, i requires 0 <= i < |a| => Max(a[i], b[i]))
  }

  /** Normalising a pair of columns puts the smaller value of each row first,
      and the pair it yields is one of the row's two values each. */
  lemma NormalisedCorners(a: seq<real>, b: seq<real>, i: nat)
    requires |a| == |b| && i < |a|
    ensures Lower(a, b)[i] <= Upper(a, b)[i]
    ensures {Lower(a, b)[i], Upper(a, b)[i]} == {a[i], b[i]}
  {
  }

  datatype RectData = RectData(x: seq<real>, y: seq<real>, width: seq<real>, height: seq<real>)

  /** The centres and extents of rectangles spanning `lo[i]`..`hi[i]`. */
  function Centres(lo: seq<real>, hi: seq<real>): (c: seq<real>)
    requires |lo| == |hi|
    ensures |c| == |lo|
  {
    seq(|lo|, i requires 0 <= i < |lo| => (hi[i] + lo[i]) / 2.0)
  }

  function Extents(lo: seq<real>, hi: seq<real>): (w: seq<real>)
    requires |lo| == |hi|
    ensures |w| == |lo|
  {
    seq(|lo|, i requires 0 <= i < |lo| => hi[i] - lo[i])
  }

  /** RectanglesPlot.get_data: normalises the two corners of every row with
      element-wise min/max, then returns centre, width and height. Every
      column has one entry per row; extents are never negative; the centre
      lies halfway between the two corners, so that centre minus half the
      extent is the smaller coordinate and centre plus half the extent the
      larger one. */
  function RectanglesGetData<S>(e: GeomElement, invertAxes: bool, style: S): (r: (RectData, Mapping, S))
    requires e.WellFormed()
    ensures |r.0.x| == |r.0.y| == |r.0.width| == |r.0.height| == e.Rows()
    ensures forall i :: 0 <= i < e.Rows() ==> r.0.width[i] >= 0.0 && r.0.height[i] >= 0.0
    ensures var c := Columns(e, invertAxes);
            forall i :: 0 <= i < e.Rows() ==>
              && r.0.x[i] - r.0.width[i] / 2.0 == Min(c.0[i], c.2[i])
              && r.0.x[i] + r.0.width[i] / 2.0 == Max(c.0[i], c.2[i])
              && r.0.y[i] - r.0.height[i] / 2.0 == Min(c.1[i], c.3[i])
              && r.0.y[i] + r.0.height[i] / 2.0 == Max(c.1[i], c.3[i])
    ensures IdentityOn(r.1, {"x", "y", "width", "height"})
    ensures r.2 == style
  {
    var c := Columns(e, invertAxes);
    var x0, x1 := Lower(c.0, c.2), Upper(c.0, c.2);
    var y0, y1 := Lower(c.1, c.3), Upper(c.1, c.3);
    var data := RectData(Centres(x0, x1), Centres(y0, y1), Extents(x0, x1), Extents(y0, y1));
    var mapping := map["x" := "x", "y" := "y", "width" := "width", "height" := "height"];
    (data, mapping, style)
  }

  /** Exchanging the two values of one row does not change its minimum and
      maximum columns. */
  lemma LowerUpperIgnoreOrder(a: seq<real>, b: seq<real>, i: nat)
    requires |a| == |b| && i < |a|
    ensures Lower(a[i := b[i]], b[i := a[i]]) == Lower(a, b)
    ensures Upper(a[i := b[i]], b[i := a[i]]) == Upper(a, b)
  {
    var a', b' := a[i := b[i]], b[i := a[i]];
    assert forall j :: 0 <= j < |a| ==> Lower(a', b')[j] == Lower(a, b)[j];
    assert forall j :: 0 <= j < |a| ==> Upper(a', b')[j] == Upper(a, b)[j];
  }

  /** Corner order does not matter: exchanging a row's two first coordinates,
      or its two second coordinates, leaves the rectangle output unchanged,
      whichever way the axes are oriented. */
  lemma RectanglesIgnoreCornerOrder<S>(e: GeomElement, i: nat, invertAxes: bool, style: S)
    requires e.WellFormed() && i < e.Rows()
    ensures RectanglesGetData(e.SwapFirst(i), invertAxes, style) == RectanglesGetData(e, invertAxes, style)
    ensures RectanglesGetData(e.SwapSecond(i), invertAxes, style) == RectanglesGetData(e, invertAxes, style)
  {
    LowerUpperIgnoreOrder(e.d0, e.d2, i);
    LowerUpperIgnoreOrder(e.d1, e.d3, i);
  }

  /** Inverting the axes exchanges the (x, width) output with the
      (y, height) output. */
  lemma RectanglesInvertSwapsExtents<S>(e: GeomElement, style: S)
    requires e.WellFormed()
    ensures var inv, std := RectanglesGetData(e, true, style).0, RectanglesGetData(e, false, style).0;
            inv == RectData(std.y, std.x, std.height, std.width)
  {
  }
}

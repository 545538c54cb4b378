/** The parts of the element library the annotators rely on, reduced to
    values: annotation values, per-object cells, multi-object elements and
    tables, and the few element operations the annotators call. */
module Elements {

  /** The errors the annotators raise. */
  datatype Error =
    | InvalidLayer                        // a manager layer that is neither an Annotator nor an Element
    | NotCallable(column: string)         // a default for a path column that is not a factory
    | VariesByVertex(columns: seq<string>) // the per-path validation of annotation columns
    | MissingColumn(column: string)       // a column the element does not have
    | NoValues(column: string)            // a column with no value to take the first of
    | IndexOutOfRange(index: nat)         // a point selection past the last row

  datatype Result<+T> = Ok(value: T) | Err(error: Error)

  datatype Outcome = Pass | Fail(error: Error)

  datatype Option<+T> = None | Some(value: T)

  /** A value held in an element column or given as an annotation default.
      A `Factory` is a callable taking no argument; calling it yields `result`. */
  datatype Value = NoneValue | Str(s: string) | Num(r: real) | Factory(result: Value)

  /** Calls an annotation default for `column`; only a factory can be called. */
  function Call(v: Value, column: string): Result<Value> {
    if v.Factory? then Ok(v.result) else Err(NotCallable(column))
  }

  /** The value of one column for one object: a single value for the whole
      object, or one value per vertex. */
  datatype Cell = Scalar(v: Value) | Vertices(vs: seq<Value>)

  /** One object (a path, a polygon, a box or a point) as a dictionary from
      column name to its cell. */
  type Path = map<string, Cell>

  /** A multi-object element: key dimensions, value dimensions and the
      objects in drawing order. */
  datatype Element = Element(kdims: seq<string>, vdims: seq<string>, objects: seq<Path>)
  {
    /** The names of all dimensions. */
    function Dimensions(): set<string> {
      (set d | d in kdims) + (set d | d in vdims)
    }

    /** `col in element`. */
    predicate Has(col: string) {
      col in Dimensions()
    }
  }

  /** The element built from no data: the default key dimensions, no value
      dimensions and no objects. */
  function EmptyElement(): Element {
    Element(["x", "y"], [], [])
  }

  /** add_dimension(col, 0, init, vdim=True): a new first value dimension
      holding `init` as a scalar in every object; other cells are untouched. */
  function AddDimension(e: Element, col: string, init: Value): (r: Element)
    ensures r.kdims == e.kdims
    ensures r.vdims == [col] + e.vdims
    ensures r.Dimensions() == e.Dimensions() + {col}
    ensures |r.objects| == |e.objects|
    ensures forall i :: 0 <= i < |r.objects| ==>
              r.objects[i].Keys == e.objects[i].Keys + {col} && r.objects[i][col] == Scalar(init) &&
              forall k :: k in e.objects[i] && k != col ==> k in r.objects[i] && r.objects[i][k] == e.objects[i][k]
  {
    var r := Element(e.kdims, [col] + e.vdims,
                     seq(|e.objects|, i requires 0 <= i < |e.objects| => e.objects[i][col := Scalar(init)]));
    assert (set d | d in [col] + e.vdims) == (set d | d in e.vdims) + {col};
    r
  }

  /** The number of values dimension_values(col, expanded=False) yields for
      one cell: one for a scalar, the distinct values for a per-vertex cell. */
  function CellValueCount(c: Cell): nat {
    match c
    case Scalar(_) => 1
    case Vertices(vs) => |set v | v in vs|
  }

  /** The length of dimension_values(col, expanded=False) over all objects. */
  function ValueCount(objects: seq<Path>, col: string): nat {
    if objects == [] then 0
    else (if col in objects[0] then CellValueCount(objects[0][col]) else 0) + ValueCount(objects[1..], col)
  }

  /** A column that holds one value for every object contributes exactly
      one value per object. */
  lemma {:induction false} ValueCountPerObject(objects: seq<Path>, col: string)
    requires forall i :: 0 <= i < |objects| ==> col in objects[i] && CellValueCount(objects[i][col]) == 1
    ensures ValueCount(objects, col) == |objects|
  {
    if objects != [] {
      ValueCountPerObject(objects[1..], col);
    }
  }

  /** dimension_values(col, expanded=False)[0] on a single object. The
      distinct values keep the order of first occurrence, so that value is
      the first vertex value. */
  function FirstValue(p: Path, col: string): (r: Result<Value>)
    ensures r.Ok? <==> col in p && (p[col].Scalar? || |p[col].vs| > 0)
  {
    if col !in p then Err(MissingColumn(col))
    else match p[col]
      case Scalar(v) => Ok(v)
      case Vertices(vs) => if |vs| == 0 then Err(NoValues(col)) else Ok(vs[0])
  }

  /** A table: the columns in order and the values of each column. */
  datatype Table = Table(columns: seq<string>, data: map<string, seq<Value>>)

  /** A table with the title of the tab that shows it. */
  type NamedTable = (string, Table)
}

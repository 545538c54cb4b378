/** The framework-independent rules of the annotators: which annotation
    columns an element receives and with which defaults, the per-path
    validation, the table data, the collapse of per-vertex annotation values
    after an edit, and the selection of objects. */
module Annotators {
  import opened Elements

  /** The kind of geometry an annotator edits (one per annotator class). */
  datatype Kind = PathKind | PolyKind | PointKind | BoxKind
  {
    /** Path and polygon annotators share one implementation. */
    predicate IsPath() {
      PathKind? || PolyKind?
    }
  }

  /** An annotation spec: a dictionary from column name to a default, in
      insertion order, or a list of column names without defaults. */
  datatype Annotations = DictSpec(entries: seq<(string, Value)>) | ListSpec(names: seq<string>)
  {
    /** The column names, as iterating over the spec yields them. */
    function Names(): (r: seq<string>)
      ensures DictSpec? ==> |r| == |entries| && forall i :: 0 <= i < |entries| ==> r[i] == entries[i].0
      ensures ListSpec? ==> r == names
    {
      if DictSpec? then seq(|entries|, i requires 0 <= i < |entries| => entries[i].0) else names
    }
  }

  /** A column to add when it is missing, with the default it would get,
      which for a path annotator can be the error of calling a non-factory. */
  type ColumnDefault = (string, Result<Value>)

  function ColumnNames(cols: seq<ColumnDefault>): (r: seq<string>)
    ensures |r| == |cols| && forall i :: 0 <= i < |cols| ==> r[i] == cols[i].0
  {
    seq(|cols|, i requires 0 <= i < |cols| => cols[i].0)
  }

  /** Defaults of a path or polygon annotator: what a dictionary factory
      returns when called, or the empty string for a list spec. */
  function PathDefaults(a: Annotations): (cols: seq<ColumnDefault>)
    ensures ColumnNames(cols) == a.Names()
  {
    match a
    case DictSpec(entries) =>
      seq(|entries|, i requires 0 <= i < |entries| => (entries[i].0, Call(entries[i].1, entries[i].0)))
    case ListSpec(names) =>
      seq(|names|, i requires 0 <= i < |names| => (names[i], Ok(Str(""))))
  }

  /** Defaults of a point or box annotator: the dictionary value itself,
      never called, or None for a list spec. */
  function PlainDefaults(a: Annotations): (cols: seq<ColumnDefault>)
    ensures ColumnNames(cols) == a.Names()
  {
    match a
    case DictSpec(entries) =>
      seq(|entries|, i requires 0 <= i < |entries| => (entries[i].0, Ok(entries[i].1)))
    case ListSpec(names) =>
      seq(|names|, i requires 0 <= i < |names| => (names[i], Ok(NoneValue)))
  }

  /** The defaults an annotator of `kind` gives the columns of `a`. */
  function Defaults(kind: Kind, a: Annotations): seq<ColumnDefault> {
    if kind.IsPath() then PathDefaults(a) else PlainDefaults(a)
  }

  // ------------------------------------------------------ annotation columns

  /** The loop over the spec in _init_element: in order, a column the element
      already has is skipped, a missing one is added with its default; the
      first missing column whose default is an error stops the loop. */
  function WithColumns(e: Element, cols: seq<ColumnDefault>): Result<Element>
    decreases |cols|
  {
    if cols == [] then Ok(e)
    else if e.Has(cols[0].0) then WithColumns(e, cols[1..])
    else match cols[0].1
      case Err(err) => Err(err)
      case Ok(v) => WithColumns(AddDimension(e, cols[0].0, v), cols[1..])
  }

  /** The columns the loop finds already present and hands to validation,
      in order, given the dimension names `known` when it starts. */
  function Preexisting(known: set<string>, cols: seq<ColumnDefault>): seq<string>
    decreases |cols|
  {
    if cols == [] then []
    else (if cols[0].0 in known then [cols[0].0] else []) + Preexisting(known + {cols[0].0}, cols[1..])
  }

  /** True when no name occurs twice in `names`. A spec built from a Python
      dictionary always names each key once; a list spec may repeat a name. */
  predicate Distinct(names: seq<string>) {
    forall i, j :: 0 <= i < j < |names| ==> names[i] != names[j]
  }

  /** True when every default in `cols` can be produced. */
  predicate AllDefaultsOk(cols: seq<ColumnDefault>) {
    forall i :: 0 <= i < |cols| ==> cols[i].1.Ok?
  }

  /** Column `k` has the same cells, object by object, in `r` as in `e`. */
  ghost predicate KeepsColumn(e: Element, r: Element, k: string) {
    |r.objects| == |e.objects| &&
    forall i :: 0 <= i < |e.objects| ==>
      (k in r.objects[i] <==> k in e.objects[i]) && (k in e.objects[i] ==> r.objects[i][k] == e.objects[i][k])
  }

  /** Every object of `r` holds `v` as the scalar value of column `col`. */
  ghost predicate FilledWith(r: Element, col: string, v: Value) {
    forall i :: 0 <= i < |r.objects| ==> col in r.objects[i] && r.objects[i][col] == Scalar(v)
  }

  lemma KeepsColumnTransitive(a: Element, b: Element, c: Element, k: string)
    requires KeepsColumn(a, b, k) && KeepsColumn(b, c, k)
    ensures KeepsColumn(a, c, k)
  {
  }

  /** Adding columns keeps the key dimensions, the objects and every cell of
      a column the element already had; every column of the spec is then a
      dimension; and the loop fails only on a default that is an error. */
  lemma {:induction false} WithColumnsKeepsData(e: Element, cols: seq<ColumnDefault>)
    ensures WithColumns(e, cols).Ok? ==>
      var r := WithColumns(e, cols).value;
      && r.kdims == e.kdims
      && |r.objects| == |e.objects|
      && e.Dimensions() <= r.Dimensions()
      && (forall c :: c in ColumnNames(cols) ==> r.Has(c))
      && (forall k :: e.Has(k) ==> KeepsColumn(e, r, k))
      && (forall k :: k !in ColumnNames(cols) ==> KeepsColumn(e, r, k))
    ensures WithColumns(e, cols).Err? ==>
      exists j :: 0 <= j < |cols| && cols[j].1 == Err(WithColumns(e, cols).error)
    ensures AllDefaultsOk(cols) ==> WithColumns(e, cols).Ok?
    decreases |cols|
  {
    if cols != [] {
      var tail := cols[1..];
      assert forall c :: c in ColumnNames(cols) ==> c == cols[0].0 || c in ColumnNames(tail);
      assert forall c :: c in ColumnNames(tail) ==> c in ColumnNames(cols);
      assert ColumnNames(cols)[0] == cols[0].0;
      assert AllDefaultsOk(cols) ==> AllDefaultsOk(tail);
      if e.Has(cols[0].0) {
        WithColumnsKeepsData(e, tail);
      } else if cols[0].1.Ok? {
        var e' := AddDimension(e, cols[0].0, cols[0].1.value);
        assert forall k :: k != cols[0].0 ==> KeepsColumn(e, e', k);
        WithColumnsKeepsData(e', tail);
        if WithColumns(e, cols).Ok? {
          var r := WithColumns(e, cols).value;
          forall k | e.Has(k) ensures KeepsColumn(e, r, k) {
            KeepsColumnTransitive(e, e', r, k);
          }
          forall k | k !in ColumnNames(cols) ensures KeepsColumn(e, r, k) {
            KeepsColumnTransitive(e, e', r, k);
          }
        }
      }
    }
  }

  /** The loop adds exactly the spec columns and no other dimension. */
  lemma {:induction false} WithColumnsDims(e: Element, cols: seq<ColumnDefault>)
    ensures WithColumns(e, cols).Ok? ==>
      WithColumns(e, cols).value.Dimensions() == e.Dimensions() + (set c | c in ColumnNames(cols))
    decreases |cols|
  {
    if cols != [] {
      var tail := cols[1..];
      assert ColumnNames(cols) == [cols[0].0] + ColumnNames(tail);
      if e.Has(cols[0].0) {
        WithColumnsDims(e, tail);
      } else if cols[0].1.Ok? {
        WithColumnsDims(AddDimension(e, cols[0].0, cols[0].1.value), tail);
      }
    }
  }

  /** A missing column receives, in every object, the default of its first
      occurrence in the spec as a per-object scalar. */
  lemma {:induction false} WithColumnsDefaults(e: Element, cols: seq<ColumnDefault>, j: nat)
    requires WithColumns(e, cols).Ok?
    requires j < |cols| && !e.Has(cols[j].0) && cols[j].0 !in ColumnNames(cols[..j])
    ensures cols[j].1.Ok?
    ensures FilledWith(WithColumns(e, cols).value, cols[j].0, cols[j].1.value)
    decreases |cols|
  {
    var tail := cols[1..];
    if j == 0 {
      var e' := AddDimension(e, cols[0].0, cols[0].1.value);
      WithColumnsKeepsData(e', tail);
      assert KeepsColumn(e', WithColumns(e, cols).value, cols[0].0);
    } else {
      assert cols[j].0 != cols[0].0 by { assert ColumnNames(cols[..j])[0] == cols[0].0; }
      assert tail[j - 1] == cols[j];
      assert cols[j].0 !in ColumnNames(tail[..j - 1]) by {
        forall c | c in ColumnNames(tail[..j - 1]) ensures c in ColumnNames(cols[..j]) {
          var k :| 0 <= k < j - 1 && ColumnNames(tail[..j - 1])[k] == c;
          assert ColumnNames(cols[..j])[k + 1] == c;
        }
      }
      if e.Has(cols[0].0) {
        WithColumnsDefaults(e, tail, j - 1);
      } else {
        var e' := AddDimension(e, cols[0].0, cols[0].1.value);
        WithColumnsDefaults(e', tail, j - 1);
      }
    }
  }

  /** An element that has every column of the spec is left as it is. */
  lemma {:induction false} WithColumnsPresent(e: Element, cols: seq<ColumnDefault>)
    requires forall c :: c in ColumnNames(cols) ==> e.Has(c)
    ensures WithColumns(e, cols) == Ok(e)
    decreases |cols|
  {
    if cols != [] {
      assert ColumnNames(cols)[0] == cols[0].0;
      assert forall c :: c in ColumnNames(cols[1..]) ==> c in ColumnNames(cols);
      WithColumnsPresent(e, cols[1..]);
    }
  }

  /** Annotating an annotated element again changes nothing. */
  lemma WithColumnsIdempotent(e: Element, cols: seq<ColumnDefault>)
    requires WithColumns(e, cols).Ok?
    ensures WithColumns(WithColumns(e, cols).value, cols) == WithColumns(e, cols)
  {
    WithColumnsKeepsData(e, cols);
    WithColumnsPresent(WithColumns(e, cols).value, cols);
  }

  /** One turn of the annotation loop: a present column is recorded and
      skipped; a missing one is added, or its default's error ends the loop. */
  lemma AddColumnsStep(e: Element, cols: seq<ColumnDefault>)
    requires cols != []
    ensures var col, init := cols[0].0, cols[0].1;
            && (e.Has(col) ==>
                  && WithColumns(e, cols) == WithColumns(e, cols[1..])
                  && Preexisting(e.Dimensions(), cols) == [col] + Preexisting(e.Dimensions(), cols[1..]))
            && (!e.Has(col) && init.Ok? ==>
                  && WithColumns(e, cols) == WithColumns(AddDimension(e, col, init.value), cols[1..])
                  && Preexisting(e.Dimensions(), cols) ==
                     Preexisting(AddDimension(e, col, init.value).Dimensions(), cols[1..]))
            && (!e.Has(col) && init.Err? ==> WithColumns(e, cols) == Err(init.error))
  {
    var col := cols[0].0;
    if e.Has(col) {
      assert e.Dimensions() + {col} == e.Dimensions();
    }
  }

  /** The annotation loop of _init_element: rebinds the element once for
      every missing column and collects the columns found present. */
  method AddColumns(e: Element, cols: seq<ColumnDefault>) returns (r: Result<Element>, present: seq<string>)
    ensures r == WithColumns(e, cols)
    ensures r.Ok? ==> present == Preexisting(e.Dimensions(), cols)
  {
    var element := e;
    present := [];
    var i := 0;
    while i < |cols|
      invariant 0 <= i <= |cols|
      invariant WithColumns(element, cols[i..]) == WithColumns(e, cols)
      invariant present + Preexisting(element.Dimensions(), cols[i..]) == Preexisting(e.Dimensions(), cols)
    {
      var col, init := cols[i].0, cols[i].1;
      assert cols[i..][0] == cols[i] && cols[i..][1..] == cols[i + 1..];
      AddColumnsStep(element, cols[i..]);
      if element.Has(col) {
        present := present + [col];
      } else {
        if init.Err? {
          return Err(init.error), present;
        }
        element := AddDimension(element, col, init.value);
      }
      i := i + 1;
    }
    return Ok(element), present;
  }

  // -------------------------------------------------------------- validation

  /** The validation of _init_element: with at least one pre-existing
      annotation column, the number of values dimension_values(c,
      expanded=False) yields differs between two of those columns. */
  predicate ValidationFails(e: Element, validate: seq<string>) {
    validate != [] &&
    exists c :: c in validate && ValueCount(e.objects, c) != ValueCount(e.objects, validate[0])
  }

  /** Columns that hold one value per object never fail validation. */
  lemma PerPathColumnsPass(e: Element, validate: seq<string>)
    requires forall c, i :: c in validate && 0 <= i < |e.objects| ==>
               c in e.objects[i] && CellValueCount(e.objects[i][c]) == 1
    ensures !ValidationFails(e, validate)
  {
    forall c | c in validate ensures ValueCount(e.objects, c) == |e.objects| {
      ValueCountPerObject(e.objects, c);
    }
  }

  /** Two elements whose objects agree on column `c` yield as many values
      for it. */
  lemma {:induction false} ValueCountAgrees(a: seq<Path>, b: seq<Path>, c: string)
    requires |a| == |b|
    requires forall i :: 0 <= i < |a| ==> (c in a[i] <==> c in b[i]) && (c in a[i] ==> a[i][c] == b[i][c])
    ensures ValueCount(a, c) == ValueCount(b, c)
  {
    if a != [] {
      ValueCountAgrees(a[1..], b[1..], c);
    }
  }

  // ---------------------------------------------------------- _init_element

  /** What _init_element makes of its argument, or the error it raises: no
      element becomes the empty element; a path or polygon annotator adds
      the annotation and vertex-annotation columns and then validates the
      annotation columns that were already present; a point or box annotator
      adds the annotation columns. */
  function InitSpec(kind: Kind, ann: Annotations, vann: Annotations, input: Option<Element>): Result<Element> {
    var e := if input.Some? then input.value else EmptyElement();
    if kind.IsPath() then
      match WithColumns(e, PathDefaults(ann))
      case Err(err) => Err(err)
      case Ok(e1) =>
        match WithColumns(e1, PathDefaults(vann))
        case Err(err) => Err(err)
        case Ok(e2) =>
          var validate := Preexisting(e.Dimensions(), PathDefaults(ann));
          if ValidationFails(e2, validate) then Err(VariesByVertex(validate)) else Ok(e2)
    else WithColumns(e, PlainDefaults(ann))
  }

  /** After _init_element every annotation column, and for paths every
      vertex-annotation column, is a dimension; the key dimensions, the
      objects and the data of every column already present are kept. */
  lemma InitAddsColumns(kind: Kind, ann: Annotations, vann: Annotations, input: Option<Element>)
    requires InitSpec(kind, ann, vann, input).Ok?
    ensures var e := if input.Some? then input.value else EmptyElement();
            var r := InitSpec(kind, ann, vann, input).value;
            && r.kdims == e.kdims
            && |r.objects| == |e.objects|
            && e.Dimensions() <= r.Dimensions()
            && (forall c :: c in ann.Names() ==> r.Has(c))
            && (kind.IsPath() ==> forall c :: c in vann.Names() ==> r.Has(c))
            && r.Dimensions() == e.Dimensions() + (set c | c in ann.Names()) +
                                 (if kind.IsPath() then (set c | c in vann.Names()) else {})
            && (forall k :: e.Has(k) ==> KeepsColumn(e, r, k))
            && (forall k :: k !in ann.Names() && (kind.IsPath() ==> k !in vann.Names()) ==> KeepsColumn(e, r, k))
  {
    var e := if input.Some? then input.value else EmptyElement();
    var cols := Defaults(kind, ann);
    WithColumnsKeepsData(e, cols);
    WithColumnsDims(e, cols);
    var e1 := WithColumns(e, cols).value;
    if kind.IsPath() {
      WithColumnsKeepsData(e1, PathDefaults(vann));
      WithColumnsDims(e1, PathDefaults(vann));
      var e2 := WithColumns(e1, PathDefaults(vann)).value;
      assert InitSpec(kind, ann, vann, input) == Ok(e2);
      forall k | e.Has(k) ensures KeepsColumn(e, e2, k) {
        assert e1.Has(k);
        KeepsColumnTransitive(e, e1, e2, k);
      }
      forall k | k !in ann.Names() && k !in vann.Names() ensures KeepsColumn(e, e2, k) {
        KeepsColumnTransitive(e, e1, e2, k);
      }
    }
  }

  /** The default a missing annotation column receives in every object: for
      paths and polygons the result of calling the dictionary's factory, or
      the empty string; for points and boxes the dictionary value itself, or
      None. */
  lemma InitDefaults(kind: Kind, ann: Annotations, vann: Annotations, input: Option<Element>, j: nat)
    requires InitSpec(kind, ann, vann, input).Ok?
    requires j < |ann.Names()| && ann.Names()[j] !in ann.Names()[..j]
    requires !(if input.Some? then input.value else EmptyElement()).Has(ann.Names()[j])
    ensures var r, col := InitSpec(kind, ann, vann, input).value, ann.Names()[j];
            && (kind.IsPath() && ann.DictSpec? ==> ann.entries[j].1.Factory? && FilledWith(r, col, ann.entries[j].1.result))
            && (kind.IsPath() && ann.ListSpec? ==> FilledWith(r, col, Str("")))
            && (!kind.IsPath() && ann.DictSpec? ==> FilledWith(r, col, ann.entries[j].1))
            && (!kind.IsPath() && ann.ListSpec? ==> FilledWith(r, col, NoneValue))
  {
    var e := if input.Some? then input.value else EmptyElement();
    var cols := Defaults(kind, ann);
    assert ColumnNames(cols)[..j] == ColumnNames(cols[..j]);
    WithColumnsDefaults(e, cols, j);
    if kind.IsPath() {
      WithColumnsKeepsData(e, cols);
      var e1 := WithColumns(e, cols).value;
      assert ColumnNames(cols)[j] == ann.Names()[j];
      assert e1.Has(ann.Names()[j]);
      WithColumnsKeepsData(e1, PathDefaults(vann));
      var e2 := WithColumns(e1, PathDefaults(vann)).value;
      assert KeepsColumn(e1, e2, ann.Names()[j]);
    }
  }

  /** The default a missing vertex-annotation column of a path or polygon
      receives in every object: the result of calling the dictionary's
      factory, or the empty string for a list spec. */
  lemma VertexDefaults(kind: Kind, ann: Annotations, vann: Annotations, input: Option<Element>, j: nat)
    requires kind.IsPath()
    requires InitSpec(kind, ann, vann, input).Ok?
    requires j < |vann.Names()| && vann.Names()[j] !in vann.Names()[..j]
    requires vann.Names()[j] !in ann.Names()
    requires !(if input.Some? then input.value else EmptyElement()).Has(vann.Names()[j])
    ensures var r, col := InitSpec(kind, ann, vann, input).value, vann.Names()[j];
            && (vann.DictSpec? ==> vann.entries[j].1.Factory? && FilledWith(r, col, vann.entries[j].1.result))
            && (vann.ListSpec? ==> FilledWith(r, col, Str("")))
  {
    var e := if input.Some? then input.value else EmptyElement();
    var cols := PathDefaults(ann);
    var vcols := PathDefaults(vann);
    WithColumnsDims(e, cols);
    var e1 := WithColumns(e, cols).value;
    assert ColumnNames(vcols)[..j] == ColumnNames(vcols[..j]);
    assert ColumnNames(vcols)[j] == vann.Names()[j];
    assert !e1.Has(vann.Names()[j]);
    WithColumnsDefaults(e1, vcols, j);
  }

  /** Point and box annotators never raise in _init_element. */
  lemma PlainInitNeverFails(kind: Kind, ann: Annotations, vann: Annotations, input: Option<Element>)
    requires !kind.IsPath()
    ensures InitSpec(kind, ann, vann, input).Ok?
  {
    var e := if input.Some? then input.value else EmptyElement();
    WithColumnsKeepsData(e, PlainDefaults(ann));
  }

  /** For paths and polygons whose two column loops both succeed and whose
      spec names no column twice, _init_element raises exactly when the
      annotation columns of the given element that were present before the
      loop yield differing numbers of per-path values; with no such column
      it never raises. */
  lemma PathValidation(kind: Kind, ann: Annotations, vann: Annotations, input: Option<Element>)
    requires kind.IsPath()
    requires Distinct(ann.Names())
    ensures var e := if input.Some? then input.value else EmptyElement();
            var validate := Preexisting(e.Dimensions(), PathDefaults(ann));
            var w := WithColumns(e, PathDefaults(ann));
            (w.Ok? && WithColumns(w.value, PathDefaults(vann)).Ok?) ==>
              && (InitSpec(kind, ann, vann, input).Err? <==> ValidationFails(e, validate))
              && (InitSpec(kind, ann, vann, input).Err? ==> InitSpec(kind, ann, vann, input).error == VariesByVertex(validate))
              && (validate == [] ==> InitSpec(kind, ann, vann, input).Ok?)
  {
    var e := if input.Some? then input.value else EmptyElement();
    var cols := PathDefaults(ann);
    var validate := Preexisting(e.Dimensions(), cols);
    WithColumnsKeepsData(e, cols);
    if WithColumns(e, cols).Ok? {
      var e1 := WithColumns(e, cols).value;
      WithColumnsKeepsData(e1, PathDefaults(vann));
      if WithColumns(e1, PathDefaults(vann)).Ok? {
        var e2 := WithColumns(e1, PathDefaults(vann)).value;
        PreexistingKnown(e.Dimensions(), cols);
        forall c | c in validate ensures ValueCount(e2.objects, c) == ValueCount(e.objects, c) {
          assert e.Has(c) && e1.Has(c);
          KeepsColumnTransitive(e, e1, e2, c);
          ValueCountAgrees(e2.objects, e.objects, c);
        }
      }
    }
  }

  /** A default is called only for a missing column: a dictionary value
      that is not a factory does no harm to a column that is present. */
  lemma UnneededDefaultNotCalled()
    ensures var e := Element(["x", "y"], ["a"], [map["a" := Scalar(Str("q"))]]);
            && !AllDefaultsOk(PathDefaults(DictSpec([("a", Str("x"))])))
            && InitSpec(PathKind, DictSpec([("a", Str("x"))]), ListSpec([]), Some(e)) == Ok(e)
  {
    var e := Element(["x", "y"], ["a"], [map["a" := Scalar(Str("q"))]]);
    assert PathDefaults(DictSpec([("a", Str("x"))]))[0].1 == Err(NotCallable("a"));
    assert e.Has("a");
    assert PathDefaults(ListSpec([])) == [];
    assert Preexisting(e.Dimensions(), PathDefaults(DictSpec([("a", Str("x"))]))) == ["a"];
  }

  /** With a name repeated in a list spec, the column the loop added for the
      first occurrence is validated at the second; it is absent from the
      given element, so the given element alone does not decide validation. */
  lemma RepeatedNameValidatesAddedColumn()
    ensures var e := Element(["x", "y"], ["b"], [map["b" := Scalar(Str("q"))]]);
            var ann := ListSpec(["b", "a", "a"]);
            var validate := Preexisting(e.Dimensions(), PathDefaults(ann));
            && validate == ["b", "a"]
            && ValidationFails(e, validate)
            && InitSpec(PathKind, ann, ListSpec([]), Some(e)).Ok?
  {
    var e := Element(["x", "y"], ["b"], [map["b" := Scalar(Str("q"))]]);
    var ann := ListSpec(["b", "a", "a"]);
    var cols := [("b", Ok(Str(""))), ("a", Ok(Str(""))), ("a", Ok(Str("")))];
    assert PathDefaults(ann) == cols;
    assert PathDefaults(ListSpec([])) == [];
    assert e.Has("b") && !e.Has("a");
    var once := AddDimension(e, "a", Str(""));
    assert once.Has("a");
    assert cols[1..] == [("a", Ok(Str(""))), ("a", Ok(Str("")))];
    assert cols[1..][1..] == [("a", Ok(Str("")))];
    assert cols[1..][1..][1..] == [];
    assert WithColumns(once, cols[1..][1..]) == Ok(once);
    assert WithColumns(e, cols) == Ok(once);
    assert Preexisting(e.Dimensions(), cols) == ["b", "a"];
    assert ValueCount(e.objects, "a") == 0;
    assert ValueCount(e.objects, "b") == 1;
    assert ValueCount(once.objects, "a") == 1;
    assert ValueCount(once.objects, "b") == 1;
  }

  /** Every column handed to validation is a column of the spec; when the
      spec names each column once, it is one the loop started with. */
  lemma {:induction false} PreexistingKnown(known: set<string>, cols: seq<ColumnDefault>)
    ensures forall c :: c in Preexisting(known, cols) ==> c in ColumnNames(cols)
    ensures Distinct(ColumnNames(cols)) ==> forall c :: c in Preexisting(known, cols) ==> c in known
    decreases |cols|
  {
    if cols != [] {
      var tail := cols[1..];
      PreexistingKnown(known + {cols[0].0}, tail);
      assert forall k :: 0 <= k < |tail| ==> ColumnNames(tail)[k] == ColumnNames(cols)[k + 1];
      assert forall c :: c in ColumnNames(tail) ==> c in ColumnNames(cols);
      if Distinct(ColumnNames(cols)) {
        assert Distinct(ColumnNames(tail));
        assert cols[0].0 !in ColumnNames(tail);
      }
    }
  }

  // ------------------------------------------------------- re-initialization

  /** Re-running _init_element on its own result returns that result again,
      provided every annotation column of a path or polygon element holds
      one value per object (the new columns always do). */
  lemma ReinitializeIsStable(kind: Kind, ann: Annotations, vann: Annotations, input: Option<Element>, e': Element)
    requires InitSpec(kind, ann, vann, input) == Ok(e')
    requires kind.IsPath() ==>
               forall c, i :: c in ann.Names() && 0 <= i < |e'.objects| ==>
                 c in e'.objects[i] && CellValueCount(e'.objects[i][c]) == 1
    ensures InitSpec(kind, ann, vann, Some(e')) == Ok(e')
  {
    InitAddsColumns(kind, ann, vann, input);
    if kind.IsPath() {
      WithColumnsPresent(e', PathDefaults(ann));
      WithColumnsPresent(e', PathDefaults(vann));
      PreexistingKnown(e'.Dimensions(), PathDefaults(ann));
      PerPathColumnsPass(e', Preexisting(e'.Dimensions(), PathDefaults(ann)));
    } else {
      WithColumnsPresent(e', PlainDefaults(ann));
    }
  }

  /** One path whose column "a" takes two values along its vertices. */
  function VaryingPath(): Element {
    Element(["x", "y"], ["a"], [map["a" := Vertices([Num(0.0), Num(1.0)])]])
  }

  lemma TwoDistinctValues()
    ensures CellValueCount(Vertices([Num(0.0), Num(1.0)])) == 2
  {
    var vs := [Num(0.0), Num(1.0)];
    assert (set v | v in vs) == {Num(0.0), Num(1.0)};
  }

  /** The validation compares columns with each other only: a single
      annotation column that varies by vertex is accepted. */
  lemma SingleVaryingColumnAccepted()
    ensures InitSpec(PathKind, ListSpec(["a"]), ListSpec([]), Some(VaryingPath())) == Ok(VaryingPath())
  {
    var e := VaryingPath();
    assert e.Has("a");
    assert PathDefaults(ListSpec(["a"])) == [("a", Ok(Str("")))];
    assert PathDefaults(ListSpec([])) == [];
    assert Preexisting(e.Dimensions(), [("a", Ok(Str("")))]) == ["a"];
  }

  /** Re-initialization is therefore not always idempotent: adding column
      "b" beside the per-vertex column "a" is accepted once, and the second
      run, which now validates both columns, raises. */
  lemma ReinitializeCanRaise()
    ensures var ann := ListSpec(["a", "b"]);
            var once := Element(["x", "y"], ["b", "a"],
                                [map["a" := Vertices([Num(0.0), Num(1.0)]), "b" := Scalar(Str(""))]]);
            && InitSpec(PathKind, ann, ListSpec([]), Some(VaryingPath())) == Ok(once)
            && InitSpec(PathKind, ann, ListSpec([]), Some(once)) == Err(VariesByVertex(["a", "b"]))
  {
    var ann := ListSpec(["a", "b"]);
    var e := VaryingPath();
    var cols := [("a", Ok(Str(""))), ("b", Ok(Str("")))];
    assert PathDefaults(ann) == cols;
    assert PathDefaults(ListSpec([])) == [];
    var once := Element(["x", "y"], ["b", "a"],
                        [map["a" := Vertices([Num(0.0), Num(1.0)]), "b" := Scalar(Str(""))]]);
    assert e.Has("a") && !e.Has("b");
    assert AddDimension(e, "b", Str("")) == once;
    assert cols[1..][1..] == [];
    assert WithColumns(e, cols) == Ok(once);
    assert Preexisting(e.Dimensions(), cols) == ["a"];
    assert InitSpec(PathKind, ann, ListSpec([]), Some(e)) == Ok(once);
    assert once.Has("a") && once.Has("b");
    WithColumnsPresent(once, cols);
    assert Preexisting(once.Dimensions(), cols) == ["a", "b"];
    TwoDistinctValues();
    assert ValueCount(once.objects, "a") == 2;
    assert ValueCount(once.objects, "b") == 1;
    assert ValidationFails(once, ["a", "b"]);
  }

  // -------------------------------------------------------- table transforms

  /** The transforms applied one after the other, first transform first. */
  function Transformed(e: Element, transforms: seq<Element -> Element>): Element
    decreases |transforms|
  {
    if transforms == [] then e else Transformed(transforms[0](e), transforms[1..])
  }

  lemma {:induction false} TransformedAppend(e: Element, ts: seq<Element -> Element>, us: seq<Element -> Element>)
    ensures Transformed(e, ts + us) == Transformed(Transformed(e, ts), us)
    decreases |ts|
  {
    if ts != [] {
      assert (ts + us)[0] == ts[0] && (ts + us)[1..] == ts[1..] + us;
      TransformedAppend(ts[0](e), ts[1..], us);
    } else {
      assert ts + us == us;
    }
  }

  /** _table_data is a left fold: no transform returns the object itself,
      and one more transform at the end is applied to the result so far. */
  lemma TransformedIsLeftFold(e: Element, ts: seq<Element -> Element>, t: Element -> Element)
    ensures Transformed(e, []) == e
    ensures Transformed(e, ts + [t]) == t(Transformed(e, ts))
  {
    TransformedAppend(e, ts, [t]);
  }

  // -------------------------------------------------------------- path table

  /** The first value of column `col` in each object, in order, or the error
      of the first object that has none. */
  function ColumnValues(objects: seq<Path>, col: string): (r: Result<seq<Value>>)
    ensures r.Ok? <==> forall i :: 0 <= i < |objects| ==> FirstValue(objects[i], col).Ok?
    ensures r.Ok? ==> |r.value| == |objects| &&
                      forall i :: 0 <= i < |objects| ==> r.value[i] == FirstValue(objects[i], col).value
    decreases |objects|
  {
    if objects == [] then Ok([])
    else match FirstValue(objects[0], col)
      case Err(err) => Err(err)
      case Ok(v) =>
        match ColumnValues(objects[1..], col)
        case Err(err) => Err(err)
        case Ok(vs) => Ok([v] + vs)
  }

  /** The per-path table data of _init_table: for each annotation column,
      the first value it has in each path. */
  function PathTableColumns(objects: seq<Path>, names: seq<string>): (r: Result<map<string, seq<Value>>>)
    ensures r.Ok? <==> forall c, i :: c in names && 0 <= i < |objects| ==> FirstValue(objects[i], c).Ok?
    ensures r.Ok? ==> r.value.Keys == (set c | c in names) &&
                      forall c :: c in names ==>
                        && |r.value[c]| == |objects|
                        && forall i :: 0 <= i < |objects| ==> r.value[c][i] == FirstValue(objects[i], c).value
    decreases |names|
  {
    if names == [] then Ok(map[])
    else
      assert forall c :: c in names <==> c == names[0] || c in names[1..];
      match ColumnValues(objects, names[0])
      case Err(err) =>
        assert names[0] in names;
        assert !forall i :: 0 <= i < |objects| ==> FirstValue(objects[i], names[0]).Ok?;
        Err(err)
      case Ok(vs) =>
        match PathTableColumns(objects, names[1..])
        case Err(err) => Err(err)
        case Ok(m) => Ok(m[names[0] := vs])
  }

  /** The path table: one row per path, holding the path's first value of
      every annotation column. */
  function PathTable(e: Element, names: seq<string>): Result<Table> {
    match PathTableColumns(e.objects, names)
    case Err(err) => Err(err)
    case Ok(data) => Ok(Table(names, data))
  }

  // ------------------------------------------------------- vertex collapse

  /** `if len(cell): cell = cell[0]`: a per-vertex cell with at least one
      value becomes its first value and a non-empty string its first
      character; any other cell is kept. */
  function Collapse(c: Cell): Cell {
    match c
    case Vertices(vs) => if |vs| > 0 then Scalar(vs[0]) else c
    case Scalar(v) => if v.Str? && |v.s| > 0 then Scalar(Str([v.s[0]])) else c
  }

  /** A cell collapsed `n` times. */
  function CollapseTimes(c: Cell, n: nat): Cell {
    if n == 0 then c else Collapse(CollapseTimes(c, n - 1))
  }

  /** A cell holding one value, or a non-empty list of them, holds one value
      however often it is collapsed. */
  lemma {:induction false} CollapseTimesKeepsOneValue(c: Cell, n: nat)
    requires c.Scalar? || |c.vs| > 0
    requires n > 0 || c.Scalar?
    ensures CollapseTimes(c, n).Scalar?
  {
    if n > 0 && (n > 1 || c.Scalar?) {
      CollapseTimesKeepsOneValue(c, n - 1);
    }
  }

  /** The inner loop over the annotation columns for one path: each column,
      in spec order and once per mention, is collapsed. */
  function CollapsedPath(p: Path, cols: seq<string>): Path
    decreases |cols|
  {
    if cols == [] then p
    else
      var q := CollapsedPath(p, cols[..|cols| - 1]);
      var col := cols[|cols| - 1];
      if col in q then q[col := Collapse(q[col])] else q
  }

  /** Collapsing keeps the columns of a path; each cell is collapsed as many
      times as the spec names its column, so a column outside the spec is
      kept. */
  lemma {:induction false} CollapsedPathCounts(p: Path, cols: seq<string>)
    ensures CollapsedPath(p, cols).Keys == p.Keys
    ensures forall k :: k in p ==> CollapsedPath(p, cols)[k] == CollapseTimes(p[k], multiset(cols)[k])
    decreases |cols|
  {
    if cols != [] {
      var front := cols[..|cols| - 1];
      var col := cols[|cols| - 1];
      CollapsedPathCounts(p, front);
      var q := CollapsedPath(p, front);
      assert cols == front + [col];
      assert multiset(cols) == multiset(front) + multiset{col};
      forall k | k in p
        ensures CollapsedPath(p, cols)[k] == CollapseTimes(p[k], multiset(cols)[k])
      {
        if k == col {
          assert multiset(cols)[k] == multiset(front)[k] + 1;
          assert CollapsedPath(p, cols)[k] == Collapse(q[k]);
        } else {
          assert multiset(cols)[k] == multiset(front)[k];
          assert CollapsedPath(p, cols)[k] == q[k];
        }
      }
    }
  }

  /** A column named once by the spec: a non-empty list becomes its first
      element, a non-empty string its first character, and any other cell
      is kept; columns outside the spec are kept too. */
  lemma CollapsedPathFacts(p: Path, cols: seq<string>)
    ensures CollapsedPath(p, cols).Keys == p.Keys
    ensures forall k :: k in p && k !in cols ==> CollapsedPath(p, cols)[k] == p[k]
    ensures forall k :: k in p && multiset(cols)[k] == 1 && p[k].Vertices? && |p[k].vs| > 0 ==>
              CollapsedPath(p, cols)[k] == Scalar(p[k].vs[0])
    ensures forall k :: k in p && multiset(cols)[k] == 1 && p[k].Scalar? && p[k].v.Str? && |p[k].v.s| > 0 ==>
              CollapsedPath(p, cols)[k] == Scalar(Str([p[k].v.s[0]]))
    ensures forall k :: k in p && multiset(cols)[k] == 1 && p[k].Vertices? && |p[k].vs| == 0 ==>
              CollapsedPath(p, cols)[k] == p[k]
    ensures forall k :: k in p && multiset(cols)[k] == 1 && p[k].Scalar? && !(p[k].v.Str? && |p[k].v.s| > 0) ==>
              CollapsedPath(p, cols)[k] == p[k]
  {
    CollapsedPathCounts(p, cols);
    forall c: Cell ensures CollapseTimes(c, 1) == Collapse(c) {
      assert CollapseTimes(c, 0) == c;
    }
  }

  /** The collapse also reaches scalar strings: an annotation value of
      several characters is cut to its first character. */
  lemma CollapseCutsStrings()
    ensures CollapsedPath(map["label" := Scalar(Str("abc"))], ["label"]) == map["label" := Scalar(Str("a"))]
  {
    assert "abc"[0] == 'a';
  }

  /** So a second collapse is not a no-op: a per-vertex value "abc" becomes
      "abc" on the first update and "a" on the next. */
  lemma CollapseNotIdempotent()
    ensures var p := map["label" := Vertices([Str("abc"), Str("abc")])];
            && CollapsedPath(p, ["label"]) == map["label" := Scalar(Str("abc"))]
            && CollapsedPath(CollapsedPath(p, ["label"]), ["label"]) == map["label" := Scalar(Str("a"))]
  {
    var p := map["label" := Vertices([Str("abc"), Str("abc")])];
    assert ["label"][..0] == [];
    assert CollapsedPath(p, ["label"]) == map["label" := Scalar(Str("abc"))];
    assert "abc"[0] == 'a';
  }

  /** The nested loop of PathAnnotator._update_element: in every path, each
      annotation column holding a non-empty list (or string) is replaced by
      its first element, in place. */
  method CollapseVertexValues(data: array<Path>, cols: seq<string>)
    requires forall i, c :: 0 <= i < data.Length && c in cols ==> c in data[i]
    modifies data
    ensures forall i :: 0 <= i < data.Length ==> data[i] == CollapsedPath(old(data[i]), cols)
  {
    var i := 0;
    while i < data.Length
      invariant 0 <= i <= data.Length
      invariant forall k :: 0 <= k < i ==> data[k] == CollapsedPath(old(data[k]), cols)
      invariant forall k :: i <= k < data.Length ==> data[k] == old(data[k])
      invariant forall k, c :: i <= k < data.Length && c in cols ==> c in data[k]
    {
      var original := data[i];
      assert forall c :: c in cols ==> c in original;
      var path := original;
      var j := 0;
      while j < |cols|
        invariant 0 <= j <= |cols|
        invariant path == CollapsedPath(original, cols[..j])
        invariant path.Keys == original.Keys
      {
        var col := cols[j];
        assert col in original;
        assert cols[..j + 1][..j] == cols[..j];
        ghost var before := path;
        var cell := path[col];
        if cell.Vertices? && |cell.vs| > 0 {
          path := path[col := Scalar(cell.vs[0])];
        } else if cell.Scalar? && cell.v.Str? && |cell.v.s| > 0 {
          path := path[col := Scalar(Str([cell.v.s[0]]))];
        }
        assert path == before[col := Collapse(before[col])];
        j := j + 1;
      }
      assert cols[..|cols|] == cols;
      data[i] := path;
      i := i + 1;
    }
  }

  // --------------------------------------------------------------- selection

  /** `pos` lists, in increasing order, exactly the positions below `n` that
      occur in the selection `index`. */
  ghost predicate InDrawingOrder(pos: seq<nat>, n: nat, index: seq<int>) {
    && (forall k :: 0 <= k < |pos| ==> pos[k] < n && pos[k] in index)
    && (forall k, l :: 0 <= k < l < |pos| ==> pos[k] < pos[l])
    && (forall i :: 0 <= i < n && i in index ==> i in pos)
  }

  /** The positions `i` of `enumerate(objects)` kept by `if i in index`. */
  function Positions(n: nat, index: seq<int>): (pos: seq<nat>)
    ensures forall k :: 0 <= k < |pos| ==> pos[k] < n
  {
    if n == 0 then []
    else Positions(n - 1, index) + (if n - 1 in index then [n - 1] else [])
  }

  /** Every kept position is in the index. */
  lemma {:induction false} PositionsInIndex(n: nat, index: seq<int>)
    ensures forall k :: 0 <= k < |Positions(n, index)| ==> Positions(n, index)[k] in index
  {
    if n > 0 {
      PositionsInIndex(n - 1, index);
      var front, pos := Positions(n - 1, index), Positions(n, index);
      assert forall k :: 0 <= k < |front| ==> pos[k] == front[k];
    }
  }

  /** The kept positions increase. */
  lemma {:induction false} PositionsIncrease(n: nat, index: seq<int>)
    ensures forall k, l :: 0 <= k < l < |Positions(n, index)| ==> Positions(n, index)[k] < Positions(n, index)[l]
  {
    if n > 0 {
      PositionsIncrease(n - 1, index);
      var front, pos := Positions(n - 1, index), Positions(n, index);
      assert forall k :: 0 <= k < |front| ==> pos[k] == front[k];
    }
  }

  /** No position of the index below `n` is dropped. */
  lemma {:induction false} PositionsComplete(n: nat, index: seq<int>)
    ensures forall i :: 0 <= i < n && i in index ==> i in Positions(n, index)
  {
    if n > 0 {
      PositionsComplete(n - 1, index);
      var front, pos := Positions(n - 1, index), Positions(n, index);
      assert forall i :: i in front ==> i in pos;
      if n - 1 in index {
        assert pos[|pos| - 1] == n - 1;
      }
    }
  }

  /** The filter keeps exactly the positions of the index below `n`, each
      once, in increasing order. */
  lemma PositionsInDrawingOrder(n: nat, index: seq<int>)
    ensures InDrawingOrder(Positions(n, index), n, index)
  {
    PositionsInIndex(n, index);
    PositionsIncrease(n, index);
    PositionsComplete(n, index);
  }

  /** `selected` of the path, polygon and box annotators: the objects whose
      position is in the selection index, in drawing order. */
  function Selected<T>(objects: seq<T>, index: seq<int>): (r: seq<T>)
    ensures exists pos :: InDrawingOrder(pos, |objects|, index) &&
                          |r| == |pos| && forall k :: 0 <= k < |r| ==> r[k] == objects[pos[k]]
  {
    PositionsInDrawingOrder(|objects|, index);
    var pos := Positions(|objects|, index);
    seq(|pos|, k requires 0 <= k < |pos| => objects[pos[k]])
  }

  /** The selection holds exactly the objects at the indexed positions, in
      drawing order: each selected object is at a position of the index,
      positions increase, and no indexed object is missed. */
  lemma SelectedInDrawingOrder<T>(objects: seq<T>, index: seq<int>)
    ensures var pos := Positions(|objects|, index);
            && InDrawingOrder(pos, |objects|, index)
            && Selected(objects, index) == seq(|pos|, k requires 0 <= k < |pos| => objects[pos[k]])
  {
    PositionsInDrawingOrder(|objects|, index);
  }

  /** `selected` of the point annotator, `iloc[index]`: the rows in the
      order of the selection index, or an error for a position past the end. */
  function PointSelected<T>(rows: seq<T>, index: seq<nat>): (r: Result<seq<T>>)
    ensures r.Ok? <==> forall k :: 0 <= k < |index| ==> index[k] < |rows|
    ensures r.Ok? ==> |r.value| == |index| && forall k :: 0 <= k < |index| ==> r.value[k] == rows[index[k]]
    ensures r.Err? ==> exists k :: 0 <= k < |index| && index[k] >= |rows| && r.error == IndexOutOfRange(index[k])
    decreases |index|
  {
    if index == [] then Ok([])
    else if index[0] >= |rows| then Err(IndexOutOfRange(index[0]))
    else match PointSelected(rows, index[1..])
      case Err(err) => Err(err)
      case Ok(vs) => Ok([rows[index[0]]] + vs)
  }

  /** Positions depend only on which positions below `n` the index holds. */
  lemma {:induction false} PositionsBySelection(n: nat, a: seq<int>, b: seq<int>)
    requires forall i :: 0 <= i < n ==> (i in a <==> i in b)
    ensures Positions(n, a) == Positions(n, b)
  {
    if n > 0 {
      PositionsBySelection(n - 1, a, b);
    }
  }

  /** An increasing index in range ending at `n - 1`: its front is an
      increasing index below `n - 1` holding the same positions below it. */
  lemma SplitLast(n: nat, index: seq<nat>)
    requires n > 0 && index != [] && index[|index| - 1] == n - 1
    requires forall k, l :: 0 <= k < l < |index| ==> index[k] < index[l]
    ensures var front := index[..|index| - 1];
            && index == front + [n - 1]
            && (forall k, l :: 0 <= k < l < |front| ==> front[k] < front[l])
            && (forall k :: 0 <= k < |front| ==> front[k] < n - 1)
            && (forall i :: 0 <= i < n - 1 ==> (i in index <==> i in front))
  {
    var front := index[..|index| - 1];
    forall k | 0 <= k < |front| ensures front[k] < n - 1 {
      assert index[k] < index[|index| - 1];
    }
    forall i | 0 <= i < n - 1 ensures (i in index <==> i in front) {
      if i in index {
        var k :| 0 <= k < |index| && index[k] == i;
        assert k != |index| - 1;
        assert front[k] == i;
      }
    }
  }

  /** An increasing index in range that does not end at `n - 1` lies below it. */
  lemma BelowLast(n: nat, index: seq<nat>)
    requires n > 0 && !(index != [] && index[|index| - 1] == n - 1)
    requires forall k, l :: 0 <= k < l < |index| ==> index[k] < index[l]
    requires forall k :: 0 <= k < |index| ==> index[k] < n
    ensures forall k :: 0 <= k < |index| ==> index[k] < n - 1
  {
    forall k | 0 <= k < |index| ensures index[k] < n - 1 {
      if k < |index| - 1 {
        assert index[k] < index[|index| - 1];
      }
    }
  }

  /** A selection index that is increasing and in range lists its own
      positions in drawing order. */
  lemma {:induction false} PositionsOfIncreasing(n: nat, index: seq<nat>)
    requires forall k, l :: 0 <= k < l < |index| ==> index[k] < index[l]
    requires forall k :: 0 <= k < |index| ==> index[k] < n
    ensures Positions(n, index) == index
  {
    if n > 0 {
      if index != [] && index[|index| - 1] == n - 1 {
        SplitLast(n, index);
        var front := index[..|index| - 1];
        PositionsBySelection(n - 1, index, front);
        PositionsOfIncreasing(n - 1, front);
        assert n - 1 in index;
        assert Positions(n, index) == Positions(n - 1, index) + [n - 1];
      } else {
        BelowLast(n, index);
        PositionsOfIncreasing(n - 1, index);
        assert Positions(n, index) == Positions(n - 1, index);
      }
    }
  }

  /** The point annotator's selection order and the drawing order of the
      other annotators agree when the index is increasing and in range. */
  lemma PointSelectionInDrawingOrder<T>(rows: seq<T>, index: seq<nat>)
    requires forall k, l :: 0 <= k < l < |index| ==> index[k] < index[l]
    requires forall k :: 0 <= k < |index| ==> index[k] < |rows|
    ensures PointSelected(rows, index) == Ok(Selected(rows, index))
  {
    PositionsOfIncreasing(|rows|, index);
    var selected := Selected(rows, index);
    assert |selected| == |index|;
    assert forall k :: 0 <= k < |index| ==> selected[k] == rows[index[k]];
    var picked := PointSelected(rows, index);
    assert picked.Ok?;
    assert picked.value == selected;
  }

  // ------------------------------------------------------------------ tables

  /** A table with the given columns and no rows. */
  function EmptyTable(columns: seq<string>): Table {
    Table(columns, map c | c in columns :: [])
  }

  /** A column filled with one default shows that default in every row of
      the per-path table. */
  lemma FilledColumnValues(r: Element, col: string, v: Value)
    requires FilledWith(r, col, v)
    ensures ColumnValues(r.objects, col) == Ok(seq(|r.objects|, i => v))
  {
    assert forall i :: 0 <= i < |r.objects| ==> FirstValue(r.objects[i], col) == Ok(v);
    var vs := ColumnValues(r.objects, col).value;
    var expected := seq(|r.objects|, i => v);
    assert |vs| == |expected|;
    forall i | 0 <= i < |vs| ensures vs[i] == expected[i] {
      assert vs[i] == FirstValue(r.objects[i], col).value;
    }
    assert vs == expected;
  }

  /** The tables _init_table builds from the annotated element `obj` and its
      transformed table data `data`: for paths and polygons the per-path
      table and an empty vertex table over the key dimensions and the vertex
      annotations; for points a table of all dimensions; for boxes a table
      of the annotation columns. */
  function Tables(kind: Kind, name: string, ann: Annotations, vann: Annotations, obj: Element, data: Element)
    : Result<seq<NamedTable>>
  {
    var columns := if kind == PointKind then data.kdims + data.vdims else ann.Names();
    match PathTable(data, columns)
    case Err(err) => Err(err)
    case Ok(t) =>
      if kind.IsPath() then Ok([(name, t), (name + " Vertices", EmptyTable(obj.kdims + vann.Names()))])
      else Ok([(name, t)])
  }

  /** The tables exist exactly when every table column has a first value in
      every object of the table data; the annotation table then has one row
      per object holding that first value, and paths and polygons add an
      empty vertex table. */
  lemma TablesShape(kind: Kind, name: string, ann: Annotations, vann: Annotations, obj: Element, data: Element)
    ensures var columns := if kind == PointKind then data.kdims + data.vdims else ann.Names();
            var r := Tables(kind, name, ann, vann, obj, data);
            && (r.Ok? <==> forall c, i :: c in columns && 0 <= i < |data.objects| ==> FirstValue(data.objects[i], c).Ok?)
            && (r.Ok? ==>
                && |r.value| == (if kind.IsPath() then 2 else 1)
                && r.value[0].0 == name
                && r.value[0].1.columns == columns
                && r.value[0].1.data.Keys == (set c | c in columns)
                && (forall c, i :: c in columns && 0 <= i < |data.objects| ==>
                      |r.value[0].1.data[c]| == |data.objects| &&
                      r.value[0].1.data[c][i] == FirstValue(data.objects[i], c).value)
                && (kind.IsPath() ==>
                      r.value[1].0 == name + " Vertices" &&
                      r.value[1].1.columns == obj.kdims + vann.Names() &&
                      forall c :: c in r.value[1].1.data ==> r.value[1].1.data[c] == []))
  {
  }

  // --------------------------------------------------------------- annotator

  /** An annotator: the element it edits (its `object` parameter), its annotation specs, its table
      transforms and the tables its editor shows. The kind stands for the
      annotator class. */
  class Annotator {
    const kind: Kind
    const name: string
    var annotations: Annotations
    var vertexAnnotations: Annotations
    var tableTransforms: seq<Element -> Element>
    var element: Option<Element>
    var tables: seq<NamedTable>

    /** An annotator with its parameters set, before its first _initialize. */
    constructor (kind: Kind, name: string, annotations: Annotations, vertexAnnotations: Annotations,
                 tableTransforms: seq<Element -> Element>, element: Option<Element>)
      ensures this.kind == kind && this.name == name
      ensures this.annotations == annotations && this.vertexAnnotations == vertexAnnotations
      ensures this.tableTransforms == tableTransforms && this.element == element && this.tables == []
    {
      this.kind := kind;
      this.name := name;
      this.annotations := annotations;
      this.vertexAnnotations := vertexAnnotations;
      this.tableTransforms := tableTransforms;
      this.element := element;
      this.tables := [];
    }

    /** _init_element: stores the annotated element, or raises and leaves
        the element as it was. */
    method InitElement(input: Option<Element>) returns (r: Outcome)
      modifies this`element
      ensures var s := InitSpec(kind, annotations, vertexAnnotations, input);
              && (s.Ok? ==> r == Pass && element == Some(s.value))
              && (s.Err? ==> r == Fail(s.error) && element == old(element))
    {
      var e := if input.Some? then input.value else EmptyElement();
      var added, validate := AddColumns(e, Defaults(kind, annotations));
      if added.Err? {
        return Fail(added.error);
      }
      var annotated := added.value;
      if kind.IsPath() {
        var withVertex, _ := AddColumns(annotated, PathDefaults(vertexAnnotations));
        if withVertex.Err? {
          return Fail(withVertex.error);
        }
        annotated := withVertex.value;
        if ValidationFails(annotated, validate) {
          return Fail(VariesByVertex(validate));
        }
      }
      element := Some(annotated);
      return Pass;
    }

    /** _table_data: the element passed through every table transform in order. */
    method TableData() returns (t: Element)
      requires element.Some?
      ensures t == Transformed(element.value, tableTransforms)
    {
      t := element.value;
      var i := 0;
      while i < |tableTransforms|
        invariant 0 <= i <= |tableTransforms|
        invariant Transformed(t, tableTransforms[i..]) == Transformed(element.value, tableTransforms)
      {
        assert tableTransforms[i..][1..] == tableTransforms[i + 1..];
        t := tableTransforms[i](t);
        i := i + 1;
      }
    }

    /** _init_table: builds the editor tables from the table data, or raises
        and leaves them as they were. */
    method InitTable() returns (r: Outcome)
      requires element.Some?
      modifies this`tables
      ensures var s := Tables(kind, name, annotations, vertexAnnotations, element.value,
                              Transformed(element.value, tableTransforms));
              && (s.Ok? ==> r == Pass && tables == s.value)
              && (s.Err? ==> r == Fail(s.error) && tables == old(tables))
    {
      var data := TableData();
      match Tables(kind, name, annotations, vertexAnnotations, element.value, data)
      case Err(err) => r := Fail(err);
      case Ok(ts) => tables := ts; r := Pass;
    }

    /** _initialize: annotates the given element, or the current element when
        none is given, then rebuilds the tables. */
    method Initialize(input: Option<Element>) returns (r: Outcome)
      modifies this`element, this`tables
      ensures var s := InitSpec(kind, annotations, vertexAnnotations, if input.Some? then input else old(element));
              && (s.Err? ==> r == Fail(s.error) && element == old(element) && tables == old(tables))
              && (s.Ok? ==>
                   && element == Some(s.value)
                   && var t := Tables(kind, name, annotations, vertexAnnotations, s.value,
                                   Transformed(s.value, tableTransforms));
                   && (t.Ok? ==> r == Pass && tables == t.value)
                   && (t.Err? ==> r == Fail(t.error) && tables == old(tables)))
    {
      var chosen := if input.Some? then input else element;
      r := InitElement(chosen);
      if r.Pass? {
        r := InitTable();
      }
    }

    /** _update_element: the drawn element becomes the element. For paths and
        polygons held as a list of dictionaries, every annotation column of
        every path is first collapsed in place to its first value. */
    method UpdateElement(kdims: seq<string>, vdims: seq<string>, data: array<Path>, multitabular: bool)
      requires kind.IsPath() && multitabular ==>
                 forall i, c :: 0 <= i < data.Length && c in annotations.Names() ==> c in data[i]
      modifies this`element, data
      ensures var collapse := kind.IsPath() && multitabular && data.Length > 0;
              && (collapse ==> forall i :: 0 <= i < data.Length ==>
                                 data[i] == CollapsedPath(old(data[i]), annotations.Names()))
              && (!collapse ==> data[..] == old(data[..]))
      ensures element == Some(Element(kdims, vdims, data[..]))
    {
      if kind.IsPath() && multitabular && data.Length > 0 {
        CollapseVertexValues(data, annotations.Names());
      }
      element := Some(Element(kdims, vdims, data[..]));
    }
  }

  /** After the collapse of _update_element, annotation columns that had a
      value in every drawn path hold one value per path, so validating them
      never raises. */
  lemma CollapsedPassesValidation(kdims: seq<string>, vdims: seq<string>, before: seq<Path>, after: seq<Path>,
                                  cols: seq<string>, validate: seq<string>)
    requires |after| == |before|
    requires forall i :: 0 <= i < |before| ==> after[i] == CollapsedPath(before[i], cols)
    requires forall c :: c in validate ==> c in cols
    requires forall c, i :: c in validate && 0 <= i < |before| ==>
               c in before[i] && (before[i][c].Scalar? || |before[i][c].vs| > 0)
    ensures !ValidationFails(Element(kdims, vdims, after), validate)
  {
    forall c, i | c in validate && 0 <= i < |after|
      ensures c in after[i] && CellValueCount(after[i][c]) == 1
    {
      CollapsedPathCounts(before[i], cols);
      CollapseTimesKeepsOneValue(before[i][c], multiset(cols)[c]);
    }
    PerPathColumnsPass(Element(kdims, vdims, after), validate);
  }
}

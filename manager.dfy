/** The annotation manager: a list of layers, each an annotator or a plain
    element, drawn together as one plot beside an editor that shows the
    tables of every annotator layer. */
module Manager {
  import opened Elements
  import opened Annotators

  /** A layer handed to the manager: an annotator, an element, or anything
      else (which add_layer refuses). */
  datatype Layer = AnnotatorLayer(annotator: Annotator) | ElementLayer(element: Element) | Other

  /** The annotators among `layers`. */
  function AnnotatorsOf(layers: seq<Layer>): set<Annotator> {
    set i | 0 <= i < |layers| && layers[i].AnnotatorLayer? :: layers[i].annotator
  }

  /** The tables a layer contributes to the editor: an annotator's tables,
      nothing for any other layer. */
  function LayerTables(l: Layer): seq<NamedTable>
    reads if l.AnnotatorLayer? then {l.annotator} else {}
  {
    if l.AnnotatorLayer? then l.annotator.tables else []
  }

  /** The editor's tabs for `layers`: the tables of every annotator layer,
      layer by layer, in order. */
  function EditorTables(layers: seq<Layer>): seq<NamedTable>
    reads AnnotatorsOf(layers)
    decreases |layers|
  {
    if layers == [] then []
    else
      assert AnnotatorsOf(layers[..|layers| - 1]) <= AnnotatorsOf(layers) by {
        forall a | a in AnnotatorsOf(layers[..|layers| - 1]) ensures a in AnnotatorsOf(layers) {
          var i :| 0 <= i < |layers| - 1 && layers[..|layers| - 1][i].AnnotatorLayer? &&
                   layers[..|layers| - 1][i].annotator == a;
          assert layers[i] == layers[..|layers| - 1][i];
        }
      }
      EditorTables(layers[..|layers| - 1]) + LayerTables(layers[|layers| - 1])
  }

  /** The editor of a concatenation of layers is the concatenation of their
      editors. */
  lemma {:induction false} EditorTablesAppend(a: seq<Layer>, b: seq<Layer>)
    ensures EditorTables(a + b) == EditorTables(a) + EditorTables(b)
    decreases |b|
  {
    if b == [] {
      assert a + b == a;
    } else {
      var front := b[..|b| - 1];
      assert (a + b)[..|a + b| - 1] == a + front;
      assert (a + b)[|a + b| - 1] == b[|b| - 1];
      EditorTablesAppend(a, front);
    }
  }

  /** Layers without an annotator contribute no table. */
  lemma {:induction false} ElementLayersHaveNoTables(layers: seq<Layer>)
    requires forall i :: 0 <= i < |layers| ==> !layers[i].AnnotatorLayer?
    ensures EditorTables(layers) == []
    decreases |layers|
  {
    if layers != [] {
      ElementLayersHaveNoTables(layers[..|layers| - 1]);
    }
  }

  /** True when no layer is refused by add_layer. */
  predicate AllAccepted(layers: seq<Layer>) {
    forall i :: 0 <= i < |layers| ==> !layers[i].Other?
  }

  class AnnotationManager {
    var layers: seq<Layer>
    var editor: seq<NamedTable>

    /** Every layer the manager holds went through add_layer. */
    ghost predicate Valid()
      reads this
    {
      AllAccepted(layers)
    }

    /** A manager with no layers and an empty editor. */
    constructor Empty()
      ensures layers == [] && editor == []
      ensures Valid()
    {
      layers := [];
      editor := [];
    }

    /** add_layer: appends an annotator or an element, and the trigger on
        `layers` refreshes the editor; anything else raises and the manager
        stays as it was. */
    method AddLayer(layer: Layer) returns (r: Outcome)
      requires Valid()
      modifies this`layers, this`editor
      ensures Valid()
      ensures layer.Other? ==> r == Fail(InvalidLayer) && layers == old(layers) && editor == old(editor)
      ensures !layer.Other? ==> r == Pass && layers == old(layers) + [layer] && editor == EditorTables(layers)
    {
      if layer.Other? {
        return Fail(InvalidLayer);
      }
      layers := layers + [layer];
      UpdateEditor();
      return Pass;
    }

    /** _get_plot: one plot layer per manager layer, in order; an annotator
        is drawn as the element it edits. */
    method GetPlot() returns (plot: seq<Element>)
      requires Valid()
      requires forall i :: 0 <= i < |layers| && layers[i].AnnotatorLayer? ==> layers[i].annotator.element.Some?
      ensures |plot| == |layers|
      ensures forall i :: 0 <= i < |layers| ==>
                plot[i] == (if layers[i].AnnotatorLayer? then layers[i].annotator.element.value else layers[i].element)
    {
      plot := [];
      var i := 0;
      while i < |layers|
        invariant 0 <= i <= |layers|
        invariant |plot| == i
        invariant forall k :: 0 <= k < i ==>
                    plot[k] == (if layers[k].AnnotatorLayer? then layers[k].annotator.element.value else layers[k].element)
      {
        if layers[i].AnnotatorLayer? {
          plot := plot + [layers[i].annotator.element.value];
        } else {
          plot := plot + [layers[i].element];
        }
        i := i + 1;
      }
    }

    /** _update_editor: the editor shows the tables of every annotator
        layer, in layer order. */
    method UpdateEditor()
      modifies this`editor
      ensures editor == EditorTables(layers)
    {
      var tables := [];
      var i := 0;
      while i < |layers|
        invariant 0 <= i <= |layers|
        invariant tables == EditorTables(layers[..i])
      {
        assert layers[..i + 1][..i] == layers[..i];
        if layers[i].AnnotatorLayer? {
          tables := tables + layers[i].annotator.tables;
        }
        i := i + 1;
      }
      assert layers[..i] == layers;
      assert forall a :: a in AnnotatorsOf(layers) ==> a as object != this;
      editor := tables;
    }

    /** The manager's constructor: adds the layers one by one, then fills
        the editor. It raises on the first layer that is neither an
        annotator nor an element. */
    static method New(layers: seq<Layer>) returns (r: Result<AnnotationManager>)
      ensures r.Ok? <==> AllAccepted(layers)
      ensures r.Err? ==> r.error == InvalidLayer
      ensures r.Ok? ==> fresh(r.value) && r.value.Valid() && r.value.layers == layers &&
                        r.value.editor == EditorTables(layers)
    {
      var m := new AnnotationManager.Empty();
      var i := 0;
      while i < |layers|
        invariant 0 <= i <= |layers|
        invariant fresh(m) && m.Valid() && m.layers == layers[..i]
      {
        var added := m.AddLayer(layers[i]);
        if added.Fail? {
          return Err(added.error);
        }
        assert layers[..i + 1] == layers[..i] + [layers[i]];
        i := i + 1;
      }
      assert layers[..i] == layers;
      m.UpdateEditor();
      return Ok(m);
    }
  }

  /** Adding a layer extends the editor by that layer's tables and nothing
      else. */
  lemma EditorAfterAddLayer(layers: seq<Layer>, layer: Layer)
    ensures EditorTables(layers + [layer]) == EditorTables(layers) + LayerTables(layer)
  {
    EditorTablesAppend(layers, [layer]);
    assert [layer][..0] == [];
  }
}

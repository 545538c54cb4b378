# HoloViews annotators and bokeh geometry adapters, in Dafny

This project models two parts of HoloViews.

**Geometry adapters** (`geometry.dfy`, module `Geometry`). `SegmentPlot.get_data` and
`RectanglesPlot.get_data` turn a geometric element with four key dimensions into the keyed data a
bokeh glyph draws, honouring the `invert_axes` plot option. A segment keeps its four coordinate
columns as they are. A rectangle first normalises every row's two corners with element-wise
minimum and maximum, then reports its centre, width and height. Coordinates are `real`.

**Annotator rules** (`elements.dfy`, `annotators.dfy`, `manager.dfy`). These cover:
- the framework-independent rules of the path, polygon, point and box annotators;
- the annotation manager that combines annotators and plain elements into one plot and one
  editor.

Module `Elements` reduces the element library to values. An element holds its key and value
dimensions and a sequence of objects. Each object is a map from column name to a cell, which is
either one value for the whole object or one value per vertex. Module `Elements` also gives the
few element operations the annotators call: `add_dimension`, `dimension_values(c,
expanded=False)` and its first value.

Module `Annotators` models:
- adding the annotation columns in `_init_element`, with the defaults of each annotator kind;
- the per-path validation that raises;
- the table-transform fold of `_table_data`;
- the per-path table of `_init_table`;
- the in-place collapse of per-vertex values in `PathAnnotator._update_element`;
- the `selected` index filters.

The four annotator classes are one `Annotator` class whose `kind` names the geometry it edits.
Its `element` field is the annotator's `object` parameter; `object` is a reserved word in Dafny.

Module `Manager` models `AnnotationManager`: its layer list, `add_layer`, the plot layers of
`_get_plot` and the editor tables of `_update_editor`. An annotator layer holds a reference to
its `Annotator`, so the plot and the editor read the annotator's current element and tables.

Errors the source raises become values: a `Result` or an `Outcome` carrying an `Error`. Two
errors are not modelled, and "## Left out" names both. One is the `KeyError` of the vertex
collapse: `Annotators.CollapseVertexValues` requires the annotation columns to be present. The
other is the `TypeError` that `len` raises there on a number, `None` or a callable.

## Model

| member | source | states |
|---|---|---|
| Geometry.Indices | holoviews/plotting/bokeh/geometry.py:22 | four dimension indices, each below four |
| Geometry.Columns | holoviews/plotting/bokeh/geometry.py:22-23 | without `invert_axes` the columns are dimensions 0, 1, 2, 3 unchanged; with it, 1, 0, 3, 2 |
| Geometry.SegmentGetData | holoviews/plotting/bokeh/geometry.py:21-26 | `x0, x1, y0, y1` are input columns copied unchanged (columns 0, 2, 1, 3, or 1, 3, 0, 2 when inverted); the mapping is the identity on the four keys; the style is returned as given |
| Geometry.SegmentInvertSwapsRoles | holoviews/plotting/bokeh/geometry.py:22-24 | inverting the axes exchanges the x and y outputs, and equals drawing the transposed element without inversion |
| Geometry.NormalisedCorners | holoviews/plotting/bokeh/geometry.py:40-41 | after normalisation the lower value is at most the upper one, and the two are exactly the row's two input values |
| Geometry.RectanglesGetData | holoviews/plotting/bokeh/geometry.py:37-44 | every output column has one entry per row; width and height are never negative; `x - width/2` and `x + width/2` are the min and max of the row's two x values, likewise for y; the mapping is the identity; the style is returned as given |
| Geometry.LowerUpperIgnoreOrder | holoviews/plotting/bokeh/geometry.py:40-41 | exchanging a row's two values leaves element-wise min and max unchanged |
| Geometry.RectanglesIgnoreCornerOrder | holoviews/plotting/bokeh/geometry.py:40-42 | exchanging a row's two x values, or its two y values, leaves the whole output unchanged, with or without `invert_axes` |
| Geometry.RectanglesInvertSwapsExtents | holoviews/plotting/bokeh/geometry.py:38-42 | inverting the axes exchanges the `(x, width)` outputs with the `(y, height)` outputs |
| Elements.Call | holoviews/annotators.py:264 | calling a dictionary default: a factory yields its result; any other value cannot be called and is an error naming the column |
| Elements.EmptyElement | holoviews/annotators.py:252-256 | the element built from no data: key dimensions `x` and `y`, no value dimension and no object |
| Elements.AddDimension | holoviews/annotators.py:265 | the new column becomes the first value dimension, before the existing ones, holding the default as a scalar in every object; key dimensions, object count and every other cell are kept |
| Elements.CellValueCount | holoviews/annotators.py:276-277 | the values `dimension_values(c, expanded=False)` yields for one object: one for a scalar, the distinct values for a per-vertex list |
| Elements.ValueCount | holoviews/annotators.py:276-277 | the length of `dimension_values(c, expanded=False)`: the per-object counts summed over the objects |
| Elements.ValueCountPerObject | holoviews/annotators.py:276-277 | a column with one value in every object yields as many values as there are objects |
| Elements.FirstValue | holoviews/annotators.py:304 | `dimension_values(a, expanded=False)[0]` exists exactly when the column is present and holds a scalar or a non-empty list |
| Annotators.Annotations.Names | holoviews/annotators.py:260 | a dictionary spec names its keys in order; a list spec names its items |
| Annotators.PathDefaults | holoviews/annotators.py:264 | for paths: one default per spec column, in spec order |
| Annotators.PlainDefaults | holoviews/annotators.py:369 | for points and boxes: one default per spec column, in spec order |
| Annotators.WithColumns | holoviews/annotators.py:259-265 | the column-adding loop as a recursion over the spec: a present column is skipped, a missing one added with its default, and the first default that cannot be produced stops the loop with its error |
| Annotators.Preexisting | holoviews/annotators.py:259-263 | the `validate` list: the spec columns present when the loop reaches them, in spec order |
| Annotators.AddColumnsStep | holoviews/annotators.py:260-265 | one turn of the loop: a present column is recorded and skipped, a missing one is added with its default, and a default that cannot be produced ends the loop |
| Annotators.AddColumns | holoviews/annotators.py:259-265 | the annotation loop yields the element of the column-adding specification, and collects exactly the columns already present when the loop reaches them |
| Annotators.WithColumnsKeepsData | holoviews/annotators.py:260-273 | on success the key dimensions and objects are kept, every spec column is a dimension, and every column already present, or outside the spec, keeps its cells; failure comes only from a default that cannot be produced, which an all-valid spec never has |
| Annotators.WithColumnsDims | holoviews/annotators.py:260-265 | on success the dimensions are exactly those of the given element plus the spec columns |
| Annotators.WithColumnsDefaults | holoviews/annotators.py:264-265 | a missing spec column, at its first occurrence, is filled in every object with its default |
| Annotators.WithColumnsPresent | holoviews/annotators.py:261-263 | when every spec column is present the element is returned unchanged |
| Annotators.WithColumnsIdempotent | holoviews/annotators.py:260-273 | adding the columns to an already annotated element changes nothing |
| Annotators.ValidationFails | holoviews/annotators.py:276-281 | the raising condition: `validate` is non-empty and two of its columns yield different value counts |
| Annotators.InitSpec | holoviews/annotators.py:251-287 | `_init_element` as a value: no argument becomes the empty element; paths and polygons add the annotation, then the vertex-annotation columns, then validate; points and boxes (lines 361-370) only add the annotation columns |
| Annotators.PerPathColumnsPass | holoviews/annotators.py:276-281 | columns holding one value per path never fail validation |
| Annotators.ValueCountAgrees | holoviews/annotators.py:276-277 | objects that agree on a column give the same value count for it |
| Annotators.PreexistingKnown | holoviews/annotators.py:259-262 | every validated column is a spec column, and with no repeated name it was a dimension before the loop |
| Annotators.InitAddsColumns | holoviews/annotators.py:260-273 | after `_init_element` every annotation column (and, for paths and polygons, every vertex-annotation column) is present; the dimensions are exactly the given ones plus the spec columns; key dimensions and objects are kept; columns present before, and columns outside the specs, keep their data |
| Annotators.InitDefaults | holoviews/annotators.py:264-265 | for a spec column at its first occurrence and absent from the given element, the default it receives: a path with a dictionary spec calls the factory; with a list spec it uses `''`; a point or box with a dictionary spec stores the value itself, uncalled; with a list spec it stores `None` (lines 369-370) |
| Annotators.VertexDefaults | holoviews/annotators.py:266-272 | for a path or polygon vertex-annotation column at its first occurrence, outside the annotation spec and absent from the given element: a dictionary spec calls the factory, a list spec gives `''` |
| Annotators.PlainInitNeverFails | holoviews/annotators.py:361-370 | the point and box `_init_element` never raises |
| Annotators.PathValidation | holoviews/annotators.py:259-281 | when both column loops succeed and no spec name repeats, path initialization raises exactly when the pre-existing annotation columns of the given element yield differing value counts; the error names those columns; an empty validation list never raises |
| Annotators.UnneededDefaultNotCalled | holoviews/annotators.py:261-264 | a dictionary value that cannot be called does no harm when its column is already present: the element is returned unchanged |
| Annotators.RepeatedNameValidatesAddedColumn | holoviews/annotators.py:259-263 | with a name repeated in a list spec, the column added for its first occurrence is validated at its second, so the given element alone would reject what initialization accepts |
| Annotators.ReinitializeIsStable | holoviews/annotators.py:251-281 | re-running `_init_element` on its own result returns that result, when every annotation column holds one value per path |
| Annotators.SingleVaryingColumnAccepted | holoviews/annotators.py:276-281 | a lone annotation column that varies by vertex passes validation |
| Annotators.ReinitializeCanRaise | holoviews/annotators.py:259-281 | a concrete element that the first initialization accepts and the second one, on its own result, rejects |
| Annotators.Transformed | holoviews/annotators.py:206-209 | the transforms applied one after the other, first transform first |
| Annotators.TransformedAppend | holoviews/annotators.py:206-209 | applying `ts + us` is applying `ts`, then `us` |
| Annotators.TransformedIsLeftFold | holoviews/annotators.py:206-209 | with no transform the object is returned unchanged; a transform appended at the end is applied last |
| Annotators.ColumnValues | holoviews/annotators.py:304 | one first value per path, in path order, existing exactly when every path has one |
| Annotators.PathTableColumns | holoviews/annotators.py:302-305 | the table data has exactly the annotation columns; each has one row per path holding that path's first value; it exists exactly when every such value exists |
| Annotators.PathTable | holoviews/annotators.py:302-305 | the per-path table over the annotation columns, holding each path's first value of each column |
| Annotators.EmptyTable | holoviews/annotators.py:308-310 | the vertex table: the given columns and no rows |
| Annotators.Tables | holoviews/annotators.py:302-315 | the `_tables` list: for paths and polygons the named per-path table and the named vertex table, for points and boxes one table |
| Annotators.FilledColumnValues | holoviews/annotators.py:264-265 | a column just filled with a default shows that default in every row of the path table |
| Annotators.TablesShape | holoviews/annotators.py:302-315 | the tables exist exactly when every table column has a first value in every object. Paths and polygons get a table titled with the name, with one row per path, plus an empty vertex table over the key dimensions and the vertex annotations. Points and boxes get one table |
| Annotators.Collapse | holoviews/annotators.py:323-324 | `if len(cell): cell = cell[0]`: a non-empty per-vertex list becomes its first value, a non-empty string its first character, any other cell is kept |
| Annotators.CollapsedPath | holoviews/annotators.py:322-324 | the inner loop for one path: each spec column, in spec order and once per mention, is collapsed |
| Annotators.CollapsedPathCounts | holoviews/annotators.py:322-324 | collapsing keeps a path's columns, and each cell is collapsed exactly as often as the spec names its column |
| Annotators.CollapsedPathFacts | holoviews/annotators.py:322-324 | a column outside the spec is kept; a column named once has a non-empty list replaced by its first element, a non-empty string cut to its first character, and any other cell kept |
| Annotators.CollapseTimesKeepsOneValue | holoviews/annotators.py:323-324 | a scalar, or a non-empty list collapsed at least once, holds one value however often it is collapsed |
| Annotators.CollapseCutsStrings | holoviews/annotators.py:323-324 | a scalar annotation string `"abc"` becomes `"a"` |
| Annotators.CollapseNotIdempotent | holoviews/annotators.py:321-324 | collapsing twice differs from collapsing once: a per-vertex `"abc"` becomes `"abc"`, then `"a"` |
| Annotators.CollapseVertexValues | holoviews/annotators.py:321-324 | the nested in-place loop leaves every path of the array equal to its collapsed form |
| Annotators.CollapsedPassesValidation | holoviews/annotators.py:321-324 | after the collapse, annotation columns that had a scalar or a non-empty list in every path hold one value per path and pass validation |
| Annotators.Positions | holoviews/annotators.py:331 | every kept position is below the object count |
| Annotators.PositionsInIndex | holoviews/annotators.py:331 | every kept position is a position of the index |
| Annotators.PositionsIncrease | holoviews/annotators.py:331 | the kept positions increase, so each is kept once, in drawing order |
| Annotators.PositionsComplete | holoviews/annotators.py:331 | no in-range position of the index is dropped |
| Annotators.PositionsInDrawingOrder | holoviews/annotators.py:331 | the kept positions are exactly the in-range positions of the index, in increasing order |
| Annotators.Selected | holoviews/annotators.py:331 | the selection is the objects at some list of positions that are exactly the in-range positions of the index, in increasing order |
| Annotators.SelectedInDrawingOrder | holoviews/annotators.py:331 | the selection holds exactly the objects whose position is in the index, in drawing order (the box annotator's filter at line 431 is the same) |
| Annotators.PointSelected | holoviews/annotators.py:392 | `iloc[index]` yields the rows in index order, or a position error exactly when a position is out of range |
| Annotators.PositionsBySelection | holoviews/annotators.py:331 | the kept positions depend only on which in-range positions the index holds |
| Annotators.PositionsOfIncreasing | holoviews/annotators.py:331 | an increasing in-range index is its own list of kept positions |
| Annotators.PointSelectionInDrawingOrder | holoviews/annotators.py:392 | for an increasing in-range index the point selection equals the path selection |
| Annotators.Annotator.constructor | holoviews/annotators.py:169-171 | the annotator records its kind, name, specs, transforms and initial object, with no tables yet |
| Annotators.Annotator.InitElement | holoviews/annotators.py:251-287 | on success the object becomes the annotated element; on failure the error is returned and the object is left as it was |
| Annotators.Annotator.TableData | holoviews/annotators.py:202-209 | the loop returns the object passed through every transform in order |
| Annotators.Annotator.InitTable | holoviews/annotators.py:289-315 | the tables become those built from the transformed object; on failure they are left as they were |
| Annotators.Annotator.Initialize | holoviews/annotators.py:183-191 | annotates the given element (or the current object when none is given), then rebuilds the tables; a failing `_init_element` changes nothing; a failing `_init_table` keeps the new object |
| Annotators.Annotator.UpdateElement | holoviews/annotators.py:317-326 | for paths held as a list of dictionaries, every path is collapsed in place; otherwise the data is untouched; the drawn element becomes the object |
| Manager.EditorTables | holoviews/annotators.py:84-89 | the editor's tabs: the tables of every annotator layer, layer by layer, in order |
| Manager.EditorTablesAppend | holoviews/annotators.py:84-89 | the editor of concatenated layers is the concatenation of their editors |
| Manager.ElementLayersHaveNoTables | holoviews/annotators.py:85-87 | element layers contribute no table |
| Manager.EditorAfterAddLayer | holoviews/annotators.py:84-89 | adding a layer extends the editor by exactly that layer's tables |
| Manager.AnnotationManager.Empty | holoviews/annotators.py:60-61 | a new manager has no layers and an empty editor |
| Manager.AnnotationManager.AddLayer | holoviews/annotators.py:103-109 | a layer that is neither an annotator nor an element raises and leaves the manager unchanged; an accepted layer is appended at the end, earlier layers untouched, and the editor is refreshed |
| Manager.AnnotationManager.GetPlot | holoviews/annotators.py:71-77 | one plot layer per layer, in order: an annotator's edited element, or the element itself |
| Manager.AnnotationManager.UpdateEditor | holoviews/annotators.py:84-89 | the editor is the concatenation, in layer order, of every annotator's tables |
| Manager.AnnotationManager.New | holoviews/annotators.py:60-66 | the constructor succeeds exactly when every layer is accepted; it then holds the layers in order and the editor of all their tables; otherwise it raises the layer error |

## Where the code differs from what one might expect

The model follows the code in each case below.

- **Validation.** The error message at holoviews/annotators.py:279-281 says that annotations must
  refer to value dimensions which vary per path. One would expect any annotation column that varies
  by vertex to be rejected. The check only compares the value counts of the pre-existing annotation
  columns with each other, so a single per-vertex annotation column is accepted
  (`Annotators.SingleVaryingColumnAccepted`).
- **Repeated initialization.** One would expect initializing an already initialized element to
  change nothing. It can raise instead: a column added by the first run is validated by the second
  (`Annotators.ReinitializeCanRaise`). `Annotators.ReinitializeIsStable` gives the condition under
  which it holds.
- **Repeated names.** A list spec may name a column twice. The column added for the first mention
  is then validated at the second (`Annotators.RepeatedNameValidatesAddedColumn`), and the
  collapse in `_update_element` cuts that column twice.
- **Partial commit.** Initialization is not all-or-nothing. A failing `_init_table` happens
  after `_init_element` has stored the new object (`Annotators.Annotator.Initialize`).
- **Strings in the collapse.** `if len(path[col]): path[col] = path[col][0]` is meant to turn a
  per-vertex list into its first value. On a string annotation it keeps only the first character
  (`Annotators.CollapseCutsStrings`). So a second collapse of the same data changes it again
  (`Annotators.CollapseNotIdempotent`).
- **The `add_layer` error.** A wrong layer type raises `ValueError`, not `TypeError`
  (holoviews/annotators.py:106-107). It is modelled as `InvalidLayer`.

These places in the source cannot run as written. The model gives them the evident intent:
- **Validated element.** The validation reads `self.element` rather than the local element
  (holoviews/annotators.py:276). The model validates the local element.
- **Edit stream.** `_update_element` reads `self._poly_stream`, which is never assigned
  (holoviews/annotators.py:318). The drawn element is a parameter of `UpdateElement`.
- **Point selection index.** `PointAnnotator.selected` reads `self._point_selection`, which is
  never assigned (holoviews/annotators.py:392). The index is a parameter of `PointSelected`.
- **Selection result.** `selected` wraps its result with `self.output.clone`
  (holoviews/annotators.py:332, 432). The model returns the selected objects.
- **Editor before it exists.** The manager's constructor adds its layers before it assigns
  `self.editor` (holoviews/annotators.py:62-65). Each `add_layer` triggers `layers`, whose watcher
  `_update_editor` assigns `self.editor[:]` (line 89). `AnnotationManager.New` does what the
  constructor evidently intends: it adds the layers, then fills the editor.
- **Annotator element.** The manager reads `layer.element` of an annotator and watches its
  `element` (holoviews/annotators.py:74, 104). This is read as the element the annotator edits.

## Left out

- Panel, param and bokeh machinery are left out, because they are foreign libraries:
  - widgets and layout (`Tabs`, `Row`, `ParamMethod`, `_get_model`, `_repr_mimebundle_`);
  - param watchers, `param.trigger` and `discard_events`;
  - the `preprocess` decorator. The editor refresh that the trigger on `layers` causes is
    modelled by `AddLayer` calling `UpdateEditor`. The watch on an annotator's element, which
    re-triggers the manager, is not modelled.
- Interaction streams are left out: `PolyDraw`, `PolyEdit`, `BoxEdit`, `PointDraw`, `Selection1D`.
  Links are left out: `DataLink`, `VertexTableLink`, `SelectionLink`. These are opaque
  foreign calls; the data a stream would deliver is a parameter.
- Plot options, tools and `opts`/`options` calls are left out; they only style the element or the
  overlay. `collate` in `_get_plot` is left out too. It restructures the overlay of plot layers;
  the model keeps the layers as a flat list.
- The element library (`dimension_values`, `add_dimension`, `split`, `clone`) is reduced to the
  effects described above. The conversion of a non-element argument, or of no argument, into an
  element is abstracted: no argument becomes the empty element, and any other argument is taken
  as already converted.
- `applies` and `select` are left out, since they inspect `sys.modules` and the panel layout.
- `param_name` formatting of the annotator name is left out; the name is taken as given.
- Geometry.RectanglesGetData: coordinates are `real`, so numpy floating-point rounding and NaN are
  not modelled.
- Annotators.CollapseVertexValues, Annotators.CollapsedPath: the `KeyError` the source raises for
  a missing annotation column, after collapsing the earlier paths, is not modelled. The method
  requires every annotation column to be a key of every drawn path, and `CollapsedPath` skips a
  missing column.
- Annotators.CollapseVertexValues, Annotators.Collapse, Annotators.CollapsedPath,
  Annotators.CollapsedPathFacts: a scalar number, `None` or callable in an annotation column is
  kept, where `len` raises `TypeError` in the source. A scalar string is modelled as the source
  treats it: a non-empty string is cut to its first character.
- Annotators.Annotator.UpdateElement: inherits both gaps of `Annotators.CollapseVertexValues`.
- Annotators.Annotator.constructor: does not run `_initialize` (holoviews/annotators.py:174). A
  caller constructs the annotator and then calls `Initialize`. So an initialization error is
  returned by `Initialize`, where the source raises it out of the constructor.
- Annotators.PointSelected: the index holds natural numbers. `iloc` counts a negative position
  from the end, and that is not modelled.
- Annotators.TablesShape, Annotators.Tables: the point and box tables are modelled like the path
  table, with one row per object holding each column's first value, instead of the element library's own conversion of
  the element into a table.
- Annotators.PathValidation: states the per-path validation only when both column loops succeed
  and the spec names no column twice. When a loop fails, initialization raises the default's own
  error before any validation. With a repeated name, a column the loop itself added is validated,
  and the given element does not have it (`Annotators.RepeatedNameValidatesAddedColumn`).

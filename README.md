# tk_builder core, modelled in Dafny

tk_builder is a toolkit for building tkinter image-viewing applications. This
project models the parts of it that compute rather than draw:

- the typed attribute descriptors of `base_elements.py`: the `_verify_*`
  value checks, tuple-length specifications, and one stored value per owning
  instance;
- the geometry of `CanvasImage`: decimation, display scaling, and the
  canvas ⇄ full-image coordinate maps;
- the shape registry of `ImageCanvas`: creating and deleting shapes, looking
  up vector objects, and finding the closest vertex;
- the tool layer of `image_canvas_tool.py`: coordinate editing, shape
  shifting, panning, shape-type constants, right-click vertex deletion, and
  the module-level tool registry;
- the row arithmetic of `WidgetPanel` and `RadioButtonPanel` in
  `panel_builder.py`;
- the state-keeping parts of `ImagePanel`: tool and shape setters,
  hiding toolbar widgets, and the save directory;
- the image-source interface of `image_reader.py`;
- file-dialog filters (`file_filters.py`);
- `point_inside_polygon`, `create_checkerboard`, and the two `ColorCycler`
  classes.

Each core file is a Dafny module of the same name.

- **Value code** becomes datatypes, functions and lemmas.
- **Code that changes state step by step** becomes methods with loops and
  invariants. Among them are the checkerboard fill, the polygon test, the
  closest-vertex search, the filter builder, `check_entry`, the shape shift,
  the registration of the default tools, the row layouts, the radio-button
  set-up, the coordinate maps and the element conversion of the tuple
  verifiers.
- **Objects whose methods update their fields** become classes:
  - `Descriptor`, `ImageCanvas`, `PanTool`, `EditShapeTool` and
    `ToolRegistry`;
  - `WidgetPanel` and `RadioButtonPanel`;
  - `ImagePanel` and the colour cyclers.

**Shared modules.**

- `Wrappers` holds the Python-side vocabulary:
  - `Option`, `Result` and the exceptions raised;
  - `PyValue`, a small universe of Python values, with `isinstance`;
  - truncation toward zero.
- `PyStrings` and `PySlices` give the few `str` methods and slice rules the
  core relies on.
- `Arith` holds a few division facts.

An operation that can raise returns `Result`, and the exception is named by
its Python class. Coordinates and ratios are exact `real`s.

## Model

| member | source | states |
|---|---|---|
| Wrappers.Trunc | tk_builder/base_elements.py:43-72 | `int()` of a float truncates toward zero: the result is within one of the input, on the zero side |
| PySlices.Take | tk_builder/widgets/image_canvas_tool.py:120-124 | `s[:k]` with Python's clamping and negative indices |
| PySlices.Drop | tk_builder/widgets/image_canvas_tool.py:120-124 | `s[k:]` with Python's clamping and negative indices |
| PySlices.Bound | tk_builder/image_reader.py:170-171 | a slice bound is clamped into `[0, n]`: a bound in range is kept, a negative one counts from the end, one past the end becomes `n`, and one before the start becomes 0 |
| PyStrings.Lower | tk_builder/file_filters.py:25 | `lower()` keeps the length and folds each letter to lower case |
| PyStrings.Upper | tk_builder/file_filters.py:26 | `upper()` keeps the length and folds each letter to upper case |
| PyStrings.LowerIdempotent | tk_builder/panels/image_panel.py:392 | lower-casing twice is lower-casing once |
| PyStrings.Strip | tk_builder/file_filters.py:33 | `strip()` is `lstrip()` then `rstrip()` (stated by StripLeft, StripRight and StripUnchanged) |
| PyStrings.Split | tk_builder/file_filters.py:33 | `split()` gives the maximal runs of non-whitespace, in order (stated by SplitPiecesAreWords and the split lemmas below) |
| PyStrings.StripLeft | tk_builder/file_filters.py:33 | `lstrip()` removes exactly the leading whitespace: the result is a suffix and starts with a non-space |
| PyStrings.StripRight | tk_builder/file_filters.py:33 | `rstrip()` removes exactly the trailing whitespace: the result is a prefix and ends with a non-space |
| PyStrings.Word | tk_builder/file_filters.py:33 | the first word is the longest prefix without whitespace |
| PyStrings.SplitPiecesAreWords | tk_builder/file_filters.py:33 | every piece of `split()` is non-empty and contains no whitespace |
| PyStrings.SplitOfSpaces | tk_builder/file_filters.py:33 | a string of whitespace splits into nothing |
| PyStrings.SplitAppendSpaces | tk_builder/file_filters.py:33 | trailing whitespace does not change `split()` |
| PyStrings.SplitWordThen | tk_builder/file_filters.py:33 | a word followed by whitespace (or nothing) splits into that word and the split of the rest |
| PyStrings.SplitStripLeft | tk_builder/file_filters.py:33 | leading whitespace does not change `split()` |
| PyStrings.SplitStrip | tk_builder/file_filters.py:33 | `strip().split()` is the same as `split()` |
| PyStrings.StripUnchanged | tk_builder/file_filters.py:33 | a string with no surrounding whitespace is its own `strip()` |
| PyStrings.SplitOneWord | tk_builder/file_filters.py:33 | a single word splits into itself |
| BaseElements.ToInt | tk_builder/base_elements.py:43-72 | `int()`: an int is kept; when it fails, a string raises `ValueError` and any other value `TypeError` |
| BaseElements.ToFloat | tk_builder/base_elements.py:75-104 | `float()`: a float is kept and an int is widened; the error cases are as for `int()` |
| BaseElements.ToStr | tk_builder/base_elements.py:107-138 | `str()` of a string is the string itself |
| BaseElements.Iterate | tk_builder/base_elements.py:249-256 | iterating a sequence yields its items, and iterating a string yields its one-character strings; anything else raises `TypeError` |
| BaseElements.VerifyBool | tk_builder/base_elements.py:11-40 | `None` gives the default; any other value becomes a bool that is true exactly when the value is truthy; a bool is kept |
| BaseElements.VerifyInt | tk_builder/base_elements.py:43-72 | `None` gives the default; an int is kept, and a bool becomes 0 or 1; a float is truncated toward zero; sequences and objects raise `TypeError` |
| BaseElements.VerifyFloat | tk_builder/base_elements.py:75-104 | `None` gives the default; a float is kept and an int is widened; sequences and objects raise `TypeError` |
| BaseElements.VerifyStr | tk_builder/base_elements.py:127-138 | `None` gives the default; a string is kept; anything else becomes a string |
| BaseElements.VerifyType | tk_builder/base_elements.py:163-169 | `None` gives the default; otherwise the value is kept if and only if it is an instance of the type, and raises `TypeError` if and only if it is not |
| BaseElements.ValidateTupleLength | tk_builder/base_elements.py:172-224 | a length spec of another type raises `TypeError` and a malformed pair `ValueError` (each if and only if); otherwise a length complies exactly when there is no limit, it equals the given int, it lies inside an ascending pair, or it is in the given list |
| Wrappers.IsInstance | tk_builder/base_elements.py:364 | `isinstance`, with `bool` a subclass of `int` |
| BaseElements.Truthy | tk_builder/base_elements.py:35 | `bool(val)`: `None`, `False`, zero and empty strings and sequences are false, everything else true |
| BaseElements.IntConv | tk_builder/base_elements.py:254 | `int_func(entry)` as an element conversion (stated by ConversionsFixOutputs) |
| BaseElements.FloatConv | tk_builder/base_elements.py:290 | `float(entry)` as an element conversion (stated by ConversionsFixOutputs) |
| BaseElements.StrConv | tk_builder/base_elements.py:326 | `str(entry)` as an element conversion, which never fails (stated by ConversionsFixOutputs) |
| BaseElements.TypeCheck | tk_builder/base_elements.py:364-367 | an instance of the type is kept, anything else raises `TypeError` (stated by ConversionsFixOutputs) |
| BaseElements.ConvertAll | tk_builder/base_elements.py:249-256 | converting every element succeeds if and only if each element converts; the output is then element-by-element the conversions |
| BaseElements.ConvertAllFirstError | tk_builder/base_elements.py:249-256 | the exception raised is that of the first element that fails to convert |
| BaseElements.VerifiedTuple | tk_builder/base_elements.py:227-260 | `None` keeps the default; otherwise an iterable whose elements all convert, to a complying length, becomes the tuple of converted elements; a non-iterable raises `TypeError`, and a failed conversion or length check raises its own error |
| BaseElements.VerifyTuple | tk_builder/base_elements.py:249-260 | the element loop of the tuple verifiers computes `VerifiedTuple` |
| BaseElements.TypedTupleKeepsInstances | tk_builder/base_elements.py:335-373 | a tuple of instances with a complying length passes `_verify_typed_tuple` unchanged |
| BaseElements.TypedTupleRefusesStranger | tk_builder/base_elements.py:362-369 | the first element that is not an instance makes `_verify_typed_tuple` raise `TypeError`, whatever the length |
| BaseElements.TypedTupleSetAsWritten | tk_builder/base_elements.py:745-750 | as written, `TypedTupleDescriptor.__set__` raises `NameError` for every value except `None` |
| BaseElements.TypedTupleRefusesValidTuple | tk_builder/base_elements.py:745-750 | a one-int tuple that the typed-tuple check accepts is refused by the setter as written |
| BaseElements.KeptDefault | tk_builder/base_elements.py:577-582 | a string-enum descriptor keeps its default only if it is one of its values, and otherwise keeps `None`; other descriptors keep the default |
| BaseElements.EnumChoice | tk_builder/base_elements.py:593-617 | a member is stored as given; a non-member is replaced by the default if there is one, and stored as given if there is not |
| BaseElements.StoredValue | tk_builder/base_elements.py:442-465 | `None` stores the default in every descriptor class; a string-enum descriptor never raises and keeps its members |
| BaseElements.EnumStoresMemberOrFallback | tk_builder/base_elements.py:593-617 | a string-enum descriptor stores a member, or its default; only with no default does it store a non-member, and then only the given string |
| BaseElements.ConvertAllFixesOutputs | tk_builder/base_elements.py:249-256 | converting the output of a conversion again changes nothing |
| BaseElements.TupleVerifierIdempotent | tk_builder/base_elements.py:227-260 | verifying a verified tuple again gives the same tuple |
| BaseElements.ConversionsFixOutputs | tk_builder/base_elements.py:249-256 | each element conversion (int, float, str, isinstance) leaves its own outputs unchanged |
| BaseElements.ScalarStoreIsIdempotent | tk_builder/base_elements.py:486-517 | assigning a scalar descriptor's stored value again stores the same value |
| BaseElements.EnumStoreIsIdempotent | tk_builder/base_elements.py:593-617 | assigning a string-enum descriptor's stored value again stores the same value |
| BaseElements.TupleStoreIsIdempotent | tk_builder/base_elements.py:638-644 | assigning a tuple descriptor's stored value again stores the same value |
| BaseElements.StoreIsIdempotent | tk_builder/base_elements.py:442-465 | for every descriptor class, reading a value back and assigning it again changes nothing |
| BaseElements.VerifyValue | tk_builder/base_elements.py:442-465 | the per-class dispatch of `__set__` computes `StoredValue` |
| BaseElements.Descriptor.constructor | tk_builder/base_elements.py:384-400 | a new descriptor has its name, its class and its kept default, and stores nothing yet |
| BaseElements.Descriptor.Get | tk_builder/base_elements.py:436-440 | class access gives the descriptor itself; an instance with no stored value reads the default, and otherwise reads its own value |
| BaseElements.Descriptor.Set | tk_builder/base_elements.py:442-465 | assigning stores `StoredValue` for that instance only, and reading it back gives that value; an error stores nothing; other instances are unaffected |
| CanvasImage.DecimationFactor | tk_builder/widgets/image_canvas.py:295-316 | the factor is the larger image-to-canvas ratio, truncated and at least 1; an empty canvas is a `ZeroDivisionError` |
| CanvasImage.SmallRectUndecimated | tk_builder/widgets/image_canvas.py:295-316 | a rectangle less than twice the canvas size in each direction is shown undecimated |
| CanvasImage.DisplayScaleFactor | tk_builder/widgets/image_canvas.py:192-199 | the scale is the smaller of the two canvas-to-image ratios, so it fits both axes |
| CanvasImage.ScaledDisplaySize | tk_builder/widgets/image_canvas.py:102-128 | the size `get_scaled_display_data` resizes to: the image size times the display scale factor, truncated and capped at the canvas size; a scale-factor error propagates (stated by ScaledDisplayFitsCanvas) |
| CanvasImage.ScaledDisplayFitsCanvas | tk_builder/widgets/image_canvas.py:115-121 | the resized display image fits the canvas, and fills it along at least one axis |
| CanvasImage.DecimatedToDisplay | tk_builder/widgets/image_canvas.py:143-144 | scaling up keeps one pair per input pair |
| CanvasImage.DisplayToDecimated | tk_builder/widgets/image_canvas.py:159-160 | dividing by the scale factor raises `ZeroDivisionError` exactly when the factor is 0 and there is a pair to divide; otherwise one pair per input pair |
| CanvasImage.DisplayToCanvas | tk_builder/widgets/image_canvas.py:177 | the axis switch keeps one pair per input pair |
| CanvasImage.DisplayToCanvasTwice | tk_builder/widgets/image_canvas.py:163-177 | switching the axes twice gives back the points |
| CanvasImage.DisplayRoundTrip | tk_builder/widgets/image_canvas.py:130-160 | with a non-zero scale, decimated → display → decimated succeeds and gives back the points |
| CanvasImage.Factor | tk_builder/widgets/image_canvas.py:363-372 | the factor times the rescaling is the decimation; a zero rescaling with scale-to-fit is a `ZeroDivisionError` |
| CanvasImage.ToImageAxis | tk_builder/widgets/image_canvas.py:363-372 | one canvas coordinate in the full image: times the decimation factor, plus the upper-left offset |
| CanvasImage.ToFullImage | tk_builder/widgets/image_canvas.py:363-372 | canvas `[x, y, ...]` to full-image `[y, x, ...]`, pair by pair; an unpaired last entry is dropped (stated by ToFullImagePairs) |
| CanvasImage.ToCanvas | tk_builder/widgets/image_canvas.py:401-424 | full-image `[y, x, ...]` to canvas `[x, y, ...]`: offset removed, then divided by the decimation factor (stated by FullImageYXToCanvasCoords) |
| CanvasImage.ToFullImagePairs | tk_builder/widgets/image_canvas.py:363-372 | canvas `(x, y)` pair k becomes full-image `(y, x)` pair k, scaled and offset; an odd last entry is dropped |
| CanvasImage.CanvasRoundTrip | tk_builder/widgets/image_canvas.py:350-424 | canvas → full image → canvas gives back the even-length part of the input |
| CanvasImage.ImageRoundTrip | tk_builder/widgets/image_canvas.py:350-424 | full image → canvas → full image gives back the even-length part of the input |
| CanvasImage.CanvasCoordsToFullImageYX | tk_builder/widgets/image_canvas.py:350-372 | the loop computes the full-image coordinates, or the `ZeroDivisionError` of a zero rescaling |
| CanvasImage.FullImageYXToCanvasCoords | tk_builder/widgets/image_canvas.py:401-424 | the loop computes the canvas coordinates; a zero factor raises at the first pair and not before |
| CanvasImage.CanvasRectToFullImageRect | tk_builder/widgets/image_canvas.py:374-399 | both corners are mapped from the canvas; the first corner is clamped from below at 0 and the second from above at the full image size, and otherwise each keeps its mapped value (so a first corner past the image, or a second before it, stays as mapped) |
| ImageCanvas.RemoveFirst | tk_builder/widgets/image_canvas.py:1433 | `list.remove`: the first occurrence of the value goes (stated by RemoveFirstContents and RemoveFirstNoDuplicates) |
| ImageCanvas.RemoveFirstContents | tk_builder/widgets/image_canvas.py:1433 | `list.remove` drops one entry and keeps every other value |
| ImageCanvas.RemoveFirstNoDuplicates | tk_builder/widgets/image_canvas.py:1433 | removing from a list without duplicates leaves exactly the other values, still without duplicates |
| ImageCanvas.InsertSorted | tk_builder/widgets/image_canvas.py:2482 | inserting into an ascending list keeps it ascending, with the new value added |
| ImageCanvas.SetDiff1d | tk_builder/widgets/image_canvas.py:2482 | `numpy.setdiff1d` gives the ascending list of the ids not excluded |
| ImageCanvas.IncreasingHasNoDuplicates | tk_builder/widgets/image_canvas.py:2482 | an ascending list has no duplicates |
| ImageCanvas.FirstClosestUnique | tk_builder/widgets/image_canvas.py:2435 | at most one vertex is the first vertex at minimal distance |
| ImageCanvas.ClosestCoordIndex | tk_builder/widgets/image_canvas.py:2429-2436 | the first vertex at minimal distance; an odd-length list raises `IndexError` and an empty one `ValueError` |
| ImageCanvas.Corners | tk_builder/widgets/image_canvas.py:2394-2427 | a rectangle has four corners |
| ImageCanvas.ClosestCorner | tk_builder/widgets/image_canvas.py:2394-2427 | the chosen corner is the first at minimal distance |
| ImageCanvas.RectRewrite | tk_builder/widgets/image_canvas.py:2394-2427 | a rewritten rectangle spans the same corners and has the closest corner as a stored vertex; no rewrite happens only when it already is one; a list that is not four numbers raises `ValueError` |
| ImageCanvas.FindClosestShapeCoord | tk_builder/widgets/image_canvas.py:2378-2436 | the index of the first closest vertex of the (possibly rewritten) shape, and it succeeds on every non-empty even-length list |
| ImageCanvas.TextShapeIdsAsWritten | tk_builder/widgets/image_canvas.py:1476-1485 | as written, `create_new_text` leaves the new id appended twice (stated by DeletedTextLeavesStaleId) |
| ImageCanvas.DeletedTextLeavesStaleId | tk_builder/widgets/image_canvas.py:1476-1485 | as written, deleting a newly created text leaves its id listed once more |
| ImageCanvas.RemoveFirstAfter | tk_builder/widgets/image_canvas.py:1433 | removing a value that first occurs after a prefix leaves the prefix in place |
| ImageCanvas.DeletedTextLeavesNoId | tk_builder/widgets/image_canvas.py:1476-1485 | with the id appended once, deleting the text restores the previous list |
| ImageCanvas.ImageCanvas.constructor | tk_builder/widgets/image_canvas.py:632-648 | the zoom and selection rectangles are shapes 1 and 2, registered as rectangles, and no shape is current |
| ImageCanvas.ImageCanvas.AddShape | tk_builder/widgets/image_canvas.py:1506-1511 | a fresh Tk id is drawn, registered with its vector object, appended to the shape ids and made current; the registry invariant is kept |
| ImageCanvas.ImageCanvas.CreateNewRect | tk_builder/widgets/image_canvas.py:1487-1511 | a new rectangle is registered as `AddShape` says |
| ImageCanvas.ImageCanvas.CreateNewEllipse | tk_builder/widgets/image_canvas.py:1513-1537 | a new ellipse is registered, with the rectangle type as the source does |
| ImageCanvas.ImageCanvas.CreateNewPolygon | tk_builder/widgets/image_canvas.py:1539-1566 | a new polygon is registered |
| ImageCanvas.ImageCanvas.CreateNewArrow | tk_builder/widgets/image_canvas.py:1568-1595 | a new arrow is registered |
| ImageCanvas.ImageCanvas.CreateNewLine | tk_builder/widgets/image_canvas.py:1597-1622 | a new line is registered |
| ImageCanvas.ImageCanvas.CreateNewPoint | tk_builder/widgets/image_canvas.py:1624-1650 | a point is drawn as the square of half-side `point_size` around it and registered with that size; fewer than two coordinates raise `IndexError` and change nothing |
| ImageCanvas.ImageCanvas.CreateNewText | tk_builder/widgets/image_canvas.py:1476-1485 | a new text is registered once |
| ImageCanvas.ImageCanvas.GetVectorObject | tk_builder/widgets/image_canvas.py:670-681 | a registered id gives its vector object, and any other id raises `KeyError` |
| ImageCanvas.ImageCanvas.DeleteShape | tk_builder/widgets/image_canvas.py:1420-1437 | the shape leaves the id list, the vector objects and the canvas, and stops being current; an unknown id raises `ValueError` and changes nothing |
| ImageCanvas.ImageCanvas.GetToolShapeIds | tk_builder/widgets/image_canvas.py:2484-2495 | the zoom rectangle, then the selection rectangle |
| ImageCanvas.ImageCanvas.GetNonToolShapeIds | tk_builder/widgets/image_canvas.py:2471-2482 | exactly the registered shapes that `get_tool_shape_ids` does not list, ascending and each once |
| ImageCanvas.ToolAndNonToolSplitShapes | tk_builder/widgets/image_canvas.py:2471-2495 | every registered shape is listed by exactly one of `get_tool_shape_ids` and `get_non_tool_shape_ids` |
| ImageCanvasTool.Trim | tk_builder/widgets/image_canvas_tool.py:93-99 | a value is clamped into `[l_bound, u_bound]`, and a value inside is kept |
| ImageCanvasTool.TrimToDragLimits | tk_builder/widgets/image_canvas_tool.py:79-105 | without limits the point is kept; with them each axis is trimmed |
| ImageCanvasTool.TrimmedInsideLimits | tk_builder/widgets/image_canvas_tool.py:79-105 | the trimmed point lies inside well-ordered limits, and a point already inside is unchanged |
| ImageCanvasTool.ModifyCoords | tk_builder/widgets/image_canvas_tool.py:57-128 | `_modify_coords`: the event position, trimmed to the drag limits, is inserted after vertex `at_index` (and the index moves on by one) or replaces that vertex; the first and last vertex use their own slices (stated by InsertAfterVertex and ReplaceVertex) |
| ImageCanvasTool.InsertAfterVertex | tk_builder/widgets/image_canvas_tool.py:110-119 | insert mode puts the trimmed point right after the vertex, keeps every other coordinate in order, and advances the index; both branches agree |
| ImageCanvasTool.ReplaceVertex | tk_builder/widgets/image_canvas_tool.py:120-128 | replace mode overwrites only that vertex and keeps the length and the index |
| ImageCanvasTool.Shifted | tk_builder/widgets/image_canvas_tool.py:151-171 | shifting keeps the number of coordinates |
| ImageCanvasTool.ShiftShape | tk_builder/widgets/image_canvas_tool.py:131-171 | the two limit loops compute `Shifted`: an axis moves only if every vertex stays within the limits on that axis |
| ImageCanvasTool.ShiftBackRestores | tk_builder/widgets/image_canvas_tool.py:151-171 | without limits, shifting back undoes a shift |
| ImageCanvasTool.ShiftKeepsInside | tk_builder/widgets/image_canvas_tool.py:151-171 | a shape inside the limits stays inside after any shift |
| ImageCanvasTool.ShiftLimit | tk_builder/widgets/image_canvas_tool.py:587-594 | the shift is cut back toward zero just enough to keep `[lower, upper]` inside `[0, limit]`, and is kept whole when it already fits; a shift that is cut back stops exactly at the edge it would cross; bounds already outside raise `ValueError` |
| ImageCanvasTool.PannedBounds | tk_builder/widgets/image_canvas_tool.py:614-624 | both bounds of an axis move by that axis's clamped shift, y first; a bound already outside the image raises `ValueError` (stated by PanKeepsExtent) |
| ImageCanvasTool.PanOutcome | tk_builder/widgets/image_canvas_tool.py:603-629 | no pan while a checked distance is below the threshold; otherwise the view bounds shifted by the decimated mouse movement (stated by NoPanAtAnchor and PanKeepsExtent) |
| ImageCanvasTool.PanKeepsExtent | tk_builder/widgets/image_canvas_tool.py:586-629 | panning keeps the view's size and keeps it inside the full image |
| ImageCanvasTool.NoPanAtAnchor | tk_builder/widgets/image_canvas_tool.py:586-629 | with a positive threshold checked, releasing at the anchor does not pan |
| ImageCanvasTool.PanInsideImage | tk_builder/widgets/image_canvas_tool.py:586-629 | without the distance check, a view inside the image always pans to a view of the same size inside the image |
| ImageCanvasTool.PanTool.constructor | tk_builder/widgets/image_canvas_tool.py:574-577 | the anchor starts at (0, 0) with the configured threshold |
| ImageCanvasTool.PanTool.OnLeftMouseClick | tk_builder/widgets/image_canvas_tool.py:583-584 | a click sets the anchor |
| ImageCanvasTool.PanTool.Pan | tk_builder/widgets/image_canvas_tool.py:586-629 | the pan outcome, and the anchor moves to the event only when the view is panned |
| ImageCanvasTool.Validate | tk_builder/widgets/image_canvas_tool.py:824-843 | a shape name gives its number, and any other hashable value equal to a shape number (an int, a bool, or an integral float such as `4.0`) is returned as given; exactly the unhashable values (lists, or tuples holding one) raise `TypeError`, and a hashable tuple gives `None` |
| ImageCanvasTool.GetName | tk_builder/widgets/image_canvas_tool.py:845-851 | a name that is returned maps back to the value asked for; exactly the unhashable values (lists, or tuples holding one) raise `TypeError`, and a hashable tuple gives `None` |
| ImageCanvasTool.ValidateThenGetName | tk_builder/widgets/image_canvas_tool.py:814-851 | a name validates to an int, and `get_name` gives that name back |
| ImageCanvasTool.ValidateInt | tk_builder/widgets/image_canvas_tool.py:824-843 | exactly the integers 0 to 6 are valid shape values and pass unchanged; any other integer gives `None` |
| ImageCanvasTool.GeometricShapes | tk_builder/widgets/image_canvas_tool.py:853-862 | rectangle, line, polygon, arrow and ellipse, in that order (stated by ShapeKindsPartition) |
| ImageCanvasTool.PointShapes | tk_builder/widgets/image_canvas_tool.py:864-874 | point and text (stated by ShapeKindsPartition) |
| ImageCanvasTool.AsIntKey | tk_builder/widgets/image_canvas_tool.py:824-843 | the integer a value hashes and compares equal to in the name and value dictionaries: an int, a bool as 0 or 1, an integral float; nothing else |
| ImageCanvasTool.ShapeKindsPartition | tk_builder/widgets/image_canvas_tool.py:853-875 | geometric and point shapes are disjoint and together cover all seven values |
| ImageCanvasTool.RightClickRemovalAsWritten | tk_builder/widgets/image_canvas_tool.py:1142-1158 | as written: the first vertex goes at index 0; the last vertex goes when `2 * insert_at_index >= point_count`; otherwise the vertex at the index goes; the index steps back except at 0 |
| ImageCanvasTool.RightClickRemoval | tk_builder/widgets/image_canvas_tool.py:1142-1158 | corrected: the last-vertex branch is taken when `2 * insert_at_index` addresses the last coordinate pair (stated by RightClickRemovesInsertionVertex) |
| ImageCanvasTool.RightClickDropsWrongVertex | tk_builder/widgets/image_canvas_tool.py:1152 | as written, with four points and the index on vertex 2, vertex 3 is deleted and vertex 2 kept, while the corrected deletion on the same input drops vertex 2 and keeps vertex 3 |
| ImageCanvasTool.RightClickRemovesInsertionVertex | tk_builder/widgets/image_canvas_tool.py:1131-1160 | corrected: the vertex at the insertion index is removed, and the index steps back (0 stays 0) |
| ImageCanvasTool.EditShapeTool.constructor | tk_builder/widgets/image_canvas_tool.py:917-923 | no shape is edited yet, the index is 0, and the mode is normal |
| ImageCanvasTool.EditShapeTool.OnRightMouseClick | tk_builder/widgets/image_canvas_tool.py:1131-1160 | for a line or polygon of three or more points in normal mode, the corrected deletion is applied; otherwise nothing changes |
| ImageCanvasTool.DefaultTools | tk_builder/widgets/image_canvas_tool.py:1202-1204 | nine canvas tools with pairwise distinct names, so registering them skips none |
| ImageCanvasTool.ToolRegistry.constructor | tk_builder/widgets/image_canvas_tool.py:1263 | on import, the nine defaults hold enums 0 to 8 in order, and nothing else is registered |
| ImageCanvasTool.ToolRegistry.RegisterTool | tk_builder/widgets/image_canvas_tool.py:1166-1195 | a new tool gets the next enum in both maps; a known name is replaced only with `overwrite` and keeps its enum; a non-tool raises `TypeError`; the maps stay inverse |
| ImageCanvasTool.ToolRegistry.RegisterDefaults | tk_builder/widgets/image_canvas_tool.py:1198-1206 | after the call every default is registered; tools registered earlier keep their enums; a second call changes nothing |
| ImageCanvasTool.ToolRegistry.GetToolName | tk_builder/widgets/image_canvas_tool.py:1230-1243 | a registered enum gives its name, and any other raises `KeyError` |
| ImageCanvasTool.ToolRegistry.GetToolEnum | tk_builder/widgets/image_canvas_tool.py:1246-1259 | a registered name gives its enum, and any other raises `KeyError` |
| ImageCanvasTool.ToolRegistry.GetToolType | tk_builder/widgets/image_canvas_tool.py:1209-1227 | a name gives its registered class or `KeyError`; a tool class is accepted as is; any other class raises `ValueError`, and a non-class `TypeError` |
| ImageCanvasTool.NameEnumInverse | tk_builder/widgets/image_canvas_tool.py:1230-1259 | `get_tool_name` and `get_tool_enum` are mutual inverses, and the enums in use are exactly 0 to the current value |
| PanelBuilder.SumConcat | tk_builder/panel_builder.py:193 | a sum over a concatenation is the sum of the sums |
| PanelBuilder.PrefixSumMono | tk_builder/panel_builder.py:193 | prefix sums of non-negative counts grow with the prefix |
| PanelBuilder.CumSum | tk_builder/panel_builder.py:193 | transition k is the sum of the first k + 1 row counts |
| PanelBuilder.CountBelowStep | tk_builder/panel_builder.py:217-218 | the count of transitions below m grows by one exactly at a transition |
| PanelBuilder.RowsBefore | tk_builder/panel_builder.py:194-218 | the row counter of the creation loop: one more row at every index that is a transition point (stated by RowsBeforeCountsBelow) |
| PanelBuilder.RowsBeforeCountsBelow | tk_builder/panel_builder.py:194-218 | with increasing transitions, the loop's row counter counts the transitions passed |
| PanelBuilder.RowOfWidget | tk_builder/panel_builder.py:193-224 | with every row non-empty, widget i is created in the row whose prefix sums enclose i |
| PanelBuilder.SomeRowHolds | tk_builder/panel_builder.py:193-224 | every widget index below the total count falls in some row |
| PanelBuilder.BoxCounts | tk_builder/panel_builder.py:128-140 | the box-layout row counts add up to the widget count: full rows of n_columns, then a final partial row |
| PanelBuilder.BoxCountsLength | tk_builder/panel_builder.py:128-140 | there are ceil(n / n_columns) rows |
| PanelBuilder.BoxCountsStep | tk_builder/panel_builder.py:128-140 | one row takes n_columns widgets while that many are left, otherwise the rest |
| PanelBuilder.BoxPrefixSum | tk_builder/panel_builder.py:128-144 | the full rows before row k hold k × n_columns widgets |
| PanelBuilder.QuotientRow | tk_builder/panel_builder.py:142-144 | widget i lies in full row i // n_columns, and that row exists |
| PanelBuilder.BoxRowSpan | tk_builder/panel_builder.py:142-144 | the prefix sums around row i // n_columns enclose widget i |
| PanelBuilder.BoxRowIsQuotient | tk_builder/panel_builder.py:104-165 | in a box layout, widget i is created in row i // n_columns |
| PanelBuilder.BoxRowCounts | tk_builder/panel_builder.py:128-140 | the counting loop produces the box row counts, ceil(n / n_columns) of them |
| PanelBuilder.HorizontalIsOneRow | tk_builder/panel_builder.py:66-71 | in a horizontal layout every widget is in row 0 |
| PanelBuilder.Ones | tk_builder/panel_builder.py:73-79 | one widget per row |
| PanelBuilder.OnesPrefixSum | tk_builder/panel_builder.py:73-79 | k rows of one widget hold k widgets |
| PanelBuilder.VerticalIsOnePerRow | tk_builder/panel_builder.py:73-79 | in a vertical layout widget i is alone in row i |
| PanelBuilder.Members | tk_builder/panel_builder.py:97-100 | iterating a group yields its members, and a bare name yields one entry per character |
| PanelBuilder.Sizes | tk_builder/panel_builder.py:97-98 | `widgets_per_row` holds the size of each group |
| PanelBuilder.SizesPrefix | tk_builder/panel_builder.py:97-98 | the sizes of a prefix are the prefix of the sizes |
| PanelBuilder.Flatten | tk_builder/panel_builder.py:95-101 | the groups' names in order (stated by FlattenLength and the lemmas below) |
| PanelBuilder.FlattenLength | tk_builder/panel_builder.py:95-101 | the flattened list is as long as the group sizes add up to |
| PanelBuilder.FlattenSnoc | tk_builder/panel_builder.py:95-101 | flattening one more group appends its members |
| PanelBuilder.FlattenAppend | tk_builder/panel_builder.py:95-101 | flattening distributes over concatenation |
| PanelBuilder.FlattenSplit | tk_builder/panel_builder.py:95-101 | flattening splits at any group boundary |
| PanelBuilder.FlattenPrefix | tk_builder/panel_builder.py:95-101 | the first k groups hold the first `sum(sizes[:k])` flattened names |
| PanelBuilder.GroupMemberPosition | tk_builder/panel_builder.py:95-101 | member j of group k sits right after the members of the earlier groups |
| PanelBuilder.GroupMemberBounds | tk_builder/panel_builder.py:95-101 | that position lies between the prefix sums around group k |
| PanelBuilder.GroupMembersShareRow | tk_builder/panel_builder.py:81-102 | corrected `init_w_rows`: every member of group k is created in row k |
| PanelBuilder.RowFramesAsWritten | tk_builder/panel_builder.py:102 | as written, the number of row frames is the number of widgets |
| PanelBuilder.RowsLayoutAddsEmptyFrames | tk_builder/panel_builder.py:88-102 | as written, one group of two widgets gets two row frames, one of them empty |
| PanelBuilder.PlaceFrom | tk_builder/panel_builder.py:196-228 | on success every visited entry is a described widget name and is placed; each placement is either kept from before or a row that exists; only `TypeError`, `ValueError` or `IndexError` are raised |
| PanelBuilder.PlaceFromKeeps | tk_builder/panel_builder.py:196-228 | a widget placed earlier keeps its row unless its name comes again |
| PanelBuilder.PlaceFromFirst | tk_builder/panel_builder.py:217-228 | the widget at hand keeps the row it is created in when its name does not come again |
| PanelBuilder.PlaceFromRows | tk_builder/panel_builder.py:193-228 | with distinct names, widget j ends in the row given by the transitions passed |
| PanelBuilder.LayoutPlacesEveryWidget | tk_builder/panel_builder.py:167-229 | with distinct, well-described names, non-empty rows that add up to the widget count, and enough row frames, the loop succeeds and widget i is in the row whose prefix sums enclose i |
| PanelBuilder.LoopFinishes | tk_builder/panel_builder.py:196-228 | under the same conditions, the loop runs to the end from any widget |
| PanelBuilder.WidgetPanel.constructor | tk_builder/panel_builder.py:38-43 | a new panel has no rows and no placed widgets |
| PanelBuilder.WidgetPanel.InitWBasicWidgetList | tk_builder/panel_builder.py:167-229 | `n_rows` packed frames (none for a negative count), then the placement `PlaceFrom` describes |
| PanelBuilder.WidgetPanel.InitWHorizontalLayout | tk_builder/panel_builder.py:66-71 | one row holding every widget |
| PanelBuilder.WidgetPanel.InitWVerticalLayout | tk_builder/panel_builder.py:73-79 | one row per widget |
| PanelBuilder.WidgetPanel.InitWRows | tk_builder/panel_builder.py:81-102 | the widget list is flattened, and there is one row frame per group, each group's size being its row count (corrected) |
| PanelBuilder.BoxSizingFitsIff | tk_builder/panel_builder.py:141-163 | the widths and heights fit every widget exactly when a width list reaches the last used column and a height list reaches the last row |
| PanelBuilder.FitsReachesLast | tk_builder/panel_builder.py:141-163 | sizes that fit every widget reach the last used column and the last row |
| PanelBuilder.LastReachedFits | tk_builder/panel_builder.py:141-163 | sizes that reach the last used column and the last row fit every widget |
| PanelBuilder.BoxPositionBounds | tk_builder/panel_builder.py:141-143 | a widget's column and row are at most the last used column and the last row |
| PanelBuilder.WidgetPanel.InitWBoxLayout | tk_builder/panel_builder.py:104-165 | rows of n_columns widgets and a final partial row; zero columns is a `ZeroDivisionError` that changes nothing; after a successful layout, a width or height list too short for some widget raises `IndexError` exactly when the sizes do not fit |
| PanelBuilder.WidgetPanel.ForgetRow | tk_builder/panel_builder.py:311-314 | only that row is unpacked |
| PanelBuilder.WidgetPanel.PackRow | tk_builder/panel_builder.py:316-319 | only that row is packed again |
| PanelBuilder.RadioButtonPanel.constructor | tk_builder/panel_builder.py:329-332 | an empty panel, an empty selection table, and the variable at 0 |
| PanelBuilder.RadioButtonPanel.SetupRadioButtons | tk_builder/panel_builder.py:353-357 | button i is entered under key i, other keys are kept, and the first button is selected |
| PanelBuilder.RadioButtonPanel.Selection | tk_builder/panel_builder.py:359-361 | the button whose key is the variable's value, or `KeyError` |
| PanelBuilder.RadioButtonPanel.SetSelection | tk_builder/panel_builder.py:363-364 | sets the variable and leaves the table alone |
| PanelBuilder.RadioButtonPanel.InitWBasicWidgetList | tk_builder/panel_builder.py:342-357 | the layout; after a successful one, button k is entered under key k, other keys are kept, and the first button is selected; a failed layout leaves the buttons alone |
| ImagePanel.AliasTargetsAreTools | tk_builder/panels/image_panel.py:388-398 | the four `shape_drawing` tools are tool controls, and the alias itself is neither a tool nor a shape control |
| ImagePanel.AddName | tk_builder/panels/image_panel.py:397-400 | an unknown name raises `ValueError`; a known name is appended once |
| ImagePanel.CheckEntry | tk_builder/panels/image_panel.py:390-403 | the recursive `check_entry` computes `Collect` |
| ImagePanel.ScanConcat | tk_builder/panels/image_panel.py:390-403 | scanning two runs of leaves is scanning one, then the other |
| ImagePanel.AddEach | tk_builder/panels/image_panel.py:393-395 | the alias expands to `check_entry` on each of its names in turn; the first error stops it (stated by AddEachIsScan) |
| ImagePanel.Collect | tk_builder/panels/image_panel.py:390-403 | `check_entry`: a string is lower-cased and added (the alias expanded), a list or tuple is walked, anything else raises `TypeError` (stated by CollectIsScan) |
| ImagePanel.CollectFrom | tk_builder/panels/image_panel.py:401-403 | the loop over a list's items from a position on (stated by CollectFromIsScan) |
| ImagePanel.AddEachIsScan | tk_builder/panels/image_panel.py:393-395 | expanding the alias is scanning its four names |
| ImagePanel.CollectIsScan | tk_builder/panels/image_panel.py:390-403 | `check_entry` is one left-to-right pass over the entry's leaves |
| ImagePanel.CollectFromIsScan | tk_builder/panels/image_panel.py:401-403 | the loop over a list's items is the pass over their leaves |
| ImagePanel.FirstIndex | tk_builder/panels/image_panel.py:399-400 | the position of a name's first mention |
| ImagePanel.ScanOkIff | tk_builder/panels/image_panel.py:390-403 | the pass succeeds exactly when every leaf is a known name |
| ImagePanel.ScanRaise | tk_builder/panels/image_panel.py:390-403 | on failure the first bad leaf decides: `TypeError` for a non-iterable, `ValueError` for an unknown name |
| ImagePanel.ScanOk | tk_builder/panels/image_panel.py:399-400 | a successful pass keeps the given list in front and appends each name not yet seen, once, in order of first mention |
| ImagePanel.ScanTail | tk_builder/panels/image_panel.py:399-400 | the ordering part of `ScanOk` carries over past a first leaf |
| ImagePanel.CollectedNames | tk_builder/panels/image_panel.py:390-403 | the list holds known names only, each once, in order of first mention, and exactly the names mentioned |
| ImagePanel.CollectError | tk_builder/panels/image_panel.py:390-403 | the exception is the one the first bad leaf calls for |
| ImagePanel.CaseInsensitive | tk_builder/panels/image_panel.py:392 | a name matches regardless of case |
| ImagePanel.AddEachFresh | tk_builder/panels/image_panel.py:393-395 | distinct known names not yet listed are appended in order |
| ImagePanel.AliasExpands | tk_builder/panels/image_panel.py:393-395 | in `hide_tools`, `shape_drawing` in any case stands for its four tools |
| ImagePanel.ShapesHaveNoAlias | tk_builder/panels/image_panel.py:431-437 | `hide_shapes` knows no alias: `shape_drawing` raises `ValueError` |
| ImagePanel.AfterLastSlash | tk_builder/panels/image_panel.py:314 | the position just after the last `/` |
| ImagePanel.RStripSlashes | tk_builder/panels/image_panel.py:314 | exactly the trailing slashes are removed |
| ImagePanel.PathHead | tk_builder/panels/image_panel.py:314 | the head of `os.path.split` is a prefix of the path |
| ImagePanel.PathHeadOfJoin | tk_builder/panels/image_panel.py:314 | a bare file name has an empty head, `dir/file` has head `dir`, and `/file` has head `/` |
| ImagePanel.SaveDirectory | tk_builder/panels/image_panel.py:311-314 | the home directory for `None` or `''`, and otherwise a prefix of the path |
| ImagePanel.ImagePanel.constructor | tk_builder/panels/image_panel.py:136-141 | the view tool, the polygon shape, the home directory, and both toolbar rows packed |
| ImagePanel.ImagePanel.SetTheTool | tk_builder/panels/image_panel.py:209-216 | an int is stored and a bool as 0 or 1; a string is mapped through `get_tool_enum` (`KeyError` when unregistered); any other type raises `ValueError`; a failure changes nothing |
| ImagePanel.ImagePanel.SetTheShape | tk_builder/panels/image_panel.py:222-227 | a valid shape value is stored, and a name is stored as its value; an invalid one, a hashable tuple included, raises `ValueError`, and an unhashable value raises `TypeError`; a failure changes nothing |
| ImagePanel.ImagePanel.UpdateImageSaveDirectory | tk_builder/panels/image_panel.py:311-314 | the save directory becomes `SaveDirectory`, and nothing else changes |
| ImagePanel.ImagePanel.HideRow | tk_builder/panels/image_panel.py:413-418 | names covering the whole row forget its frame; otherwise exactly the listed widgets are unpacked |
| ImagePanel.ImagePanel.HideTools | tk_builder/panels/image_panel.py:388-418 | `None` hides the whole tool row; otherwise the collected names are hidden as `HideRow` says; a bad entry raises `TypeError` or `ValueError` before anything is hidden |
| ImagePanel.ImagePanel.HideShapes | tk_builder/panels/image_panel.py:420-453 | the same on the shape row, without the alias |
| ImageReader.NewNumpyReader | tk_builder/image_reader.py:156-164 | a non-array raises `TypeError`; a wrong dimension count or channel count raises `ValueError`; otherwise the data size is the first two dimensions |
| ImageReader.FullImageNy | tk_builder/image_reader.py:41-47 | the first entry of `data_size` (stated by DataSizeIsImageSize) |
| ImageReader.FullImageNx | tk_builder/image_reader.py:49-55 | the second entry of `data_size` (stated by DataSizeIsImageSize) |
| ImageReader.DataSizeIsImageSize | tk_builder/image_reader.py:32-55 | `full_image_ny` and `full_image_nx` are the array's row and column counts |
| ImageReader.FileName | tk_builder/image_reader.py:57-64 | the base raises `NotImplementedError`; the numpy reader has no file name |
| ImageReader.Remapable | tk_builder/image_reader.py:66-72 | the base raises `NotImplementedError`; the numpy reader is not remapable |
| ImageReader.RemapFunction | tk_builder/image_reader.py:74-81 | the base raises `NotImplementedError`; the numpy reader has no remap function |
| ImageReader.ImageCount | tk_builder/image_reader.py:83-89 | the base raises `NotImplementedError`; the numpy reader has one image |
| ImageReader.Index | tk_builder/image_reader.py:91-97 | the base raises `NotImplementedError`; the numpy reader is at index 0 |
| ImageReader.SetIndex | tk_builder/image_reader.py:99-101 | the base raises `NotImplementedError`; the numpy reader's read-only property refuses with `AttributeError` |
| ImageReader.SetRemapType | tk_builder/image_reader.py:124-138 | setting the remap type changes nothing |
| ImageReader.SliceRange | tk_builder/image_reader.py:170-171 | a slice selects a range within the dimension: omitted bounds are the ends, a given bound is clamped as Python clamps it (negative ones counting from the end), and a stop at or before the start gives an empty range |
| ImageReader.GetItem | tk_builder/image_reader.py:170-171 | a numpy reader returns exactly the sub-block of its array that the two slices select; the base raises `NotImplementedError` |
| ImageReader.FullSliceIsImage | tk_builder/image_reader.py:170-171 | `reader[:, :]` is the whole array |
| FileFilters.Entries | tk_builder/file_filters.py:32-33 | a string filter is stripped and split; a list is used as given |
| FileFilters.Push | tk_builder/file_filters.py:27-30 | a value is appended only if absent |
| FileFilters.Dedup | tk_builder/file_filters.py:23-37 | the distinct values in order of first occurrence (stated by DedupNoDuplicates, DedupSameValues and DedupFirstOccurrence) |
| FileFilters.Included | tk_builder/file_filters.py:9-42 | the deduplicated lower and upper forms of the entries, as a string or a list (stated by IncludedPatterns) |
| FileFilters.Forms | tk_builder/file_filters.py:23-37 | each entry contributes its lower-case form, then its upper-case form, in entry order |
| FileFilters.AsPatterns | tk_builder/file_filters.py:39-42 | the result holds the list's elements; it is a bare string exactly when there is one |
| FileFilters.AddElement | tk_builder/file_filters.py:23-30 | both forms are appended, each only if absent |
| FileFilters.IncludeUppercase | tk_builder/file_filters.py:9-42 | the deduplicated forms of the stripped and split entries, as a string or a list |
| FileFilters.CreateFilterEntry | tk_builder/file_filters.py:45-62 | the title paired with the included patterns |
| FileFilters.FormsStep | tk_builder/file_filters.py:36-37 | one more entry appends its two forms |
| FileFilters.DedupPushTwo | tk_builder/file_filters.py:27-30 | appending-if-absent twice is deduplicating two more values |
| FileFilters.DedupNoDuplicates | tk_builder/file_filters.py:27-30 | the pattern list never lists a value twice |
| FileFilters.DedupSameValues | tk_builder/file_filters.py:27-30 | deduplication keeps exactly the input's values |
| FileFilters.DedupKeepsDistinct | tk_builder/file_filters.py:27-30 | input without duplicates passes through in its own order |
| FileFilters.FirstAt | tk_builder/file_filters.py:27-30 | the position of a value's first occurrence: it holds the value and nothing before it does, and it is the length exactly when the value is absent |
| FileFilters.FirstAtUnique | tk_builder/file_filters.py:27-30 | a position holding the value with no earlier occurrence is the first occurrence |
| FileFilters.FirstPrefix | tk_builder/file_filters.py:27-30 | appending a value does not move the first occurrence of a value already present |
| FileFilters.DedupFirstOccurrence | tk_builder/file_filters.py:23-37 | the kept values are listed in the order of their first occurrence in the input, duplicates included |
| FileFilters.FormsCover | tk_builder/file_filters.py:23-37 | both forms of every entry are among the forms |
| FileFilters.FormsOnly | tk_builder/file_filters.py:23-37 | every form is a form of some entry |
| FileFilters.IncludedPatterns | tk_builder/file_filters.py:9-42 | both forms of every extension are listed, nothing else is, nothing twice, and in the order in which the forms first occur (lower before upper, entry by entry) |
| FileFilters.TextSameAsNames | tk_builder/file_filters.py:32-33 | a string filter gives the same patterns as the list of its words |
| FileFilters.FormsOfOne | tk_builder/file_filters.py:23-30 | one entry has two forms |
| FileFilters.AllFiles | tk_builder/file_filters.py:65 | `all_files` is the bare pattern `*` |
| FileFilters.JsonFiles | tk_builder/file_filters.py:66 | `json_files` lists `.json` and `.JSON` |
| FileFilters.TiffFiles | tk_builder/file_filters.py:67 | `tiff_files` lists `.tiff`, `.TIFF`, `.tif` and `.TIF` |
| PolygonUtils.PassedBeforeIsSome | tk_builder/utils/geometry_utils/polygon_utils.py:19-28 | the flag after k edges is set exactly when some edge before k passed the test |
| PolygonUtils.PointInsidePolygon | tk_builder/utils/geometry_utils/polygon_utils.py:15-29 | as written: true exactly when some edge passes the test; an empty polygon raises `IndexError` |
| PolygonUtils.OutsideVerticalRange | tk_builder/utils/geometry_utils/polygon_utils.py:21-22 | a point at or below every vertex, or above every vertex, is outside |
| PolygonUtils.UnitSquare | tk_builder/utils/geometry_utils/polygon_utils.py:15-29 | the unit square has four vertices |
| PolygonUtils.LeftOfSquareReportedInside | tk_builder/utils/geometry_utils/polygon_utils.py:26-27 | as written, a point left of the unit square is reported inside |
| PolygonUtils.PointInsidePolygonEvenOdd | tk_builder/utils/geometry_utils/polygon_utils.py:15-29 | corrected: the answer is the parity of the crossings, with `inside` toggled at each one |
| PolygonUtils.Intercept | tk_builder/utils/geometry_utils/polygon_utils.py:25 | the x at which the edge crosses the horizontal line through the point (stated by InterceptBetween) |
| PolygonUtils.EdgePasses | tk_builder/utils/geometry_utils/polygon_utils.py:21-27 | the nested tests of one loop iteration (stated by StraddleIsYTest and LeftOfEdgePasses) |
| PolygonUtils.Inside | tk_builder/utils/geometry_utils/polygon_utils.py:15-29 | as written, the result is true when some iteration passes (stated by PassedBeforeIsSome and PointInsidePolygon) |
| PolygonUtils.StraddleIsYTest | tk_builder/utils/geometry_utils/polygon_utils.py:21-22 | the two y tests hold exactly when the edge straddles the horizontal line |
| PolygonUtils.FractionInUnit | tk_builder/utils/geometry_utils/polygon_utils.py:25 | the interpolation fraction of a straddling edge lies in [0, 1] |
| PolygonUtils.ScaledRatio | tk_builder/utils/geometry_utils/polygon_utils.py:25 | the intercept formula regroups as a fraction times a width |
| PolygonUtils.ScaleBetween | tk_builder/utils/geometry_utils/polygon_utils.py:25 | a fraction of a width lies between 0 and the width |
| PolygonUtils.InterceptBetween | tk_builder/utils/geometry_utils/polygon_utils.py:25 | the intercept of a straddling edge lies between its end x values |
| PolygonUtils.LeftOfEdgePasses | tk_builder/utils/geometry_utils/polygon_utils.py:21-27 | left of both ends, an edge passes exactly when it straddles |
| PolygonUtils.LeftCrossingsAreStraddles | tk_builder/utils/geometry_utils/polygon_utils.py:19-28 | left of every vertex, the crossings are the straddles |
| PolygonUtils.StraddleParity | tk_builder/utils/geometry_utils/polygon_utils.py:19-28 | an open chain straddles an odd number of times exactly when its ends lie on opposite sides |
| PolygonUtils.ClosedStraddlesEven | tk_builder/utils/geometry_utils/polygon_utils.py:19-28 | a closed polygon straddles any horizontal line an even number of times |
| PolygonUtils.EvenOddLeftIsOutside | tk_builder/utils/geometry_utils/polygon_utils.py:15-29 | corrected: a point left of every vertex is outside |
| PolygonUtils.EvenOddSquareCentre | tk_builder/utils/geometry_utils/polygon_utils.py:15-29 | corrected: the centre of the unit square is inside |
| Checkerboard.Tile | tk_builder/utils/image_utils/create_checkerboard.py:14-15 | `numpy.tile(pair, k)`: the pair written out k times (stated by TileAt) |
| Checkerboard.Repeat | tk_builder/utils/image_utils/create_checkerboard.py:14-15 | `numpy.repeat(xs, s)`: each element written out s times (stated by RepeatLength and RepeatAt) |
| Checkerboard.Pattern | tk_builder/utils/image_utils/create_checkerboard.py:14-15 | a row pattern: the pair tiled `n_squares_x // 2` times, each entry repeated `square_size` times (stated by PatternAt and PatternLength) |
| Checkerboard.TileAt | tk_builder/utils/image_utils/create_checkerboard.py:14 | `numpy.tile` of a pair k times has entry j equal to pair entry j mod 2 |
| Checkerboard.RepeatLength | tk_builder/utils/image_utils/create_checkerboard.py:14 | `numpy.repeat` multiplies the length |
| Checkerboard.RepeatAt | tk_builder/utils/image_utils/create_checkerboard.py:14 | entry c of the repeat is input entry c // s |
| Checkerboard.PatternAt | tk_builder/utils/image_utils/create_checkerboard.py:14-15 | a pattern alternates between its two values every `square_size` columns |
| Checkerboard.PatternLength | tk_builder/utils/image_utils/create_checkerboard.py:14-15 | a pattern has 2 × (n_squares_x // 2) × square_size entries |
| Checkerboard.PatternsSameLength | tk_builder/utils/image_utils/create_checkerboard.py:14-15 | the two patterns have the same length |
| Checkerboard.PatternFitsRow | tk_builder/utils/image_utils/create_checkerboard.py:12-15 | a pattern is as wide as a row exactly when n_squares_x is even (or the squares are empty) |
| Checkerboard.PatternsComplement | tk_builder/utils/image_utils/create_checkerboard.py:14-15 | the second pattern is the first with 0 and 1 swapped |
| Checkerboard.SetRow | tk_builder/utils/image_utils/create_checkerboard.py:17 | one row becomes the pattern, and every other row is unchanged |
| Checkerboard.OverwriteStep | tk_builder/utils/image_utils/create_checkerboard.py:19-21 | one more index adds exactly that row to the overwritten set |
| Checkerboard.OverwriteDone | tk_builder/utils/image_utils/create_checkerboard.py:19-21 | past the last row, the round's overwritten set is final |
| Checkerboard.OverwriteOffset | tk_builder/utils/image_utils/create_checkerboard.py:19-21 | one round of the second loop overwrites the rows at that offset in odd blocks, and no others |
| Checkerboard.FillRows | tk_builder/utils/image_utils/create_checkerboard.py:16-17 | every row holds the first pattern |
| Checkerboard.FinalRowIsCell | tk_builder/utils/image_utils/create_checkerboard.py:16-21 | after both loops each entry is the checkerboard cell value |
| Checkerboard.CreateCheckerboard | tk_builder/utils/image_utils/create_checkerboard.py:7-22 | an odd n_squares_x with rows to fill raises numpy's `ValueError`; otherwise a square_size·ny by square_size·nx board with 1 where the block coordinates add up to an even number |
| ColorCycler.ColorCycler.constructor | tk_builder/utils/color_utils/color_cycler.py:14-16 | the counter starts at 0, and the palette has n_colors entries |
| ColorCycler.ColorCycler.NextColor | tk_builder/utils/color_utils/color_cycler.py:19-24 | call n returns palette entry n mod n_colors; the counter stays in range and the palette is never changed; an empty palette raises `IndexError` |
| ColorUtils.ColorCycler.constructor | tk_builder/utils/color_utils.py:156-158 | the counter starts at 0, and the palette has n_colors entries |
| ColorUtils.ColorCycler.NextColor | tk_builder/utils/color_utils.py:160-164 | call n returns palette entry n mod n_colors, with the counter moved on by a remainder; an empty palette raises `IndexError` |

## Left out

- **Drawing and events.** Tk rendering, widget creation, packing geometry,
  mouse and keyboard callbacks, and logging are not modelled. Tk canvas items
  are a map from id to drawing coordinates, with ids handed out from 1.
- **Other tool handlers.** The mouse handlers of the other tools are not
  modelled: zoom, select, shape select, new shape, the edit-shape drag, and
  arrow and text editing. Only `_modify_coords`, `_shift_shape`, `pan`,
  `on_left_mouse_click` of the pan tool and the right-click deletion are.
- **Image data.** PIL resizing, image files and remapping are not modelled.
  `get_scaled_display_data` is modelled only as the size it resizes to.
- **Floating point.** Coordinates, ratios and intercepts are exact reals.
  Rounding, and `numpy`'s float-to-int casts beyond truncation, are not
  modelled.
- **Palette resampling.** The palette interpolation of `get_full_hex_palette`
  (floating-point colour arithmetic) is a parameter of the colour-cycler
  constructors. The rest of `utils/color_utils.py` is not part of this model.
- **Python builtins.** Parsing a string as an `int` or a `float`, and `str()`
  of a non-string, are parameters (`Builtins`): they are code the model
  cannot see.
- **Environment.** The module-level tool registry and the home directory
  (`os.path.expanduser('~')`) are passed in.
- **Instances.** The descriptor's per-instance dictionary is keyed by an
  instance number. `WeakKeyDictionary` lifetimes are not modelled.
- **Case folding.** `lower()` and `upper()` fold ASCII letters only.
- **Slicing.** The numpy reader's `__getitem__` is modelled for a pair of
  basic slices with step 1. Other keys (integers, steps, fancy indexing) are
  not modelled.
- **ImagePanel.** `hide_controls`, `hide_remap_combo`, `hide_select_index`
  and the callbacks are not modelled.
- **ImageCanvas.** `find_closest_shape` (distance to the nearest shape, drawn
  through Tk) and the shape-drawing helpers beyond registration are not
  modelled.
- CanvasImage.DecimatedToDisplay: its own contract states only the number of pairs; of the coordinates only the round trip CanvasImage.DisplayRoundTrip is stated.
- CanvasImage.DisplayToDecimated: on success its own contract states only the number of pairs; of the coordinates only the round trip CanvasImage.DisplayRoundTrip is stated.
- CanvasImage.DisplayToCanvas: its own contract states only the number of pairs; of the coordinates only CanvasImage.DisplayToCanvasTwice is stated.
- BaseElements.StoredValue: a typed-tuple descriptor stores the corrected `_verify_typed_tuple(value, default, the descriptor's type, length)`; as written (base_elements.py:749) every value other than `None` raises `NameError`, which BaseElements.TypedTupleSetAsWritten states.
- BaseElements.VerifyValue: computes the corrected typed-tuple case of BaseElements.StoredValue, not the `NameError` of base_elements.py:749.
- BaseElements.Descriptor.Set: stores the corrected typed-tuple value, not the `NameError` of base_elements.py:749.
- ImagePanel.PathHead: models `posixpath.split` only; the Windows form of `os.path.split` (drive letters, backslashes) is not modelled.
- Checkerboard.CreateCheckerboard: takes natural sizes; a negative size, for which `numpy.zeros` or `numpy.repeat` raises `ValueError` (or two negative factors give a positive dimension), is not modelled.
- ColorCycler.ColorCycler.constructor: takes a natural colour count; for a negative count `numpy.linspace` in the palette resampling raises `ValueError`, which is not modelled.
- ColorUtils.ColorCycler.constructor: takes a natural colour count; for a negative count `numpy.linspace` in the palette resampling raises `ValueError`, which is not modelled.
- PanelBuilder.WidgetPanel.InitWBoxLayout: widths and heights are `None`, one integer or a list of integers; other argument types, and the widths and heights that end up configured on the widgets, are not modelled. The row of widget `i` is `i // n_columns` where the source computes `int(i / n_columns)` in floating point.
- ImagePanel.ImagePanel.constructor: requires `VIEW` to be registered, which the registry built on import guarantees.
- PolygonUtils.PointInsidePolygon: models the code as written, which never resets `inside`; the even-odd rule is stated by PolygonUtils.PointInsidePolygonEvenOdd.
- PanelBuilder.WidgetPanel.InitWRows: creates one row frame per group (corrected) rather than one per widget as written.
- ImageCanvas.ImageCanvas.CreateNewText: appends the id once (corrected) rather than twice as written.
- ImageCanvasTool.EditShapeTool.OnRightMouseClick: applies the corrected last-vertex test rather than the one as written.

## Findings

| source | as written | input that shows it | evidently intended | confidence | as-written member | corrected member |
|---|---|---|---|---|---|---|
| tk_builder/widgets/image_canvas_tool.py:1152 | `index_remove >= point_count` compares a coordinate index (2 × vertex index) with a number of points | four points, insertion index 2: vertex 3 is deleted instead of vertex 2 | take the last-vertex branch when `index_remove` addresses the last coordinate pair | not executed | ImageCanvasTool.RightClickDropsWrongVertex | ImageCanvasTool.RightClickRemovesInsertionVertex |
| tk_builder/widgets/image_canvas.py:1479-1482 | `create_new_text` appends the new id to `shape_ids` twice | create a text, then `delete_shape` it: the id is still listed, but its vector object is gone | append the id once, as every other `create_new_*` does | not executed | ImageCanvas.DeletedTextLeavesStaleId | ImageCanvas.DeletedTextLeavesNoId |
| tk_builder/base_elements.py:745-750 | `TypedTupleDescriptor.__set__` passes the undefined name `the_type` | assigning `(7,)` to an `int` typed-tuple descriptor raises `NameError` | pass the descriptor's own type, so that a tuple of instances is stored | not executed | BaseElements.TypedTupleRefusesValidTuple | BaseElements.TypedTupleKeepsInstances |
| tk_builder/utils/geometry_utils/polygon_utils.py:26-27 | `inside = True` is set at every crossing and never toggled back | the point (-1, 0.5) left of the unit square is reported inside | `inside = not inside` (even-odd rule) | not executed | PolygonUtils.LeftOfSquareReportedInside | PolygonUtils.EvenOddLeftIsOutside |
| tk_builder/panel_builder.py:102 | `init_w_rows` passes the number of widgets as `n_rows` | the one-group layout `(("one", "two"),)` gets two row frames, the second one empty | pass the number of groups (`len(widgets_per_row)`) | not executed | PanelBuilder.RowsLayoutAddsEmptyFrames | PanelBuilder.GroupMembersShareRow |

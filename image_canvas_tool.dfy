/** The canvas-independent parts of tk_builder/widgets/image_canvas_tool.py:
    the helpers that edit and translate flat `[x0, y0, x1, y1, ...]` vertex
    lists, the pan tool's clamped shift, the shape-type enumeration, the
    right-click vertex deletion of the edit tool and the module-level tool
    registry. Coordinates are exact reals. */
module ImageCanvasTool {
  import opened Wrappers
  import opened PySlices

  // ---------------------------------------------------------------------
  // Drag limits and `_modify_coords`

  /** A shape's drag limits, already converted to canvas coordinates:
      `(x_min, y_min, x_max, y_max)`. */
  datatype Limits = Limits(x0: real, y0: real, x1: real, y1: real)

  /** The nested `trim` of `trim_to_drag_limits`. */
  function Trim(value: real, lBound: real, uBound: real): (r: real)
    ensures lBound <= uBound ==> lBound <= r <= uBound
    ensures lBound <= value <= uBound ==> r == value
    ensures value < lBound ==> r == lBound
  {
    if value < lBound then lBound
    else if value > uBound then uBound
    else value
  }

  /** `trim_to_drag_limits`: the event point, clamped into the drag limits
      when the shape has any. */
  function TrimToDragLimits(x: real, y: real, lims: Option<Limits>): (p: (real, real))
    ensures lims.None? ==> p == (x, y)
    ensures lims.Some? ==> p == (Trim(x, lims.value.x0, lims.value.x1), Trim(y, lims.value.y0, lims.value.y1))
  {
    match lims
    case None => (x, y)
    case Some(l) => (Trim(x, l.x0, l.x1), Trim(y, l.y0, l.y1))
  }

  /** With well-ordered drag limits, the trimmed point lies inside them. */
  lemma {:induction false} TrimmedInsideLimits(x: real, y: real, l: Limits)
    requires l.x0 <= l.x1 && l.y0 <= l.y1
    ensures var p := TrimToDragLimits(x, y, Some(l));
      l.x0 <= p.0 <= l.x1 && l.y0 <= p.1 <= l.y1
    ensures l.x0 <= x <= l.x1 && l.y0 <= y <= l.y1 ==> TrimToDragLimits(x, y, Some(l)) == (x, y)
  {
  }

  /** `_modify_coords(image_canvas, shape_id, coords, x, y, at_index, insert)`,
      with the shape's drag limits (in canvas coordinates) passed in. It returns
      the new coordinate list and the updated index. */
  function ModifyCoords(coords: seq<real>, x: real, y: real, lims: Option<Limits>, atIndex: nat, insert: bool)
    : (seq<real>, nat)
  {
    var (ex, ey) := TrimToDragLimits(x, y, lims);
    if insert then
      var out :=
        if 2 * atIndex == |coords| - 2 then coords + [ex, ey]
        else Take(coords, 2 * atIndex + 2) + [ex, ey] + Drop(coords, 2 * atIndex + 2);
      (out, atIndex + 1)
    else
      var out :=
        if atIndex == 0 then [ex, ey] + Drop(coords, 2)
        else if 2 * atIndex == |coords| - 2 then Take(coords, -2) + [ex, ey]
        else Take(coords, 2 * atIndex) + [ex, ey] + Drop(coords, 2 * atIndex + 2);
      (out, atIndex)
  }

  /** Insert mode puts the (trimmed) point right after vertex `at_index`, keeps
      every other coordinate in order, and moves the index on to the new vertex.
      The final-vertex branch and the general branch agree. */
  lemma {:induction false} InsertAfterVertex(coords: seq<real>, x: real, y: real, lims: Option<Limits>, atIndex: nat)
    requires 2 * atIndex + 2 <= |coords|
    ensures var (out, k) := ModifyCoords(coords, x, y, lims, atIndex, true);
      var p := TrimToDragLimits(x, y, lims);
      k == atIndex + 1 && |out| == |coords| + 2 &&
      out == coords[..2 * atIndex + 2] + [p.0, p.1] + coords[2 * atIndex + 2..]
  {
    if 2 * atIndex == |coords| - 2 {
      assert coords[..2 * atIndex + 2] == coords;
    }
  }

  /** Replace mode overwrites vertex `at_index` only and keeps the length and the index. */
  lemma {:induction false} ReplaceVertex(coords: seq<real>, x: real, y: real, lims: Option<Limits>, atIndex: nat)
    requires 2 * atIndex + 2 <= |coords|
    ensures var (out, k) := ModifyCoords(coords, x, y, lims, atIndex, false);
      var p := TrimToDragLimits(x, y, lims);
      k == atIndex && |out| == |coords| &&
      out[2 * atIndex] == p.0 && out[2 * atIndex + 1] == p.1 &&
      forall i :: 0 <= i < |coords| && i != 2 * atIndex && i != 2 * atIndex + 1 ==> out[i] == coords[i]
  {
    var p := TrimToDragLimits(x, y, lims);
    var out := ModifyCoords(coords, x, y, lims, atIndex, false).0;
    if atIndex == 0 {
      assert out == [p.0, p.1] + coords[2..];
    } else if 2 * atIndex == |coords| - 2 {
      assert out == coords[..|coords| - 2] + [p.0, p.1];
    } else {
      assert out == coords[..2 * atIndex] + [p.0, p.1] + coords[2 * atIndex + 2..];
    }
  }

  // ---------------------------------------------------------------------
  // `_shift_shape`

  /** Every x coordinate (even index) of `coords` moved by `dx` lies in [x0, x1]. */
  predicate XFits(coords: seq<real>, dx: real, l: Limits)
  {
    forall i :: 0 <= i < |coords| && i % 2 == 0 ==> l.x0 <= coords[i] + dx <= l.x1
  }

  /** Every y coordinate (odd index) of `coords` moved by `dy` lies in [y0, y1]. */
  predicate YFits(coords: seq<real>, dy: real, l: Limits)
  {
    forall i :: 0 <= i < |coords| && i % 2 == 1 ==> l.y0 <= coords[i] + dy <= l.y1
  }

  /** What `_shift_shape` returns: x coordinates moved by `dx` and y coordinates
      by `dy`, except that an axis on which some shifted vertex leaves the limits
      keeps its original coordinates. */
  function Shifted(coords: seq<real>, dx: real, dy: real, lims: Option<Limits>): (r: seq<real>)
    ensures |r| == |coords|
  {
    var moveX := lims.None? || XFits(coords, dx, lims.value);
    var moveY := lims.None? || YFits(coords, dy, lims.value);
    seq(|coords|, i requires 0 <= i < |coords| =>
      if i % 2 == 0 then (if moveX then coords[i] + dx else coords[i])
      else (if moveY then coords[i] + dy else coords[i]))
  }

  /** `_shift_shape(event, anchor, coords, canvas_limits)` */
  method ShiftShape(eventX: real, eventY: real, anchorX: real, anchorY: real, coords: seq<real>, canvasLimits: Option<Limits>)
    returns (newCoords: seq<real>)
    ensures newCoords == Shifted(coords, eventX - anchorX, eventY - anchorY, canvasLimits)
  {
    var xDist := eventX - anchorX;
    var yDist := eventY - anchorY;
    // numpy.asarray(coords) + x_dist, with the odd entries taken from coords + y_dist
    newCoords := seq(|coords|, i requires 0 <= i < |coords| =>
      if i % 2 == 0 then coords[i] + xDist else coords[i] + yDist);
    assert forall j :: 0 <= j < |coords| && j % 2 == 0 ==> newCoords[j] == coords[j] + xDist;
    assert forall j :: 0 <= j < |coords| && j % 2 == 1 ==> newCoords[j] == coords[j] + yDist;
    if canvasLimits.Some? {
      var lims := canvasLimits.value;
      var withinXLimits := true;
      var withinYLimits := true;
      var i := 0;
      while i < |newCoords|
        invariant 0 <= i <= |newCoords|
        invariant withinXLimits <==> forall j :: 0 <= j < i && j % 2 == 0 ==> lims.x0 <= newCoords[j] <= lims.x1
      {
        if i % 2 == 0 && (lims.x1 < newCoords[i] || newCoords[i] < lims.x0) {
          withinXLimits := false;
        }
        i := i + 1;
      }
      i := 0;
      while i < |newCoords|
        invariant 0 <= i <= |newCoords|
        invariant withinYLimits <==> forall j :: 0 <= j < i && j % 2 == 1 ==> lims.y0 <= newCoords[j] <= lims.y1
      {
        if i % 2 == 1 && (newCoords[i] < lims.y0 || newCoords[i] > lims.y1) {
          withinYLimits := false;
        }
        i := i + 1;
      }
      assert withinXLimits == XFits(coords, xDist, lims);
      assert withinYLimits == YFits(coords, yDist, lims);
      if !withinXLimits {
        newCoords := seq(|coords|, i requires 0 <= i < |coords| => if i % 2 == 0 then coords[i] else newCoords[i]);
      }
      if !withinYLimits {
        newCoords := seq(|coords|, i requires 0 <= i < |coords| => if i % 2 == 1 then coords[i] else newCoords[i]);
      }
    }
  }

  /** Without limits a shift is a translation, and shifting back undoes it. */
  lemma {:induction false} ShiftBackRestores(coords: seq<real>, dx: real, dy: real)
    ensures Shifted(Shifted(coords, dx, dy, None), -dx, -dy, None) == coords
  {
  }

  /** A shape inside the limits stays inside them after any shift. */
  lemma {:induction false} ShiftKeepsInside(coords: seq<real>, dx: real, dy: real, l: Limits)
    requires XFits(coords, 0.0, l) && YFits(coords, 0.0, l)
    ensures XFits(Shifted(coords, dx, dy, Some(l)), 0.0, l) && YFits(Shifted(coords, dx, dy, Some(l)), 0.0, l)
  {
  }

  // ---------------------------------------------------------------------
  // `PanTool`

  /** The full-image rectangle on view: `(y_min, x_min, y_max, x_max)`. */
  datatype Bounds = Bounds(y1: real, x1: real, y2: real, x2: real)

  /** `get_shift_limit(the_shift, the_limit, lower_value, upper_value)`: the
      part of the shift that keeps [lower, upper] inside [0, limit]. */
  function ShiftLimit(shift: real, limit: real, lower: real, upper: real): (r: Result<real>)
    ensures r.Raise? <==> lower < 0.0 || upper > limit
    ensures r.Raise? ==> r.exc == ValueError
    ensures r.Ok? ==> (shift < 0.0 ==> shift <= r.value <= 0.0) && (shift >= 0.0 ==> 0.0 <= r.value <= shift)
    ensures r.Ok? ==> lower + r.value >= 0.0 && upper + r.value <= limit
    ensures r.Ok? && lower + shift >= 0.0 && upper + shift <= limit ==> r.value == shift
    ensures r.Ok? && r.value != shift ==>
      (shift < 0.0 ==> lower + r.value == 0.0) && (shift >= 0.0 ==> upper + r.value == limit)
  {
    if lower < 0.0 || upper > limit then Raise(ValueError)
    else if shift < 0.0 then Ok(if shift >= -lower then shift else -lower)
    else Ok(if shift <= limit - upper then shift else limit - upper)
  }

  /** The bounds `pan` hands to `zoom_to_full_image_selection`: both bounds of
      an axis move by the same clamped shift, y first. */
  function PannedBounds(b: Bounds, yDiff: real, xDiff: real, fullY: real, fullX: real): Result<Bounds>
  {
    var ry := ShiftLimit(yDiff, fullY, b.y1, b.y2);
    if ry.Raise? then Raise(ry.exc)
    else
      var rx := ShiftLimit(xDiff, fullX, b.x1, b.x2);
      if rx.Raise? then Raise(rx.exc)
      else Ok(Bounds(b.y1 + ry.value, b.x1 + rx.value, b.y2 + ry.value, b.x2 + rx.value))
  }

  /** Panning keeps the size of the view and keeps it inside the full image. */
  lemma {:induction false} PanKeepsExtent(b: Bounds, yDiff: real, xDiff: real, fullY: real, fullX: real)
    requires 0.0 <= b.y1 && b.y2 <= fullY && 0.0 <= b.x1 && b.x2 <= fullX
    ensures PannedBounds(b, yDiff, xDiff, fullY, fullX).Ok?
    ensures var nb := PannedBounds(b, yDiff, xDiff, fullY, fullX).value;
      nb.y2 - nb.y1 == b.y2 - b.y1 && nb.x2 - nb.x1 == b.x2 - b.x1 &&
      0.0 <= nb.y1 && nb.y2 <= fullY && 0.0 <= nb.x1 && nb.x2 <= fullX
  {
  }

  /** The mouse has moved less than `threshold` from the anchor:
      `sqrt(dx*dx + dy*dy) < threshold`, stated without the square root. */
  predicate BelowThreshold(dx: real, dy: real, threshold: real)
  {
    threshold > 0.0 && dx * dx + dy * dy < threshold * threshold
  }

  /** A canvas distance in full-image pixels: `decimation * diff`. */
  function Scale(decimation: real, diff: real): real
  {
    decimation * diff
  }

  /** What `pan` does, from the anchor and the event: nothing when the mouse is
      still within the threshold (and the distance is checked), otherwise the
      view bounds shifted by the decimated mouse movement. */
  function PanOutcome(anchor: (real, real), eventX: real, eventY: real, checkDistance: bool, threshold: real,
                      b: Bounds, decimation: real, fullY: real, fullX: real): Result<Option<Bounds>>
  {
    if checkDistance && BelowThreshold(anchor.0 - eventX, anchor.1 - eventY, threshold) then Ok(None)
    else
      match PannedBounds(b, Scale(decimation, anchor.1 - eventY), Scale(decimation, anchor.0 - eventX), fullY, fullX)
      case Ok(nb) => Ok(Some(nb))
      case Raise(e) => Raise(e)
  }

  /** Dragging back to the anchor never pans when a positive threshold is checked. */
  lemma {:induction false} NoPanAtAnchor(anchor: (real, real), threshold: real, b: Bounds, decimation: real, fullY: real, fullX: real)
    requires threshold > 0.0
    ensures PanOutcome(anchor, anchor.0, anchor.1, true, threshold, b, decimation, fullY, fullX) == Ok(None)
  {
    assert threshold * threshold > 0.0;
    assert anchor.0 - anchor.0 == 0.0 && anchor.1 - anchor.1 == 0.0;
    assert BelowThreshold(0.0, 0.0, threshold);
  }

  /** Without the distance check, a view inside the image always pans, to a view of
      the same size inside the image. */
  lemma {:induction false} PanInsideImage(anchor: (real, real), eventX: real, eventY: real, threshold: real, b: Bounds,
                       decimation: real, fullY: real, fullX: real)
    requires 0.0 <= b.y1 && b.y2 <= fullY && 0.0 <= b.x1 && b.x2 <= fullX
    ensures var r := PanOutcome(anchor, eventX, eventY, false, threshold, b, decimation, fullY, fullX);
      r.Ok? && r.value.Some? &&
      r.value.value.y2 - r.value.value.y1 == b.y2 - b.y1 && r.value.value.x2 - r.value.value.x1 == b.x2 - b.x1 &&
      0.0 <= r.value.value.y1 && r.value.value.y2 <= fullY && 0.0 <= r.value.value.x1 && r.value.value.x2 <= fullX
  {
    PanKeepsExtent(b, Scale(decimation, anchor.1 - eventY), Scale(decimation, anchor.0 - eventX), fullY, fullX);
  }

  class PanTool {
    var anchor: (real, real)
    var threshold: real

    /** `PanTool(image_canvas)`, with the canvas's `pan_pixel_threshold`. */
    constructor (panPixelThreshold: real)
      ensures anchor == (0.0, 0.0) && threshold == panPixelThreshold
    {
      anchor := (0.0, 0.0);
      threshold := panPixelThreshold;
    }

    method OnLeftMouseClick(eventX: real, eventY: real)
      modifies this`anchor
      ensures anchor == (eventX, eventY)
    {
      anchor := (eventX, eventY);
    }

    /** `pan(event, check_distance)`, given what the canvas reports: the view
        bounds, the decimation and the full image size. `Ok(None)` is the early
        return; `Ok(Some(b))` carries the bounds the canvas is zoomed to. */
    method Pan(eventX: real, eventY: real, checkDistance: bool, imageBounds: Bounds, decimation: real, fullY: real, fullX: real)
      returns (r: Result<Option<Bounds>>)
      modifies this`anchor
      ensures r == PanOutcome(old(anchor), eventX, eventY, checkDistance, threshold, imageBounds, decimation, fullY, fullX)
      ensures anchor == if r.Ok? && r.value.Some? then (eventX, eventY) else old(anchor)
    {
      var canvasXDiff := anchor.0 - eventX;
      var canvasYDiff := anchor.1 - eventY;
      if checkDistance && BelowThreshold(canvasXDiff, canvasYDiff, threshold) {
        return Ok(None);
      }
      var xDiff := Scale(decimation, canvasXDiff);
      var yDiff := Scale(decimation, canvasYDiff);
      var ry := ShiftLimit(yDiff, fullY, imageBounds.y1, imageBounds.y2);
      if ry.Raise? {
        return Raise(ry.exc);
      }
      var rx := ShiftLimit(xDiff, fullX, imageBounds.x1, imageBounds.x2);
      if rx.Raise? {
        return Raise(rx.exc);
      }
      var newImageBounds := Bounds(imageBounds.y1 + ry.value, imageBounds.x1 + rx.value,
                                   imageBounds.y2 + ry.value, imageBounds.x2 + rx.value);
      assert PannedBounds(imageBounds, yDiff, xDiff, fullY, fullX) == Ok(newImageBounds);
      anchor := (eventX, eventY);
      return Ok(Some(newImageBounds));
    }
  }

  // ---------------------------------------------------------------------
  // `ShapeTypeConstants`

  const POINT: int := 0
  const LINE: int := 1
  const ARROW: int := 2
  const RECT: int := 3
  const ELLIPSE: int := 4
  const POLYGON: int := 5
  const TEXT: int := 6

  /** `_names_to_values` */
  const NamesToValues: map<string, int> :=
    map["POINT" := POINT, "LINE" := LINE, "ARROW" := ARROW, "RECT" := RECT,
        "ELLIPSE" := ELLIPSE, "POLYGON" := POLYGON, "TEXT" := TEXT]

  /** `_values_to_names` */
  const ValuesToNames: map<int, string> :=
    map[POINT := "POINT", LINE := "LINE", ARROW := "ARROW", RECT := "RECT",
        ELLIPSE := "ELLIPSE", POLYGON := "POLYGON", TEXT := "TEXT"]

  /** The int key a Python value hashes and compares equal to, if any:
      `True == 1`, `False == 0` and `2.0 == 2` in Python. */
  function AsIntKey(v: PyValue): Option<int>
  {
    match v
    case PyInt(i) => Some(i)
    case PyBool(b) => Some(if b then 1 else 0)
    case PyFloat(f) => if f == f.Floor as real then Some(f.Floor) else None
    case _ => None
  }

  /** `ShapeTypeConstants.validate(value)`. Looking an unhashable value (a
      list, or a tuple holding one) up in a dictionary raises `TypeError`; a
      hashable tuple is simply not found. */
  function Validate(value: PyValue): (r: Result<Option<PyValue>>)
    ensures !Hashable(value) <==> r.Raise?
    ensures r.Raise? ==> r.exc == TypeError
    ensures value.PySeq? && Hashable(value) ==> r == Ok(None)
    ensures r.Ok? && r.value.Some? ==>
      (value.PyStr? && value.s in NamesToValues && r.value.value == PyInt(NamesToValues[value.s])) ||
      (AsIntKey(value).Some? && AsIntKey(value).value in ValuesToNames && r.value.value == value)
    ensures value.PyStr? && value.s in NamesToValues ==> r == Ok(Some(PyInt(NamesToValues[value.s])))
    ensures Hashable(value) && !value.PyStr? && AsIntKey(value).Some? && AsIntKey(value).value in ValuesToNames
      ==> r == Ok(Some(value))
  {
    if !Hashable(value) then Raise(TypeError)
    else if value.PyStr? then
      (if value.s in NamesToValues then Ok(Some(PyInt(NamesToValues[value.s]))) else Ok(None))
    else
      match AsIntKey(value)
      case Some(k) => if k in ValuesToNames then Ok(Some(value)) else Ok(None)
      case None => Ok(None)
  }

  /** `ShapeTypeConstants.get_name(value)` */
  function GetName(value: PyValue): (r: Result<Option<string>>)
    ensures !Hashable(value) <==> r.Raise?
    ensures r.Raise? ==> r.exc == TypeError
    ensures value.PySeq? && Hashable(value) ==> r == Ok(None)
    ensures r.Ok? && r.value.Some? ==>
      r.value.value in NamesToValues && AsIntKey(value) == Some(NamesToValues[r.value.value])
  {
    if !Hashable(value) then Raise(TypeError)
    else
      match AsIntKey(value)
      case Some(k) => if k in ValuesToNames then Ok(Some(ValuesToNames[k])) else Ok(None)
      case None => Ok(None)
  }

  /** `ShapeTypeConstants.geometric_shapes()` */
  function GeometricShapes(): seq<int>
  {
    [RECT, LINE, POLYGON, ARROW, ELLIPSE]
  }

  /** `ShapeTypeConstants.point_shapes()` */
  function PointShapes(): seq<int>
  {
    [POINT, TEXT]
  }

  /** A shape name validates to its value, and `get_name` maps the value back to the name. */
  lemma {:induction false} ValidateThenGetName(name: string)
    requires name in NamesToValues
    ensures Validate(PyStr(name)).Ok? && Validate(PyStr(name)).value.Some?
    ensures var v := Validate(PyStr(name)).value.value;
      v.PyInt? && GetName(v) == Ok(Some(name))
  {
  }

  /** Exactly the integers 0..6 are valid shape values; they pass through unchanged. */
  lemma {:induction false} ValidateInt(k: int)
    ensures Validate(PyInt(k)) == if 0 <= k <= 6 then Ok(Some(PyInt(k))) else Ok(None)
  {
  }

  /** The geometric and point shapes share no value and together cover all seven. */
  lemma {:induction false} ShapeKindsPartition()
    ensures forall v :: v in GeometricShapes() ==> v !in PointShapes()
    ensures forall v :: v in ValuesToNames <==> v in GeometricShapes() || v in PointShapes()
  {
  }

  // ---------------------------------------------------------------------
  // `EditShapeTool.on_right_mouse_click`

  /** The vertex deletion as written: `index_remove = 2 * insert_at_index` is
      compared with the number of points, not with the number of coordinates. */
  function RightClickRemovalAsWritten(coords: seq<real>, insertAtIndex: nat): (seq<real>, nat)
  {
    var indexRemove := 2 * insertAtIndex;
    var pointCount := |coords| / 2;
    if indexRemove == 0 then (Drop(coords, 2), insertAtIndex)
    else if indexRemove >= pointCount then (Take(coords, -2), insertAtIndex - 1)
    else (Take(coords, indexRemove) + Drop(coords, indexRemove + 2), insertAtIndex - 1)
  }

  /** Four points with the insertion index on vertex 2: the as-written branch
      drops vertex 3 and leaves vertex 2 in place, while the corrected removal
      drops vertex 2 and keeps vertex 3. */
  lemma {:induction false} RightClickDropsWrongVertex()
    ensures RightClickRemovalAsWritten([0.0, 0.0, 1.0, 1.0, 2.0, 2.0, 3.0, 3.0], 2)
      == ([0.0, 0.0, 1.0, 1.0, 2.0, 2.0], 1)
    ensures RightClickRemoval([0.0, 0.0, 1.0, 1.0, 2.0, 2.0, 3.0, 3.0], 2)
      == ([0.0, 0.0, 1.0, 1.0, 3.0, 3.0], 1)
  {
    var c := [0.0, 0.0, 1.0, 1.0, 2.0, 2.0, 3.0, 3.0];
    assert Take(c, -2) == [0.0, 0.0, 1.0, 1.0, 2.0, 2.0];
    assert Take(c, 4) == [0.0, 0.0, 1.0, 1.0];
    assert Drop(c, 6) == [3.0, 3.0];
    assert RightClickRemoval(c, 2) == (Take(c, 4) + Drop(c, 6), 1);
    assert [0.0, 0.0, 1.0, 1.0] + [3.0, 3.0] == [0.0, 0.0, 1.0, 1.0, 3.0, 3.0];
  }

  /** The deletion as intended: the final-vertex branch is taken when
      `index_remove` addresses the last pair of coordinates. */
  function RightClickRemoval(coords: seq<real>, insertAtIndex: nat): (seq<real>, nat)
  {
    var indexRemove := 2 * insertAtIndex;
    if indexRemove == 0 then (Drop(coords, 2), insertAtIndex)
    else if indexRemove >= |coords| - 2 then (Take(coords, -2), insertAtIndex - 1)
    else (Take(coords, indexRemove) + Drop(coords, indexRemove + 2), insertAtIndex - 1)
  }

  /** With the intended test, the vertex at the insertion index is the one
      removed, and the index moves back to the previous vertex (0 stays 0). */
  lemma {:induction false} RightClickRemovesInsertionVertex(coords: seq<real>, insertAtIndex: nat)
    requires |coords| % 2 == 0 && 2 * insertAtIndex + 2 <= |coords|
    ensures var (out, k) := RightClickRemoval(coords, insertAtIndex);
      out == coords[..2 * insertAtIndex] + coords[2 * insertAtIndex + 2..] &&
      |out| == |coords| - 2 &&
      k == (if insertAtIndex == 0 then 0 else insertAtIndex - 1)
  {
    if 2 * insertAtIndex >= |coords| - 2 && insertAtIndex > 0 {
      assert 2 * insertAtIndex + 2 == |coords|;
      assert coords[2 * insertAtIndex + 2..] == [];
    }
  }

  /** The state of `EditShapeTool` that right-click deletion uses. */
  class EditShapeTool {
    var shapeId: Option<int>
    var insertAtIndex: nat
    var mode: string

    constructor ()
      ensures shapeId == None && insertAtIndex == 0 && mode == "normal"
    {
      shapeId := None;
      insertAtIndex := 0;
      mode := "normal";
    }

    /** `on_right_mouse_click`, given the edited shape's type (None when the
        canvas's `get_vector_object` returns None) and canvas coordinates. The
        result is the coordinate list the canvas is updated with, if any. */
    method OnRightMouseClick(shapeType: Option<int>, coords: seq<real>) returns (update: Option<seq<real>>)
      modifies this`insertAtIndex
      ensures var applies := shapeId.Some? && mode == "normal" && shapeType.Some? &&
          (shapeType.value == LINE || shapeType.value == POLYGON) && |coords| / 2 >= 3;
        if applies then
          var (out, k) := RightClickRemoval(coords, old(insertAtIndex));
          update == Some(out) && insertAtIndex == k
        else
          update == None && insertAtIndex == old(insertAtIndex)
    {
      if shapeId.None? {
        return None;
      }
      if mode == "normal" {
        if shapeType.None? || (shapeType.value != LINE && shapeType.value != POLYGON) {
          return None;
        }
        var pointCount := |coords| / 2;
        if pointCount < 3 {
          return None;
        }
        var indexRemove := 2 * insertAtIndex;
        if indexRemove == 0 {
          update := Some(Drop(coords, 2));
        } else if indexRemove >= |coords| - 2 {
          update := Some(Take(coords, -2));
          insertAtIndex := insertAtIndex - 1;
        } else {
          update := Some(Take(coords, indexRemove) + Drop(coords, indexRemove + 2));
          insertAtIndex := insertAtIndex - 1;
        }
      } else {
        update := None;
      }
    }
  }

  // ---------------------------------------------------------------------
  // The tool registry

  /** A tool class: its Python class name, its `_name`, and whether it is a
      subclass of `ImageCanvasTool`. */
  datatype ToolClass = ToolClass(className: string, name: string, isCanvasTool: bool)

  /** The tools `_register_defaults` registers, in order: nine canvas tools
      under pairwise distinct names, so none of them is skipped as already
      registered. */
  function DefaultTools(): (ts: seq<ToolClass>)
    ensures |ts| == 9
    ensures forall i, j :: 0 <= i < j < |ts| ==> ts[i].name != ts[j].name
    ensures forall i :: 0 <= i < |ts| ==> ts[i].isCanvasTool
  {
    [ToolClass("ViewTool", "VIEW", true), ToolClass("ZoomInTool", "ZOOM_IN", true),
     ToolClass("ZoomOutTool", "ZOOM_OUT", true), ToolClass("PanTool", "PAN", true),
     ToolClass("SelectTool", "SELECT", true), ToolClass("ShapeSelectTool", "SHAPE_SELECT", true),
     ToolClass("ShiftShapeTool", "SHIFT_SHAPE", true), ToolClass("NewShapeTool", "NEW_SHAPE", true),
     ToolClass("EditShapeTool", "EDIT_SHAPE", true)]
  }

  /** The argument of `get_tool_type`: a name, a class, or something that is not a class. */
  datatype ToolRef = ByName(name: string) | ByClass(tool: ToolClass) | NotAClass

  /** The module globals `_TOOL_DICT`, `_TOOL_NAME_TO_ENUM`, `_TOOL_ENUM_TO_NAME`,
      `_CURRENT_ENUM_VALUE` and `_DEFAULTS_REGISTERED`. */
  class ToolRegistry {
    var toolDict: map<string, ToolClass>
    var nameToEnum: map<string, int>
    var enumToName: map<int, string>
    var currentEnum: int
    var defaultsRegistered: bool

    /** The name and enum maps are inverse bijections between the registered
        names and the enum values 0 .. current, and each name maps to a tool
        of that name. */
    ghost predicate Valid()
      reads this
    {
      currentEnum >= -1 &&
      nameToEnum.Keys == toolDict.Keys &&
      (forall e :: e in enumToName <==> 0 <= e <= currentEnum) &&
      (forall n :: n in nameToEnum ==> nameToEnum[n] in enumToName && enumToName[nameToEnum[n]] == n) &&
      (forall e :: e in enumToName ==> enumToName[e] in nameToEnum && nameToEnum[enumToName[e]] == e) &&
      (forall n :: n in toolDict ==> toolDict[n].name == n && toolDict[n].isCanvasTool) &&
      (defaultsRegistered ==> forall i :: 0 <= i < 9 ==> DefaultTools()[i].name in toolDict)
    }

    /** The registry as the module is imported: empty, then `_register_defaults()`. */
    constructor ()
      ensures Valid() && defaultsRegistered && currentEnum == 8
      ensures forall i :: 0 <= i < 9 ==> DefaultTools()[i].name in nameToEnum && nameToEnum[DefaultTools()[i].name] == i
      ensures forall n :: n in nameToEnum ==> nameToEnum[n] < 9 && DefaultTools()[nameToEnum[n]].name == n
    {
      toolDict := map[];
      nameToEnum := map[];
      enumToName := map[];
      currentEnum := -1;
      defaultsRegistered := false;
      new;
      RegisterDefaults();
    }

    /** `register_tool(the_tool, overwrite)` */
    method RegisterTool(theTool: ToolClass, overwrite: bool) returns (r: Result<()>)
      requires Valid()
      modifies this`toolDict, this`nameToEnum, this`enumToName, this`currentEnum
      ensures Valid()
      ensures !theTool.isCanvasTool ==>
        (r == Raise(TypeError) && toolDict == old(toolDict) && nameToEnum == old(nameToEnum) &&
         enumToName == old(enumToName) && currentEnum == old(currentEnum))
      ensures theTool.isCanvasTool && theTool.name !in old(toolDict) ==>
        (r == Ok(()) && currentEnum == old(currentEnum) + 1 &&
         toolDict == old(toolDict)[theTool.name := theTool] &&
         nameToEnum == old(nameToEnum)[theTool.name := currentEnum] &&
         enumToName == old(enumToName)[currentEnum := theTool.name])
      ensures theTool.isCanvasTool && theTool.name in old(toolDict) ==>
        (r == Ok(()) && toolDict == (if overwrite then old(toolDict)[theTool.name := theTool] else old(toolDict)) &&
         nameToEnum == old(nameToEnum) && enumToName == old(enumToName) && currentEnum == old(currentEnum))
    {
      if !theTool.isCanvasTool {
        return Raise(TypeError);
      }
      var theName := theTool.name;
      var thisEnumValue := currentEnum + 1;
      if theName !in toolDict {
        toolDict := toolDict[theName := theTool];
        nameToEnum := nameToEnum[theName := thisEnumValue];
        enumToName := enumToName[thisEnumValue := theName];
        currentEnum := thisEnumValue;
      } else if overwrite {
        toolDict := toolDict[theName := theTool];
      }
      return Ok(());
    }

    /** `_register_defaults()`: registers the nine default tools once. */
    method RegisterDefaults()
      requires Valid()
      modifies this
      ensures Valid() && defaultsRegistered
      ensures old(defaultsRegistered) ==>
        toolDict == old(toolDict) && nameToEnum == old(nameToEnum) && enumToName == old(enumToName) && currentEnum == old(currentEnum)
      ensures forall i :: 0 <= i < 9 ==> DefaultTools()[i].name in toolDict
      ensures forall n :: n in old(toolDict) ==> n in nameToEnum && nameToEnum[n] == old(nameToEnum)[n]
      ensures !old(defaultsRegistered) && old(toolDict) == map[] && old(currentEnum) == -1 ==>
        (currentEnum == 8 && (forall i :: 0 <= i < 9 ==> nameToEnum[DefaultTools()[i].name] == i) &&
         (forall n :: n in nameToEnum ==> nameToEnum[n] < 9 && DefaultTools()[nameToEnum[n]].name == n))
    {
      if defaultsRegistered {
        return;
      }
      var tools := DefaultTools();
      ghost var wasEmpty := toolDict == map[] && currentEnum == -1;
      var i := 0;
      while i < |tools|
        invariant 0 <= i <= |tools|
        invariant Valid()
        invariant forall j :: 0 <= j < i ==> tools[j].name in toolDict
        invariant forall n :: n in old(toolDict) ==> n in nameToEnum && nameToEnum[n] == old(nameToEnum)[n]
        invariant wasEmpty ==>
          (currentEnum == i - 1 && (forall j :: 0 <= j < i ==> nameToEnum[tools[j].name] == j) &&
           (forall n :: n in nameToEnum ==> nameToEnum[n] < i && tools[nameToEnum[n]].name == n))
      {
        var _ := RegisterTool(tools[i], false);
        i := i + 1;
      }
      defaultsRegistered := true;
    }

    /** `get_tool_name(the_enum)` */
    function GetToolName(theEnum: int): (r: Result<string>)
      reads this
      ensures theEnum in enumToName ==> r == Ok(enumToName[theEnum])
      ensures theEnum !in enumToName ==> r == Raise(KeyError)
    {
      if theEnum in enumToName then Ok(enumToName[theEnum]) else Raise(KeyError)
    }

    /** `get_tool_enum(the_name)` */
    function GetToolEnum(theName: string): (r: Result<int>)
      reads this
      ensures theName in nameToEnum ==> r == Ok(nameToEnum[theName])
      ensures theName !in nameToEnum ==> r == Raise(KeyError)
    {
      if theName in nameToEnum then Ok(nameToEnum[theName]) else Raise(KeyError)
    }

    /** `get_tool_type(the_type)` */
    function GetToolType(theType: ToolRef): (r: Result<ToolClass>)
      reads this
      ensures theType.ByName? && theType.name in toolDict ==> r == Ok(toolDict[theType.name])
      ensures theType.ByName? && theType.name !in toolDict ==> r == Raise(KeyError)
      ensures theType.ByClass? ==> r == if theType.tool.isCanvasTool then Ok(theType.tool) else Raise(ValueError)
      ensures theType.NotAClass? ==> r == Raise(TypeError)
    {
      match theType
      case ByName(n) => if n in toolDict then Ok(toolDict[n]) else Raise(KeyError)
      case ByClass(t) => if t.isCanvasTool then Ok(t) else Raise(ValueError)
      case NotAClass => Raise(TypeError)
    }
  }

  /** `get_tool_name` and `get_tool_enum` are mutual inverses on a valid registry. */
  lemma {:induction false} NameEnumInverse(reg: ToolRegistry, name: string, e: int)
    requires reg.Valid()
    ensures reg.GetToolEnum(name).Ok? ==> reg.GetToolName(reg.GetToolEnum(name).value) == Ok(name)
    ensures reg.GetToolName(e).Ok? ==> reg.GetToolEnum(reg.GetToolName(e).value) == Ok(e)
    ensures reg.GetToolName(e).Ok? <==> 0 <= e <= reg.currentEnum
  {
  }
}

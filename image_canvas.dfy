/** The shape registry of `ImageCanvas` in tk_builder/widgets/image_canvas.py:
    the ordered `shape_ids` list, the `vector_objects` dictionary, the
    `current_shape_id` field, and the Tk canvas underneath, modelled as a map
    from item id to drawing coordinates plus the next id Tk hands out. Also
    the closest-vertex search and the non-tool id listing. */
module ImageCanvas {
  import opened Wrappers
  import CanvasImage

  /** The canvas's `SHAPE_TYPES` strings. */
  datatype ShapeType = PointShape | LineShape | RectShape | EllipseShape | ArrowShape | PolygonShape | TextShape

  /** A `VectorObject`, as far as the registry uses it: its type, its
      full-image coordinates (None until set) and its point size. */
  datatype VectorObject = VectorObject(shapeType: ShapeType, imageCoords: Option<seq<real>>, pointSize: Option<real>)

  // ---------------------------------------------------------------------
  // List helpers

  /** `list.remove(x)` on a list holding `x`: the first occurrence goes. */
  function RemoveFirst(s: seq<int>, x: int): (r: seq<int>)
  {
    if s == [] then []
    else if s[0] == x then s[1..]
    else [s[0]] + RemoveFirst(s[1..], x)
  }

  /** Removing a present id shortens the list by one and keeps every other id. */
  lemma {:induction false} RemoveFirstContents(s: seq<int>, x: int)
    requires x in s
    ensures |RemoveFirst(s, x)| == |s| - 1
    ensures forall y :: y != x ==> (y in RemoveFirst(s, x) <==> y in s)
  {
    if s[0] != x {
      RemoveFirstContents(s[1..], x);
      assert RemoveFirst(s, x) == [s[0]] + RemoveFirst(s[1..], x);
      forall y | y != x
        ensures y in RemoveFirst(s, x) <==> y in s
      {
        assert y in s <==> y == s[0] || y in s[1..];
      }
    } else {
      forall y | y != x
        ensures y in RemoveFirst(s, x) <==> y in s
      {
        assert y in s <==> y == s[0] || y in s[1..];
      }
    }
  }

  /** In a duplicate-free list, removing an id removes it completely. */
  lemma {:induction false} RemoveFirstNoDuplicates(s: seq<int>, x: int)
    requires NoDuplicates(s)
    ensures x !in RemoveFirst(s, x)
    ensures NoDuplicates(RemoveFirst(s, x))
    ensures forall y :: y in RemoveFirst(s, x) <==> y in s && y != x
  {
    if s != [] {
      assert NoDuplicates(s[1..]) by {
        forall i, j | 0 <= i < j < |s[1..]|
          ensures s[1..][i] != s[1..][j]
        {
          assert s[1..][i] == s[i + 1] && s[1..][j] == s[j + 1];
        }
      }
      assert forall k :: 0 < k < |s| ==> s[k] != s[0];
      assert s[0] !in s[1..] by {
        forall k | 0 <= k < |s[1..]|
          ensures s[1..][k] != s[0]
        {
          assert s[1..][k] == s[k + 1];
        }
      }
      if s[0] != x {
        RemoveFirstNoDuplicates(s[1..], x);
        var rest := RemoveFirst(s[1..], x);
        assert RemoveFirst(s, x) == [s[0]] + rest;
        assert s[0] !in rest;
        forall i, j | 0 <= i < j < |[s[0]] + rest|
          ensures ([s[0]] + rest)[i] != ([s[0]] + rest)[j]
        {
          if i == 0 {
            assert ([s[0]] + rest)[j] == rest[j - 1];
          } else {
            assert ([s[0]] + rest)[i] == rest[i - 1] && ([s[0]] + rest)[j] == rest[j - 1];
          }
        }
        forall y
          ensures y in RemoveFirst(s, x) <==> y in s && y != x
        {
          assert y in s <==> y == s[0] || y in s[1..];
        }
      } else {
        forall y
          ensures y in RemoveFirst(s, x) <==> y in s && y != x
        {
          assert y in s <==> y == s[0] || y in s[1..];
        }
      }
    }
  }

  /** A strictly increasing list, which `numpy.setdiff1d` returns. */
  predicate Increasing(s: seq<int>)
  {
    forall i, j :: 0 <= i < j < |s| ==> s[i] < s[j]
  }

  /** `x` inserted into a strictly increasing list, unless already there. */
  function InsertSorted(s: seq<int>, x: int): (r: seq<int>)
    requires Increasing(s)
    ensures Increasing(r)
    ensures forall y :: y in r <==> y in s || y == x
    ensures |r| > 0 && (r[0] == x || (|s| > 0 && r[0] == s[0]))
  {
    if s == [] then [x]
    else if x < s[0] then [x] + s
    else if x == s[0] then s
    else
      var rest := InsertSorted(s[1..], x);
      assert forall y :: y in s <==> y == s[0] || y in s[1..];
      [s[0]] + rest
  }

  /** `numpy.setdiff1d(ids, excluded)`: the distinct ids not excluded, ascending. */
  function SetDiff1d(ids: seq<int>, excluded: set<int>): (r: seq<int>)
    ensures Increasing(r)
    ensures forall y :: y in r <==> y in ids && y !in excluded
  {
    if ids == [] then []
    else
      var rest := SetDiff1d(ids[..|ids| - 1], excluded);
      var x := ids[|ids| - 1];
      assert forall y :: y in ids <==> y in ids[..|ids| - 1] || y == x;
      if x in excluded then rest else InsertSorted(rest, x)
  }

  /** The sorted output holds each id once. */
  lemma {:induction false} IncreasingHasNoDuplicates(s: seq<int>)
    requires Increasing(s)
    ensures NoDuplicates(s)
  {
  }

  // ---------------------------------------------------------------------
  // `find_closest_shape_coord`

  /** Squared distance between a vertex and the query point. */
  function SqDist(cx: real, cy: real, x: real, y: real): real
  {
    (cx - x) * (cx - x) + (cy - y) * (cy - y)
  }

  /** Squared distance from vertex `k` of `coords` to the query point. */
  function VertexDist(coords: seq<real>, k: nat, x: real, y: real): real
    requires 2 * k + 1 < |coords|
  {
    SqDist(coords[2 * k], coords[2 * k + 1], x, y)
  }

  /** Vertex `k` is at minimal distance, and every earlier vertex is strictly
      farther: what `numpy.where(d == numpy.min(d))[0][0]` selects. */
  predicate FirstClosest(coords: seq<real>, x: real, y: real, k: nat)
  {
    2 * k + 1 < |coords| &&
    (forall j :: 0 <= j < |coords| / 2 ==> VertexDist(coords, k, x, y) <= VertexDist(coords, j, x, y)) &&
    (forall j :: 0 <= j < k ==> VertexDist(coords, k, x, y) < VertexDist(coords, j, x, y))
  }

  /** At most one vertex is the first closest. */
  lemma {:induction false} FirstClosestUnique(coords: seq<real>, x: real, y: real, k1: nat, k2: nat)
    requires FirstClosest(coords, x, y, k1) && FirstClosest(coords, x, y, k2)
    ensures k1 == k2
  {
    assert k1 < |coords| / 2 && k2 < |coords| / 2;
    assert VertexDist(coords, k1, x, y) == VertexDist(coords, k2, x, y);
  }

  /** The vertex-distance part of `find_closest_shape_coord`: an odd-length
      list fails at `coords[i + 1]`, an empty one at `numpy.min`. */
  method ClosestCoordIndex(coords: seq<real>, x: real, y: real) returns (r: Result<nat>)
    ensures |coords| % 2 == 1 ==> r == Raise(IndexError)
    ensures |coords| == 0 ==> r == Raise(ValueError)
    ensures |coords| > 0 && |coords| % 2 == 0 ==> r.Ok? && FirstClosest(coords, x, y, r.value)
  {
    var squaredDistances: seq<real> := [];
    var i := 0;
    while i < |coords|
      invariant 0 <= i <= |coords| && i % 2 == 0
      invariant |squaredDistances| == i / 2
      invariant forall j :: 0 <= j < i / 2 ==> 2 * j + 1 < |coords| && squaredDistances[j] == VertexDist(coords, j, x, y)
    {
      if i + 1 >= |coords| {
        return Raise(IndexError);
      }
      squaredDistances := squaredDistances + [SqDist(coords[i], coords[i + 1], x, y)];
      i := i + 2;
    }
    if |squaredDistances| == 0 {
      return Raise(ValueError);
    }
    var best := 0;
    var j := 1;
    while j < |squaredDistances|
      invariant 0 <= best < j <= |squaredDistances|
      invariant forall m :: 0 <= m < j ==> squaredDistances[best] <= squaredDistances[m]
      invariant forall m :: 0 <= m < best ==> squaredDistances[best] < squaredDistances[m]
    {
      if squaredDistances[j] < squaredDistances[best] {
        best := j;
      }
      j := j + 1;
    }
    return Ok(best);
  }

  /** The corners `ul, ur, lr, ll` of the rectangle spanned by `(x1, y1, x2, y2)`. */
  function Corners(c: seq<real>): (r: seq<(real, real)>)
    requires |c| == 4
    ensures |r| == 4
  {
    var xul := CanvasImage.MinReal(c[0], c[2]);
    var xlr := CanvasImage.MaxReal(c[0], c[2]);
    var yul := CanvasImage.MinReal(c[1], c[3]);
    var ylr := CanvasImage.MaxReal(c[1], c[3]);
    [(xul, yul), (xlr, yul), (xlr, ylr), (xul, ylr)]
  }

  /** The first corner at minimal distance from the query point. */
  function ClosestCorner(c: seq<real>, x: real, y: real): (k: nat)
    requires |c| == 4
    ensures k < 4
    ensures forall j :: 0 <= j < 4 ==> SqDist(Corners(c)[k].0, Corners(c)[k].1, x, y) <= SqDist(Corners(c)[j].0, Corners(c)[j].1, x, y)
    ensures forall j :: 0 <= j < k ==> SqDist(Corners(c)[k].0, Corners(c)[k].1, x, y) < SqDist(Corners(c)[j].0, Corners(c)[j].1, x, y)
  {
    var cs := Corners(c);
    var d := seq(4, j requires 0 <= j < 4 => SqDist(cs[j].0, cs[j].1, x, y));
    var b01 := if d[1] < d[0] then 1 else 0;
    var b012 := if d[2] < d[b01] then 2 else b01;
    if d[3] < d[b012] then 3 else b012
  }

  /** The `RECT` branch of `find_closest_shape_coord`: when the closest corner is
      not one of the two stored vertices, the rectangle is rewritten so that it
      is. `None` means no rewrite; a list that is not four numbers fails to unpack. */
  function RectRewrite(c: seq<real>, x: real, y: real): (r: Result<Option<seq<real>>>)
    ensures |c| != 4 <==> r == Raise(ValueError)
    ensures r.Ok? && r.value.Some? ==>
      var n := r.value.value;
      var closest := Corners(c)[ClosestCorner(c, x, y)];
      |n| == 4 && Corners(n) == Corners(c) && ((n[0], n[1]) == closest || (n[2], n[3]) == closest)
    ensures r.Ok? && r.value.None? ==>
      var closest := Corners(c)[ClosestCorner(c, x, y)];
      closest == (c[0], c[1]) || closest == (c[2], c[3])
  {
    if |c| != 4 then Raise(ValueError)
    else
      var cs := Corners(c);
      var closest := cs[ClosestCorner(c, x, y)];
      var ul, ur, lr, ll := cs[0], cs[1], cs[2], cs[3];
      if closest == (c[0], c[1]) || closest == (c[2], c[3]) then Ok(None)
      else
        // the four `if closest_coord == ...` tests run in turn; the last match wins
        var n0 := [0.0, 0.0, 0.0, 0.0];
        var n1 := if closest == ul then [ul.0, ul.1, lr.0, lr.1] else n0;
        var n2 := if closest == ur then [ur.0, ur.1, ll.0, ll.1] else n1;
        var n3 := if closest == lr then [ul.0, ul.1, lr.0, lr.1] else n2;
        var n4 := if closest == ll then [ll.0, ll.1, ur.0, ur.1] else n3;
        Ok(Some(n4))
  }

  /** `find_closest_shape_coord(shape_id, x, y)` for the current shape, given
      whether its vector object is a `RECT` and its canvas coordinates. Returns
      the rewritten rectangle, if any, with the vertex index; the index is
      computed on the rewritten coordinates (which the canvas -> image -> canvas
      round trip reproduces exactly). */
  method FindClosestShapeCoord(isRect: bool, coords: seq<real>, x: real, y: real)
    returns (r: Result<nat>, rewritten: Option<seq<real>>)
    ensures isRect && |coords| != 4 ==> r == Raise(ValueError)
    ensures !isRect ==> rewritten == None
    ensures isRect && |coords| == 4 ==> rewritten == RectRewrite(coords, x, y).value
    ensures r.Ok? ==> FirstClosest(if rewritten.Some? then rewritten.value else coords, x, y, r.value)
    ensures (!isRect || |coords| == 4) && |coords| > 0 && |coords| % 2 == 0 ==> r.Ok?
  {
    rewritten := None;
    var current := coords;
    if isRect {
      var rr := RectRewrite(coords, x, y);
      if rr.Raise? {
        return Raise(rr.exc), None;
      }
      rewritten := rr.value;
      if rewritten.Some? {
        current := rewritten.value;
      }
    }
    r := ClosestCoordIndex(current, x, y);
  }

  // ---------------------------------------------------------------------
  // The registry

  /** `create_new_text` as written appends the new id twice. */
  function TextShapeIdsAsWritten(shapeIds: seq<int>, id: int): seq<int>
  {
    shapeIds + [id] + [id]
  }

  /** After a text created as written is deleted, its id is still listed
      although its vector object is gone. */
  lemma {:induction false} DeletedTextLeavesStaleId(shapeIds: seq<int>, id: int)
    requires id !in shapeIds
    ensures id in RemoveFirst(TextShapeIdsAsWritten(shapeIds, id), id)
    ensures RemoveFirst(TextShapeIdsAsWritten(shapeIds, id), id) == shapeIds + [id]
  {
    assert TextShapeIdsAsWritten(shapeIds, id) == shapeIds + [id, id];
    RemoveFirstAfter(shapeIds, [id, id], id);
    assert RemoveFirst([id, id], id) == [id];
  }

  /** Removing an id that first occurs after `s` leaves `s` in place. */
  lemma {:induction false} RemoveFirstAfter(s: seq<int>, t: seq<int>, x: int)
    requires x !in s
    ensures RemoveFirst(s + t, x) == s + RemoveFirst(t, x)
  {
    if s != [] {
      assert (s + t)[0] == s[0] && (s + t)[1..] == s[1..] + t;
      RemoveFirstAfter(s[1..], t, x);
      assert s == [s[0]] + s[1..];
    } else {
      assert s + t == t;
    }
  }

  /** With the id appended once, deleting it restores the previous list. */
  lemma {:induction false} DeletedTextLeavesNoId(shapeIds: seq<int>, id: int)
    requires id !in shapeIds
    ensures RemoveFirst(shapeIds + [id], id) == shapeIds
  {
    RemoveFirstAfter(shapeIds, [id], id);
    assert RemoveFirst([id], id) == [];
  }

  class ImageCanvas {
    var shapeIds: seq<int>
    /** Keyed by `str(shape_id)` in the source; `str` is injective on ints. */
    var vectorObjects: map<int, VectorObject>
    var currentShapeId: Option<int>
    /** The Tk canvas items and their drawing coordinates. */
    var items: map<int, seq<real>>
    var nextItemId: int
    /** The `canvas_image_object`'s coordinate map, once an image is set. */
    var view: Option<CanvasImage.View>
    var pointSize: real
    var zoomRectId: int
    var selectRectId: int

    /** Every listed shape is registered once and drawn, and every id came from Tk. */
    ghost predicate Valid()
      reads this
    {
      nextItemId >= 1 &&
      NoDuplicates(shapeIds) &&
      (forall id :: id in vectorObjects <==> id in shapeIds) &&
      (forall id :: id in vectorObjects ==> id in items) &&
      (forall id :: id in items ==> 1 <= id < nextItemId) &&
      (view.Some? ==> CanvasImage.Factor(view.value).Ok?)
    }

    /** The full-image coordinates `set_shape_pixel_coords_from_canvas_coords`
        stores, or None when there is no image object yet. */
    function ImageCoordsOf(coords: seq<real>): Option<seq<real>>
      reads this
      requires view.Some? ==> CanvasImage.Factor(view.value).Ok?
    {
      if view.None? then None
      else Some(CanvasImage.ToFullImage(coords, CanvasImage.Factor(view.value).value, view.value.ulY, view.value.ulX))
    }

    /** The state change every `create_new_*` makes: a fresh Tk item, its
        vector object, the id appended to `shape_ids` and made current. */
    twostate predicate AddedShape(id: int, t: ShapeType, drawn: seq<real>, coords: seq<real>, ps: Option<real>)
      reads this
      requires view.Some? ==> CanvasImage.Factor(view.value).Ok?
    {
      id == old(nextItemId) && nextItemId == id + 1 &&
      items == old(items)[id := drawn] &&
      shapeIds == old(shapeIds) + [id] &&
      vectorObjects == old(vectorObjects)[id := VectorObject(t, ImageCoordsOf(coords), ps)] &&
      currentShapeId == Some(id) &&
      view == old(view) && pointSize == old(pointSize) &&
      zoomRectId == old(zoomRectId) && selectRectId == old(selectRectId)
    }

    /** `ImageCanvas(primary)`: the zoom and selection rectangles are the first two shapes. */
    constructor ()
      ensures Valid()
      ensures zoomRectId == 1 && selectRectId == 2 && shapeIds == [1, 2] && currentShapeId == None
      ensures vectorObjects == map[1 := VectorObject(RectShape, None, None), 2 := VectorObject(RectShape, None, None)]
      ensures view == None && pointSize == 3.0
    {
      shapeIds := [];
      vectorObjects := map[];
      currentShapeId := None;
      items := map[];
      nextItemId := 1;
      view := None;
      pointSize := 3.0;
      zoomRectId := 0;
      selectRectId := 0;
      new;
      var zoomId := CreateNewRect([0.0, 0.0, 1.0, 1.0]);
      var selectId := CreateNewRect([0.0, 0.0, 1.0, 1.0]);
      zoomRectId := zoomId;
      selectRectId := selectId;
      currentShapeId := None;
    }

    /** Tk creates the item; the registry records it. */
    method AddShape(t: ShapeType, drawn: seq<real>, coords: seq<real>, ps: Option<real>) returns (id: int)
      requires Valid()
      modifies this
      ensures Valid()
      ensures AddedShape(id, t, drawn, coords, ps)
    {
      id := nextItemId;
      assert id !in shapeIds;
      nextItemId := nextItemId + 1;
      items := items[id := drawn];
      vectorObjects := vectorObjects[id := VectorObject(t, None, ps)];
      shapeIds := shapeIds + [id];
      vectorObjects := vectorObjects[id := VectorObject(t, ImageCoordsOf(coords), ps)];
      currentShapeId := Some(id);
    }

    /** `create_new_rect(canvas_coords)` */
    method CreateNewRect(canvasCoords: seq<real>) returns (id: int)
      requires Valid()
      modifies this
      ensures Valid() && AddedShape(id, RectShape, canvasCoords, canvasCoords, None)
    {
      id := AddShape(RectShape, canvasCoords, canvasCoords, None);
    }

    /** `create_new_ellipse(canvas_coords)`: drawn as an oval, registered as `RECT`. */
    method CreateNewEllipse(canvasCoords: seq<real>) returns (id: int)
      requires Valid()
      modifies this
      ensures Valid() && AddedShape(id, RectShape, canvasCoords, canvasCoords, None)
    {
      id := AddShape(RectShape, canvasCoords, canvasCoords, None);
    }

    /** `create_new_polygon(coords)` */
    method CreateNewPolygon(coords: seq<real>) returns (id: int)
      requires Valid()
      modifies this
      ensures Valid() && AddedShape(id, PolygonShape, coords, coords, None)
    {
      id := AddShape(PolygonShape, coords, coords, None);
    }

    /** `create_new_arrow(coords)` */
    method CreateNewArrow(coords: seq<real>) returns (id: int)
      requires Valid()
      modifies this
      ensures Valid() && AddedShape(id, ArrowShape, coords, coords, None)
    {
      id := AddShape(ArrowShape, coords, coords, None);
    }

    /** `create_new_line(coords)` */
    method CreateNewLine(coords: seq<real>) returns (id: int)
      requires Valid()
      modifies this
      ensures Valid() && AddedShape(id, LineShape, coords, coords, None)
    {
      id := AddShape(LineShape, coords, coords, None);
    }

    /** `create_new_point(coords)`: drawn as the square of side `2 * point_size`
        around the point, registered with that point size. */
    method CreateNewPoint(coords: seq<real>) returns (r: Result<int>)
      requires Valid()
      modifies this
      ensures Valid()
      ensures |coords| < 2 ==> r == Raise(IndexError) && unchanged(this)
      ensures |coords| >= 2 ==> r.Ok? && AddedShape(r.value, PointShape,
        [coords[0] - old(pointSize), coords[1] - old(pointSize), coords[0] + old(pointSize), coords[1] + old(pointSize)],
        coords, Some(old(pointSize)))
    {
      if |coords| < 2 {
        return Raise(IndexError);
      }
      var drawn := [coords[0] - pointSize, coords[1] - pointSize, coords[0] + pointSize, coords[1] + pointSize];
      var id := AddShape(PointShape, drawn, coords, Some(pointSize));
      return Ok(id);
    }

    /** `create_new_text(coords)`, with the id appended once (see
        `TextShapeIdsAsWritten` for the code as written). */
    method CreateNewText(coords: seq<real>) returns (id: int)
      requires Valid()
      modifies this
      ensures Valid() && AddedShape(id, TextShape, coords, coords, None)
    {
      id := AddShape(TextShape, coords, coords, None);
    }

    /** `get_vector_object(vector_id)` */
    function GetVectorObject(vectorId: int): (r: Result<VectorObject>)
      reads this
      ensures vectorId in vectorObjects <==> r.Ok?
      ensures r.Ok? ==> r.value == vectorObjects[vectorId]
      ensures r.Raise? ==> r.exc == KeyError
    {
      if vectorId in vectorObjects then Ok(vectorObjects[vectorId]) else Raise(KeyError)
    }

    /** `delete_shape(shape_id)` */
    method DeleteShape(shapeId: int) returns (r: Result<()>)
      requires Valid()
      modifies this
      ensures Valid()
      ensures shapeId !in old(shapeIds) ==> r == Raise(ValueError) && unchanged(this)
      ensures shapeId in old(shapeIds) ==>
        (r == Ok(()) && shapeId !in shapeIds && shapeId !in vectorObjects &&
         shapeIds == RemoveFirst(old(shapeIds), shapeId) &&
         vectorObjects == old(vectorObjects) - {shapeId} &&
         items == old(items) - {shapeId} &&
         currentShapeId == (if old(currentShapeId) == Some(shapeId) then None else old(currentShapeId)) &&
         nextItemId == old(nextItemId) && view == old(view) && pointSize == old(pointSize) &&
         zoomRectId == old(zoomRectId) && selectRectId == old(selectRectId))
    {
      if shapeId !in shapeIds {
        return Raise(ValueError);
      }
      RemoveFirstNoDuplicates(shapeIds, shapeId);
      shapeIds := RemoveFirst(shapeIds, shapeId);
      vectorObjects := vectorObjects - {shapeId};
      items := items - {shapeId};
      if Some(shapeId) == currentShapeId {
        currentShapeId := None;
      }
      return Ok(());
    }

    /** `get_tool_shape_ids()` */
    function GetToolShapeIds(): (r: seq<int>)
      reads this
      ensures r == [zoomRectId, selectRectId]
    {
      [zoomRectId, selectRectId]
    }

    /** `get_non_tool_shape_ids()`: the shape ids other than those
        `get_tool_shape_ids()` lists, each once, in ascending order. */
    function GetNonToolShapeIds(): (r: seq<int>)
      reads this
      ensures Increasing(r) && NoDuplicates(r)
      ensures forall id :: id in r <==> id in shapeIds && id !in GetToolShapeIds()
      ensures forall id :: id in r <==> id in shapeIds && id != zoomRectId && id != selectRectId
    {
      var r := SetDiff1d(shapeIds, set id | id in GetToolShapeIds());
      IncreasingHasNoDuplicates(r);
      r
    }
  }

  /** Every registered shape is listed by exactly one of `get_tool_shape_ids`
      and `get_non_tool_shape_ids`, and the second lists registered shapes only. */
  lemma {:induction false} ToolAndNonToolSplitShapes(c: ImageCanvas)
    ensures forall id :: id in c.shapeIds ==> (id in c.GetToolShapeIds() <==> id !in c.GetNonToolShapeIds())
    ensures forall id :: id in c.GetNonToolShapeIds() ==> id in c.shapeIds && id !in c.GetToolShapeIds()
  {
  }
}

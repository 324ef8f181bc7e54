/** The geometry of `CanvasImage` in tk_builder/widgets/image_canvas.py: the
    decimation factor, the display scale, and the affine maps between canvas
    coordinates `[x0, y0, x1, y1, ...]` and full-image coordinates
    `[y0, x0, y1, x1, ...]`. Arithmetic is exact. */
module CanvasImage {
  import opened Wrappers

  function MaxReal(a: real, b: real): real { if a >= b then a else b }
  function MinReal(a: real, b: real): real { if a <= b then a else b }

  /** A full-image rectangle `(y_start, x_start, y_end, x_end)`. */
  datatype Rect = Rect(y1: real, x1: real, y2: real, x2: real)

  // ---------------------------------------------------------------------
  // Decimation

  /** `get_decimation_factor_from_full_image_rect`: the larger of the two
      image-to-canvas size ratios, truncated, and never below 1. */
  function DecimationFactor(rect: Rect, canvasNy: int, canvasNx: int): (r: Result<int>)
    ensures r.Raise? <==> canvasNy == 0 || canvasNx == 0
    ensures r.Raise? ==> r.exc == ZeroDivisionError
    ensures r.Ok? ==> r.value >= 1
    ensures r.Ok? ==>
      var m := MaxReal((rect.y2 - rect.y1) / canvasNy as real, (rect.x2 - rect.x1) / canvasNx as real);
      (m >= 1.0 ==> r.value as real <= m < r.value as real + 1.0) && (m < 1.0 ==> r.value == 1)
  {
    if canvasNy == 0 || canvasNx == 0 then Raise(ZeroDivisionError)
    else
      var decimationY := (rect.y2 - rect.y1) / canvasNy as real;
      var decimationX := (rect.x2 - rect.x1) / canvasNx as real;
      var decimationFactor := Trunc(MaxReal(decimationY, decimationX));
      Ok(if decimationFactor < 1 then 1 else decimationFactor)
  }

  /** A rectangle no larger than the canvas is shown undecimated. */
  lemma {:induction false} SmallRectUndecimated(rect: Rect, canvasNy: int, canvasNx: int)
    requires canvasNy > 0 && canvasNx > 0
    requires rect.y2 - rect.y1 < 2.0 * canvasNy as real && rect.x2 - rect.x1 < 2.0 * canvasNx as real
    ensures DecimationFactor(rect, canvasNy, canvasNx) == Ok(1)
  {
    var dy := (rect.y2 - rect.y1) / canvasNy as real;
    var dx := (rect.x2 - rect.x1) / canvasNx as real;
    assert dy < 2.0 by {
      assert dy * canvasNy as real == rect.y2 - rect.y1;
    }
    assert dx < 2.0 by {
      assert dx * canvasNx as real == rect.x2 - rect.x1;
    }
  }

  // ---------------------------------------------------------------------
  // Display scale

  /** `compute_display_scale_factor`: the smaller of the canvas-to-image ratios. */
  function DisplayScaleFactor(canvasNx: int, canvasNy: int, imageNx: int, imageNy: int): (r: Result<real>)
    ensures r.Raise? <==> imageNx == 0 || imageNy == 0
    ensures r.Ok? ==> r.value <= canvasNx as real / imageNx as real && r.value <= canvasNy as real / imageNy as real
    ensures r.Ok? ==> r.value == canvasNx as real / imageNx as real || r.value == canvasNy as real / imageNy as real
  {
    if imageNx == 0 || imageNy == 0 then Raise(ZeroDivisionError)
    else Ok(MinReal(canvasNx as real / imageNx as real, canvasNy as real / imageNy as real))
  }

  /** The `(new_ny, new_nx)` size `get_scaled_display_data` resizes to. */
  function ScaledDisplaySize(canvasNx: int, canvasNy: int, imageNx: int, imageNy: int): Result<(int, int)>
  {
    match DisplayScaleFactor(canvasNx, canvasNy, imageNx, imageNy)
    case Raise(e) => Raise(e)
    case Ok(scaleFactor) =>
      var newNx := Trunc(imageNx as real * scaleFactor);
      var newNy := Trunc(imageNy as real * scaleFactor);
      Ok((if newNy > canvasNy then canvasNy else newNy, if newNx > canvasNx then canvasNx else newNx))
  }

  /** The scaled display image fits the canvas, and fills it along one axis. */
  lemma {:induction false} ScaledDisplayFitsCanvas(canvasNx: int, canvasNy: int, imageNx: int, imageNy: int)
    requires canvasNx > 0 && canvasNy > 0 && imageNx > 0 && imageNy > 0
    ensures ScaledDisplaySize(canvasNx, canvasNy, imageNx, imageNy).Ok?
    ensures var (ny, nx) := ScaledDisplaySize(canvasNx, canvasNy, imageNx, imageNy).value;
      0 <= ny <= canvasNy && 0 <= nx <= canvasNx && (ny == canvasNy || nx == canvasNx)
  {
    var sx := canvasNx as real / imageNx as real;
    var sy := canvasNy as real / imageNy as real;
    var s := MinReal(sx, sy);
    assert imageNx as real * sx == canvasNx as real;
    assert imageNy as real * sy == canvasNy as real;
    assert imageNx as real * s <= canvasNx as real;
    assert imageNy as real * s <= canvasNy as real;
    assert imageNx as real * s >= 0.0 && imageNy as real * s >= 0.0;
  }

  function ScaleBy(a: real, scaleFactor: real): real { a * scaleFactor }

  function ShrinkBy(a: real, scaleFactor: real): real
    requires scaleFactor != 0.0
  {
    a / scaleFactor
  }

  /** `decimated_image_coords_to_display_image_coords`: every pair scaled up. */
  function DecimatedToDisplay(points: seq<(real, real)>, scaleFactor: real): (r: seq<(real, real)>)
    ensures |r| == |points|
  {
    seq(|points|, i requires 0 <= i < |points| => (ScaleBy(points[i].0, scaleFactor), ScaleBy(points[i].1, scaleFactor)))
  }

  /** `display_image_coords_to_decimated_image_coords`: every pair scaled
      down. A zero scale (a canvas of zero width or height) divides by zero
      at the first pair, so only an empty list gets through. */
  function DisplayToDecimated(points: seq<(real, real)>, scaleFactor: real): (r: Result<seq<(real, real)>>)
    ensures r.Raise? <==> scaleFactor == 0.0 && |points| > 0
    ensures r.Raise? ==> r.exc == ZeroDivisionError
    ensures r.Ok? ==> |r.value| == |points|
  {
    if scaleFactor == 0.0 then (if |points| == 0 then Ok([]) else Raise(ZeroDivisionError))
    else Ok(seq(|points|, i requires 0 <= i < |points| => (ShrinkBy(points[i].0, scaleFactor), ShrinkBy(points[i].1, scaleFactor))))
  }

  /** `display_image_coords_to_canvas_coords`: the axis switch. */
  function DisplayToCanvas(points: seq<(real, real)>): (r: seq<(real, real)>)
    ensures |r| == |points|
  {
    seq(|points|, i requires 0 <= i < |points| => (points[i].1, points[i].0))
  }

  /** The axis switch undoes itself. */
  lemma {:induction false} DisplayToCanvasTwice(points: seq<(real, real)>)
    ensures DisplayToCanvas(DisplayToCanvas(points)) == points
  {
    var back := DisplayToCanvas(DisplayToCanvas(points));
    forall i | 0 <= i < |points|
      ensures back[i] == points[i]
    {
    }
  }

  /** Scaling to the display and back returns the decimated coordinates. */
  lemma {:induction false} DisplayRoundTrip(points: seq<(real, real)>, scaleFactor: real)
    requires scaleFactor != 0.0
    ensures DisplayToDecimated(DecimatedToDisplay(points, scaleFactor), scaleFactor) == Ok(points)
  {
    var shown := DecimatedToDisplay(points, scaleFactor);
    var back := DisplayToDecimated(shown, scaleFactor).value;
    forall i | 0 <= i < |points|
      ensures back[i] == points[i]
    {
      assert ShrinkBy(ScaleBy(points[i].0, scaleFactor), scaleFactor) == points[i].0;
      assert ShrinkBy(ScaleBy(points[i].1, scaleFactor), scaleFactor) == points[i].1;
    }
    assert back == points;
  }

  // ---------------------------------------------------------------------
  // Canvas <-> full image

  /** What a `CanvasImage` needs for the coordinate maps: its decimation
      factor, whether it scales to fit the canvas, the display rescaling
      factor, and the full-image upper-left corner on view. */
  datatype View = View(decimation: int, scaleToFit: bool, rescaling: real, ulY: real, ulX: real)

  /** The factor both maps use: `decimation_factor`, divided by
      `display_rescaling_factor` when the image is scaled to fit. */
  function Factor(v: View): (r: Result<real>)
    ensures r.Raise? <==> v.scaleToFit && v.rescaling == 0.0
    ensures r.Ok? ==> r.value * (if v.scaleToFit then v.rescaling else 1.0) == v.decimation as real
  {
    if v.scaleToFit then
      if v.rescaling == 0.0 then Raise(ZeroDivisionError) else Ok(v.decimation as real / v.rescaling)
    else Ok(v.decimation as real)
  }

  /** One canvas coordinate in the full image: scaled, then offset. */
  function ToImageAxis(a: real, f: real, ul: real): real
  {
    a * f + ul
  }

  /** One full-image coordinate on the canvas: offset removed, then scaled down. */
  function ToCanvasAxis(a: real, ul: real, f: real): real
    requires f != 0.0
  {
    (a - ul) / f
  }

  /** The full-image `[y, x, ...]` list for canvas coordinates `[x, y, ...]`;
      a trailing unpaired coordinate is dropped. */
  function ToFullImage(c: seq<real>, f: real, ulY: real, ulX: real): (r: seq<real>)
    decreases |c|
  {
    if |c| < 2 then []
    else [ToImageAxis(c[1], f, ulY), ToImageAxis(c[0], f, ulX)] + ToFullImage(c[2..], f, ulY, ulX)
  }

  /** The canvas `[x, y, ...]` list for full-image coordinates `[y, x, ...]`. */
  function ToCanvas(yx: seq<real>, f: real, ulY: real, ulX: real): (r: seq<real>)
    requires f != 0.0
    decreases |yx|
  {
    if |yx| < 2 then []
    else [ToCanvasAxis(yx[1], ulX, f), ToCanvasAxis(yx[0], ulY, f)] + ToCanvas(yx[2..], f, ulY, ulX)
  }

  /** The output holds `2 * (len // 2)` entries, and pair `k` is pair `k` of the
      input with its axes swapped and scaled. */
  lemma {:induction false} ToFullImagePairs(c: seq<real>, f: real, ulY: real, ulX: real)
    ensures |ToFullImage(c, f, ulY, ulX)| == 2 * (|c| / 2)
    ensures forall k :: 0 <= k < |c| / 2 ==>
      ToFullImage(c, f, ulY, ulX)[2 * k] == ToImageAxis(c[2 * k + 1], f, ulY) &&
      ToFullImage(c, f, ulY, ulX)[2 * k + 1] == ToImageAxis(c[2 * k], f, ulX)
    decreases |c|
  {
    if |c| >= 2 {
      var rest := c[2..];
      ToFullImagePairs(rest, f, ulY, ulX);
      var r := ToFullImage(c, f, ulY, ulX);
      assert r == [ToImageAxis(c[1], f, ulY), ToImageAxis(c[0], f, ulX)] + ToFullImage(rest, f, ulY, ulX);
      forall k | 1 <= k < |c| / 2
        ensures r[2 * k] == ToImageAxis(c[2 * k + 1], f, ulY) && r[2 * k + 1] == ToImageAxis(c[2 * k], f, ulX)
      {
        assert r[2 * k] == ToFullImage(rest, f, ulY, ulX)[2 * (k - 1)];
        assert r[2 * k + 1] == ToFullImage(rest, f, ulY, ulX)[2 * (k - 1) + 1];
        assert rest[2 * (k - 1)] == c[2 * k] && rest[2 * (k - 1) + 1] == c[2 * k + 1];
      }
    }
  }

  /** Canvas -> full image -> canvas gives back the (even-length part of the) input. */
  lemma {:induction false} CanvasRoundTrip(c: seq<real>, f: real, ulY: real, ulX: real)
    requires f != 0.0
    ensures ToCanvas(ToFullImage(c, f, ulY, ulX), f, ulY, ulX) == c[..2 * (|c| / 2)]
    decreases |c|
  {
    if |c| >= 2 {
      CanvasRoundTrip(c[2..], f, ulY, ulX);
      var img := ToFullImage(c, f, ulY, ulX);
      assert img[2..] == ToFullImage(c[2..], f, ulY, ulX);
      assert ToCanvasAxis(img[1], ulX, f) == c[0] by {
        assert img[1] - ulX == c[0] * f;
      }
      assert ToCanvasAxis(img[0], ulY, f) == c[1] by {
        assert img[0] - ulY == c[1] * f;
      }
      assert c[..2 * (|c| / 2)] == [c[0], c[1]] + c[2..][..2 * (|c[2..]| / 2)];
    }
  }

  /** Full image -> canvas -> full image gives back the (even-length part of the) input. */
  lemma {:induction false} ImageRoundTrip(yx: seq<real>, f: real, ulY: real, ulX: real)
    requires f != 0.0
    ensures ToFullImage(ToCanvas(yx, f, ulY, ulX), f, ulY, ulX) == yx[..2 * (|yx| / 2)]
    decreases |yx|
  {
    if |yx| >= 2 {
      ImageRoundTrip(yx[2..], f, ulY, ulX);
      var cv := ToCanvas(yx, f, ulY, ulX);
      assert cv[2..] == ToCanvas(yx[2..], f, ulY, ulX);
      assert ToImageAxis(cv[1], f, ulY) == yx[0] by {
        assert cv[1] * f == yx[0] - ulY;
      }
      assert ToImageAxis(cv[0], f, ulX) == yx[1] by {
        assert cv[0] * f == yx[1] - ulX;
      }
      assert yx[..2 * (|yx| / 2)] == [yx[0], yx[1]] + yx[2..][..2 * (|yx[2..]| / 2)];
    }
  }

  /** `canvas_coords_to_full_image_yx(canvas_coords)` */
  method CanvasCoordsToFullImageYX(v: View, canvasCoords: seq<real>) returns (r: Result<seq<real>>)
    ensures Factor(v).Raise? ==> r == Raise(ZeroDivisionError)
    ensures Factor(v).Ok? ==> r == Ok(ToFullImage(canvasCoords, Factor(v).value, v.ulY, v.ulX))
  {
    var decimationFactor: real := v.decimation as real;
    if v.scaleToFit {
      if v.rescaling == 0.0 {
        return Raise(ZeroDivisionError);
      }
      decimationFactor := decimationFactor / v.rescaling;
    }
    var siz := |canvasCoords| / 2;
    var out: seq<real> := [];
    var i := 0;
    while i < siz
      invariant 0 <= i <= siz
      invariant out + ToFullImage(canvasCoords[2 * i..], decimationFactor, v.ulY, v.ulX)
             == ToFullImage(canvasCoords, decimationFactor, v.ulY, v.ulX)
    {
      var rest := canvasCoords[2 * i..];
      assert rest[2..] == canvasCoords[2 * (i + 1)..];
      out := out + [ToImageAxis(canvasCoords[2 * i + 1], decimationFactor, v.ulY), ToImageAxis(canvasCoords[2 * i], decimationFactor, v.ulX)];
      i := i + 1;
    }
    assert ToFullImage(canvasCoords[2 * siz..], decimationFactor, v.ulY, v.ulX) == [];
    assert out == ToFullImage(canvasCoords, decimationFactor, v.ulY, v.ulX);
    return Ok(out);
  }

  /** `full_image_yx_to_canvas_coords(full_image_yx)`. The division by the
      factor happens only for a list holding at least one pair. */
  method FullImageYXToCanvasCoords(v: View, fullImageYX: seq<real>) returns (r: Result<seq<real>>)
    ensures Factor(v).Raise? ==> r == Raise(ZeroDivisionError)
    ensures Factor(v).Ok? && Factor(v).value == 0.0 ==> r == if |fullImageYX| < 2 then Ok([]) else Raise(ZeroDivisionError)
    ensures Factor(v).Ok? && Factor(v).value != 0.0 ==> r == Ok(ToCanvas(fullImageYX, Factor(v).value, v.ulY, v.ulX))
  {
    var decimationFactor: real := v.decimation as real;
    if v.scaleToFit {
      if v.rescaling == 0.0 {
        return Raise(ZeroDivisionError);
      }
      decimationFactor := decimationFactor / v.rescaling;
    }
    var siz := |fullImageYX| / 2;
    if siz > 0 && decimationFactor == 0.0 {
      return Raise(ZeroDivisionError);
    }
    if siz == 0 {
      return Ok([]);
    }
    var out: seq<real> := [];
    var i := 0;
    while i < siz
      invariant 0 <= i <= siz
      invariant out + ToCanvas(fullImageYX[2 * i..], decimationFactor, v.ulY, v.ulX)
             == ToCanvas(fullImageYX, decimationFactor, v.ulY, v.ulX)
    {
      var rest := fullImageYX[2 * i..];
      assert rest[2..] == fullImageYX[2 * (i + 1)..];
      out := out + [ToCanvasAxis(fullImageYX[2 * i + 1], v.ulX, decimationFactor), ToCanvasAxis(fullImageYX[2 * i], v.ulY, decimationFactor)];
      i := i + 1;
    }
    assert ToCanvas(fullImageYX[2 * siz..], decimationFactor, v.ulY, v.ulX) == [];
    assert out == ToCanvas(fullImageYX, decimationFactor, v.ulY, v.ulX);
    return Ok(out);
  }

  /** `canvas_rect_to_full_image_rect(canvas_rect)` for a canvas rectangle
      `(x1, y1, x2, y2)`: both corners mapped, the first clamped at 0 and the
      second at the full image size. */
  function CanvasRectToFullImageRect(v: View, x1: real, y1: real, x2: real, y2: real, fullNy: real, fullNx: real)
    : (r: Result<Rect>)
    ensures r.Raise? <==> Factor(v).Raise?
    ensures r.Ok? ==> r.value.y1 >= 0.0 && r.value.x1 >= 0.0 && r.value.y2 <= fullNy && r.value.x2 <= fullNx
    ensures r.Ok? ==>
      var f := Factor(v).value;
      (ToImageAxis(y1, f, v.ulY) >= 0.0 ==> r.value.y1 == ToImageAxis(y1, f, v.ulY)) &&
      (ToImageAxis(x1, f, v.ulX) >= 0.0 ==> r.value.x1 == ToImageAxis(x1, f, v.ulX)) &&
      (ToImageAxis(y2, f, v.ulY) <= fullNy ==> r.value.y2 == ToImageAxis(y2, f, v.ulY)) &&
      (ToImageAxis(x2, f, v.ulX) <= fullNx ==> r.value.x2 == ToImageAxis(x2, f, v.ulX))
    ensures r.Ok? ==>
      var f := Factor(v).value;
      (ToImageAxis(y1, f, v.ulY) < 0.0 ==> r.value.y1 == 0.0) &&
      (ToImageAxis(x1, f, v.ulX) < 0.0 ==> r.value.x1 == 0.0) &&
      (ToImageAxis(y2, f, v.ulY) > fullNy ==> r.value.y2 == fullNy) &&
      (ToImageAxis(x2, f, v.ulX) > fullNx ==> r.value.x2 == fullNx)
  {
    match Factor(v)
    case Raise(e) => Raise(e)
    case Ok(f) =>
      var first := ToFullImage([x1, y1], f, v.ulY, v.ulX);
      var second := ToFullImage([x2, y2], f, v.ulY, v.ulX);
      assert [x1, y1][2..] == [] && [x2, y2][2..] == [];
      var imageY1 := if first[0] < 0.0 then 0.0 else first[0];
      var imageX1 := if first[1] < 0.0 then 0.0 else first[1];
      var imageX2 := if second[1] > fullNx then fullNx else second[1];
      var imageY2 := if second[0] > fullNy then fullNy else second[0];
      Ok(Rect(imageY1, imageX1, imageY2, imageX2))
  }
}

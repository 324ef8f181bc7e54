/** The image-source interface of tk_builder/image_reader.py: the abstract
    `CanvasImageReader`, whose accessors are left to subclasses, and
    `NumpyCanvasImageReader`, which serves a two- or three-dimensional array
    held in memory. */
module ImageReader {
  import opened Wrappers
  import PySlices

  /** What is handed to the numpy reader: something that is not an
      `ndarray`, or an array given by its shape and its pixels (rows of
      columns of channel values; a two-dimensional array has one channel). */
  datatype ArrayLike =
    | NotAnArray
    | NDArray(shape: seq<nat>, grid: seq<seq<seq<real>>>)

  /** The pixel grid agrees with the first two dimensions of the shape. */
  predicate GridMatchesShape(shape: seq<nat>, grid: seq<seq<seq<real>>>)
  {
    |shape| >= 2 && |grid| == shape[0] && forall i :: 0 <= i < |grid| ==> |grid[i]| == shape[1]
  }

  /** A reader: the abstract base (only its data size is known) or a numpy
      reader with its array. */
  datatype Reader =
    | AbstractReader(dataSize: (nat, nat))
    | NumpyReader(image: ArrayLike, dataSize: (nat, nat))

  /** `NumpyCanvasImageReader(...)`: a non-array is a `TypeError`; an array
      that is not two- or three-dimensional, or whose third dimension is not
      3 or 4, is a `ValueError`; otherwise the data size is the first two
      dimensions. */
  function NewNumpyReader(a: ArrayLike): (r: Result<Reader>)
    ensures a.NotAnArray? <==> r == Raise(TypeError)
    ensures r == Raise(ValueError) <==>
      a.NDArray? && (|a.shape| !in {2, 3} || (|a.shape| == 3 && a.shape[2] !in {3, 4}))
    ensures r.Ok? ==> (r.value.NumpyReader? && r.value.image == a
                       && r.value.dataSize == (a.shape[0], a.shape[1]))
  {
    match a
    case NotAnArray => Raise(TypeError)
    case NDArray(shape, _) =>
      if |shape| !in {2, 3} then Raise(ValueError)
      else if |shape| == 3 && shape[2] !in {3, 4} then Raise(ValueError)
      else Ok(NumpyReader(a, (shape[0], shape[1])))
  }

  /** `full_image_ny`. */
  function FullImageNy(r: Reader): nat { r.dataSize.0 }

  /** `full_image_nx`. */
  function FullImageNx(r: Reader): nat { r.dataSize.1 }

  /** A numpy reader reports the size of its array's first two dimensions. */
  lemma {:induction false} DataSizeIsImageSize(a: ArrayLike)
    requires NewNumpyReader(a).Ok? && GridMatchesShape(a.shape, a.grid)
    ensures FullImageNy(NewNumpyReader(a).value) == |a.grid|
    ensures FullImageNx(NewNumpyReader(a).value) == a.shape[1]
    ensures forall i :: 0 <= i < |a.grid| ==> |a.grid[i]| == FullImageNx(NewNumpyReader(a).value)
  {
  }

  /** `file_name`: none for an in-memory array. */
  function FileName(r: Reader): (f: Result<Option<string>>)
    ensures r.AbstractReader? <==> f == Raise(NotImplementedError)
    ensures r.NumpyReader? ==> f == Ok(None)
  {
    if r.AbstractReader? then Raise(NotImplementedError) else Ok(None)
  }

  /** `remapable`: a numpy reader offers no remap. */
  function Remapable(r: Reader): (b: Result<bool>)
    ensures r.AbstractReader? <==> b == Raise(NotImplementedError)
    ensures r.NumpyReader? ==> b == Ok(false)
  {
    if r.AbstractReader? then Raise(NotImplementedError) else Ok(false)
  }

  /** `remap_function`: the model has no callables; `None` is `Ok(None)`. */
  function RemapFunction(r: Reader): (f: Result<Option<()>>)
    ensures r.AbstractReader? <==> f == Raise(NotImplementedError)
    ensures r.NumpyReader? ==> f == Ok(None)
  {
    if r.AbstractReader? then Raise(NotImplementedError) else Ok(None)
  }

  /** `image_count`. */
  function ImageCount(r: Reader): (n: Result<nat>)
    ensures r.AbstractReader? <==> n == Raise(NotImplementedError)
    ensures r.NumpyReader? ==> n == Ok(1)
  {
    if r.AbstractReader? then Raise(NotImplementedError) else Ok(1)
  }

  /** `index`. */
  function Index(r: Reader): (n: Result<nat>)
    ensures r.AbstractReader? <==> n == Raise(NotImplementedError)
    ensures r.NumpyReader? ==> n == Ok(0)
  {
    if r.AbstractReader? then Raise(NotImplementedError) else Ok(0)
  }

  /** Setting `index`: the base raises `NotImplementedError`; the numpy
      reader redefines the property without a setter, so Python refuses the
      assignment with `AttributeError`. */
  function SetIndex(r: Reader, value: int): (res: Result<Reader>)
    ensures r.AbstractReader? ==> res == Raise(NotImplementedError)
    ensures r.NumpyReader? ==> res == Raise(AttributeError)
  {
    if r.AbstractReader? then Raise(NotImplementedError) else Raise(AttributeError)
  }

  /** `set_remap_type`: does nothing on either reader. */
  function SetRemapType(r: Reader, remapType: string): (r': Reader)
    ensures r' == r
  {
    r
  }

  /** One basic slice `start:stop` (step 1) of a two-element key. */
  datatype Slice = Slice(start: Option<int>, stop: Option<int>)

  /** The index range `[lo, hi)` a slice selects in a dimension of size `n`:
      each bound falls where `PySlices.Bound` puts it (negative bounds count
      from the end, bounds past either end are clamped), and a stop at or
      before the start selects nothing. */
  function SliceRange(n: nat, s: Slice): (r: (nat, nat))
    ensures r.0 <= r.1 <= n
    ensures s.start.None? ==> r.0 == 0
    ensures s.stop.None? ==> r.1 == n
    ensures s.start.Some? && 0 <= s.start.value <= n ==> r.0 == s.start.value
    ensures s.stop.Some? && r.0 <= s.stop.value <= n ==> r.1 == s.stop.value
    ensures s.start.Some? ==> r.0 == PySlices.Bound(n, s.start.value)
    ensures s.stop.Some? && PySlices.Bound(n, s.stop.value) >= r.0 ==> r.1 == PySlices.Bound(n, s.stop.value)
    ensures s.stop.Some? && PySlices.Bound(n, s.stop.value) <= r.0 ==> r.1 == r.0
  {
    var lo := if s.start.None? then 0 else PySlices.Bound(n, s.start.value);
    var hi := if s.stop.None? then n else PySlices.Bound(n, s.stop.value);
    (lo, if hi < lo then lo else hi)
  }

  /** `__getitem__` with a key `rows, cols`: the numpy reader returns the
      array's own sub-block; the base raises `NotImplementedError`. */
  function GetItem(r: Reader, rows: Slice, cols: Slice): (out: Result<ArrayLike>)
    requires r.NumpyReader? ==> r.image.NDArray? && GridMatchesShape(r.image.shape, r.image.grid)
    ensures r.AbstractReader? <==> out == Raise(NotImplementedError)
    ensures r.NumpyReader? ==> (
      out.Ok? && out.value.NDArray?
      && var (r0, r1) := SliceRange(r.image.shape[0], rows);
         var (c0, c1) := SliceRange(r.image.shape[1], cols);
         out.value.shape == [r1 - r0, c1 - c0] + r.image.shape[2..]
         && GridMatchesShape(out.value.shape, out.value.grid)
         && forall i, j :: 0 <= i < r1 - r0 && 0 <= j < c1 - c0 ==>
              out.value.grid[i][j] == r.image.grid[r0 + i][c0 + j])
  {
    match r
    case AbstractReader(_) => Raise(NotImplementedError)
    case NumpyReader(image, _) =>
      var (r0, r1) := SliceRange(image.shape[0], rows);
      var (c0, c1) := SliceRange(image.shape[1], cols);
      Ok(NDArray([r1 - r0, c1 - c0] + image.shape[2..],
                 seq(r1 - r0, i requires 0 <= i < r1 - r0 => image.grid[r0 + i][c0..c1])))
  }

  /** Reading the whole extent (`reader[:, :]`) gives back the array. */
  lemma {:induction false} FullSliceIsImage(a: ArrayLike)
    requires NewNumpyReader(a).Ok? && GridMatchesShape(a.shape, a.grid)
    ensures GetItem(NewNumpyReader(a).value, Slice(None, None), Slice(None, None)) == Ok(a)
  {
    var out := GetItem(NewNumpyReader(a).value, Slice(None, None), Slice(None, None)).value;
    assert out.shape == a.shape;
    assert |out.grid| == |a.grid|;
    forall i | 0 <= i < |a.grid|
      ensures out.grid[i] == a.grid[i]
    {
      assert a.grid[i][0..a.shape[1]] == a.grid[i];
    }
    assert out.grid == a.grid;
  }
}

/** `ColorCycler` of tk_builder/utils/color_utils/color_cycler.py: hands out
    the colours of a palette one after the other, starting over at the end. */
module ColorCycler {
  import opened Wrappers
  import opened Arith

  class ColorCycler {
    var nColors: nat
    var colorCounter: nat
    var colorList: seq<string>
    /** How many colours have been handed out so far. */
    ghost var calls: nat

    ghost predicate Valid()
      reads this
    {
      |colorList| == nColors &&
      (nColors > 0 ==> colorCounter < nColors && colorCounter == calls % nColors) &&
      (nColors == 0 ==> colorCounter == 0)
    }

    /** `ColorCycler(n_colors, hex_color_palette)`. The palette is resampled to
        `n_colors` entries (`numpy.linspace(0, n, n)` has `n` points); entry `i`
        of the resampled palette is `sample(i)`, whose floating-point
        interpolation is not part of this model. */
    constructor (n: nat, sample: nat -> string)
      ensures Valid()
      ensures nColors == n && colorCounter == 0 && calls == 0
      ensures colorList == seq(n, i requires 0 <= i => sample(i))
    {
      nColors := n;
      colorCounter := 0;
      colorList := seq(n, i requires 0 <= i => sample(i));
      calls := 0;
    }

    /** The `next_color` property: the colour at the counter, then the counter
        moves on and is reset to 0 once it reaches `n_colors`. With an empty
        palette the lookup fails before anything changes. */
    method NextColor() returns (r: Result<string>)
      requires Valid()
      modifies this`colorCounter, this`calls
      ensures Valid()
      ensures old(nColors) == 0 ==> r == Raise(IndexError) && calls == old(calls) && colorCounter == old(colorCounter)
      ensures old(nColors) > 0 ==> r == Ok(colorList[old(calls) % nColors]) && calls == old(calls) + 1
    {
      if colorCounter >= |colorList| {
        return Raise(IndexError);
      }
      var nextColor := colorList[colorCounter];
      colorCounter := colorCounter + 1;
      if colorCounter >= nColors {
        colorCounter := 0;
      }
      calls := calls + 1;
      ModSucc(old(calls), nColors);
      return Ok(nextColor);
    }
  }
}

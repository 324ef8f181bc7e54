/** `create_checkerboard` (tk_builder/utils/image_utils/create_checkerboard.py):
    a 0/1 image of `square_size`-pixel squares, written row by row into a
    zero-filled array. */
module Checkerboard {
  import opened Wrappers
  import opened Arith

  /** `numpy.tile(pair, k)`: `pair` written out `k` times. */
  function Tile(pair: seq<int>, k: nat): seq<int>
  {
    if k == 0 then [] else pair + Tile(pair, k - 1)
  }

  /** `numpy.repeat(xs, s)`: every element written out `s` times in a row. */
  function Repeat(xs: seq<int>, s: nat): seq<int>
  {
    if xs == [] then [] else seq(s, _ => xs[0]) + Repeat(xs[1..], s)
  }

  /** `numpy.repeat(numpy.tile((a, b), int(n_squares_x / 2)), square_size)` */
  function Pattern(a: int, b: int, nSquaresX: nat, squareSize: nat): seq<int>
  {
    Repeat(Tile([a, b], nSquaresX / 2), squareSize)
  }

  /** The value the board is meant to hold at (row, col): 1 on squares whose
      block coordinates add up to an even number. */
  function Cell(row: nat, col: nat, squareSize: nat): int
    requires squareSize > 0
  {
    if (row / squareSize + col / squareSize) % 2 == 0 then 1 else 0
  }

  lemma {:induction false} TileAt(pair: seq<int>, k: nat, j: nat)
    requires |pair| == 2 && j < 2 * k
    ensures |Tile(pair, k)| == 2 * k && Tile(pair, k)[j] == pair[j % 2]
  {
    if j < 2 {
      TileLength(pair, k);
    } else {
      TileAt(pair, k - 1, j - 2);
    }
  }

  lemma {:induction false} TileLength(pair: seq<int>, k: nat)
    requires |pair| == 2
    ensures |Tile(pair, k)| == 2 * k
  {
    if k > 0 {
      TileLength(pair, k - 1);
    }
  }

  lemma {:induction false} RepeatLength(xs: seq<int>, s: nat)
    ensures |Repeat(xs, s)| == |xs| * s
  {
    if xs != [] {
      RepeatLength(xs[1..], s);
    }
  }

  lemma {:induction false} RepeatNothing(xs: seq<int>)
    ensures Repeat(xs, 0) == []
  {
    if xs != [] {
      RepeatNothing(xs[1..]);
    }
  }

  lemma {:induction false} RepeatAt(xs: seq<int>, s: nat, c: nat)
    requires c < |Repeat(xs, s)|
    ensures 0 < s && c / s < |xs| && Repeat(xs, s)[c] == xs[c / s]
  {
    if s == 0 {
      RepeatNothing(xs);
    }
    var rest := Repeat(xs[1..], s);
    assert Repeat(xs, s) == seq(s, _ => xs[0]) + rest;
    if c < s {
      DivModUnique(c, s, 0, c);
    } else {
      RepeatAt(xs[1..], s, c - s);
      DivStep(c, s);
    }
  }

  /** Each row pattern alternates `a`-squares and `b`-squares, starting
      with `a`. */
  lemma {:induction false} PatternAt(a: int, b: int, nSquaresX: nat, squareSize: nat, c: nat)
    requires c < |Pattern(a, b, nSquaresX, squareSize)|
    ensures 0 < squareSize
    ensures Pattern(a, b, nSquaresX, squareSize)[c] == if (c / squareSize) % 2 == 0 then a else b
  {
    var k := nSquaresX / 2;
    RepeatAt(Tile([a, b], k), squareSize, c);
    TileLength([a, b], k);
    TileAt([a, b], k, c / squareSize);
  }

  /** Each row pattern is 2 * int(n_squares_x / 2) squares wide. */
  lemma {:induction false} PatternLength(a: int, b: int, nSquaresX: nat, squareSize: nat)
    ensures |Pattern(a, b, nSquaresX, squareSize)| == 2 * (nSquaresX / 2) * squareSize
  {
    var k := nSquaresX / 2;
    TileLength([a, b], k);
    RepeatLength(Tile([a, b], k), squareSize);
  }

  lemma {:induction false} RepeatSameLength(xs: seq<int>, ys: seq<int>, s: nat)
    requires |xs| == |ys|
    ensures |Repeat(xs, s)| == |Repeat(ys, s)|
  {
    if xs != [] {
      RepeatSameLength(xs[1..], ys[1..], s);
    }
  }

  /** Both row patterns have the same width. */
  lemma {:induction false} PatternsSameLength(nSquaresX: nat, squareSize: nat)
    ensures |Pattern(0, 1, nSquaresX, squareSize)| == |Pattern(1, 0, nSquaresX, squareSize)|
  {
    var k := nSquaresX / 2;
    TileLength([0, 1], k);
    TileLength([1, 0], k);
    RepeatSameLength(Tile([0, 1], k), Tile([1, 0], k), squareSize);
  }

  /** A row pattern fills a row of `square_size * n_squares_x` pixels exactly
      when `n_squares_x` is even (or there are no pixels in a row at all). */
  lemma {:induction false} PatternFitsRow(nSquaresX: nat, squareSize: nat)
    ensures |Pattern(1, 0, nSquaresX, squareSize)| == squareSize * nSquaresX
      <==> (nSquaresX % 2 == 0 || squareSize == 0)
  {
    PatternLength(1, 0, nSquaresX, squareSize);
    var k := nSquaresX / 2;
    if nSquaresX % 2 == 1 && squareSize > 0 {
      assert nSquaresX == 2 * k + 1;
      assert squareSize * nSquaresX == 2 * k * squareSize + squareSize;
    }
  }

  /** `pattern_2` is the complement of `pattern_1`. */
  lemma {:induction false} PatternsComplement(nSquaresX: nat, squareSize: nat, c: nat)
    requires c < |Pattern(1, 0, nSquaresX, squareSize)|
    ensures |Pattern(0, 1, nSquaresX, squareSize)| == |Pattern(1, 0, nSquaresX, squareSize)|
    ensures Pattern(0, 1, nSquaresX, squareSize)[c] == 1 - Pattern(1, 0, nSquaresX, squareSize)[c]
  {
    PatternsSameLength(nSquaresX, squareSize);
    PatternAt(1, 0, nSquaresX, squareSize, c);
    PatternAt(0, 1, nSquaresX, squareSize, c);
  }

  /** `checkerboard_array[row, :] = pattern` */
  method SetRow(board: array2<int>, row: nat, pattern: seq<int>)
    requires row < board.Length0 && |pattern| == board.Length1
    modifies board
    ensures forall r, c :: 0 <= r < board.Length0 && 0 <= c < board.Length1 ==>
      board[r, c] == if r == row then pattern[c] else old(board[r, c])
  {
    var c := 0;
    while c < board.Length1
      invariant 0 <= c <= board.Length1
      invariant forall r, c' :: 0 <= r < board.Length0 && 0 <= c' < board.Length1 ==>
        board[r, c'] == if r == row && c' < c then pattern[c'] else old(board[r, c'])
    {
      board[row, c] := pattern[c];
      c := c + 1;
    }
  }

  /** Rows of odd block index whose offset inside the block is below `i`: the
      rows the second loop has overwritten after `i` rounds. */
  predicate OddBlockRow(r: nat, s: nat, i: nat)
    requires s > 0
  {
    (r / s) % 2 == 1 && r % s < i
  }

  /** Rows overwritten with `pattern2` after `i` full rounds of the second
      loop and `q` iterations of round `i`. */
  predicate Overwritten(r: nat, s: nat, i: nat, q: nat)
    requires s > 0
  {
    OddBlockRow(r, s, i) || ((r / s) % 2 == 1 && r % s == i && r / s < 2 * q + 1)
  }

  /** Every row holds `pattern2` where `Overwritten` says so, `pattern1` elsewhere. */
  ghost predicate RowsAre(board: array2<int>, pattern1: seq<int>, pattern2: seq<int>, s: nat, i: nat, q: nat)
    reads board
    requires s > 0 && |pattern1| == |pattern2| == board.Length1
  {
    forall r, c :: 0 <= r < board.Length0 && 0 <= c < board.Length1 ==>
      board[r, c] == if Overwritten(r, s, i, q) then pattern2[c] else pattern1[c]
  }

  /** Before the second loop no row has been overwritten. */
  lemma {:induction false} NothingOverwritten(r: nat, s: nat)
    requires s > 0
    ensures !Overwritten(r, s, 0, 0)
  {
  }

  lemma {:induction false} RowBeyond(r: nat, s: nat, q: nat, i: nat)
    requires 0 < s && r % s == i && r / s >= 2 * q + 1
    ensures r >= s * (2 * q + 1) + i
  {
    assert r == s * (r / s) + i;
    if r / s > 2 * q + 1 {
      MulGap(s, 2 * q + 1, r / s);
    }
  }

  /** Writing row `s * (2q + 1) + i` adds exactly that row to the
      overwritten ones. */
  lemma {:induction false} OverwriteStep(r: nat, s: nat, i: nat, q: nat, index: nat)
    requires 0 <= i < s && index == s * (2 * q + 1) + i
    ensures Overwritten(r, s, i, q + 1) <==> (Overwritten(r, s, i, q) || r == index)
  {
    DivModUnique(index, s, 2 * q + 1, i);
    if (r / s) % 2 == 1 && r % s == i && 2 * q + 1 <= r / s < 2 * q + 3 {
      assert r / s == 2 * q + 1;
      assert r == s * (r / s) + r % s;
    }
  }

  /** Once the row index has passed the last row, round `i` is complete. */
  lemma {:induction false} OverwriteDone(r: nat, s: nat, i: nat, q: nat, index: nat, ny: nat)
    requires 0 <= i < s && index == s * (2 * q + 1) + i && ny <= index && r < ny
    ensures Overwritten(r, s, i, q) <==> Overwritten(r, s, i + 1, 0)
  {
    if (r / s) % 2 == 1 && r % s == i && r / s >= 2 * q + 1 {
      RowBeyond(r, s, q, i);
    }
  }

  lemma {:induction false} IndexStep(s: nat, q: nat, i: nat)
    ensures s * (2 * (q + 1) + 1) + i == s * (2 * q + 1) + i + 2 * s
  {
  }

  /** One round `i` of the second loop: `for index in numpy.arange(square_size + i, ny, 2 * square_size)`. */
  method OverwriteOffset(board: array2<int>, s: nat, i: nat, pattern1: seq<int>, pattern2: seq<int>)
    requires 0 <= i < s
    requires |pattern1| == |pattern2| == board.Length1
    requires RowsAre(board, pattern1, pattern2, s, i, 0)
    modifies board
    ensures RowsAre(board, pattern1, pattern2, s, i + 1, 0)
  {
    var ny := board.Length0;
    var index := s + i;
    ghost var q: nat := 0;
    while index < ny
      invariant index == s * (2 * q + 1) + i
      invariant RowsAre(board, pattern1, pattern2, s, i, q)
      decreases ny - index
    {
      SetRow(board, index, pattern2);
      forall r: nat | r < ny
        ensures Overwritten(r, s, i, q + 1) <==> (Overwritten(r, s, i, q) || r == index)
      {
        OverwriteStep(r, s, i, q, index);
      }
      IndexStep(s, q, i);
      index := index + 2 * s;
      q := q + 1;
    }
    forall r: nat | r < ny
      ensures Overwritten(r, s, i, q) <==> Overwritten(r, s, i + 1, 0)
    {
      OverwriteDone(r, s, i, q, index, ny);
    }
  }

  /** The first loop: `for i in range(ny): checkerboard_array[i, :] = pattern_1`. */
  method FillRows(board: array2<int>, pattern: seq<int>)
    requires |pattern| == board.Length1
    modifies board
    ensures forall r, c :: 0 <= r < board.Length0 && 0 <= c < board.Length1 ==> board[r, c] == pattern[c]
  {
    var i := 0;
    while i < board.Length0
      invariant 0 <= i <= board.Length0
      invariant forall r, c :: 0 <= r < i && 0 <= c < board.Length1 ==> board[r, c] == pattern[c]
    {
      SetRow(board, i, pattern);
      i := i + 1;
    }
  }

  /** Once every round has run, the rows holding `pattern_2` are those of odd
      block index, which makes each entry the checkerboard value. */
  lemma {:induction false} FinalRowIsCell(r: nat, c: nat, nSquaresX: nat, s: nat)
    requires s > 0 && c < |Pattern(1, 0, nSquaresX, s)|
    ensures |Pattern(0, 1, nSquaresX, s)| == |Pattern(1, 0, nSquaresX, s)|
    ensures (if Overwritten(r, s, s, 0) then Pattern(0, 1, nSquaresX, s)[c] else Pattern(1, 0, nSquaresX, s)[c])
      == Cell(r, c, s)
  {
    PatternsSameLength(nSquaresX, s);
    PatternAt(1, 0, nSquaresX, s, c);
    PatternAt(0, 1, nSquaresX, s, c);
    assert r % s < s;
    assert Overwritten(r, s, s, 0) <==> (r / s) % 2 == 1;
    ParityOfSum(r / s, c / s);
  }

  lemma {:induction false} ParityOfSum(x: nat, y: nat)
    ensures (x + y) % 2 == 0 <==> x % 2 == y % 2
  {
  }

  /** `create_checkerboard(square_size, n_squares_x, n_squares_y)`. Assigning a
      pattern of the wrong width to a row is numpy's broadcast `ValueError`. */
  method CreateCheckerboard(squareSize: nat, nSquaresX: nat, nSquaresY: nat) returns (res: Result<array2<int>>)
    ensures res.Raise? <==> squareSize * nSquaresY > 0 && nSquaresX % 2 == 1
    ensures res.Raise? ==> res.exc == ValueError
    ensures res.Ok? ==> res.value.Length0 == squareSize * nSquaresY && res.value.Length1 == squareSize * nSquaresX
    ensures res.Ok? && squareSize > 0 ==> forall r, c :: 0 <= r < res.value.Length0 && 0 <= c < res.value.Length1 ==>
      res.value[r, c] == Cell(r, c, squareSize)
  {
    var s := squareSize;
    var ny := s * nSquaresY;
    var nx := s * nSquaresX;
    var board := new int[ny, nx]((_, _) => 0);
    var pattern1 := Pattern(1, 0, nSquaresX, s);
    var pattern2 := Pattern(0, 1, nSquaresX, s);
    PatternFitsRow(nSquaresX, s);
    PatternLength(0, 1, nSquaresX, s);
    if ny > 0 && |pattern1| != nx {
      return Raise(ValueError);
    }
    if ny == 0 {
      // no rows to write: every round of both loops is empty
      return Ok(board);
    }
    FillRows(board, pattern1);
    forall r: nat | r < ny
      ensures !Overwritten(r, s, 0, 0)
    {
      NothingOverwritten(r, s);
    }
    var i := 0;
    while i < s
      invariant 0 <= i <= s
      invariant RowsAre(board, pattern1, pattern2, s, i, 0)
    {
      OverwriteOffset(board, s, i, pattern1, pattern2);
      i := i + 1;
    }
    forall r, c | 0 <= r < ny && 0 <= c < nx
      ensures board[r, c] == Cell(r, c, s)
    {
      FinalRowIsCell(r, c, nSquaresX, s);
    }
    return Ok(board);
  }
}

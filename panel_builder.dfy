/** The layout arithmetic of tk_builder/panel_builder.py: how `WidgetPanel`
    splits its widget names into rows, which row frame each widget is created
    in, which row frames are packed, and the selection map of
    `RadioButtonPanel`. Frames and widgets are represented by what the
    layout decides about them: a row frame by whether it is packed, a widget
    by the row it was created in. */
module PanelBuilder {
  import opened Wrappers
  import Arith

  // ---------------------------------------------------------------------
  // Sums and the running row counter

  function Sum(s: seq<int>): int
  {
    if |s| == 0 then 0 else Sum(s[..|s| - 1]) + s[|s| - 1]
  }

  lemma {:induction false} SumConcat(a: seq<int>, b: seq<int>)
    ensures Sum(a + b) == Sum(a) + Sum(b)
    decreases |b|
  {
    if |b| == 0 {
      assert a + b == a;
    } else {
      assert (a + b)[..|a + b| - 1] == a + b[..|b| - 1];
      SumConcat(a, b[..|b| - 1]);
    }
  }

  lemma {:induction false} PrefixSumStep(s: seq<int>, k: nat)
    requires k < |s|
    ensures Sum(s[..k + 1]) == Sum(s[..k]) + s[k]
  {
    assert s[..k + 1][..k] == s[..k];
  }

  /** Prefix sums of non-negative counts grow with the prefix. */
  lemma {:induction false} PrefixSumMono(s: seq<int>, a: nat, b: nat)
    requires a <= b <= |s|
    requires forall k :: 0 <= k < |s| ==> s[k] >= 0
    ensures Sum(s[..a]) <= Sum(s[..b])
    decreases b - a
  {
    if a < b {
      PrefixSumStep(s, b - 1);
      PrefixSumMono(s, a, b - 1);
    }
  }

  /** `numpy.cumsum`: the transition points between rows. */
  function CumSum(counts: seq<int>): (t: seq<int>)
    ensures |t| == |counts|
    ensures forall k :: 0 <= k < |t| ==> t[k] == Sum(counts[..k + 1])
  {
    seq(|counts|, k requires 0 <= k < |counts| => Sum(counts[..k + 1]))
  }

  /** The widget loop's row counter once it has looked at widgets
      `0 .. m-1`: it moves on once at every index that is a transition
      point, however many rows end there. Widget `i` is created in row
      `RowsBefore(t, i + 1)`. */
  function RowsBefore(t: seq<int>, m: nat): nat
  {
    if m == 0 then 0 else RowsBefore(t, m - 1) + (if m - 1 in t then 1 else 0)
  }

  /** How many entries of `t` are below `m`. */
  function CountBelow(t: seq<int>, m: int): nat
  {
    if |t| == 0 then 0 else (if t[0] < m then 1 else 0) + CountBelow(t[1..], m)
  }

  predicate StrictlyIncreasing(t: seq<int>)
  {
    forall i, j :: 0 <= i < j < |t| ==> t[i] < t[j]
  }

  lemma {:induction false} CountBelowStep(t: seq<int>, m: int)
    requires StrictlyIncreasing(t)
    ensures CountBelow(t, m + 1) == CountBelow(t, m) + (if m in t then 1 else 0)
  {
    if |t| > 0 {
      CountBelowStep(t[1..], m);
      assert m in t <==> t[0] == m || m in t[1..];
      if t[0] == m {
        assert m !in t[1..];
      }
    }
  }

  /** In a strictly increasing sequence the row counter counts the entries below `m`. */
  lemma {:induction false} RowsBeforeCountsBelow(t: seq<int>, m: nat)
    requires StrictlyIncreasing(t)
    requires forall k :: 0 <= k < |t| ==> t[k] >= 0
    ensures RowsBefore(t, m) == CountBelow(t, m)
  {
    if m == 0 {
      CountBelowNone(t, 0);
    } else {
      RowsBeforeCountsBelow(t, m - 1);
      CountBelowStep(t, m - 1);
    }
  }

  lemma {:induction false} CountBelowNone(t: seq<int>, m: int)
    requires forall k :: 0 <= k < |t| ==> t[k] >= m
    ensures CountBelow(t, m) == 0
  {
    if |t| > 0 {
      CountBelowNone(t[1..], m);
    }
  }

  /** Entries `0 .. k-1` are below `m` and the rest are not. */
  lemma {:induction false} CountBelowSplit(t: seq<int>, m: int, k: nat)
    requires k <= |t|
    requires forall j :: 0 <= j < k ==> t[j] < m
    requires forall j :: k <= j < |t| ==> t[j] >= m
    ensures CountBelow(t, m) == k
  {
    if k == 0 {
      CountBelowNone(t, m);
    } else {
      CountBelowSplit(t[1..], m, k - 1);
    }
  }

  /** With every row holding at least one widget, widget `i` is created in
      row `k` exactly when it lies between the widgets of rows `0 .. k-1`
      and the end of row `k`. */
  lemma {:induction false} RowOfWidget(counts: seq<int>, i: nat, k: nat)
    requires forall j :: 0 <= j < |counts| ==> counts[j] >= 1
    requires k < |counts| && Sum(counts[..k]) <= i < Sum(counts[..k + 1])
    ensures RowsBefore(CumSum(counts), i + 1) == k
  {
    var t := CumSum(counts);
    forall a, b | 0 <= a < b < |t|
      ensures t[a] < t[b]
    {
      PrefixSumStep(counts, b);
      PrefixSumMono(counts, a + 1, b);
    }
    forall j | 0 <= j < |t|
      ensures t[j] >= 0
    {
      PrefixSumMono(counts, 0, j + 1);
    }
    RowsBeforeCountsBelow(t, i + 1);
    forall j | 0 <= j < k
      ensures t[j] < i + 1
    {
      PrefixSumMono(counts, j + 1, k);
    }
    forall j | k <= j < |t|
      ensures t[j] >= i + 1
    {
      PrefixSumMono(counts, k + 1, j + 1);
    }
    CountBelowSplit(t, i + 1, k);
  }

  /** Every widget up to the total count falls in some row. */
  lemma {:induction false} SomeRowHolds(counts: seq<int>, i: nat) returns (k: nat)
    requires forall j :: 0 <= j < |counts| ==> counts[j] >= 1
    requires i < Sum(counts)
    ensures k < |counts| && Sum(counts[..k]) <= i < Sum(counts[..k + 1])
    decreases |counts|
  {
    var n := |counts|;
    assert counts[..n] == counts;
    PrefixSumStep(counts, n - 1);
    if i >= Sum(counts[..n - 1]) {
      k := n - 1;
    } else {
      var front := counts[..n - 1];
      k := SomeRowHolds(front, i);
      assert front[..k] == counts[..k];
      assert front[..k + 1] == counts[..k + 1];
    }
  }

  // ---------------------------------------------------------------------
  // The layouts

  /** The `column_widths` or `row_heights` argument of `init_w_box_layout`:
      `None`, one size for every widget, or a list indexed by column (by row). */
  datatype BoxSizing = NoSizing | SameSizing(size: int) | SizingList(sizes: seq<int>)

  /** Whether `sizing` has a size for index `k`: only a list can be too short. */
  predicate Covers(sizing: BoxSizing, k: nat)
  {
    !sizing.SizingList? || k < |sizing.sizes|
  }

  /** The column of widget `i` in a box layout of `n` columns. */
  function ColumnOf(i: nat, n: nat): nat
    requires n > 0
  {
    i % n
  }

  /** The row of widget `i` in a box layout of `n` columns. */
  function RowOf(i: nat, n: nat): nat
    requires n > 0
  {
    i / n
  }

  /** Whether each of `total` widgets laid out in `n` columns finds its
      column width and its row height. */
  predicate BoxSizingFits(total: nat, n: nat, widths: BoxSizing, heights: BoxSizing)
    requires n > 0
  {
    forall i :: 0 <= i < total ==> Covers(widths, ColumnOf(i, n)) && Covers(heights, RowOf(i, n))
  }

  /** Widget `i` of `total` lies in a column up to the last used one and in
      a row no later than the last. */
  lemma {:induction false} BoxPositionBounds(i: nat, total: nat, n: nat)
    requires n > 0 && i < total
    ensures ColumnOf(i, n) <= LastColumn(total, n)
    ensures RowOf(i, n) <= (total - 1) / n
  {
    if i < n {
      Arith.DivModUnique(i, n, 0, i);
    }
    Arith.DivMono(i, total - 1, n);
  }

  /** The last used column of `total > 0` widgets in `n` columns. */
  function LastColumn(total: nat, n: nat): nat
    requires n > 0 && total > 0
  {
    (if total < n then total else n) - 1
  }

  lemma {:induction false} FitsReachesLast(total: nat, n: nat, widths: BoxSizing, heights: BoxSizing)
    requires n > 0 && total > 0 && BoxSizingFits(total, n, widths, heights)
    ensures Covers(widths, LastColumn(total, n)) && Covers(heights, (total - 1) / n)
  {
    var c := LastColumn(total, n);
    assert ColumnOf(c, n) == c by {
      Arith.DivModUnique(c, n, 0, c);
    }
    assert Covers(widths, ColumnOf(c, n));
    assert Covers(heights, RowOf(total - 1, n));
  }

  lemma {:induction false} LastReachedFits(total: nat, n: nat, widths: BoxSizing, heights: BoxSizing)
    requires n > 0 && total > 0 && Covers(widths, LastColumn(total, n)) && Covers(heights, (total - 1) / n)
    ensures BoxSizingFits(total, n, widths, heights)
  {
    forall i | 0 <= i < total
      ensures Covers(widths, ColumnOf(i, n)) && Covers(heights, RowOf(i, n))
    {
      BoxPositionBounds(i, total, n);
    }
  }

  /** The sizes fit exactly when a width list reaches the last used column
      and a height list reaches the last row. */
  lemma {:induction false} BoxSizingFitsIff(total: nat, n: nat, widths: BoxSizing, heights: BoxSizing)
    requires n > 0
    ensures BoxSizingFits(total, n, widths, heights) <==>
      total == 0 || (Covers(widths, LastColumn(total, n)) && Covers(heights, (total - 1) / n))
  {
    if total > 0 {
      if BoxSizingFits(total, n, widths, heights) {
        FitsReachesLast(total, n, widths, heights);
      } else if Covers(widths, LastColumn(total, n)) && Covers(heights, (total - 1) / n) {
        LastReachedFits(total, n, widths, heights);
      }
    }
  }

  /** `init_w_box_layout`'s row counts for `n` widgets in `c` columns: full
      rows of `c`, then the remainder. */
  function BoxCounts(n: nat, c: nat): (r: seq<int>)
    requires c > 0
    ensures Sum(r) == n
    ensures forall k :: 0 <= k < |r| ==> 1 <= r[k] <= c
    ensures forall k :: 0 <= k < |r| - 1 ==> r[k] == c
    decreases n
  {
    if n == 0 then []
    else if n >= c then
      var rest := BoxCounts(n - c, c);
      SumConcat([c], rest);
      assert Sum([c]) == c by { assert [c][..0] == []; }
      [c] + rest
    else
      assert Sum([n]) == n by { assert [n][..0] == []; }
      [n]
  }

  /** There are `ceil(n / c)` rows. */
  lemma {:induction false} BoxCountsLength(n: nat, c: nat)
    requires c > 0
    ensures |BoxCounts(n, c)| == (n + c - 1) / c
    decreases n
  {
    if n == 0 {
      Arith.DivModUnique(c - 1, c, 0, c - 1);
    } else if n >= c {
      BoxCountsLength(n - c, c);
      Arith.DivStep(n + c - 1, c);
    } else {
      Arith.DivModUnique(n + c - 1, c, 1, n - 1);
    }
  }

  /** One row of the box layout: `c` widgets while that many are left,
      then the rest. */
  lemma {:induction false} BoxCountsStep(m: nat, c: nat)
    requires c > 0 && m > 0
    ensures BoxCounts(m, c) == [if m >= c then c else m] + BoxCounts(MaxZero(m - c), c)
  {
  }

  /** `k` copies of `c` added up. */
  function Times(k: nat, c: nat): nat
  {
    if k == 0 then 0 else Times(k - 1, c) + c
  }

  lemma {:induction false} TimesIsProduct(k: nat, c: nat)
    ensures Times(k, c) == k * c
  {
    if k > 0 {
      TimesIsProduct(k - 1, c);
      assert (k - 1) * c + c == k * c;
    }
  }

  /** The full rows before row `k` hold `k * c` widgets. */
  lemma {:induction false} BoxPrefixSum(n: nat, c: nat, k: nat)
    requires c > 0 && k < |BoxCounts(n, c)|
    ensures Sum(BoxCounts(n, c)[..k]) == Times(k, c)
  {
    if k > 0 {
      var counts := BoxCounts(n, c);
      BoxPrefixSum(n, c, k - 1);
      PrefixSumStep(counts, k - 1);
      assert counts[k - 1] == c;
    }
  }

  /** `x / c` is at least `m` when `c * m <= x`. */
  lemma {:induction false} DivAtLeast(x: nat, c: nat, m: nat)
    requires c > 0 && c * m <= x
    ensures x / c >= m
  {
    var q := x / c;
    assert x == c * q + x % c;
    if q < m {
      Arith.MulGap(c, q, m);
    }
  }

  /** Widget `i` of `n` lies in full row `i / c`, and that row exists. */
  lemma {:induction false} QuotientRow(n: nat, c: nat, i: nat)
    requires c > 0 && i < n
    ensures Times(i / c, c) <= i < Times(i / c, c) + c
    ensures i / c < (n + c - 1) / c
  {
    var k := i / c;
    TimesIsProduct(k, c);
    assert i == c * k + i % c;
    assert c * (k + 1) == c * k + c;
    DivAtLeast(n + c - 1, c, k + 1);
  }

  /** Widget `i` lies within the prefix sums around box row `i / c`. */
  lemma {:induction false} BoxRowSpan(n: nat, c: nat, i: nat, k: nat)
    requires c > 0 && i < n && k == i / c
    ensures k < |BoxCounts(n, c)|
    ensures Sum(BoxCounts(n, c)[..k]) <= i < Sum(BoxCounts(n, c)[..k + 1])
  {
    var counts := BoxCounts(n, c);
    QuotientRow(n, c, i);
    BoxCountsLength(n, c);
    BoxPrefixSum(n, c, k);
    PrefixSumStep(counts, k);
    if k + 1 < |counts| {
      assert counts[k] == c;
    } else {
      assert counts[..k + 1] == counts;
    }
  }

  /** In box layout the row a widget is created in is `i // n_columns`,
      the row index the source computes for sizing it. */
  lemma {:induction false} BoxRowIsQuotient(n: nat, c: nat, i: nat)
    requires c > 0 && i < n
    ensures RowsBefore(CumSum(BoxCounts(n, c)), i + 1) == i / c
  {
    var k := i / c;
    BoxRowSpan(n, c, i, k);
    RowOfWidget(BoxCounts(n, c), i, k);
  }

  /** The loop of `init_w_box_layout` that lists the row counts. */
  method BoxRowCounts(n: nat, c: nat) returns (counts: seq<int>)
    requires c > 0
    ensures counts == BoxCounts(n, c)
    ensures |counts| == (n + c - 1) / c
  {
    var nRows := (n + c - 1) / c;
    BoxCountsLength(n, c);
    counts := [];
    var left: int := n;
    var i := 0;
    while i < nRows
      invariant 0 <= i <= nRows
      invariant counts + BoxCounts(MaxZero(left), c) == BoxCounts(n, c)
      invariant |BoxCounts(MaxZero(left), c)| == nRows - i
    {
      BoxCountsStep(left, c);
      // `n_widgets_left / n_columns >= 1` with a positive column count
      if left >= c {
        counts := counts + [c];
      } else {
        counts := counts + [left];
      }
      left := left - c;
      i := i + 1;
    }
    assert counts + [] == counts;
  }

  /** `init_w_horizontal_layout`: one row holding every widget. */
  lemma {:induction false} HorizontalIsOneRow(n: nat, i: nat)
    requires i < n
    ensures RowsBefore(CumSum([n]), i + 1) == 0
  {
    assert [n][..0] == [];
    assert [n][..1] == [n];
    RowOfWidget([n], i, 0);
  }

  function Ones(n: nat): (r: seq<int>)
    ensures |r| == n && forall k :: 0 <= k < n ==> r[k] == 1
  {
    seq(n, _ => 1)
  }

  lemma {:induction false} OnesPrefixSum(n: nat, k: nat)
    requires k <= n
    ensures Sum(Ones(n)[..k]) == k
  {
    if k > 0 {
      OnesPrefixSum(n, k - 1);
      PrefixSumStep(Ones(n), k - 1);
    }
  }

  /** `init_w_vertical_layout`: widget `i` alone in row `i`. */
  lemma {:induction false} VerticalIsOnePerRow(n: nat, i: nat)
    requires i < n
    ensures RowsBefore(CumSum(Ones(n)), i + 1) == i
  {
    OnesPrefixSum(n, i);
    OnesPrefixSum(n, i + 1);
    RowOfWidget(Ones(n), i, i);
  }

  // ---------------------------------------------------------------------
  // Nested widget lists (`init_w_rows`)

  /** An entry of `_widget_list`: a widget name, or a tuple of names. */
  datatype WidgetSpec = Name(name: string) | Group(members: seq<string>)

  /** What `for widget in widget_list` yields for an entry: the names of a
      tuple, or the one-character strings of a bare name. */
  function Members(e: WidgetSpec): (m: seq<string>)
    ensures e.Group? ==> m == e.members
    ensures e.Name? ==> |m| == |e.name|
  {
    match e
    case Name(s) => seq(|s|, j requires 0 <= j < |s| => [s[j]])
    case Group(m) => m
  }

  function Flatten(es: seq<WidgetSpec>): seq<string>
  {
    if |es| == 0 then [] else Flatten(es[..|es| - 1]) + Members(es[|es| - 1])
  }

  function Sizes(es: seq<WidgetSpec>): (r: seq<int>)
    ensures |r| == |es| && forall k :: 0 <= k < |es| ==> r[k] == |Members(es[k])|
  {
    seq(|es|, k requires 0 <= k < |es| => |Members(es[k])|)
  }

  lemma {:induction false} SizesPrefix(es: seq<WidgetSpec>, k: nat)
    requires k <= |es|
    ensures Sizes(es)[..k] == Sizes(es[..k])
  {
  }

  lemma {:induction false} FlattenLength(es: seq<WidgetSpec>)
    ensures |Flatten(es)| == Sum(Sizes(es))
  {
    if |es| > 0 {
      var n := |es|;
      FlattenLength(es[..n - 1]);
      SizesPrefix(es, n - 1);
    }
  }

  /** Flattening one more entry appends its members. */
  lemma {:induction false} FlattenSnoc(es: seq<WidgetSpec>)
    requires |es| > 0
    ensures Flatten(es) == Flatten(es[..|es| - 1]) + Members(es[|es| - 1])
  {
  }

  /** Flattening distributes over concatenation. */
  lemma {:induction false} FlattenAppend(xs: seq<WidgetSpec>, ys: seq<WidgetSpec>)
    ensures Flatten(xs + ys) == Flatten(xs) + Flatten(ys)
    decreases |ys|
  {
    if ys == [] {
      assert xs + ys == xs;
    } else {
      var front := ys[..|ys| - 1];
      var last := ys[|ys| - 1];
      var zs := xs + ys;
      assert zs[..|zs| - 1] == xs + front;
      assert zs[|zs| - 1] == last;
      FlattenSnoc(zs);
      FlattenSnoc(ys);
      FlattenAppend(xs, front);
      calc {
        Flatten(zs);
        Flatten(xs + front) + Members(last);
        (Flatten(xs) + Flatten(front)) + Members(last);
        Flatten(xs) + (Flatten(front) + Members(last));
        Flatten(xs) + Flatten(ys);
      }
    }
  }

  lemma {:induction false} FlattenSplit(es: seq<WidgetSpec>, k: nat)
    requires k <= |es|
    ensures Flatten(es) == Flatten(es[..k]) + Flatten(es[k..])
  {
    assert es == es[..k] + es[k..];
    FlattenAppend(es[..k], es[k..]);
  }

  /** The first `k` groups hold the first `Sum(sizes[..k])` flattened names. */
  lemma {:induction false} FlattenPrefix(es: seq<WidgetSpec>, k: nat)
    requires k <= |es|
    ensures |Flatten(es[..k])| == Sum(Sizes(es)[..k])
    ensures Flatten(es) == Flatten(es[..k]) + Flatten(es[k..])
  {
    FlattenLength(es[..k]);
    SizesPrefix(es, k);
    FlattenSplit(es, k);
  }

  /** Name `j` of group `k` sits right after the names of the groups
      before it. */
  lemma {:induction false} GroupMemberPosition(es: seq<WidgetSpec>, k: nat, j: nat)
    requires k < |es| && j < |Members(es[k])|
    ensures var i := |Flatten(es[..k])| + j;
      i < |Flatten(es)| && Flatten(es)[i] == Members(es[k])[j]
  {
    var before := Flatten(es[..k]);
    var upto := es[..k + 1];
    assert upto[..k] == es[..k];
    FlattenSnoc(upto);
    assert Flatten(upto) == before + Members(es[k]);
    FlattenSplit(es, k + 1);
  }

  /** The flattened position of name `j` of group `k` lies between the
      prefix sums of the group sizes around `k`. */
  lemma {:induction false} GroupMemberBounds(es: seq<WidgetSpec>, k: nat, j: nat)
    requires k < |es| && j < |Members(es[k])|
    ensures Sum(Sizes(es)[..k]) <= |Flatten(es[..k])| + j < Sum(Sizes(es)[..k + 1])
  {
    FlattenLength(es[..k]);
    SizesPrefix(es, k);
    PrefixSumStep(Sizes(es), k);
  }

  /** `init_w_rows` as corrected: every name of group `k` lands in row `k`
      of the flattened layout, provided no group is empty. */
  lemma {:induction false} GroupMembersShareRow(es: seq<WidgetSpec>, k: nat, j: nat)
    requires forall g :: 0 <= g < |es| ==> |Members(es[g])| >= 1
    requires k < |es| && j < |Members(es[k])|
    ensures var i := |Flatten(es[..k])| + j;
      i < |Flatten(es)| && Flatten(es)[i] == Members(es[k])[j]
      && RowsBefore(CumSum(Sizes(es)), i + 1) == k
  {
    var i := |Flatten(es[..k])| + j;
    GroupMemberPosition(es, k, j);
    GroupMemberBounds(es, k, j);
    var counts := Sizes(es);
    assert forall g :: 0 <= g < |counts| ==> counts[g] >= 1;
    RowOfWidget(counts, i, k);
  }

  /** How many row frames `init_w_rows` creates as written: one per
      flattened widget rather than one per group. */
  function RowFramesAsWritten(es: seq<WidgetSpec>): (n: nat)
    ensures n == Sum(Sizes(es))
  {
    FlattenPrefix(es, |es|);
    assert es[..|es|] == es;
    assert Sizes(es)[..|es|] == Sizes(es);
    |Flatten(es)|
  }

  /** The two-row example of the source's docstring written as one row of
      two widgets: it gets two row frames, the second of which holds no
      widget. */
  lemma {:induction false} RowsLayoutAddsEmptyFrames()
    ensures var es := [Group(["one", "two"])];
      RowFramesAsWritten(es) == 2 && |es| == 1
      && RowsBefore(CumSum(Sizes(es)), 1) == 0 && RowsBefore(CumSum(Sizes(es)), 2) == 0
  {
    var es := [Group(["one", "two"])];
    assert Sizes(es) == [2];
    HorizontalIsOneRow(2, 0);
    HorizontalIsOneRow(2, 1);
  }

  // ---------------------------------------------------------------------
  // The widget loop of `init_w_basic_widget_list`

  /** The widget loop from widget `i` on, with row counter `row` and the
      rows chosen so far in `acc`: each name must be a class attribute whose
      descriptor carries the same name (`ValueError` otherwise; a tuple
      entry cannot be looked up as an attribute, `TypeError`), and the
      counter must name an existing row frame (`IndexError`). The widgets
      already created stay when the loop raises. */
  function PlaceFrom(entries: seq<WidgetSpec>, descriptors: map<string, string>, nRows: nat,
                     t: seq<int>, i: nat, row: nat, acc: map<string, nat>): (out: (Result<()>, map<string, nat>))
    requires i <= |entries|
    ensures out.0.Ok? ==> forall j :: i <= j < |entries| ==>
      entries[j].Name? && entries[j].name in descriptors && descriptors[entries[j].name] == entries[j].name
    ensures acc.Keys <= out.1.Keys
    ensures forall nm :: nm in out.1 ==> (nm in acc && out.1[nm] == acc[nm]) || out.1[nm] < nRows
    ensures out.0.Ok? ==> forall j :: i <= j < |entries| ==> entries[j].name in out.1
    ensures out.0.Raise? ==> out.0.exc in {TypeError, ValueError, IndexError}
    decreases |entries| - i
  {
    if i == |entries| then (Ok(()), acc)
    else
      var e := entries[i];
      if !e.Name? then (Raise(TypeError), acc)
      else if e.name !in descriptors || descriptors[e.name] != e.name then (Raise(ValueError), acc)
      else
        var row' := if i in t then row + 1 else row;
        if row' >= nRows then (Raise(IndexError), acc)
        else
          PlaceFrom(entries, descriptors, nRows, t, i + 1, row', acc[e.name := row'])
  }

  /** A name the loop placed earlier keeps its row unless it appears again. */
  lemma {:induction false} PlaceFromKeeps(entries: seq<WidgetSpec>, descriptors: map<string, string>, nRows: nat,
                                          t: seq<int>, i: nat, row: nat, acc: map<string, nat>, name: string)
    requires i <= |entries| && name in acc
    requires forall j :: i <= j < |entries| ==> entries[j] != Name(name)
    ensures name in PlaceFrom(entries, descriptors, nRows, t, i, row, acc).1
    ensures PlaceFrom(entries, descriptors, nRows, t, i, row, acc).1[name] == acc[name]
    decreases |entries| - i
  {
    if i < |entries| {
      var e := entries[i];
      if e.Name? && e.name in descriptors && descriptors[e.name] == e.name {
        var row' := if i in t then row + 1 else row;
        if row' < nRows {
          PlaceFromKeeps(entries, descriptors, nRows, t, i + 1, row', acc[e.name := row'], name);
        }
      }
    }
  }

  /** The widget the loop is at keeps the row it is created in when its
      name does not come again. */
  lemma {:induction false} PlaceFromFirst(entries: seq<WidgetSpec>, descriptors: map<string, string>, nRows: nat,
                       t: seq<int>, i: nat, row: nat, acc: map<string, nat>)
    requires i < |entries|
    requires PlaceFrom(entries, descriptors, nRows, t, i, row, acc).0.Ok?
    requires forall k :: i < k < |entries| ==> entries[k] != entries[i]
    ensures PlaceFrom(entries, descriptors, nRows, t, i, row, acc).1[entries[i].name] == if i in t then row + 1 else row
  {
    var e := entries[i];
    var row' := if i in t then row + 1 else row;
    var acc' := acc[e.name := row'];
    PlaceFromKeeps(entries, descriptors, nRows, t, i + 1, row', acc', e.name);
  }

  /** With distinct names, a loop that finishes has created widget `j` in
      row `RowsBefore(t, j + 1)`. */
  lemma {:induction false} PlaceFromRows(entries: seq<WidgetSpec>, descriptors: map<string, string>, nRows: nat,
                                         t: seq<int>, i: nat, acc: map<string, nat>, j: nat)
    requires i <= j < |entries| && NoDuplicates(entries)
    requires PlaceFrom(entries, descriptors, nRows, t, i, RowsBefore(t, i), acc).0.Ok?
    ensures PlaceFrom(entries, descriptors, nRows, t, i, RowsBefore(t, i), acc).1[entries[j].name] == RowsBefore(t, j + 1)
    decreases |entries| - i
  {
    if j == i {
      PlaceFromFirst(entries, descriptors, nRows, t, i, RowsBefore(t, i), acc);
    } else {
      var e := entries[i];
      var row' := RowsBefore(t, i + 1);
      assert row' == if i in t then RowsBefore(t, i) + 1 else RowsBefore(t, i);
      PlaceFromRows(entries, descriptors, nRows, t, i + 1, acc[e.name := row'], j);
    }
  }

  /** The layout rule of `init_w_basic_widget_list`: when the names are
      distinct and valid, every row has at least one widget, the counts add
      up to the number of widgets and there are enough row frames, the loop
      finishes and widget `i` is created in the row whose span of the
      cumulative counts contains `i`. */
  lemma {:induction false} LayoutPlacesEveryWidget(entries: seq<WidgetSpec>, descriptors: map<string, string>,
                                nRows: nat, counts: seq<int>, acc: map<string, nat>)
    requires NoDuplicates(entries)
    requires forall j :: 0 <= j < |entries| ==>
      entries[j].Name? && entries[j].name in descriptors && descriptors[entries[j].name] == entries[j].name
    requires forall k :: 0 <= k < |counts| ==> counts[k] >= 1
    requires Sum(counts) == |entries| && |counts| <= nRows
    ensures PlaceFrom(entries, descriptors, nRows, CumSum(counts), 0, 0, acc).0.Ok?
    ensures forall i, k :: 0 <= i < |entries| && 0 <= k < |counts| && Sum(counts[..k]) <= i < Sum(counts[..k + 1]) ==>
      PlaceFrom(entries, descriptors, nRows, CumSum(counts), 0, 0, acc).1[entries[i].name] == k
  {
    var t := CumSum(counts);
    LoopFinishes(entries, descriptors, nRows, counts, 0, acc);
    forall i, k | 0 <= i < |entries| && 0 <= k < |counts| && Sum(counts[..k]) <= i < Sum(counts[..k + 1])
      ensures PlaceFrom(entries, descriptors, nRows, t, 0, 0, acc).1[entries[i].name] == k
    {
      PlaceFromRows(entries, descriptors, nRows, t, 0, acc, i);
      RowOfWidget(counts, i, k);
    }
  }

  lemma {:induction false} LoopFinishes(entries: seq<WidgetSpec>, descriptors: map<string, string>,
                                        nRows: nat, counts: seq<int>, i: nat, acc: map<string, nat>)
    requires i <= |entries|
    requires forall j :: 0 <= j < |entries| ==>
      entries[j].Name? && entries[j].name in descriptors && descriptors[entries[j].name] == entries[j].name
    requires forall k :: 0 <= k < |counts| ==> counts[k] >= 1
    requires Sum(counts) == |entries| && |counts| <= nRows
    ensures PlaceFrom(entries, descriptors, nRows, CumSum(counts), i, RowsBefore(CumSum(counts), i), acc).0.Ok?
    decreases |entries| - i
  {
    if i < |entries| {
      var t := CumSum(counts);
      var e := entries[i];
      var k := SomeRowHolds(counts, i);
      RowOfWidget(counts, i, k);
      LoopFinishes(entries, descriptors, nRows, counts, i + 1, acc[e.name := RowsBefore(t, i + 1)]);
    }
  }

  // ---------------------------------------------------------------------
  // Panels

  function MaxZero(n: int): nat { if n < 0 then 0 else n }

  /** `WidgetPanel`: the names in `_widget_list`, the class's widget
      descriptors (attribute name to the descriptor's own name), the row
      frames (whether each is packed) and the row each created widget sits in. */
  class WidgetPanel {
    var widgetList: seq<WidgetSpec>
    const descriptors: map<string, string>
    var rows: seq<bool>
    var placement: map<string, nat>

    constructor (widgetList: seq<WidgetSpec>, descriptors: map<string, string>)
      ensures this.widgetList == widgetList && this.descriptors == descriptors
      ensures rows == [] && placement == map[]
    {
      this.widgetList := widgetList;
      this.descriptors := descriptors;
      rows := [];
      placement := map[];
    }

    /** `init_w_basic_widget_list`: `n_rows` packed row frames, then each
        widget created in the row the running counter names. */
    method InitWBasicWidgetList(nRows: int, counts: seq<int>) returns (r: Result<()>)
      modifies this
      ensures widgetList == old(widgetList)
      ensures rows == seq(MaxZero(nRows), _ => true)
      ensures (r, placement) == PlaceFrom(widgetList, descriptors, MaxZero(nRows), CumSum(counts), 0, 0, old(placement))
    {
      rows := seq(MaxZero(nRows), _ => true);
      var t := CumSum(counts);
      var rowNum := 0;
      var i := 0;
      while i < |widgetList|
        invariant 0 <= i <= |widgetList|
        invariant widgetList == old(widgetList) && rows == seq(MaxZero(nRows), _ => true)
        invariant PlaceFrom(widgetList, descriptors, |rows|, t, 0, 0, old(placement))
               == PlaceFrom(widgetList, descriptors, |rows|, t, i, rowNum, placement)
      {
        var e := widgetList[i];
        if !e.Name? {
          return Raise(TypeError);
        }
        if e.name !in descriptors || descriptors[e.name] != e.name {
          return Raise(ValueError);
        }
        if i in t {
          rowNum := rowNum + 1;
        }
        if rowNum >= |rows| {
          return Raise(IndexError);
        }
        placement := placement[e.name := rowNum];
        i := i + 1;
      }
      return Ok(());
    }

    /** `init_w_horizontal_layout`. */
    method InitWHorizontalLayout() returns (r: Result<()>)
      modifies this
      ensures widgetList == old(widgetList) && rows == [true]
      ensures (r, placement) == PlaceFrom(widgetList, descriptors, 1, CumSum([|widgetList|]), 0, 0, old(placement))
    {
      r := InitWBasicWidgetList(1, [|widgetList|]);
    }

    /** `init_w_vertical_layout`. */
    method InitWVerticalLayout() returns (r: Result<()>)
      modifies this
      ensures widgetList == old(widgetList) && rows == seq(|widgetList|, _ => true)
      ensures (r, placement) == PlaceFrom(widgetList, descriptors, |widgetList|, CumSum(Ones(|widgetList|)), 0, 0, old(placement))
    {
      r := InitWBasicWidgetList(|widgetList|, Ones(|widgetList|));
    }

    /** `init_w_rows`, corrected to create one row frame per group: the
        nested list is flattened in order and each group becomes a row. */
    method InitWRows() returns (r: Result<()>)
      modifies this
      ensures widgetList == seq(|Flatten(old(widgetList))|, i requires 0 <= i < |Flatten(old(widgetList))| => Name(Flatten(old(widgetList))[i]))
      ensures rows == seq(|old(widgetList)|, _ => true)
      ensures (r, placement) == PlaceFrom(widgetList, descriptors, |old(widgetList)|, CumSum(Sizes(old(widgetList))), 0, 0, old(placement))
    {
      var groups := widgetList;
      var flattened: seq<string> := [];
      var widgetsPerRow: seq<int> := [];
      var g := 0;
      while g < |groups|
        invariant 0 <= g <= |groups|
        invariant flattened == Flatten(groups[..g])
        invariant widgetsPerRow == Sizes(groups)[..g]
      {
        var members := Members(groups[g]);
        widgetsPerRow := widgetsPerRow + [|members|];
        var j := 0;
        while j < |members|
          invariant 0 <= j <= |members|
          invariant flattened == Flatten(groups[..g]) + members[..j]
        {
          flattened := flattened + [members[j]];
          j := j + 1;
        }
        assert members[..j] == members;
        assert groups[..g + 1][..g] == groups[..g];
        g := g + 1;
      }
      assert groups[..g] == groups;
      assert Sizes(groups)[..g] == Sizes(groups);
      widgetList := seq(|flattened|, i requires 0 <= i < |flattened| => Name(flattened[i]));
      r := InitWBasicWidgetList(|groups|, widgetsPerRow);
    }

    /** `init_w_box_layout`: rows of `n_columns` widgets and a final
        remainder row. A zero column count divides by zero; a negative one
        asks for no rows. After the layout each widget looks up its column
        width and row height; a list too short for it raises `IndexError`
        (the widths and heights themselves only configure the widgets). */
    method InitWBoxLayout(nColumns: int, columnWidths: BoxSizing, rowHeights: BoxSizing) returns (r: Result<()>)
      modifies this
      ensures nColumns == 0 ==> r == Raise(ZeroDivisionError) && unchanged(this)
      ensures nColumns > 0 ==> rows == seq(|BoxCounts(|widgetList|, nColumns)|, _ => true)
      ensures nColumns > 0 ==>
        placement == PlaceFrom(widgetList, descriptors, |rows|, CumSum(BoxCounts(|widgetList|, nColumns)), 0, 0, old(placement)).1
      ensures nColumns > 0 && PlaceFrom(widgetList, descriptors, |rows|, CumSum(BoxCounts(|widgetList|, nColumns)), 0, 0, old(placement)).0.Raise? ==>
        r == PlaceFrom(widgetList, descriptors, |rows|, CumSum(BoxCounts(|widgetList|, nColumns)), 0, 0, old(placement)).0
      ensures nColumns > 0 && PlaceFrom(widgetList, descriptors, |rows|, CumSum(BoxCounts(|widgetList|, nColumns)), 0, 0, old(placement)).0.Ok? ==>
        (r.Ok? <==> BoxSizingFits(|widgetList|, nColumns, columnWidths, rowHeights)) && (r.Raise? ==> r.exc == IndexError)
      ensures nColumns < 0 ==> rows == [] && (r, placement) == PlaceFrom(widgetList, descriptors, 0, [], 0, 0, old(placement))
      ensures widgetList == old(widgetList)
    {
      if nColumns == 0 {
        return Raise(ZeroDivisionError);
      }
      var total := |widgetList|;
      if nColumns < 0 {
        r := InitWBasicWidgetList(-(total / -nColumns), []);
        // with no row frame every widget fails to be placed, so a successful
        // layout has no widget to size
        assert r.Ok? ==> total == 0;
        return;
      }
      var nRows := (total + nColumns - 1) / nColumns;
      var counts := BoxRowCounts(total, nColumns);
      r := InitWBasicWidgetList(nRows, counts);
      if r.Raise? {
        return;
      }
      var i := 0;
      while i < total
        invariant 0 <= i <= total
        invariant forall j :: 0 <= j < i ==> Covers(columnWidths, ColumnOf(j, nColumns)) && Covers(rowHeights, RowOf(j, nColumns))
      {
        if !Covers(columnWidths, ColumnOf(i, nColumns)) || !Covers(rowHeights, RowOf(i, nColumns)) {
          return Raise(IndexError);
        }
        i := i + 1;
      }
    }

    /** `forget_row`: unpack one row frame; an index out of range is ignored. */
    method ForgetRow(rowValue: int)
      modifies this
      ensures 0 <= rowValue < |old(rows)| ==> rows == old(rows)[rowValue := false]
      ensures !(0 <= rowValue < |old(rows)|) ==> rows == old(rows)
      ensures widgetList == old(widgetList) && placement == old(placement)
    {
      if rowValue < 0 || rowValue >= |rows| {
        return;
      }
      rows := rows[rowValue := false];
    }

    /** `pack_row`: pack one row frame again; an index out of range is ignored. */
    method PackRow(rowValue: int)
      modifies this
      ensures 0 <= rowValue < |old(rows)| ==> rows == old(rows)[rowValue := true]
      ensures !(0 <= rowValue < |old(rows)|) ==> rows == old(rows)
      ensures widgetList == old(widgetList) && placement == old(placement)
    {
      if rowValue < 0 || rowValue >= |rows| {
        return;
      }
      rows := rows[rowValue := true];
    }
  }

  /** `RadioButtonPanel`: a widget panel whose widgets are radio buttons
      sharing one integer variable; `str(i)` keys are written as `i`. */
  class RadioButtonPanel {
    const panel: WidgetPanel
    var selectionDict: map<int, string>
    var selectedValue: int

    constructor (widgetList: seq<WidgetSpec>, descriptors: map<string, string>)
      ensures fresh(panel) && panel.widgetList == widgetList && panel.descriptors == descriptors
      ensures panel.rows == [] && panel.placement == map[]
      ensures selectionDict == map[] && selectedValue == 0
    {
      panel := new WidgetPanel(widgetList, descriptors);
      selectionDict := map[];
      selectedValue := 0;
    }

    /** `_setup_radiobuttons`: button `i` is entered under key `i` (earlier
        entries stay) and button 0 is selected. It runs after a layout has
        created every widget, so every entry is a name. */
    method SetupRadioButtons()
      requires forall k :: 0 <= k < |panel.widgetList| ==> panel.widgetList[k].Name?
      modifies this
      ensures selectedValue == 0
      ensures forall k :: 0 <= k < |panel.widgetList| ==> k in selectionDict && selectionDict[k] == panel.widgetList[k].name
      ensures forall k :: k in selectionDict && !(0 <= k < |panel.widgetList|) ==> k in old(selectionDict) && selectionDict[k] == old(selectionDict)[k]
      ensures forall k :: k in selectionDict <==> k in old(selectionDict) || 0 <= k < |panel.widgetList|
      ensures |panel.widgetList| > 0 ==> Selection() == Ok(panel.widgetList[0].name)
    {
      var i := 0;
      while i < |panel.widgetList|
        invariant 0 <= i <= |panel.widgetList|
        invariant forall k :: 0 <= k < i ==> k in selectionDict && selectionDict[k] == panel.widgetList[k].name
        invariant forall k :: k in selectionDict && !(0 <= k < i) ==> k in old(selectionDict) && selectionDict[k] == old(selectionDict)[k]
        invariant forall k :: k in selectionDict <==> k in old(selectionDict) || 0 <= k < i
      {
        selectionDict := selectionDict[i := panel.widgetList[i].name];
        i := i + 1;
      }
      selectedValue := 0;
    }

    /** `selection`: the button whose index is the variable's value; a
        value no button was entered under is a `KeyError`. */
    function Selection(): (r: Result<string>)
      reads this
      ensures r.Ok? <==> selectedValue in selectionDict
      ensures r.Ok? ==> r.value == selectionDict[selectedValue]
      ensures r.Raise? ==> r.exc == KeyError
    {
      if selectedValue in selectionDict then Ok(selectionDict[selectedValue]) else Raise(KeyError)
    }

    /** `set_selection`. */
    method SetSelection(value: int)
      modifies this
      ensures selectedValue == value && selectionDict == old(selectionDict)
    {
      selectedValue := value;
    }

    /** `init_w_basic_widget_list` of the radio panel: the layout, then the
        button set-up. */
    method InitWBasicWidgetList(nRows: int, counts: seq<int>) returns (r: Result<()>)
      modifies this, panel
      ensures panel.widgetList == old(panel.widgetList) && panel.rows == seq(MaxZero(nRows), _ => true)
      ensures (r, panel.placement) == PlaceFrom(panel.widgetList, panel.descriptors, MaxZero(nRows), CumSum(counts), 0, 0, old(panel.placement))
      ensures r.Ok? ==> selectedValue == 0
      ensures r.Ok? ==> forall k :: 0 <= k < |panel.widgetList| ==>
        panel.widgetList[k].Name? && k in selectionDict && selectionDict[k] == panel.widgetList[k].name
      ensures r.Ok? ==> forall k :: k in selectionDict && !(0 <= k < |panel.widgetList|) ==>
        k in old(selectionDict) && selectionDict[k] == old(selectionDict)[k]
      ensures r.Ok? ==> forall k :: k in selectionDict <==> k in old(selectionDict) || 0 <= k < |panel.widgetList|
      ensures r.Ok? && |panel.widgetList| > 0 ==> Selection() == Ok(panel.widgetList[0].name)
      ensures r.Raise? ==> selectionDict == old(selectionDict) && selectedValue == old(selectedValue)
    {
      r := panel.InitWBasicWidgetList(nRows, counts);
      if r.Ok? {
        SetupRadioButtons();
      }
    }
  }
}

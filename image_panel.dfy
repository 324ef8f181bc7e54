/** The state-keeping parts of tk_builder/panels/image_panel.py: the tool and
    shape selections behind the toolbar's radio buttons, the directory offered
    when saving an image, and the name handling of `hide_tools` and
    `hide_shapes`, which turns a name, or a nest of lists of names, into the
    list of toolbar widgets to hide. */
module ImagePanel {
  import opened Wrappers
  import PyStrings
  import ImageCanvasTool

  /** `Toolbar.tool_controls`: the tool row of the toolbar. */
  const ToolControls: seq<string> :=
    ["tool_label", "zoom_in", "zoom_out", "pan", "select", "view",
     "select_closest_shape", "edit_shape", "shift_shape", "new_shape"]

  /** `Toolbar.shape_controls`: the shape row of the toolbar. */
  const ShapeControls: seq<string> :=
    ["shape_label", "point", "line", "arrow", "rect", "ellipse", "polygon", "text"]

  /** What the alias `shape_drawing` of `hide_tools` stands for. */
  const ShapeDrawing: seq<string> :=
    ["select_closest_shape", "edit_shape", "shift_shape", "new_shape"]

  const Alias: string := "shape_drawing"

  /** The aliased tools are all tool controls, and `hide_shapes` knows no alias. */
  lemma {:induction false} AliasTargetsAreTools()
    ensures forall k :: 0 <= k < |ShapeDrawing| ==> ShapeDrawing[k] in ToolControls
    ensures Alias !in ToolControls && Alias !in ShapeControls
  {
    assert ToolControls[6..] == ShapeDrawing;
  }

  // ---------------------------------------------------------------------
  // Collecting names: the recursive `check_entry`
  // ---------------------------------------------------------------------

  /** One step of `check_entry` on a lower-cased name: an unknown name is a
      `ValueError`; a known one is appended unless already present. */
  function AddName(acc: seq<string>, name: string, controls: seq<string>): (r: Result<seq<string>>)
    ensures name !in controls <==> r == Raise(ValueError)
    ensures r.Ok? ==> name in r.value && (name in acc ==> r.value == acc)
    ensures r.Ok? && name !in acc ==> r.value == acc + [name]
  {
    if name !in controls then Raise(ValueError)
    else if name in acc then Ok(acc)
    else Ok(acc + [name])
  }

  /** `check_entry` on each alias target in turn. */
  function AddEach(acc: seq<string>, names: seq<string>, controls: seq<string>): Result<seq<string>>
    decreases |names|
  {
    if names == [] then Ok(acc)
    else match AddName(acc, names[0], controls)
         case Raise(e) => Raise(e)
         case Ok(acc') => AddEach(acc', names[1..], controls)
  }

  /** How many nodes deep a value reaches into a list's positions; lets the
      list case hand over to `CollectFrom` at position 0. */
  function Width(entry: PyValue): nat
  {
    if entry.PySeq? then |entry.items| + 1 else 0
  }

  /** `check_entry(temp_list, the_entry)` as a value: a string is lower-cased
      (and, in `hide_tools`, `shape_drawing` is expanded); anything else is
      iterated, so a value that is neither a string nor a list raises
      `TypeError`. The result is the grown `temp_list`. */
  function Collect(entry: PyValue, acc: seq<string>, controls: seq<string>, alias: bool): Result<seq<string>>
    decreases entry, Width(entry)
  {
    match entry
    case PyStr(s) =>
      var t := PyStrings.Lower(s);
      if alias && t == Alias then AddEach(acc, ShapeDrawing, controls)
      else AddName(acc, t, controls)
    case PySeq(items, _) => CollectFrom(entry, 0, acc, controls, alias)
    case _ => Raise(TypeError)
  }

  /** The loop `for temp in the_entry` from position `i` on. */
  function CollectFrom(parent: PyValue, i: nat, acc: seq<string>, controls: seq<string>, alias: bool): Result<seq<string>>
    requires parent.PySeq? && i <= |parent.items|
    decreases parent, |parent.items| - i
  {
    if i == |parent.items| then Ok(acc)
    else match Collect(parent.items[i], acc, controls, alias)
         case Raise(e) => Raise(e)
         case Ok(acc') => CollectFrom(parent, i + 1, acc', controls, alias)
  }

  /** `check_entry`, with the list it appends to passed in and handed back:
      recursion into lists, and a loop over their elements. */
  method CheckEntry(entry: PyValue, acc: seq<string>, controls: seq<string>, alias: bool)
      returns (r: Result<seq<string>>)
    ensures r == Collect(entry, acc, controls, alias)
    decreases entry
  {
    match entry {
      case PyStr(s) =>
        var t := PyStrings.Lower(s);
        if alias && t == Alias {
          var cur := acc;
          var k := 0;
          while k < |ShapeDrawing|
            invariant 0 <= k <= |ShapeDrawing|
            invariant AddEach(cur, ShapeDrawing[k..], controls) == AddEach(acc, ShapeDrawing, controls)
          {
            assert ShapeDrawing[k..][1..] == ShapeDrawing[k + 1..];
            var step := AddName(cur, ShapeDrawing[k], controls);
            if step.Raise? {
              return Raise(step.exc);
            }
            cur := step.value;
            k := k + 1;
          }
          return Ok(cur);
        } else {
          return AddName(acc, t, controls);
        }
      case PySeq(items, _) =>
        var cur := acc;
        var i := 0;
        while i < |items|
          invariant 0 <= i <= |items|
          invariant CollectFrom(entry, i, cur, controls, alias) == Collect(entry, acc, controls, alias)
        {
          var sub := CheckEntry(items[i], cur, controls, alias);
          if sub.Raise? {
            return Raise(sub.exc);
          }
          cur := sub.value;
          i := i + 1;
        }
        return Ok(cur);
      case _ =>
        return Raise(TypeError);
    }
  }

  // ---------------------------------------------------------------------
  // A flat reference: the leaves of the entry, then one pass over them
  // ---------------------------------------------------------------------

  /** A leaf of the entry as `check_entry` meets it: a lower-cased name, or a
      value that can be neither named nor iterated. */
  datatype Leaf = Name(name: string) | NotIterable

  /** The leaves of an entry, in the order `check_entry` visits them. */
  function Leaves(entry: PyValue, alias: bool): seq<Leaf>
    decreases entry, Width(entry)
  {
    match entry
    case PyStr(s) =>
      var t := PyStrings.Lower(s);
      if alias && t == Alias then seq(|ShapeDrawing|, k requires 0 <= k < |ShapeDrawing| => Name(ShapeDrawing[k]))
      else [Name(t)]
    case PySeq(items, _) => LeavesFrom(entry, 0, alias)
    case _ => [NotIterable]
  }

  function LeavesFrom(parent: PyValue, i: nat, alias: bool): seq<Leaf>
    requires parent.PySeq? && i <= |parent.items|
    decreases parent, |parent.items| - i
  {
    if i == |parent.items| then [] else Leaves(parent.items[i], alias) + LeavesFrom(parent, i + 1, alias)
  }

  /** A leaf that `check_entry` accepts. */
  predicate Good(l: Leaf, controls: seq<string>)
  {
    l.Name? && l.name in controls
  }

  /** One pass over the leaves: the first bad leaf decides the exception;
      otherwise each name not yet listed is appended. */
  function Scan(acc: seq<string>, leaves: seq<Leaf>, controls: seq<string>): Result<seq<string>>
    decreases |leaves|
  {
    if leaves == [] then Ok(acc)
    else if leaves[0].NotIterable? then Raise(TypeError)
    else match AddName(acc, leaves[0].name, controls)
         case Raise(e) => Raise(e)
         case Ok(acc') => Scan(acc', leaves[1..], controls)
  }

  /** Scanning two runs of leaves is scanning the first, then the second. */
  lemma {:induction false} ScanConcat(acc: seq<string>, a: seq<Leaf>, b: seq<Leaf>, controls: seq<string>)
    ensures Scan(acc, a + b, controls) ==
            (match Scan(acc, a, controls)
             case Raise(e) => Raise(e)
             case Ok(acc') => Scan(acc', b, controls))
    decreases |a|
  {
    if a != [] {
      assert (a + b)[0] == a[0];
      assert (a + b)[1..] == a[1..] + b;
      if !a[0].NotIterable? {
        match AddName(acc, a[0].name, controls)
        case Raise(_) =>
        case Ok(acc') => ScanConcat(acc', a[1..], b, controls);
      }
    } else {
      assert a + b == b;
    }
  }

  lemma {:induction false} AddEachIsScan(acc: seq<string>, names: seq<string>, controls: seq<string>)
    ensures AddEach(acc, names, controls) ==
            Scan(acc, seq(|names|, k requires 0 <= k < |names| => Name(names[k])), controls)
    decreases |names|
  {
    var ls := seq(|names|, k requires 0 <= k < |names| => Name(names[k]));
    if names != [] {
      assert ls[1..] == seq(|names[1..]|, k requires 0 <= k < |names[1..]| => Name(names[1..][k]));
      match AddName(acc, names[0], controls)
      case Raise(_) =>
      case Ok(acc') => AddEachIsScan(acc', names[1..], controls);
    }
  }

  /** The recursive `check_entry` is one pass over the entry's leaves. */
  lemma {:induction false} CollectIsScan(entry: PyValue, acc: seq<string>, controls: seq<string>, alias: bool)
    ensures Collect(entry, acc, controls, alias) == Scan(acc, Leaves(entry, alias), controls)
    decreases entry, Width(entry)
  {
    match entry
    case PyStr(s) =>
      var t := PyStrings.Lower(s);
      if alias && t == Alias {
        AddEachIsScan(acc, ShapeDrawing, controls);
      } else {
        assert Leaves(entry, alias) == [Name(t)];
        assert [Name(t)][1..] == [];
      }
    case PySeq(items, _) => CollectFromIsScan(entry, 0, acc, controls, alias);
    case _ =>
  }

  lemma {:induction false} CollectFromIsScan(parent: PyValue, i: nat, acc: seq<string>, controls: seq<string>, alias: bool)
    requires parent.PySeq? && i <= |parent.items|
    ensures CollectFrom(parent, i, acc, controls, alias) == Scan(acc, LeavesFrom(parent, i, alias), controls)
    decreases parent, |parent.items| - i
  {
    if i < |parent.items| {
      var x := parent.items[i];
      CollectIsScan(x, acc, controls, alias);
      ScanConcat(acc, Leaves(x, alias), LeavesFrom(parent, i + 1, alias), controls);
      match Collect(x, acc, controls, alias)
      case Raise(_) =>
      case Ok(acc') => CollectFromIsScan(parent, i + 1, acc', controls, alias);
    }
  }

  /** The position of the first occurrence of a name among the leaves. */
  function FirstIndex(leaves: seq<Leaf>, x: string): (k: nat)
    requires Name(x) in leaves
    ensures k < |leaves| && leaves[k] == Name(x)
    ensures forall j :: 0 <= j < k ==> leaves[j] != Name(x)
  {
    if leaves[0] == Name(x) then 0 else 1 + FirstIndex(leaves[1..], x)
  }

  /** One pass succeeds exactly when every leaf is a known name. */
  lemma {:induction false} ScanOkIff(acc: seq<string>, leaves: seq<Leaf>, controls: seq<string>)
    ensures Scan(acc, leaves, controls).Ok? <==> forall k :: 0 <= k < |leaves| ==> Good(leaves[k], controls)
    decreases |leaves|
  {
    if leaves != [] && Good(leaves[0], controls) {
      var acc' := AddName(acc, leaves[0].name, controls).value;
      ScanOkIff(acc', leaves[1..], controls);
      assert forall k :: 1 <= k < |leaves| ==> leaves[k] == leaves[1..][k - 1];
    }
  }

  /** On failure the first bad leaf, at `k`, decides: `TypeError` for a
      value that is not iterable, `ValueError` for an unknown name. */
  lemma {:induction false} ScanRaise(acc: seq<string>, leaves: seq<Leaf>, controls: seq<string>) returns (k: nat)
    requires Scan(acc, leaves, controls).Raise?
    ensures k < |leaves| && !Good(leaves[k], controls)
    ensures forall j :: 0 <= j < k ==> Good(leaves[j], controls)
    ensures Scan(acc, leaves, controls).exc == (if leaves[k].NotIterable? then TypeError else ValueError)
    decreases |leaves|
  {
    if !Good(leaves[0], controls) {
      return 0;
    }
    var acc' := AddName(acc, leaves[0].name, controls).value;
    var rest := leaves[1..];
    assert Scan(acc, leaves, controls) == Scan(acc', rest, controls);
    var k' := ScanRaise(acc', rest, controls);
    k := k' + 1;
    assert leaves[k] == rest[k'];
    forall j | 0 <= j < k ensures Good(leaves[j], controls) {
      if j > 0 { assert leaves[j] == rest[j - 1]; }
    }
  }

  /** A successful pass keeps the list it was given in front and appends
      exactly the names it has not yet seen, each once, in the order of
      their first occurrence. */
  lemma {:induction false} ScanOk(acc: seq<string>, leaves: seq<Leaf>, controls: seq<string>)
    requires Scan(acc, leaves, controls).Ok?
    ensures var r := Scan(acc, leaves, controls).value;
      |acc| <= |r| && r[..|acc|] == acc
      && (forall x :: x in r <==> x in acc || Name(x) in leaves)
      && (forall i :: |acc| <= i < |r| ==> r[i] !in acc)
      && (NoDuplicates(acc) ==> NoDuplicates(r))
      && (forall i, j :: |acc| <= i < j < |r| ==> FirstIndex(leaves, r[i]) < FirstIndex(leaves, r[j]))
    decreases |leaves|
  {
    if leaves == [] {
      return;
    }
    var n := leaves[0].name;
    var acc' := AddName(acc, n, controls).value;
    var rest := leaves[1..];
    ScanOk(acc', rest, controls);
    var r := Scan(acc', rest, controls).value;
    assert forall x :: Name(x) in leaves <==> x == n || Name(x) in rest by {
      assert leaves == [leaves[0]] + rest;
    }
    ScanTail(acc, acc', n, leaves, r);
  }

  /** The prefix and order facts of `ScanOk` for a first leaf that is a
      known name `n`, given them for the rest of the leaves. */
  lemma {:induction false} ScanTail(acc: seq<string>, acc': seq<string>, n: string, leaves: seq<Leaf>, r: seq<string>)
    requires leaves != [] && leaves[0] == Name(n)
    requires acc' == (if n in acc then acc else acc + [n])
    requires |acc'| <= |r| && r[..|acc'|] == acc'
    requires forall i :: |acc'| <= i < |r| ==> r[i] !in acc' && Name(r[i]) in leaves[1..]
    requires forall i, j :: |acc'| <= i < j < |r| ==> FirstIndex(leaves[1..], r[i]) < FirstIndex(leaves[1..], r[j])
    ensures |acc| <= |r| && r[..|acc|] == acc
    ensures forall i :: |acc| <= i < |r| ==> r[i] !in acc && Name(r[i]) in leaves
    ensures forall i, j :: |acc| <= i < j < |r| ==> FirstIndex(leaves, r[i]) < FirstIndex(leaves, r[j])
  {
    assert r[..|acc|] == acc'[..|acc|];
    forall i | |acc'| <= i < |r|
      ensures Name(r[i]) in leaves && FirstIndex(leaves, r[i]) == 1 + FirstIndex(leaves[1..], r[i])
    {
      assert r[i] != n;
      assert Name(r[i]) in leaves by { assert leaves == [leaves[0]] + leaves[1..]; }
    }
    forall i | |acc| <= i < |r|
      ensures r[i] !in acc && Name(r[i]) in leaves
    {
      if i < |acc'| {
        assert r[i] == acc'[i] == n;
      }
    }
  }

  /** `check_entry`'s list: known names only, each once, in the order of
      their first mention, and exactly the names mentioned. */
  lemma {:induction false} CollectedNames(entry: PyValue, controls: seq<string>, alias: bool)
    ensures Collect(entry, [], controls, alias).Ok? <==>
            forall k :: 0 <= k < |Leaves(entry, alias)| ==> Good(Leaves(entry, alias)[k], controls)
    ensures Collect(entry, [], controls, alias).Ok? ==> (
      var r := Collect(entry, [], controls, alias).value;
      NoDuplicates(r)
      && (forall x :: x in r <==> Name(x) in Leaves(entry, alias))
      && (forall x :: x in r ==> x in controls)
      && forall i, j :: 0 <= i < j < |r| ==>
           FirstIndex(Leaves(entry, alias), r[i]) < FirstIndex(Leaves(entry, alias), r[j]))
  {
    var ls := Leaves(entry, alias);
    CollectIsScan(entry, [], controls, alias);
    ScanOkIff([], ls, controls);
    if Collect(entry, [], controls, alias).Ok? {
      ScanOk([], ls, controls);
      forall x | Name(x) in ls ensures x in controls {
        var k :| 0 <= k < |ls| && ls[k] == Name(x);
        assert Good(ls[k], controls);
      }
    }
  }

  /** The error of `check_entry` is the one its first bad leaf, at `k`,
      calls for. */
  lemma {:induction false} CollectError(entry: PyValue, controls: seq<string>, alias: bool) returns (k: nat)
    requires Collect(entry, [], controls, alias).Raise?
    ensures k < |Leaves(entry, alias)| && !Good(Leaves(entry, alias)[k], controls)
    ensures forall j :: 0 <= j < k ==> Good(Leaves(entry, alias)[j], controls)
    ensures Collect(entry, [], controls, alias).exc ==
            (if Leaves(entry, alias)[k].NotIterable? then TypeError else ValueError)
  {
    CollectIsScan(entry, [], controls, alias);
    k := ScanRaise([], Leaves(entry, alias), controls);
  }

  /** A name is matched without regard to case. */
  lemma {:induction false} CaseInsensitive(s: string, controls: seq<string>, alias: bool)
    ensures Collect(PyStr(s), [], controls, alias) == Collect(PyStr(PyStrings.Lower(s)), [], controls, alias)
  {
    PyStrings.LowerIdempotent(s);
  }

  /** Distinct known names not yet listed are appended in order. */
  lemma {:induction false} AddEachFresh(acc: seq<string>, names: seq<string>, controls: seq<string>)
    requires NoDuplicates(names)
    requires forall k :: 0 <= k < |names| ==> names[k] in controls && names[k] !in acc
    ensures AddEach(acc, names, controls) == Ok(acc + names)
    decreases |names|
  {
    if names != [] {
      var rest := names[1..];
      forall k | 0 <= k < |rest| ensures rest[k] !in acc + [names[0]] {
        assert rest[k] == names[k + 1];
      }
      assert names[0] !in acc;
      assert AddName(acc, names[0], controls) == Ok(acc + [names[0]]);
      assert NoDuplicates(rest) by {
        forall i, j | 0 <= i < j < |rest| ensures rest[i] != rest[j] {
          assert rest[i] == names[i + 1] && rest[j] == names[j + 1];
        }
      }
      AddEachFresh(acc + [names[0]], rest, controls);
      assert acc + [names[0]] + rest == acc + names;
    } else {
      assert acc + names == acc;
    }
  }

  /** In `hide_tools`, `shape_drawing` stands for its four tools. */
  lemma {:induction false} AliasExpands(s: string)
    requires PyStrings.Lower(s) == Alias
    ensures Collect(PyStr(s), [], ToolControls, true) == Ok(ShapeDrawing)
  {
    AliasTargetsAreTools();
    var sd := ShapeDrawing;
    assert |sd[0]| == 20 && |sd[1]| == 10 && |sd[2]| == 11 && |sd[3]| == 9;
    assert NoDuplicates(sd);
    AddEachFresh([], sd, ToolControls);
    assert [] + sd == sd;
  }

  /** `hide_shapes` knows no alias: `shape_drawing` is an unknown shape. */
  lemma {:induction false} ShapesHaveNoAlias(s: string)
    requires PyStrings.Lower(s) == Alias
    ensures Collect(PyStr(s), [], ShapeControls, false) == Raise(ValueError)
  {
    AliasTargetsAreTools();
  }


  // ---------------------------------------------------------------------
  // The save directory: os.path.split(pathname)[0]
  // ---------------------------------------------------------------------

  /** The position just after the last `/` of `p`, or 0 if it has none. */
  function AfterLastSlash(p: string): (i: nat)
    ensures i <= |p|
    ensures i > 0 ==> p[i - 1] == '/'
    ensures forall k :: i <= k < |p| ==> p[k] != '/'
  {
    if p == [] then 0
    else if p[|p| - 1] == '/' then |p|
    else AfterLastSlash(p[..|p| - 1])
  }

  /** `s.rstrip('/')` */
  function RStripSlashes(s: string): (r: string)
    ensures |r| <= |s| && r == s[..|r|]
    ensures r == [] || r[|r| - 1] != '/'
    ensures forall k :: |r| <= k < |s| ==> s[k] == '/'
  {
    if s != [] && s[|s| - 1] == '/' then RStripSlashes(s[..|s| - 1]) else s
  }

  predicate AllSlashes(s: string)
  {
    forall k :: 0 <= k < |s| ==> s[k] == '/'
  }

  /** The head of `os.path.split` on POSIX: everything up to the last `/`,
      with trailing slashes dropped unless the head is nothing but slashes. */
  function PathHead(p: string): (h: string)
    ensures |h| <= |p| && h == p[..|h|]
  {
    var head := p[..AfterLastSlash(p)];
    if head != [] && !AllSlashes(head) then RStripSlashes(head) else head
  }

  /** The head of a plain file name is empty; the head of `dir/file` is
      `dir`; a file directly under the root has the root as its head. */
  lemma {:induction false} PathHeadOfJoin(dir: string, file: string)
    requires '/' !in file
    ensures PathHead(file) == ""
    ensures dir != [] && dir[|dir| - 1] != '/' ==> PathHead(dir + "/" + file) == dir
    ensures PathHead("/" + file) == "/"
  {
    var p := dir + "/" + file;
    assert forall k :: 0 <= k < |file| ==> file[k] != '/';
    if dir != [] && dir[|dir| - 1] != '/' {
      var i := AfterLastSlash(p);
      assert p[|dir|] == '/';
      assert i == |dir| + 1;
      assert p[..i] == dir + "/";
      assert !AllSlashes(p[..i]) by { assert p[..i][|dir| - 1] == dir[|dir| - 1]; }
      assert (dir + "/")[..|dir|] == dir;
    }
    var q := "/" + file;
    var j := AfterLastSlash(q);
    assert q[0] == '/';
    assert q[..j] == "/";
  }

  /** `_update_image_save_directory`'s choice: the home directory when no
      path is given, otherwise the directory part of the path. */
  function SaveDirectory(home: string, pathname: Option<string>): (d: string)
    ensures pathname.None? || pathname == Some("") ==> d == home
    ensures pathname.Some? && pathname.value != "" ==> d <= pathname.value
  {
    if pathname.None? || pathname.value == "" then home else PathHead(pathname.value)
  }

  // ---------------------------------------------------------------------
  // The panel
  // ---------------------------------------------------------------------

  /** An `ImagePanel` as far as these operations see it: the two radio
      button variables, the save directory, whether the tool and shape rows
      of the toolbar are packed, and the toolbar widgets unpacked one by one. */
  class ImagePanel {
    var theTool: int
    var theShape: int
    var imageSaveDirectory: string
    var toolRowPacked: bool
    var shapeRowPacked: bool
    var unpacked: set<string>
    /** `os.path.expanduser('~')` */
    const home: string

    /** `ImagePanel(parent)`: the view tool, the polygon shape, the home
        directory, and the whole toolbar packed. */
    constructor (registry: ImageCanvasTool.ToolRegistry, home: string)
      requires "VIEW" in registry.nameToEnum
      ensures theTool == registry.nameToEnum["VIEW"] && theShape == ImageCanvasTool.POLYGON
      ensures imageSaveDirectory == home && this.home == home
      ensures toolRowPacked && shapeRowPacked && unpacked == {}
    {
      theTool := registry.nameToEnum["VIEW"];
      theShape := ImageCanvasTool.POLYGON;
      imageSaveDirectory := home;
      this.home := home;
      toolRowPacked := true;
      shapeRowPacked := true;
      unpacked := {};
    }

    /** The `the_tool` setter: an integer (a bool counts as one) is stored,
        a string is looked up in the tool registry, anything else is a
        `ValueError`. A failed lookup leaves the tool as it was. */
    method SetTheTool(value: PyValue, registry: ImageCanvasTool.ToolRegistry) returns (r: Result<()>)
      modifies this
      ensures value.PyInt? ==> r.Ok? && theTool == value.i
      ensures value.PyBool? ==> r.Ok? && theTool == (if value.b then 1 else 0)
      ensures value.PyStr? ==> (
        (r.Ok? <==> value.s in registry.nameToEnum)
        && (r.Ok? ==> theTool == registry.nameToEnum[value.s])
        && (r.Raise? ==> r.exc == KeyError))
      ensures !(value.PyInt? || value.PyBool? || value.PyStr?) ==> r == Raise(ValueError)
      ensures r.Raise? ==> theTool == old(theTool)
      ensures theShape == old(theShape) && imageSaveDirectory == old(imageSaveDirectory)
      ensures toolRowPacked == old(toolRowPacked) && shapeRowPacked == old(shapeRowPacked)
      ensures unpacked == old(unpacked)
    {
      match value {
        case PyInt(i) =>
          theTool := i;
          r := Ok(());
        case PyBool(b) =>
          theTool := if b then 1 else 0;
          r := Ok(());
        case PyStr(s) =>
          var e := registry.GetToolEnum(s);
          if e.Raise? {
            return Raise(e.exc);
          }
          theTool := e.value;
          r := Ok(());
        case _ =>
          r := Raise(ValueError);
      }
    }

    /** The `the_shape` setter: the value is validated against the shape
        constants (a name or a number); anything unknown, a hashable tuple
        included, is a `ValueError`, and an unhashable value a `TypeError`. */
    method SetTheShape(value: PyValue) returns (r: Result<()>)
      modifies this
      ensures r.Ok? <==> ImageCanvasTool.Validate(value).Ok? && ImageCanvasTool.Validate(value).value.Some?
      ensures r.Ok? ==> theShape in ImageCanvasTool.ValuesToNames
      ensures value.PyStr? && value.s in ImageCanvasTool.NamesToValues ==>
                r.Ok? && theShape == ImageCanvasTool.NamesToValues[value.s]
      ensures value.PyInt? && value.i in ImageCanvasTool.ValuesToNames ==> r.Ok? && theShape == value.i
      ensures !Hashable(value) ==> r == Raise(TypeError)
      ensures value.PySeq? && Hashable(value) ==> r == Raise(ValueError)
      ensures r.Raise? ==> theShape == old(theShape)
      ensures theTool == old(theTool) && imageSaveDirectory == old(imageSaveDirectory)
      ensures toolRowPacked == old(toolRowPacked) && shapeRowPacked == old(shapeRowPacked)
      ensures unpacked == old(unpacked)
    {
      var v := ImageCanvasTool.Validate(value);
      if v.Raise? {
        return Raise(v.exc);
      }
      if v.value.None? {
        return Raise(ValueError);
      }
      // the variable is an IntVar: the validated value is stored as its integer
      var k := ImageCanvasTool.AsIntKey(v.value.value);
      if k.None? {
        assert false;
      }
      theShape := k.value;
      r := Ok(());
    }

    /** `_update_image_save_directory` */
    method UpdateImageSaveDirectory(pathname: Option<string>)
      modifies this
      ensures imageSaveDirectory == SaveDirectory(home, pathname)
      ensures theTool == old(theTool) && theShape == old(theShape)
      ensures toolRowPacked == old(toolRowPacked) && shapeRowPacked == old(shapeRowPacked)
      ensures unpacked == old(unpacked)
    {
      if pathname.None? || pathname.value == "" {
        imageSaveDirectory := home;
      } else {
        imageSaveDirectory := PathHead(pathname.value);
      }
    }

    /** The common tail of `hide_tools` and `hide_shapes`: when the names are
        the whole row, the row's frame is forgotten; otherwise each listed
        widget is unpacked. */
    method HideRow(names: seq<string>, controls: seq<string>, isToolRow: bool)
      modifies this
      ensures (set x | x in names) == (set x | x in controls) ==>
                unpacked == old(unpacked)
                && (isToolRow ==> !toolRowPacked && shapeRowPacked == old(shapeRowPacked))
                && (!isToolRow ==> !shapeRowPacked && toolRowPacked == old(toolRowPacked))
      ensures (set x | x in names) != (set x | x in controls) ==>
                (forall x :: x in unpacked <==> x in old(unpacked) || x in names)
                && toolRowPacked == old(toolRowPacked) && shapeRowPacked == old(shapeRowPacked)
      ensures theTool == old(theTool) && theShape == old(theShape)
      ensures imageSaveDirectory == old(imageSaveDirectory)
    {
      if (set x | x in names) == (set x | x in controls) {
        if isToolRow {
          toolRowPacked := false;
        } else {
          shapeRowPacked := false;
        }
      } else {
        var k := 0;
        while k < |names|
          invariant 0 <= k <= |names|
          invariant forall x :: x in unpacked <==> x in old(unpacked) || x in names[..k]
          invariant toolRowPacked == old(toolRowPacked) && shapeRowPacked == old(shapeRowPacked)
          invariant theTool == old(theTool) && theShape == old(theShape)
          invariant imageSaveDirectory == old(imageSaveDirectory)
        {
          assert names[..k + 1] == names[..k] + [names[k]];
          unpacked := unpacked + {names[k]};
          k := k + 1;
        }
        assert names[..k] == names;
      }
    }

    /** `hide_tools(tool_list)`: `None` stands for every tool; otherwise
        the names are collected by `check_entry`, and a bad entry raises
        before anything is hidden. */
    method HideTools(toolList: PyValue) returns (r: Result<()>)
      modifies this
      ensures toolList.PyNone? ==> r.Ok? && !toolRowPacked && unpacked == old(unpacked)
      ensures !toolList.PyNone? ==> (r.Ok? <==> Collect(toolList, [], ToolControls, true).Ok?)
      ensures r.Raise? ==> r.exc in {TypeError, ValueError}
      ensures r.Raise? ==> toolRowPacked == old(toolRowPacked) && unpacked == old(unpacked)
      ensures r.Ok? && !toolList.PyNone? ==> (
        var names := Collect(toolList, [], ToolControls, true).value;
        ((set x | x in names) == (set x | x in ToolControls) ==> !toolRowPacked && unpacked == old(unpacked))
        && ((set x | x in names) != (set x | x in ToolControls) ==>
              toolRowPacked == old(toolRowPacked)
              && forall x :: x in unpacked <==> x in old(unpacked) || x in names))
      ensures shapeRowPacked == old(shapeRowPacked)
      ensures theTool == old(theTool) && theShape == old(theShape)
      ensures imageSaveDirectory == old(imageSaveDirectory)
    {
      var names: seq<string>;
      if toolList.PyNone? {
        names := ToolControls;
      } else {
        var c := CheckEntry(toolList, [], ToolControls, true);
        if c.Raise? {
          var _ := CollectError(toolList, ToolControls, true);
          return Raise(c.exc);
        }
        names := c.value;
      }
      HideRow(names, ToolControls, true);
      r := Ok(());
    }

    /** `hide_shapes(shape_list)`: as `hide_tools`, on the shape row and with
        no alias. */
    method HideShapes(shapeList: PyValue) returns (r: Result<()>)
      modifies this
      ensures shapeList.PyNone? ==> r.Ok? && !shapeRowPacked && unpacked == old(unpacked)
      ensures !shapeList.PyNone? ==> (r.Ok? <==> Collect(shapeList, [], ShapeControls, false).Ok?)
      ensures r.Raise? ==> r.exc in {TypeError, ValueError}
      ensures r.Raise? ==> shapeRowPacked == old(shapeRowPacked) && unpacked == old(unpacked)
      ensures r.Ok? && !shapeList.PyNone? ==> (
        var names := Collect(shapeList, [], ShapeControls, false).value;
        ((set x | x in names) == (set x | x in ShapeControls) ==> !shapeRowPacked && unpacked == old(unpacked))
        && ((set x | x in names) != (set x | x in ShapeControls) ==>
              shapeRowPacked == old(shapeRowPacked)
              && forall x :: x in unpacked <==> x in old(unpacked) || x in names))
      ensures toolRowPacked == old(toolRowPacked)
      ensures theTool == old(theTool) && theShape == old(theShape)
      ensures imageSaveDirectory == old(imageSaveDirectory)
    {
      var names: seq<string>;
      if shapeList.PyNone? {
        names := ShapeControls;
      } else {
        var c := CheckEntry(shapeList, [], ShapeControls, false);
        if c.Raise? {
          var _ := CollectError(shapeList, ShapeControls, false);
          return Raise(c.exc);
        }
        names := c.value;
      }
      HideRow(names, ShapeControls, false);
      r := Ok(());
    }
  }
}

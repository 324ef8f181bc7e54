/** tkinter file-dialog filters that list every extension in both lower and
    upper case (tk_builder/file_filters.py). */
module FileFilters {
  import opened Wrappers
  import opened PyStrings

  /** The `filter_list` argument: one space-delimited string, or a list of extensions. */
  datatype FilterList = Text(text: string) | Names(names: seq<string>)

  /** The pattern part of a filetypes entry: a bare string when there is exactly
      one pattern, a list otherwise (the empty list included). */
  datatype Patterns = Single(pattern: string) | Many(patterns: seq<string>)

  /** A `(title, patterns)` entry as handed to a tkinter file dialog. */
  datatype FilterEntry = FilterEntry(title: string, patterns: Patterns)

  /** The extensions the argument stands for; a string is stripped and split on whitespace. */
  function Entries(f: FilterList): seq<string>
  {
    match f
    case Text(t) => Split(Strip(t))
    case Names(ns) => ns
  }

  /** The lower-case then upper-case form of every entry, in entry order. */
  function Forms(entries: seq<string>): (r: seq<string>)
    ensures |r| == 2 * |entries|
    ensures forall k :: 0 <= k < |entries| ==> r[2 * k] == Lower(entries[k]) && r[2 * k + 1] == Upper(entries[k])
  {
    if entries == [] then []
    else
      var last := entries[|entries| - 1];
      Forms(entries[..|entries| - 1]) + [Lower(last), Upper(last)]
  }

  /** Append `x` unless it is already present. */
  function Push(d: seq<string>, x: string): seq<string>
  {
    if x in d then d else d + [x]
  }

  /** The distinct values of `xs`, in the order of their first occurrence (see DedupFirstOccurrence). */
  function Dedup(xs: seq<string>): seq<string>
  {
    if xs == [] then [] else Push(Dedup(xs[..|xs| - 1]), xs[|xs| - 1])
  }

  function Elements(p: Patterns): seq<string>
  {
    match p
    case Single(x) => [x]
    case Many(xs) => xs
  }

  /** The single-or-list choice at the end of `_include_uppercase`. */
  function AsPatterns(out: seq<string>): (p: Patterns)
    ensures Elements(p) == out
    ensures p.Single? <==> |out| == 1
  {
    if |out| == 1 then Single(out[0]) else Many(out)
  }

  /** What `_include_uppercase` returns for `f`. */
  function Included(f: FilterList): Patterns
  {
    AsPatterns(Dedup(Forms(Entries(f))))
  }

  /** The nested `add_element`: both forms of `element`, each appended only if absent. */
  method AddElement(out: seq<string>, element: string) returns (out': seq<string>)
    ensures out' == Push(Push(out, Lower(element)), Upper(element))
  {
    var lVers := Lower(element);
    var uVers := Upper(element);
    out' := out;
    if lVers !in out' {
      out' := out' + [lVers];
    }
    if uVers !in out' {
      out' := out' + [uVers];
    }
  }

  /** `_include_uppercase(filter_list)` */
  method IncludeUppercase(f: FilterList) returns (p: Patterns)
    ensures p == AsPatterns(Dedup(Forms(Entries(f))))
  {
    var entries: seq<string>;
    if f.Text? {
      entries := Split(Strip(f.text));
    } else {
      entries := f.names;
    }
    var out: seq<string> := [];
    var i := 0;
    while i < |entries|
      invariant 0 <= i <= |entries|
      invariant out == Dedup(Forms(entries[..i]))
    {
      out := AddElement(out, entries[i]);
      FormsStep(entries, i);
      DedupPushTwo(Forms(entries[..i]), Lower(entries[i]), Upper(entries[i]));
      i := i + 1;
    }
    assert entries[..|entries|] == entries;
    if |out| == 1 {
      p := Single(out[0]);
    } else {
      p := Many(out);
    }
  }

  /** `create_filter_entry(title, filter_list)` */
  method CreateFilterEntry(title: string, f: FilterList) returns (e: FilterEntry)
    ensures e.title == title && e.patterns == Included(f)
  {
    var patterns := IncludeUppercase(f);
    e := FilterEntry(title, patterns);
  }

  lemma {:induction false} FormsStep(entries: seq<string>, i: nat)
    requires i < |entries|
    ensures Forms(entries[..i + 1]) == Forms(entries[..i]) + [Lower(entries[i]), Upper(entries[i])]
  {
    assert entries[..i + 1][..i] == entries[..i];
  }

  lemma {:induction false} DedupPushTwo(xs: seq<string>, a: string, b: string)
    ensures Dedup(xs + [a, b]) == Push(Push(Dedup(xs), a), b)
  {
    assert (xs + [a, b])[..|xs| + 1] == xs + [a];
    assert (xs + [a])[..|xs|] == xs;
  }

  /** The result never lists a pattern twice. */
  lemma {:induction false} DedupNoDuplicates(xs: seq<string>)
    ensures NoDuplicates(Dedup(xs))
  {
    if xs != [] {
      DedupNoDuplicates(xs[..|xs| - 1]);
    }
  }

  /** The result holds exactly the values of its input. */
  lemma {:induction false} DedupSameValues(xs: seq<string>)
    ensures forall x :: x in Dedup(xs) <==> x in xs
  {
    if xs != [] {
      var init := xs[..|xs| - 1];
      DedupSameValues(init);
      assert xs == init + [xs[|xs| - 1]];
    }
  }

  /** Input that already has no duplicates passes through in its own order. */
  lemma {:induction false} DedupKeepsDistinct(xs: seq<string>)
    requires NoDuplicates(xs)
    ensures Dedup(xs) == xs
  {
    if xs != [] {
      var init := xs[..|xs| - 1];
      DedupKeepsDistinct(init);
      assert xs[|xs| - 1] !in init by {
        forall k | 0 <= k < |init| ensures init[k] != xs[|xs| - 1] {
          assert init[k] == xs[k];
        }
      }
      assert xs == init + [xs[|xs| - 1]];
    }
  }

  /** The position of the first occurrence of `x` in `xs`, or `|xs|` when there is none. */
  function FirstAt(xs: seq<string>, x: string): (k: nat)
    ensures k <= |xs| && x !in xs[..k]
    ensures k < |xs| <==> x in xs
    ensures k < |xs| ==> xs[k] == x
  {
    if xs == [] then 0
    else if xs[0] == x then 0
    else
      var k := 1 + FirstAt(xs[1..], x);
      assert xs[..k] == [xs[0]] + xs[1..][..k - 1];
      assert xs == [xs[0]] + xs[1..];
      k
  }

  /** A position holding `x` with no `x` before it is the first occurrence. */
  lemma {:induction false} FirstAtUnique(xs: seq<string>, x: string, k: nat)
    requires k < |xs| && xs[k] == x && x !in xs[..k]
    ensures FirstAt(xs, x) == k
  {
  }

  /** Appending a value does not move the first occurrence of one already present. */
  lemma {:induction false} FirstPrefix(init: seq<string>, last: string, x: string)
    requires x in init
    ensures FirstAt(init + [last], x) == FirstAt(init, x)
  {
    var k := FirstAt(init, x);
    assert (init + [last])[..k] == init[..k];
    FirstAtUnique(init + [last], x, k);
  }

  /** The result lists its values in the order of their first occurrence in the input. */
  lemma {:induction false} DedupFirstOccurrence(xs: seq<string>)
    ensures forall i, j :: 0 <= i < j < |Dedup(xs)| ==> FirstAt(xs, Dedup(xs)[i]) < FirstAt(xs, Dedup(xs)[j])
  {
    if xs != [] {
      var init := xs[..|xs| - 1];
      var last := xs[|xs| - 1];
      var d := Dedup(init);
      assert xs == init + [last];
      assert Dedup(xs) == Push(d, last);
      DedupFirstOccurrence(init);
      DedupSameValues(init);
      forall i | 0 <= i < |d|
        ensures FirstAt(xs, d[i]) == FirstAt(init, d[i]) < |init|
      {
        assert d[i] in init;
        FirstPrefix(init, last, d[i]);
      }
      if last !in d {
        assert last !in init;
        assert xs[..|init|] == init;
        FirstAtUnique(xs, last, |xs| - 1);
        var r := d + [last];
        forall i, j | 0 <= i < j < |r|
          ensures FirstAt(xs, r[i]) < FirstAt(xs, r[j])
        {
          if j < |d| {
            assert r[i] == d[i] && r[j] == d[j];
          } else {
            assert r[i] == d[i] && r[j] == last;
          }
        }
      }
    }
  }

  /** Both forms of every entry appear among the forms. */
  lemma {:induction false} FormsCover(entries: seq<string>)
    ensures forall e :: e in entries ==> Lower(e) in Forms(entries) && Upper(e) in Forms(entries)
  {
    var forms := Forms(entries);
    forall e | e in entries
      ensures Lower(e) in forms && Upper(e) in forms
    {
      var k :| 0 <= k < |entries| && entries[k] == e;
      assert forms[2 * k] == Lower(e);
      assert forms[2 * k + 1] == Upper(e);
    }
  }

  /** Every form is the lower- or upper-case form of some entry. */
  lemma {:induction false} FormsOnly(entries: seq<string>)
    ensures forall x :: x in Forms(entries) ==>
      exists k :: 0 <= k < |entries| && (x == Lower(entries[k]) || x == Upper(entries[k]))
  {
    var forms := Forms(entries);
    forall x | x in forms
      ensures exists k :: 0 <= k < |entries| && (x == Lower(entries[k]) || x == Upper(entries[k]))
    {
      var j :| 0 <= j < |forms| && forms[j] == x;
      var k := j / 2;
      assert j == 2 * k || j == 2 * k + 1;
      assert x == Lower(entries[k]) || x == Upper(entries[k]);
    }
  }

  /** Both forms of every entry are listed, nothing else is, nothing twice, and
      in the order in which the forms first occur. */
  lemma {:induction false} IncludedPatterns(f: FilterList)
    ensures NoDuplicates(Elements(Included(f)))
    ensures forall e :: e in Entries(f) ==> Lower(e) in Elements(Included(f)) && Upper(e) in Elements(Included(f))
    ensures forall x :: x in Elements(Included(f)) ==>
      exists k :: 0 <= k < |Entries(f)| && (x == Lower(Entries(f)[k]) || x == Upper(Entries(f)[k]))
    ensures forall i, j :: 0 <= i < j < |Elements(Included(f))| ==>
      FirstAt(Forms(Entries(f)), Elements(Included(f))[i]) < FirstAt(Forms(Entries(f)), Elements(Included(f))[j])
  {
    var forms := Forms(Entries(f));
    DedupFirstOccurrence(forms);
    DedupNoDuplicates(forms);
    DedupSameValues(forms);
    FormsCover(Entries(f));
    FormsOnly(Entries(f));
  }

  /** A string filter gives the same patterns however much whitespace surrounds it. */
  lemma {:induction false} TextSameAsNames(t: string)
    ensures Included(Text(t)) == Included(Names(Split(t)))
  {
    SplitStrip(t);
  }

  lemma {:induction false} FormsOfOne(e: string)
    ensures Forms([e]) == [Lower(e), Upper(e)]
  {
    assert [e][..0] == [];
  }

  /** `all_files`: '*' has a single form, so the entry holds a bare string. */
  lemma {:induction false} AllFiles()
    ensures Included(Text("*")) == Single("*")
  {
    AllEntries();
    FormsOfOne("*");
    assert Dedup(["*", "*"]) == ["*"] by {
      assert ["*", "*"][..1] == ["*"];
      assert ["*"][..0] == [];
    }
  }

  /** `json_files` */
  lemma {:induction false} JsonFiles()
    ensures Included(Text(".json")) == Many([".json", ".JSON"])
  {
    JsonEntries();
    JsonForms();
    JsonDistinct();
    assert Included(Text(".json")) == AsPatterns([".json", ".JSON"]);
  }

  lemma {:induction false} JsonDistinct()
    ensures Dedup([".json", ".JSON"]) == [".json", ".JSON"]
  {
    assert ".json"[1] != ".JSON"[1];
    DedupKeepsDistinct([".json", ".JSON"]);
  }

  lemma {:induction false} JsonForms()
    ensures Forms([".json"]) == [".json", ".JSON"]
  {
    FormsOfOne(".json");
    assert Lower(".json") == ".json" && Upper(".json") == ".JSON";
  }

  lemma {:induction false} AllEntries()
    ensures Entries(Text("*")) == ["*"]
  {
    StripUnchanged("*");
    SplitOneWord("*");
  }

  lemma {:induction false} JsonEntries()
    ensures Entries(Text(".json")) == [".json"]
  {
    StripUnchanged(".json");
    SplitOneWord(".json");
  }

  lemma {:induction false} TiffEntries()
    ensures Entries(Text(".tiff .tif")) == [".tiff", ".tif"]
  {
    TiffStrip();
    TiffSplit();
  }

  lemma {:induction false} TiffStrip()
    ensures Strip(".tiff .tif") == ".tiff .tif"
  {
    StripUnchanged(".tiff .tif");
  }

  lemma {:induction false} TiffSplit()
    ensures Split(".tiff .tif") == [".tiff", ".tif"]
  {
    TiffSplitHead();
    TiffSplitTail();
    assert [".tiff"] + [".tif"] == [".tiff", ".tif"];
  }

  lemma {:induction false} TiffSplitHead()
    ensures Split(".tiff .tif") == [".tiff"] + Split(" .tif")
  {
    assert ".tiff .tif" == ".tiff" + " .tif";
    WordOfWord(".tiff");
    SplitWordThen(".tiff", " .tif");
  }

  lemma {:induction false} TiffSplitTail()
    ensures Split(" .tif") == [".tif"]
  {
    assert " .tif"[1..] == ".tif";
    SplitOneWord(".tif");
  }

  lemma {:induction false} TiffForms()
    ensures Forms([".tiff", ".tif"]) == [".tiff", ".TIFF", ".tif", ".TIF"]
  {
    assert [".tiff", ".tif"][..1] == [".tiff"];
    assert Lower(".tif") == ".tif" && Upper(".tif") == ".TIF";
    FormsOfOne(".tiff");
    assert Lower(".tiff") == ".tiff" && Upper(".tiff") == ".TIFF";
  }

  lemma {:induction false} TiffDistinct()
    ensures Dedup([".tiff", ".TIFF", ".tif", ".TIF"]) == [".tiff", ".TIFF", ".tif", ".TIF"]
  {
    DedupKeepsDistinct([".tiff", ".TIFF", ".tif", ".TIF"]);
  }

  /** `tiff_files` */
  lemma {:induction false} TiffFiles()
    ensures Included(Text(".tiff .tif")) == Many([".tiff", ".TIFF", ".tif", ".TIF"])
  {
    TiffEntries();
    TiffForms();
    TiffDistinct();
  }
}

/** The few Python `str` methods the toolkit relies on (case folding for ASCII
    letters only): `lower`, `upper`, `strip` and the argument-less `split`. */
module PyStrings {

  /** `str.isspace()` of one character, which `strip()` and `split()` also
      use: the ASCII controls tab to carriage return and file to unit
      separator, and the Unicode space and line or paragraph separators. */
  predicate IsSpace(c: char)
  {
    ('\t' <= c <= '\r') || ('\U{001C}' <= c <= '\U{001F}') || c == ' ' ||
    c == '\U{0085}' || c == '\U{00A0}' || c == '\U{1680}' || ('\U{2000}' <= c <= '\U{200A}') ||
    c == '\U{2028}' || c == '\U{2029}' || c == '\U{202F}' || c == '\U{205F}' || c == '\U{3000}'
  }

  function LowerChar(c: char): char
  {
    if 'A' <= c <= 'Z' then (c as int + 32) as char else c
  }

  function UpperChar(c: char): char
  {
    if 'a' <= c <= 'z' then (c as int - 32) as char else c
  }

  /** `s.lower()`: same length, every letter folded to lower case. */
  function Lower(s: string): (r: string)
    ensures |r| == |s|
    ensures forall i :: 0 <= i < |s| ==> r[i] == LowerChar(s[i])
  {
    if s == [] then [] else [LowerChar(s[0])] + Lower(s[1..])
  }

  /** `s.upper()`: same length, every letter folded to upper case. */
  function Upper(s: string): (r: string)
    ensures |r| == |s|
    ensures forall i :: 0 <= i < |s| ==> r[i] == UpperChar(s[i])
  {
    if s == [] then [] else [UpperChar(s[0])] + Upper(s[1..])
  }

  lemma {:induction false} LowerIdempotent(s: string)
    ensures Lower(Lower(s)) == Lower(s)
  {
    assert forall i :: 0 <= i < |s| ==> LowerChar(LowerChar(s[i])) == LowerChar(s[i]);
  }

  /** `s.lstrip()` */
  function StripLeft(s: string): (r: string)
    ensures |r| <= |s| && r == s[|s| - |r|..]
    ensures r == [] || !IsSpace(r[0])
    ensures forall i :: 0 <= i < |s| - |r| ==> IsSpace(s[i])
  {
    if s == [] || !IsSpace(s[0]) then s else StripLeft(s[1..])
  }

  /** `s.rstrip()` */
  function StripRight(s: string): (r: string)
    ensures |r| <= |s| && r == s[..|r|]
    ensures r == [] || !IsSpace(r[|r| - 1])
    ensures forall i :: |r| <= i < |s| ==> IsSpace(s[i])
  {
    if s == [] || !IsSpace(s[|s| - 1]) then s else StripRight(s[..|s| - 1])
  }

  /** `s.strip()` */
  function Strip(s: string): string
  {
    StripRight(StripLeft(s))
  }

  /** The longest prefix of `s` free of whitespace. */
  function Word(s: string): (w: string)
    ensures |w| <= |s| && w == s[..|w|]
    ensures forall i :: 0 <= i < |w| ==> !IsSpace(w[i])
    ensures |w| == |s| || IsSpace(s[|w|])
  {
    if s == [] || IsSpace(s[0]) then [] else [s[0]] + Word(s[1..])
  }

  /** `s.split()`: the maximal runs of non-whitespace characters, in order. */
  function Split(s: string): seq<string>
    decreases |s|
  {
    if s == [] then []
    else if IsSpace(s[0]) then Split(s[1..])
    else
      var w := Word(s);
      [w] + Split(s[|w|..])
  }

  predicate AllSpace(s: string)
  {
    forall i :: 0 <= i < |s| ==> IsSpace(s[i])
  }

  /** Every piece `split` returns is non-empty and holds no whitespace. */
  lemma {:induction false} SplitPiecesAreWords(s: string)
    ensures forall k :: 0 <= k < |Split(s)| ==>
      Split(s)[k] != [] && forall i :: 0 <= i < |Split(s)[k]| ==> !IsSpace(Split(s)[k][i])
    decreases |s|
  {
    if s == [] {
    } else if IsSpace(s[0]) {
      SplitPiecesAreWords(s[1..]);
    } else {
      var w := Word(s);
      SplitPiecesAreWords(s[|w|..]);
      assert Split(s) == [w] + Split(s[|w|..]);
    }
  }

  lemma {:induction false} SplitOfSpaces(s: string)
    requires AllSpace(s)
    ensures Split(s) == []
    decreases |s|
  {
    if s != [] {
      SplitOfSpaces(s[1..]);
    }
  }

  /** Trailing whitespace never changes what `split` returns. */
  lemma {:induction false} SplitAppendSpaces(s: string, t: string)
    requires AllSpace(t)
    ensures Split(s + t) == Split(s)
    decreases |s|
  {
    if s == [] {
      assert s + t == t;
      SplitOfSpaces(t);
    } else if IsSpace(s[0]) {
      assert (s + t)[1..] == s[1..] + t;
      SplitAppendSpaces(s[1..], t);
    } else {
      var w := Word(s);
      var wt := Word(s + t);
      if |w| < |s| {
        assert Word(s + t) == w by { WordPrefixStable(s, t); }
        assert (s + t)[|w|..] == s[|w|..] + t;
        SplitAppendSpaces(s[|w|..], t);
      } else {
        assert w == s;
        WordThenSpace(s, t);
        assert wt == s;
        assert (s + t)[|s|..] == t;
        SplitOfSpaces(t);
        assert s[|s|..] == [];
      }
    }
  }

  /** A word that ends before the end of `s` is not affected by what follows `s`. */
  lemma {:induction false} WordPrefixStable(s: string, t: string)
    requires |Word(s)| < |s|
    ensures Word(s + t) == Word(s)
    decreases |s|
  {
    if IsSpace(s[0]) {
      assert (s + t)[0] == s[0];
    } else {
      assert (s + t)[0] == s[0];
      assert (s + t)[1..] == s[1..] + t;
      WordPrefixStable(s[1..], t);
    }
  }

  /** A whitespace-free prefix followed by whitespace (or nothing) is the first word. */
  lemma {:induction false} WordThenSpace(s: string, t: string)
    requires Word(s) == s && (t == [] || IsSpace(t[0]))
    ensures Word(s + t) == s
    decreases |s|
  {
    if s == [] {
      assert s + t == t;
    } else {
      assert !IsSpace(s[0]);
      assert (s + t)[0] == s[0];
      assert (s + t)[1..] == s[1..] + t;
      assert Word(s[1..]) == s[1..];
      WordThenSpace(s[1..], t);
    }
  }

  /** `split` of a word followed by whitespace-led text. */
  lemma {:induction false} SplitWordThen(w: string, t: string)
    requires w != [] && Word(w) == w && (t == [] || IsSpace(t[0]))
    ensures Split(w + t) == [w] + Split(t)
  {
    WordThenSpace(w, t);
    assert (w + t)[0] == w[0];
    assert (w + t)[|w|..] == t;
  }

  /** Leading whitespace never changes what `split` returns. */
  lemma {:induction false} SplitStripLeft(s: string)
    ensures Split(StripLeft(s)) == Split(s)
    decreases |s|
  {
    if s != [] && IsSpace(s[0]) {
      SplitStripLeft(s[1..]);
    }
  }

  /** `s.strip().split() == s.split()` */
  lemma {:induction false} SplitStrip(s: string)
    ensures Split(Strip(s)) == Split(s)
  {
    var l := StripLeft(s);
    var r := StripRight(l);
    var tail := l[|r|..];
    assert l == r + tail by {
      assert r == l[..|r|];
    }
    StrippedTailIsSpace(l, r, tail);
    calc {
      Split(Strip(s));
      Split(r);
      { SplitAppendSpaces(r, tail); }
      Split(r + tail);
      Split(l);
      { SplitStripLeft(s); }
      Split(s);
    }
  }

  /** What `rstrip()` removes is whitespace. */
  lemma {:induction false} StrippedTailIsSpace(l: string, r: string, tail: string)
    requires r == StripRight(l) && tail == l[|r|..]
    ensures AllSpace(tail)
  {
    forall i | 0 <= i < |tail| ensures IsSpace(tail[i]) {
      assert tail[i] == l[|r| + i];
    }
  }

  /** A string that neither starts nor ends with whitespace is its own `strip()`. */
  lemma {:induction false} StripUnchanged(s: string)
    requires s == [] || (!IsSpace(s[0]) && !IsSpace(s[|s| - 1]))
    ensures Strip(s) == s
  {
  }

  /** A string without whitespace is its own first word. */
  lemma {:induction false} WordOfWord(w: string)
    requires forall i :: 0 <= i < |w| ==> !IsSpace(w[i])
    ensures Word(w) == w
    decreases |w|
  {
    if w != [] {
      WordOfWord(w[1..]);
      assert w == [w[0]] + w[1..];
    }
  }

  /** `w.split() == [w]` for a non-empty string without whitespace. */
  lemma {:induction false} SplitOneWord(w: string)
    requires w != [] && forall i :: 0 <= i < |w| ==> !IsSpace(w[i])
    ensures Split(w) == [w]
  {
    WordOfWord(w);
    SplitWordThen(w, "");
    assert w + "" == w;
  }
}

/** The Python string built-ins the drill trainer relies on, written out:
    `str.strip()`, `str.strip(chars)`, `str.lower()`, `str.split()` and
    `" ".join(...)`, with the properties the rest of the model needs. */
module Text {

  /** The characters for which Python's `str.isspace()` holds; `strip()` and
      `split()` called without arguments treat exactly these as whitespace. */
  const Whitespace: set<char> := {
    ' ', '\t', '\n', '\r', '\U{000B}', '\U{000C}',
    '\U{001C}', '\U{001D}', '\U{001E}', '\U{001F}', '\U{0085}', '\U{00A0}',
    '\U{1680}', '\U{2000}', '\U{2001}', '\U{2002}', '\U{2003}', '\U{2004}',
    '\U{2005}', '\U{2006}', '\U{2007}', '\U{2008}', '\U{2009}', '\U{200A}',
    '\U{2028}', '\U{2029}', '\U{202F}', '\U{205F}', '\U{3000}'
  }

  ghost predicate AllIn(s: string, cs: set<char>) {
    forall k :: 0 <= k < |s| ==> s[k] in cs
  }

  // ---------------------------------------------------------------------
  // strip

  /** `s.lstrip(cs)`: drops the longest prefix made of characters in `cs`. */
  function TrimStart(s: string, cs: set<char>): (r: string)
    ensures |r| <= |s| && r == s[|s| - |r|..]
    ensures r == [] || r[0] !in cs
    ensures AllIn(s[..|s| - |r|], cs)
  {
    if s != [] && s[0] in cs then TrimStart(s[1..], cs) else s
  }

  /** `s.rstrip(cs)`: drops the longest suffix made of characters in `cs`. */
  function TrimEnd(s: string, cs: set<char>): (r: string)
    ensures |r| <= |s| && r == s[..|r|]
    ensures r == [] || r[|r| - 1] !in cs
    ensures AllIn(s[|r|..], cs)
  {
    if s != [] && s[|s| - 1] in cs then TrimEnd(s[..|s| - 1], cs) else s
  }

  /** `s` with `s[..i]` and `s[j..]` made of characters in `cs`, and
      `s[i..j]` neither starting nor ending with one: what stripping keeps. */
  ghost predicate StripsTo(s: string, cs: set<char>, i: int, j: int) {
    && 0 <= i <= j <= |s|
    && AllIn(s[..i], cs)
    && AllIn(s[j..], cs)
    && (i < j ==> s[i] !in cs && s[j - 1] !in cs)
  }

  /** `s.strip(cs)`: a contiguous piece of `s`; everything cut off at either
      end is in `cs`, and the piece neither starts nor ends with a member. */
  function StripChars(s: string, cs: set<char>): (r: string)
    ensures exists i, j :: StripsTo(s, cs, i, j) && r == s[i..j]
  {
    var left := TrimStart(s, cs);
    var r := TrimEnd(left, cs);
    var i := |s| - |left|;
    assert r == s[i..i + |r|] && StripsTo(s, cs, i, i + |r|) by {
      assert s[i..] == left;
      assert s[i..i + |r|] == left[..|r|];
      assert s[i + |r|..] == left[|r|..];
    }
    r
  }

  /** `s.strip()`. */
  function Strip(s: string): string {
    StripChars(s, Whitespace)
  }

  lemma {:induction false} TrimStartPadded(w: string, s: string, cs: set<char>)
    requires AllIn(w, cs)
    ensures TrimStart(w + s, cs) == TrimStart(s, cs)
  {
    if w == [] {
      assert w + s == s;
    } else {
      assert (w + s)[1..] == w[1..] + s;
      TrimStartPadded(w[1..], s, cs);
    }
  }

  lemma {:induction false} TrimEndPadded(s: string, w: string, cs: set<char>)
    requires AllIn(w, cs)
    ensures TrimEnd(s + w, cs) == TrimEnd(s, cs)
    decreases |w|
  {
    if w == [] {
      assert s + w == s;
    } else {
      var n := |w| - 1;
      assert (s + w)[..|s + w| - 1] == s + w[..n];
      TrimEndPadded(s, w[..n], cs);
    }
  }

  lemma {:induction false} TrimStartAppend(s: string, t: string, cs: set<char>)
    ensures TrimStart(s + t, cs) ==
            if TrimStart(s, cs) == [] then TrimStart(t, cs) else TrimStart(s, cs) + t
  {
    if s == [] {
      assert s + t == t;
    } else if s[0] in cs {
      assert (s + t)[1..] == s[1..] + t;
      TrimStartAppend(s[1..], t, cs);
    }
  }

  /** Whitespace added at either end of a string makes no difference to
      `strip()`. */
  lemma {:induction false} StripPadded(w1: string, s: string, w2: string)
    requires AllIn(w1, Whitespace) && AllIn(w2, Whitespace)
    ensures Strip(w1 + s + w2) == Strip(s)
  {
    var cs := Whitespace;
    assert w1 + s + w2 == w1 + (s + w2);
    TrimStartPadded(w1, s + w2, cs);
    TrimStartAppend(s, w2, cs);
    if TrimStart(s, cs) == [] {
      TrimStartPadded(w2, [], cs);
      assert w2 + [] == w2;
    } else {
      TrimEndPadded(TrimStart(s, cs), w2, cs);
    }
  }

  // ---------------------------------------------------------------------
  // lower

  /** `c.lower()` on the letters that occur in the drill: Latin A-Z and the
      Cyrillic capitals U+0400-U+042F (Ѐ..Џ and А..Я); anything else is kept. */
  function LowerChar(c: char): (d: char)
    ensures d in Whitespace <==> c in Whitespace
  {
    if 'A' <= c <= 'Z' then (c as int + 32) as char
    else if '\U{0410}' <= c <= '\U{042F}' then (c as int + 32) as char
    else if '\U{0400}' <= c <= '\U{040F}' then (c as int + 80) as char
    else c
  }

  /** `s.lower()`: the same length, whitespace exactly where `s` has it, and
      every character already lower-case, so lower-casing it again changes
      nothing. */
  function Lower(s: string): (r: string)
    ensures |r| == |s|
    ensures forall k :: 0 <= k < |s| ==> (r[k] in Whitespace <==> s[k] in Whitespace)
    ensures forall k :: 0 <= k < |r| ==> LowerChar(r[k]) == r[k]
    ensures forall k :: 0 <= k < |s| ==> r[k] == LowerChar(s[k])
  {
    seq(|s|, k requires 0 <= k < |s| => LowerChar(s[k]))
  }

  /** Lower-casing twice is lower-casing once. */
  lemma LowerIdempotent(s: string)
    ensures Lower(Lower(s)) == Lower(s)
  {
  }

  lemma {:induction false} TrimStartLower(s: string)
    ensures TrimStart(Lower(s), Whitespace) == Lower(TrimStart(s, Whitespace))
  {
    if s != [] {
      assert Lower(s)[1..] == Lower(s[1..]);
      if s[0] in Whitespace {
        TrimStartLower(s[1..]);
      }
    }
  }

  lemma {:induction false} TrimEndLower(s: string)
    ensures TrimEnd(Lower(s), Whitespace) == Lower(TrimEnd(s, Whitespace))
    decreases |s|
  {
    if s != [] {
      var n := |s| - 1;
      assert Lower(s)[..n] == Lower(s[..n]);
      if s[n] in Whitespace {
        TrimEndLower(s[..n]);
      }
    }
  }

  /** Lower-casing and stripping commute, because lower-casing never turns
      whitespace into a letter or a letter into whitespace. */
  lemma StripLower(s: string)
    ensures Strip(Lower(s)) == Lower(Strip(s))
  {
    TrimStartLower(s);
    TrimEndLower(TrimStart(s, Whitespace));
  }

  // ---------------------------------------------------------------------
  // split and join

  /** A piece `str.split()` can produce: non-empty, without whitespace. */
  ghost predicate IsToken(w: string) {
    w != [] && forall k :: 0 <= k < |w| ==> w[k] !in Whitespace
  }

  /** Length of the run of non-whitespace characters at the front of `s`. */
  function WordEnd(s: string): (n: nat)
    ensures n <= |s|
    ensures forall k :: 0 <= k < n ==> s[k] !in Whitespace
    ensures n == |s| || s[n] in Whitespace
  {
    if s == [] || s[0] in Whitespace then 0 else 1 + WordEnd(s[1..])
  }

  /** `s.split()`: the maximal runs of non-whitespace characters, in order. */
  function Split(s: string): (r: seq<string>)
    ensures forall i :: 0 <= i < |r| ==> IsToken(r[i])
    decreases |s|
  {
    if s == [] then []
    else if s[0] in Whitespace then Split(s[1..])
    else
      var n := WordEnd(s);
      [s[..n]] + Split(s[n..])
  }

  /** `" ".join(ws)`. */
  function Join(ws: seq<string>): string {
    if ws == [] then []
    else if |ws| == 1 then ws[0]
    else ws[0] + " " + Join(ws[1..])
  }

  lemma {:induction false} WordEndOfToken(w: string, rest: string)
    requires IsToken(w)
    requires rest == [] || rest[0] in Whitespace
    ensures WordEnd(w + rest) == |w|
  {
    assert (w + rest)[1..] == w[1..] + rest;
    if |w| > 1 {
      WordEndOfToken(w[1..], rest);
    } else {
      assert w[1..] + rest == rest;
    }
  }

  /** Splitting what was joined with single spaces gives the tokens back. */
  lemma {:induction false} SplitJoin(ws: seq<string>)
    requires forall i :: 0 <= i < |ws| ==> IsToken(ws[i])
    ensures Split(Join(ws)) == ws
  {
    if ws == [] {
    } else if |ws| == 1 {
      WordEndOfToken(ws[0], []);
      assert ws[0] + [] == ws[0];
      assert ws[0][|ws[0]|..] == [];
      assert ws[0][..|ws[0]|] == ws[0];
    } else {
      var w, rest := ws[0], Join(ws[1..]);
      var s := w + " " + rest;
      assert s == w + (" " + rest);
      WordEndOfToken(w, " " + rest);
      assert s[..|w|] == w;
      assert s[|w|..] == " " + rest;
      assert (" " + rest)[1..] == rest;
      SplitJoin(ws[1..]);
    }
  }

  // ---------------------------------------------------------------------
  // substrings

  /** `sub in s` for strings. */
  ghost predicate Contains(s: string, sub: string) {
    exists i :: OccursAt(s, sub, i)
  }

  /** `sub` occurs in `s` starting at index `i`. */
  ghost predicate OccursAt(s: string, sub: string, i: int) {
    0 <= i <= |s| - |sub| && s[i..i + |sub|] == sub
  }

  lemma ContainsMiddle(a: string, b: string, c: string)
    ensures Contains(a + b + c, b)
  {
    assert OccursAt(a + b + c, b, |a|);
  }
}

/**
  Escaping for SQL LIKE.  The three replacements of escapeLike are compared with
  a one-pass escape, and the escaped patterns with a LIKE matcher whose escape
  character is a backslash.  Letters compare through an arbitrary case folding.
 */
module Like {

  const ESC := '\\'

  predicate Special(c: char) { c == ESC || c == '%' || c == '_' }

  /** Every occurrence of one character is replaced by a text. */
  function ReplaceAll(s: string, c: char, with: string): string {
    if s == [] then [] else (if s[0] == c then with else [s[0]]) + ReplaceAll(s[1..], c, with)
  }

  function EscapeLike(s: string): string {
    ReplaceAll(ReplaceAll(ReplaceAll(s, ESC, [ESC, ESC]), '%', [ESC, '%']), '_', [ESC, '_'])
  }

  /** The escape read off character by character. */
  function Escaped(s: string): string {
    if s == [] then [] else (if Special(s[0]) then [ESC, s[0]] else [s[0]]) + Escaped(s[1..])
  }

  lemma {:induction false} ReplaceConcat(a: string, b: string, c: char, with: string)
    ensures ReplaceAll(a + b, c, with) == ReplaceAll(a, c, with) + ReplaceAll(b, c, with)
  {
    if a == [] {
      assert a + b == b;
    } else {
      var head, ra, rb := if a[0] == c then with else [a[0]], ReplaceAll(a[1..], c, with), ReplaceAll(b, c, with);
      ReplaceConcat(a[1..], b, c, with);
      assert (a + b)[1..] == a[1..] + b;
      assert head + (ra + rb) == (head + ra) + rb;
    }
  }

  lemma ReplaceShort(x: char, y: char, c: char, with: string)
    ensures ReplaceAll([x], c, with) == if x == c then with else [x]
    ensures ReplaceAll([x, y], c, with) == (if x == c then with else [x]) + (if y == c then with else [y])
  {
    assert [x][1..] == [] && [x, y][1..] == [y];
    assert ReplaceAll([y], c, with) == if y == c then with else [y];
  }

  /** Replacing one after the other never escapes an escape. */
  lemma {:induction false} EscapeIsOnePass(s: string)
    ensures EscapeLike(s) == Escaped(s)
  {
    if s != [] {
      var c, rest := s[0], s[1..];
      EscapeIsOnePass(rest);
      var h1 := if c == ESC then [ESC, ESC] else [c];
      var h2 := if c == '%' then [ESC, '%'] else h1;
      var h3 := if c == '_' then [ESC, '_'] else h2;
      var t1 := ReplaceAll(rest, ESC, [ESC, ESC]);
      var t2 := ReplaceAll(t1, '%', [ESC, '%']);
      ReplaceShort(c, c, '%', [ESC, '%']);
      ReplaceShort(ESC, ESC, '%', [ESC, '%']);
      ReplaceShort(c, c, '_', [ESC, '_']);
      ReplaceShort(ESC, ESC, '_', [ESC, '_']);
      ReplaceShort(ESC, '%', '_', [ESC, '_']);
      ReplaceConcat(h1, t1, '%', [ESC, '%']);
      ReplaceConcat(h2, t2, '_', [ESC, '_']);
      assert ReplaceAll(s, ESC, [ESC, ESC]) == h1 + t1;
      assert ReplaceAll(h1, '%', [ESC, '%']) == h2;
      assert ReplaceAll(h2, '_', [ESC, '_']) == h3;
      assert EscapeLike(s) == h3 + EscapeLike(rest);
    }
  }

  // ---------------------------------------------------------------- the matcher

  /** LIKE with ESCAPE '\': an escaped character stands for itself, % for any text, _ for any character. */
  predicate Matches(fold: char -> char, pattern: string, text: string)
    decreases |pattern| + |text|
  {
    if pattern == [] then text == []
    else if pattern[0] == '%' then
      Matches(fold, pattern[1..], text) || (text != [] && Matches(fold, pattern, text[1..]))
    else if pattern[0] == '_' then text != [] && Matches(fold, pattern[1..], text[1..])
    else if pattern[0] == ESC then
      |pattern| > 1 && text != [] && fold(text[0]) == fold(pattern[1]) && Matches(fold, pattern[2..], text[1..])
    else text != [] && fold(text[0]) == fold(pattern[0]) && Matches(fold, pattern[1..], text[1..])
  }

  predicate SameText(fold: char -> char, a: string, b: string) {
    |a| == |b| && forall i :: 0 <= i < |a| ==> fold(a[i]) == fold(b[i])
  }

  predicate StartsWith(fold: char -> char, text: string, q: string) {
    |q| <= |text| && SameText(fold, text[..|q|], q)
  }

  predicate Contains(fold: char -> char, text: string, q: string) {
    exists i :: 0 <= i <= |text| && StartsWith(fold, text[i..], q)
  }

  lemma HeadMatches(fold: char -> char, c: char, rest: string, text: string)
    ensures Matches(fold, (if Special(c) then [ESC, c] else [c]) + rest, text) <==>
              text != [] && fold(text[0]) == fold(c) && Matches(fold, rest, text[1..])
  {
    if Special(c) {
      assert ([ESC, c] + rest)[2..] == rest;
    } else {
      assert ([c] + rest)[1..] == rest;
    }
  }

  /** An escaped text matches itself and nothing else. */
  lemma {:induction false} EscapedMatches(fold: char -> char, q: string, rest: string, text: string)
    ensures Matches(fold, Escaped(q) + rest, text) <==>
              StartsWith(fold, text, q) && Matches(fold, rest, text[|q|..])
  {
    if q == [] {
      assert Escaped(q) + rest == rest && text[0..] == text;
    } else {
      var p := Escaped(q[1..]) + rest;
      assert Escaped(q) + rest == (if Special(q[0]) then [ESC, q[0]] else [q[0]]) + p;
      HeadMatches(fold, q[0], p, text);
      if text != [] {
        EscapedMatches(fold, q[1..], rest, text[1..]);
        HeadAndTail(fold, text, q);
        assert |q| <= |text| ==> text[1..][|q| - 1..] == text[|q|..];
      }
    }
  }

  lemma HeadAndTail(fold: char -> char, text: string, q: string)
    requires text != [] && q != []
    ensures StartsWith(fold, text, q) <==> fold(text[0]) == fold(q[0]) && StartsWith(fold, text[1..], q[1..])
  {
    if |q| <= |text| {
      var a, b := text[..|q|], text[1..][..|q| - 1];
      assert a[0] == text[0] && b == a[1..];
      assert forall i :: 0 <= i < |b| ==> b[i] == a[i + 1] && q[1..][i] == q[i + 1];
      assert SameText(fold, a, q) ==> SameText(fold, b, q[1..]);
      assert forall i :: 0 < i < |a| ==> a[i] == b[i - 1] && q[i] == q[1..][i - 1];
    }
  }

  lemma {:induction false} PercentMatchesAll(fold: char -> char, text: string)
    ensures Matches(fold, "%", text)
    decreases |text|
  {
    if text != [] { PercentMatchesAll(fold, text[1..]); }
  }

  lemma {:induction false} PercentSkips(fold: char -> char, pattern: string, text: string)
    ensures Matches(fold, "%" + pattern, text) <==> exists i :: 0 <= i <= |text| && Matches(fold, pattern, text[i..])
    decreases |text|
  {
    var p := "%" + pattern;
    assert p[1..] == pattern && text[0..] == text;
    if text != [] {
      PercentSkips(fold, pattern, text[1..]);
      assert forall i :: 0 <= i < |text| ==> text[1..][i..] == text[i + 1..];
      if i :| 0 <= i <= |text| && Matches(fold, pattern, text[i..]) {
        if i > 0 { assert text[1..][i - 1..] == text[i..]; }
      }
    }
  }

  /** The prefix filter accepts exactly the texts that start with the value. */
  lemma PrefixIsExact(fold: char -> char, q: string, text: string)
    ensures Matches(fold, EscapeLike(q) + "%", text) <==> StartsWith(fold, text, q)
  {
    EscapeIsOnePass(q);
    EscapedMatches(fold, q, "%", text);
    if |q| <= |text| { PercentMatchesAll(fold, text[|q|..]); }
  }

  /** The contains filter and the text search accept exactly the texts that contain the value. */
  lemma ContainsIsExact(fold: char -> char, q: string, text: string)
    ensures Matches(fold, "%" + EscapeLike(q) + "%", text) <==> Contains(fold, text, q)
  {
    assert "%" + EscapeLike(q) + "%" == "%" + (EscapeLike(q) + "%");
    PercentSkips(fold, EscapeLike(q) + "%", text);
    forall i | 0 <= i <= |text|
      ensures Matches(fold, EscapeLike(q) + "%", text[i..]) <==> StartsWith(fold, text[i..], q)
    {
      PrefixIsExact(fold, q, text[i..]);
    }
  }
}

/** The few JavaScript string built-ins the program relies on: `trim`, the
    regular-expression class `\s`, `startsWith`, `split('\n')`, and the
    decimal rendering of an integer inside a template literal. */
module Strings {

  /** The characters removed by `String.prototype.trim` and matched by the
      regular-expression class `\s`: the ECMAScript WhiteSpace and
      LineTerminator productions (tab, line feed, vertical tab, form feed,
      carriage return, space, no-break space, byte order mark, the Unicode
      space separators, line and paragraph separators). */
  predicate IsWhitespace(c: char) {
    c == ' ' || ('\t' <= c <= '\r') || ('\U{00A0}' <= c && IsWideSpace(c))
  }

  /** The whitespace characters beyond the ASCII range. */
  predicate IsWideSpace(c: char) {
    || c == '\U{00A0}' || c == '\U{1680}'
    || ('\U{2000}' <= c <= '\U{200A}')
    || c == '\U{2028}' || c == '\U{2029}' || c == '\U{202F}' || c == '\U{205F}'
    || c == '\U{3000}' || c == '\U{FEFF}'
  }

  predicate AllWhitespace(s: string) {
    forall i :: 0 <= i < |s| ==> IsWhitespace(s[i])
  }

  /** Neither end of `s` is whitespace: what `trim` leaves behind. */
  predicate IsTrimmed(s: string) {
    s == [] || (!IsWhitespace(s[0]) && !IsWhitespace(s[|s| - 1]))
  }

  /** Drops the leading whitespace (the `\s*` of a regular expression
      anchored after a consumed prefix). */
  function TrimStart(s: string): (r: string)
    ensures |r| <= |s| && (r != [] ==> r[|r| - 1] == s[|s| - 1])
    ensures r == [] ==> AllWhitespace(s)
    ensures r == [] || !IsWhitespace(r[0])
  {
    if s != [] && IsWhitespace(s[0]) then TrimStart(s[1..]) else s
  }

  function TrimEnd(s: string): (r: string)
    ensures |r| <= |s| && (r != [] ==> r[0] == s[0])
    ensures r == [] || !IsWhitespace(r[|r| - 1])
  {
    if s != [] && IsWhitespace(s[|s| - 1]) then TrimEnd(s[..|s| - 1]) else s
  }

  /** `String.prototype.trim`. */
  function Trim(s: string): (r: string)
    ensures IsTrimmed(r)
    ensures r == [] <==> AllWhitespace(s)
  {
    TrimEmptyIff(s);
    TrimEnd(TrimStart(s))
  }

  /** Trimming leaves nothing exactly when the string is all whitespace. */
  lemma TrimEmptyIff(s: string)
    ensures TrimEnd(TrimStart(s)) == [] <==> AllWhitespace(s)
  {
    var p := TrimStartSplit(s);
    var q := TrimEndSplit(TrimStart(s));
  }

  /** Trimming keeps only characters of the original. */
  lemma TrimKeepsOut(s: string, c: char)
    requires c !in s
    ensures c !in Trim(s)
  {
    TrimStartKeepsOut(s, c);
    var q := TrimEndSplit(TrimStart(s));
  }

  lemma TrimStartKeepsOut(s: string, c: char)
    requires c !in s
    ensures c !in TrimStart(s)
  {
  }

  /** A string that is already trimmed is left alone. */
  lemma TrimTrimmed(s: string)
    requires IsTrimmed(s)
    ensures Trim(s) == s
  {
  }

  /** Leading whitespace padding is dropped whatever its length. */
  lemma {:induction false} TrimStartPadded(pad: string, s: string)
    requires AllWhitespace(pad)
    ensures TrimStart(pad + s) == TrimStart(s)
  {
    if pad != [] {
      assert IsWhitespace((pad + s)[0]);
      assert (pad + s)[1..] == pad[1..] + s;
      assert TrimStart(pad + s) == TrimStart(pad[1..] + s);
      TrimStartPadded(pad[1..], s);
    } else {
      assert pad + s == s;
    }
  }

  /** One space before a string not starting with whitespace is dropped. */
  lemma TrimStartSpace(s: string)
    requires s == [] || !IsWhitespace(s[0])
    ensures TrimStart(" " + s) == s
  {
    assert (" " + s)[0] == ' ' && (" " + s)[1..] == s;
  }

  /** Trailing whitespace padding is dropped whatever its length. */
  lemma {:induction false} TrimEndPadded(t: string, q: string)
    requires AllWhitespace(q)
    requires t == [] || !IsWhitespace(t[|t| - 1])
    ensures TrimEnd(t + q) == t
  {
    if q == [] {
      assert t + q == t;
    } else {
      var s := t + q;
      assert IsWhitespace(s[|s| - 1]) by { assert s[|s| - 1] == q[|q| - 1]; }
      assert s[..|s| - 1] == t + q[..|q| - 1];
      TrimEndPadded(t, q[..|q| - 1]);
    }
  }

  /** `trim` removes exactly the whitespace around a trimmed middle: for a
      line made of whitespace, a trimmed text and whitespace again, the
      result is that text. */
  lemma TrimPadded(p: string, t: string, q: string)
    requires AllWhitespace(p) && AllWhitespace(q) && IsTrimmed(t)
    ensures Trim(p + t + q) == t
  {
    assert p + t + q == p + (t + q);
    if t == [] {
      assert t + q == q + [];
      TrimStartPadded(q, []);
      TrimStartPadded(p, q);
    } else {
      TrimStartPadded(p, t + q);
      assert (t + q)[0] == t[0];
      TrimEndPadded(t, q);
    }
  }

  lemma AppendAssoc<T>(a: seq<T>, b: seq<T>, c: seq<T>)
    ensures a + (b + c) == a + b + c
  {
  }

  /** Regrouping a concatenation; exists only to split a proof step. */
  lemma Regroup<T>(s: seq<T>, p: seq<T>, t: seq<T>, r: seq<T>, q: seq<T>)
    requires s == p + t && t == r + q
    ensures s == p + r + q
  {
    AppendAssoc(p, r, q);
  }

  /** What `TrimStart` drops is whitespace, and the string is that
      whitespace followed by what it keeps. */
  lemma {:induction false} TrimStartSplit(s: string) returns (p: string)
    ensures AllWhitespace(p) && s == p + TrimStart(s)
  {
    if s != [] && IsWhitespace(s[0]) {
      var rest := TrimStartSplit(s[1..]);
      p := [s[0]] + rest;
      assert s == [s[0]] + s[1..];
      AppendAssoc([s[0]], rest, TrimStart(s[1..]));
    } else {
      p := [];
      assert s == [] + s;
    }
  }

  /** What `TrimEnd` drops is whitespace, and the string is what it keeps
      followed by that whitespace. */
  lemma {:induction false} TrimEndSplit(t: string) returns (q: string)
    ensures AllWhitespace(q) && t == TrimEnd(t) + q
  {
    if t != [] && IsWhitespace(t[|t| - 1]) {
      var init := t[..|t| - 1];
      var rest := TrimEndSplit(init);
      q := rest + [t[|t| - 1]];
      assert t == init + [t[|t| - 1]];
      AppendAssoc(TrimEnd(init), rest, [t[|t| - 1]]);
    } else {
      q := [];
      assert t == t + [];
    }
  }

  /** Every string is whitespace, its trimmed text, then whitespace. */
  lemma TrimSplits(s: string) returns (p: string, q: string)
    ensures AllWhitespace(p) && AllWhitespace(q)
    ensures s == p + Trim(s) + q
  {
    var t := TrimStart(s);
    var r := TrimEnd(t);
    p := TrimStartSplit(s);
    q := TrimEndSplit(t);
    Regroup(s, p, t, r, q);
  }

  /** Trimming ignores whitespace indentation. */
  lemma TrimIndented(pad: string, s: string)
    requires AllWhitespace(pad)
    ensures Trim(pad + s) == Trim(s)
  {
    TrimStartPadded(pad, s);
  }

  /** `s.startsWith(prefix)`. */
  predicate StartsWith(s: string, prefix: string) {
    |prefix| <= |s| && forall i :: 0 <= i < |prefix| ==> s[i] == prefix[i]
  }

  /** `s.split('\n')`: always at least one piece, none holding a line feed. */
  function Split(s: string): (r: seq<string>)
    ensures |r| >= 1
    ensures forall i :: 0 <= i < |r| ==> '\n' !in r[i]
  {
    if s == [] then [[]]
    else
      var rest := Split(s[1..]);
      if s[0] == '\n' then [[]] + rest
      else [[s[0]] + rest[0]] + rest[1..]
  }

  /** `lines.join('\n')`, the inverse of `Split`. */
  function Join(lines: seq<string>): string {
    if lines == [] then []
    else if |lines| == 1 then lines[0]
    else lines[0] + "\n" + Join(lines[1..])
  }

  lemma {:induction false} JoinSplit(s: string)
    ensures Join(Split(s)) == s
  {
    if s != [] {
      JoinSplit(s[1..]);
      var rest := Split(s[1..]);
      if s[0] != '\n' && |rest| > 1 {
        assert Join(rest) == rest[0] + "\n" + Join(rest[1..]);
      }
    }
  }

  lemma {:induction false} SplitNoLineFeed(s: string)
    requires '\n' !in s
    ensures Split(s) == [s]
  {
    if s != [] {
      SplitNoLineFeed(s[1..]);
      assert [s[0]] + s[1..] == s;
    }
  }

  lemma {:induction false} SplitFirstLine(line: string, rest: string)
    requires '\n' !in line
    ensures Split(line + "\n" + rest) == [line] + Split(rest)
  {
    if line == [] {
      assert (line + "\n" + rest)[1..] == rest;
    } else {
      var whole := line + "\n" + rest;
      assert whole[0] == line[0] && whole[1..] == line[1..] + "\n" + rest;
      SplitFirstLine(line[1..], rest);
      assert [line[0]] + line[1..] == line;
    }
  }

  /** Splitting a join of line-feed-free lines gives the lines back. */
  lemma {:induction false} SplitJoin(lines: seq<string>)
    requires |lines| >= 1
    requires forall i :: 0 <= i < |lines| ==> '\n' !in lines[i]
    ensures Split(Join(lines)) == lines
  {
    if |lines| == 1 {
      SplitNoLineFeed(lines[0]);
    } else {
      SplitJoin(lines[1..]);
      SplitFirstLine(lines[0], Join(lines[1..]));
    }
  }

  /** `sub` occurs in `s` starting at index `k`. */
  predicate OccursAt(sub: string, s: string, k: nat) {
    k + |sub| <= |s| && s[k..k + |sub|] == sub
  }

  /** `s.includes(sub)`. */
  ghost predicate Contains(s: string, sub: string) {
    exists k: nat :: OccursAt(sub, s, k)
  }

  lemma ContainsMiddle(a: string, sub: string, b: string)
    ensures Contains(a + sub + b, sub)
  {
    assert OccursAt(sub, a + sub + b, |a|);
  }

  /** The concatenation of the pieces, in order (a template literal's text
      with its substitutions in place). */
  function Concat(pieces: seq<string>): string {
    if pieces == [] then [] else pieces[0] + Concat(pieces[1..])
  }

  /** What occurs in a string occurs in any extension of it. */
  lemma ContainsBefore(a: string, b: string, sub: string)
    requires Contains(a, sub)
    ensures Contains(a + b, sub)
  {
    var k: nat :| OccursAt(sub, a, k);
    assert (a + b)[k..k + |sub|] == a[k..k + |sub|];
    assert OccursAt(sub, a + b, k);
  }

  /** What occurs in a string occurs after anything put before it. */
  lemma ContainsAfter(a: string, b: string, sub: string)
    requires Contains(b, sub)
    ensures Contains(a + b, sub)
  {
    var k: nat :| OccursAt(sub, b, k);
    assert (a + b)[|a| + k..|a| + k + |sub|] == b[k..k + |sub|];
    assert OccursAt(sub, a + b, |a| + k);
  }

  /** Every piece occurs in the concatenation. */
  lemma {:induction false} ConcatContains(pieces: seq<string>, k: nat)
    requires k < |pieces|
    ensures Contains(Concat(pieces), pieces[k])
  {
    var rest := Concat(pieces[1..]);
    if k == 0 {
      assert [] + pieces[0] + rest == Concat(pieces);
      ContainsMiddle([], pieces[0], rest);
    } else {
      ConcatContains(pieces[1..], k - 1);
      var j: nat :| OccursAt(pieces[1..][k - 1], rest, j);
      assert Concat(pieces)[|pieces[0]| + j..|pieces[0]| + j + |pieces[k]|] == rest[j..j + |pieces[k]|];
      assert OccursAt(pieces[k], Concat(pieces), |pieces[0]| + j);
    }
  }

  function DigitChar(d: nat): (c: char)
    requires d < 10
    ensures '0' <= c <= '9' && DigitValue(c) == d
  {
    "0123456789"[d]
  }

  function DigitValue(c: char): nat
    requires '0' <= c <= '9'
  {
    (c as int - '0' as int) as nat
  }

  predicate AllDigits(s: string) {
    forall i :: 0 <= i < |s| ==> '0' <= s[i] <= '9'
  }

  /** The value of a string of decimal digits, most significant first. */
  function DigitsValue(s: string): nat
    requires AllDigits(s)
  {
    if s == [] then 0 else DigitsValue(s[..|s| - 1]) * 10 + DigitValue(s[|s| - 1])
  }

  /** Decimal rendering of a natural number, as `String(n)` writes it. */
  function NatToString(n: nat): (r: string)
    ensures r != [] && AllDigits(r)
    ensures n >= 10 ==> r[0] != '0'
  {
    if n < 10 then [DigitChar(n)] else NatToString(n / 10) + [DigitChar(n % 10)]
  }

  /** Reading the digits back gives the number. */
  lemma {:induction false} NatToStringValue(n: nat)
    ensures DigitsValue(NatToString(n)) == n
  {
    if n >= 10 {
      NatToStringValue(n / 10);
      var s := NatToString(n);
      assert s[..|s| - 1] == NatToString(n / 10);
    }
  }

  /** Decimal rendering of an integer, with a leading minus sign when negative. */
  function IntToString(i: int): (r: string)
    ensures r != []
    ensures i >= 0 <==> AllDigits(r)
    ensures i >= 0 ==> DigitsValue(r) == i
    ensures i < 0 ==> r[0] == '-' && AllDigits(r[1..]) && DigitsValue(r[1..]) == -i
  {
    if i < 0 then
      var r := "-" + NatToString(-i);
      NatToStringValue(-i);
      assert r[0] == '-' && r[1..] == NatToString(-i);
      r
    else
      NatToStringValue(i);
      NatToString(i)
  }
}

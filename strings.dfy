/** The JavaScript string operations the source relies on, over `seq<char>`. */
module Strings {
  import opened Wrappers

  /** `s.startsWith(p)` */
  predicate StartsWith(s: string, p: string) {
    |p| <= |s| && s[..|p|] == p
  }

  /** `s.endsWith(p)` */
  predicate EndsWith(s: string, p: string) {
    |p| <= |s| && s[|s| - |p|..] == p
  }

  /** `s.includes(sub)`: some suffix of `s` starts with `sub`. */
  predicate Contains(s: string, sub: string)
    decreases |s|
  {
    StartsWith(s, sub) || (|s| > 0 && Contains(s[1..], sub))
  }

  /** An occurrence of `sub` at position `i` makes `s` contain it. */
  lemma {:induction false} ContainsAt(s: string, sub: string, i: nat)
    requires i + |sub| <= |s| && s[i..i + |sub|] == sub
    ensures Contains(s, sub)
    decreases i
  {
    if i == 0 {
      assert s[..|sub|] == sub;
    } else {
      assert s[1..][i - 1..i - 1 + |sub|] == s[i..i + |sub|];
      ContainsAt(s[1..], sub, i - 1);
    }
  }

  /** Containment is kept when text is added on either side. */
  lemma {:induction false} ContainsInContext(a: string, s: string, b: string, sub: string)
    requires Contains(s, sub)
    ensures Contains(a + s + b, sub)
    decreases |s|
  {
    if StartsWith(s, sub) {
      assert (a + s + b)[|a|..|a| + |sub|] == s[..|sub|];
      ContainsAt(a + s + b, sub, |a|);
    } else {
      ContainsInContext(a + [s[0]], s[1..], b, sub);
      assert a + [s[0]] + s[1..] + b == a + s + b;
    }
  }

  /** Containing a one-character string is containing that character. */
  lemma {:induction false} ContainsChar(s: string, c: char)
    ensures Contains(s, [c]) <==> c in s
    decreases |s|
  {
    if s != [] {
      ContainsChar(s[1..], c);
      assert s == [s[0]] + s[1..];
    }
  }

  /** Whatever `s` contains, `s` holds its first character. */
  lemma {:induction false} ContainsFirstChar(s: string, sub: string)
    requires |sub| > 0 && Contains(s, sub)
    ensures sub[0] in s
    decreases |s|
  {
    if !StartsWith(s, sub) {
      ContainsFirstChar(s[1..], sub);
    }
  }

  /** A string ending in `p` contains `p`. */
  lemma EndsWithContains(s: string, p: string)
    requires EndsWith(s, p)
    ensures Contains(s, p)
  {
    ContainsAt(s, p, |s| - |p|);
  }

  /** ASCII case folding, the part of `toLowerCase` the model keeps. */
  function LowerChar(c: char): char {
    if 'A' <= c <= 'Z' then (c as int + 32) as char else c
  }

  /** `s.toLowerCase()` on ASCII letters. */
  function Lower(s: string): (r: string)
    ensures |r| == |s|
    ensures forall i :: 0 <= i < |s| ==> r[i] == LowerChar(s[i])
  {
    seq(|s|, i requires 0 <= i < |s| => LowerChar(s[i]))
  }

  /** Lowering twice is lowering once. */
  lemma LowerIdempotent(s: string)
    ensures Lower(Lower(s)) == Lower(s)
  {
    assert forall i :: 0 <= i < |s| ==> LowerChar(LowerChar(s[i])) == LowerChar(s[i]);
  }

  /** The whitespace `String.prototype.trim` removes: the WhiteSpace and
      LineTerminator code points of ECMAScript (tab, vertical tab, form feed,
      space, no-break space, the byte order mark, the Zs space separators,
      line feed, carriage return, and the line and paragraph separators). */
  predicate IsSpace(c: char) {
    var n := c as int;
    n == 0x09 || n == 0x0A || n == 0x0B || n == 0x0C || n == 0x0D || n == 0x20 ||
    n == 0xA0 || n == 0x1680 || 0x2000 <= n <= 0x200A || n == 0x2028 || n == 0x2029 ||
    n == 0x202F || n == 0x205F || n == 0x3000 || n == 0xFEFF
  }

  function TrimStart(s: string): (r: string)
    ensures |r| <= |s| && r == s[|s| - |r|..]
    ensures forall i :: 0 <= i < |s| - |r| ==> IsSpace(s[i])
    ensures r != [] ==> !IsSpace(r[0])
    decreases |s|
  {
    if |s| > 0 && IsSpace(s[0]) then TrimStart(s[1..]) else s
  }

  function TrimEnd(s: string): (r: string)
    ensures |r| <= |s| && r == s[..|r|]
    ensures forall i :: |r| <= i < |s| ==> IsSpace(s[i])
    ensures r != [] ==> !IsSpace(r[|r| - 1])
    decreases |s|
  {
    if |s| > 0 && IsSpace(s[|s| - 1]) then TrimEnd(s[..|s| - 1]) else s
  }

  /** `s.trim()` */
  function Trim(s: string): string {
    TrimEnd(TrimStart(s))
  }

  /** A trimmed string is empty exactly when the input is all whitespace,
      and otherwise neither starts nor ends with whitespace. */
  lemma TrimFacts(s: string)
    ensures Trim(s) == [] <==> forall i :: 0 <= i < |s| ==> IsSpace(s[i])
    ensures Trim(s) != [] ==> !IsSpace(Trim(s)[0]) && !IsSpace(Trim(s)[|Trim(s)| - 1])
  {
    var t := TrimStart(s);
    var r := TrimEnd(t);
    var k := |s| - |t|;
    if t == [] {
      assert k == |s|;
    } else {
      assert t == s[k..] && t[0] == s[k] && !IsSpace(t[0]);
      assert |r| > 0;
      assert r[0] == t[0];
    }
  }


  /** `s.split(sep)`: the pieces between separators; always at least one. */
  function Split(s: string, sep: char): (r: seq<string>)
    ensures |r| >= 1
    decreases |s|
  {
    if s == [] then [""]
    else
      var rest := Split(s[1..], sep);
      if s[0] == sep then [""] + rest else [[s[0]] + rest[0]] + rest[1..]
  }

  /** No piece of a split contains the separator. */
  lemma {:induction false} SplitPiecesHaveNoSeparator(s: string, sep: char)
    ensures forall k, j :: 0 <= k < |Split(s, sep)| && 0 <= j < |Split(s, sep)[k]| ==> Split(s, sep)[k][j] != sep
    decreases |s|
  {
    if s != [] {
      SplitPiecesHaveNoSeparator(s[1..], sep);
    }
  }

  /** The complete (newline-terminated) pieces: every piece but the last. */
  function Lines(s: string, sep: char): seq<string> {
    var p := Split(s, sep);
    p[..|p| - 1]
  }

  /** The text after the last separator: `split(sep).pop()`. */
  function Tail(s: string, sep: char): string {
    var p := Split(s, sep);
    p[|p| - 1]
  }

  /** Splitting a concatenation: the complete pieces of the left part come
      first, then the split of its unterminated tail joined to the right part. */
  lemma {:induction false} SplitAppend(s: string, t: string, sep: char)
    ensures Split(s + t, sep) == Lines(s, sep) + Split(Tail(s, sep) + t, sep)
    decreases |s|
  {
    if s == [] {
      assert s + t == t;
      assert Tail(s, sep) + t == t;
    } else {
      assert (s + t)[1..] == s[1..] + t;
      SplitAppend(s[1..], t, sep);
      if s[0] == sep {
        SplitAppendAtSeparator(s, t, sep);
      } else if |Lines(s[1..], sep)| > 0 {
        SplitAppendInLine(s, t, sep);
      } else {
        SplitAppendInTail(s, t, sep);
      }
    }
  }

  /** The step of `SplitAppend` when the text starts with the separator. */
  lemma SplitAppendAtSeparator(s: string, t: string, sep: char)
    requires s != [] && s[0] == sep && (s + t)[1..] == s[1..] + t
    requires Split(s[1..] + t, sep) == Lines(s[1..], sep) + Split(Tail(s[1..], sep) + t, sep)
    ensures Split(s + t, sep) == Lines(s, sep) + Split(Tail(s, sep) + t, sep)
  {
    var s' := s[1..];
    var p := Split(s', sep);
    SplitAtSeparator(s + t, sep);
    SplitAtSeparator(s, sep);
    var ps := Split(s, sep);
    assert ps[..|ps| - 1] == [""] + p[..|p| - 1];
    assert Tail(s, sep) == ps[|ps| - 1] == p[|p| - 1] == Tail(s', sep);
  }

  /** Splitting a text that starts with the separator: an empty piece, then
      the pieces of the rest. */
  lemma SplitAtSeparator(u: string, sep: char)
    requires u != [] && u[0] == sep
    ensures Split(u, sep) == [""] + Split(u[1..], sep)
  {
  }

  /** Splitting a text that starts with an ordinary character: that
      character joins the first piece of the rest. */
  lemma SplitOrdinary(u: string, sep: char)
    requires u != [] && u[0] != sep
    ensures Split(u, sep) == [[u[0]] + Split(u[1..], sep)[0]] + Split(u[1..], sep)[1..]
  {
  }

  /** The step of `SplitAppend` when the first character ends up in a
      complete line. */
  lemma SplitAppendInLine(s: string, t: string, sep: char)
    requires s != [] && s[0] != sep && (s + t)[1..] == s[1..] + t && |Lines(s[1..], sep)| > 0
    requires Split(s[1..] + t, sep) == Lines(s[1..], sep) + Split(Tail(s[1..], sep) + t, sep)
    ensures Split(s + t, sep) == Lines(s, sep) + Split(Tail(s, sep) + t, sep)
  {
    var x, s' := s[0], s[1..];
    var p, r := Split(s', sep), Split(Tail(s', sep) + t, sep);
    SplitOrdinary(s + t, sep);
    SplitOrdinary(s, sep);
    JoinFirst(x, p, r);
    var ps := Split(s, sep);
    assert Tail(s, sep) == ps[|ps| - 1] == p[|p| - 1] == Tail(s', sep);
  }

  /** Prefixing the first piece of `p` and cutting off the last piece
      commute with appending `r`. */
  lemma JoinFirst(x: char, p: seq<string>, r: seq<string>)
    requires |p| >= 2
    ensures var q := p[..|p| - 1] + r; var ps := [[x] + p[0]] + p[1..];
      [[x] + q[0]] + q[1..] == ps[..|ps| - 1] + r
  {
    var q := p[..|p| - 1] + r;
    var ps := [[x] + p[0]] + p[1..];
    assert q[1..] == p[1..|p| - 1] + r;
    assert ps[..|ps| - 1] == [[x] + p[0]] + p[1..|p| - 1];
  }

  /** The step of `SplitAppend` when the first character ends up in the
      unterminated tail. */
  lemma SplitAppendInTail(s: string, t: string, sep: char)
    requires s != [] && s[0] != sep && (s + t)[1..] == s[1..] + t && |Lines(s[1..], sep)| == 0
    requires Split(s[1..] + t, sep) == Lines(s[1..], sep) + Split(Tail(s[1..], sep) + t, sep)
    ensures Split(s + t, sep) == Lines(s, sep) + Split(Tail(s, sep) + t, sep)
  {
    var x, s' := s[0], s[1..];
    assert Split(s', sep) == [Tail(s', sep)];
    assert Lines(s, sep) == [];
    assert Tail(s, sep) == [x] + Tail(s', sep);
    var u := Tail(s, sep) + t;
    assert u[0] == x && u[1..] == Tail(s', sep) + t;
  }

  /** Consequence used by a line-buffered reader: the complete lines of
      `s + t` are those of `s` followed by those of its tail joined to `t`,
      and the tails agree. */
  lemma LinesAppend(s: string, t: string, sep: char)
    ensures Lines(s + t, sep) == Lines(s, sep) + Lines(Tail(s, sep) + t, sep)
    ensures Tail(s + t, sep) == Tail(Tail(s, sep) + t, sep)
  {
    SplitAppend(s, t, sep);
    var a := Lines(s, sep);
    var b := Split(Tail(s, sep) + t, sep);
    assert (a + b)[..|a + b| - 1] == a + b[..|b| - 1];
  }

  /** JavaScript `a < b` on strings: lexicographic order on characters. */
  predicate LexLess(a: string, b: string)
    decreases |a|
  {
    if b == [] then false
    else if a == [] then true
    else if a[0] != b[0] then a[0] < b[0]
    else LexLess(a[1..], b[1..])
  }

  /** No string is smaller than itself. */
  lemma {:induction false} LexLessIrreflexive(a: string)
    ensures !LexLess(a, a)
    decreases |a|
  {
    if a != [] {
      LexLessIrreflexive(a[1..]);
    }
  }

  /** Of two strings, at most one is smaller than the other. */
  lemma {:induction false} LexLessAsymmetric(a: string, b: string)
    ensures !(LexLess(a, b) && LexLess(b, a))
    decreases |a|
  {
    if a != [] && b != [] && a[0] == b[0] {
      LexLessAsymmetric(a[1..], b[1..]);
    }
  }

  /** Two different strings are ordered one way or the other. */
  lemma {:induction false} LexLessTotal(a: string, b: string)
    requires a != b
    ensures LexLess(a, b) || LexLess(b, a)
    decreases |a|
  {
    if a != [] && b != [] && a[0] == b[0] {
      assert a == [a[0]] + a[1..] && b == [b[0]] + b[1..];
      LexLessTotal(a[1..], b[1..]);
    }
  }

  function DigitChar(d: nat): char
    requires d < 10
  {
    "0123456789"[d]
  }

  /** Decimal text of a natural number, as template literals print it. */
  function NatToString(n: nat): (r: string)
    ensures |r| >= 1
  {
    if n < 10 then [DigitChar(n)] else NatToString(n / 10) + [DigitChar(n % 10)]
  }

  /** Decimal text of an integer, with a leading '-' when negative. */
  function IntToString(i: int): string {
    if i < 0 then "-" + NatToString(-i) else NatToString(i)
  }
}

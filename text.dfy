/**
 * The few pieces of Python's `str` that the bots rely on: `isspace`, `strip`,
 * `split(maxsplit=1)`, `lower` (ASCII letters only), `startswith`, slicing
 * `s[:n]`, `replace(old, "")`, `" ".join`, and `str(int)` for identifiers.
 */
module Text {

  /** Python's `str.isspace` for one character: the Unicode White_Space
      characters plus the four ASCII separators U+001C..U+001F. */
  predicate IsSpace(c: char) {
    var n := c as int;
    n == 0x20 || (0x09 <= n <= 0x0D) || (0x1C <= n <= 0x1F) || n == 0x85 || n == 0xA0
    || n == 0x1680 || (0x2000 <= n <= 0x200A) || n == 0x2028 || n == 0x2029
    || n == 0x202F || n == 0x205F || n == 0x3000
  }

  predicate AllSpace(s: string) {
    forall i | 0 <= i < |s| :: IsSpace(s[i])
  }

  predicate NoSpace(s: string) {
    forall i | 0 <= i < |s| :: !IsSpace(s[i])
  }

  /** `s.lstrip()`: the suffix left after dropping leading whitespace. */
  function TrimStart(s: string): (r: string)
    ensures |r| <= |s| && r == s[|s| - |r|..]
    ensures AllSpace(s[..|s| - |r|])
    ensures r != [] ==> !IsSpace(r[0])
  {
    if s != [] && IsSpace(s[0]) then
      var r := TrimStart(s[1..]);
      assert s[1..][..|s| - 1 - |r|] == s[1..|s| - |r|];
      r
    else s
  }

  /** `s.rstrip()`: the prefix left after dropping trailing whitespace. */
  function TrimEnd(s: string): (r: string)
    ensures |r| <= |s| && r == s[..|r|]
    ensures AllSpace(s[|r|..])
    ensures r != [] ==> !IsSpace(r[|r| - 1])
  {
    if s != [] && IsSpace(s[|s| - 1]) then
      var r := TrimEnd(s[..|s| - 1]);
      assert s[..|s| - 1][|r|..] == s[|r|..|s| - 1];
      AllSpaceExtend(s, |r|);
      r
    else s
  }

  /** A whitespace character after an all-whitespace piece extends it. */
  lemma AllSpaceExtend(s: string, k: nat)
    requires k < |s| && AllSpace(s[k..|s| - 1]) && IsSpace(s[|s| - 1])
    ensures AllSpace(s[k..])
  {
    forall j | 0 <= j < |s| - k ensures IsSpace(s[k..][j]) {
      if j < |s| - 1 - k {
        assert s[k..][j] == s[k..|s| - 1][j];
      } else {
        assert s[k..][j] == s[|s| - 1];
      }
    }
  }

  /** `s.strip()`: empty exactly when `s` is all whitespace; otherwise it
      starts and ends with a non-space character. */
  function Strip(s: string): (r: string)
    ensures |r| <= |s|
    ensures r == [] <==> AllSpace(s)
    ensures r != [] ==> !IsSpace(r[0]) && !IsSpace(r[|r| - 1])
    ensures exists i | 0 <= i <= |s| - |r| :: IsInfixAt(s, r, i) && AllSpace(s[..i]) && AllSpace(s[i + |r|..])
  {
    var u := TrimStart(s);
    var r := TrimEnd(u);
    StripEmptyOnlyWhenAllSpace(s, u, r);
    StripIsPiece(s, u, r);
    r
  }

  lemma StripIsPiece(s: string, u: string, r: string)
    requires u == TrimStart(s) && r == TrimEnd(u)
    ensures exists i | 0 <= i <= |s| - |r| :: IsInfixAt(s, r, i) && AllSpace(s[..i]) && AllSpace(s[i + |r|..])
  {
    var i := |s| - |u|;
    PieceWithMargins(s, u, r, i);
    assert IsInfixAt(s, r, i) && AllSpace(s[..i]) && AllSpace(s[i + |r|..]);
  }

  /** A prefix `r` of the suffix `u == s[i..]` sits at `i` in `s`; what
      follows `r` in `u` is what follows it in `s`. */
  lemma PieceWithMargins(s: string, u: string, r: string, i: nat)
    requires i <= |s| && u == s[i..] && |r| <= |u| && r == u[..|r|]
    requires AllSpace(s[..i]) && AllSpace(u[|r|..])
    ensures IsInfixAt(s, r, i) && AllSpace(s[..i]) && AllSpace(s[i + |r|..])
  {
    SliceOfSlice(s, i, |r|);
  }

  /** Slicing the suffix `s[i..]` is slicing `s` from `i` on. */
  lemma SliceOfSlice(s: string, i: nat, j: nat)
    requires i + j <= |s|
    ensures s[i..][..j] == s[i..i + j] && s[i..][j..] == s[i + j..]
  {
  }

  /** `r` occurs in `s` starting at position `i`. */
  predicate IsInfixAt(s: string, r: string, i: nat) {
    i + |r| <= |s| && s[i..i + |r|] == r
  }

  lemma StripEmptyOnlyWhenAllSpace(s: string, u: string, r: string)
    requires u == TrimStart(s) && r == TrimEnd(u)
    ensures r == [] <==> AllSpace(s)
    ensures r != [] ==> !IsSpace(r[0])
  {
    if r == [] {
      assert AllSpace(u) by { assert u == u[|r|..]; }
      assert u == [];
      forall i | 0 <= i < |s| ensures IsSpace(s[i]) {
        assert s[i] == s[..|s| - |u|][i];
      }
    } else {
      assert r[0] == u[0];
      assert s[|s| - |u|] == u[0];
    }
  }

  /** The longest prefix of `s` without whitespace. */
  function TakeWord(s: string): (w: string)
    ensures |w| <= |s| && w == s[..|w|]
    ensures NoSpace(w)
    ensures |w| < |s| ==> IsSpace(s[|w|])
  {
    if s == [] || IsSpace(s[0]) then [] else [s[0]] + TakeWord(s[1..])
  }

  /** A word without whitespace is taken whole. */
  lemma {:induction false} TakeWordOfWord(w: string)
    requires NoSpace(w)
    ensures TakeWord(w) == w
    decreases |w|
  {
    if w != [] {
      TakeWordOfWord(w[1..]);
      assert w == [w[0]] + w[1..];
    }
  }

  /** A word followed by whitespace, or by nothing, is taken whole. */
  lemma {:induction false} TakeWordThen(w: string, rest: string)
    requires NoSpace(w) && (rest == [] || IsSpace(rest[0]))
    ensures TakeWord(w + rest) == w
    decreases |w|
  {
    if w == [] {
      assert w + rest == rest;
    } else {
      TakeWordThen(w[1..], rest);
      assert (w + rest)[1..] == w[1..] + rest;
      assert w == [w[0]] + w[1..];
    }
  }

  /** Splitting a word followed by whitespace, or by nothing, gives the word
      and, unless only whitespace follows, the rest from its first non-space
      character. */
  lemma SplitOnceAfterWord(w: string, rest: string)
    requires w != [] && NoSpace(w) && (rest == [] || IsSpace(rest[0]))
    ensures SplitOnce(w + rest) == if AllSpace(rest) then [w] else [w, TrimStart(rest)]
  {
    var s := w + rest;
    assert s[0] == w[0];
    TrimStartAtNonSpace(s);
    TakeWordThen(w, rest);
    assert s[|w|..] == rest;
    var parts := SplitOnce(s);
    if AllSpace(rest) {
      TrimStartEmptyIffAllSpace(rest);
      assert |parts| == 1;
    } else {
      TrimStartEmptyIffAllSpace(rest);
      assert |parts| == 2;
    }
  }

  /** Nothing is trimmed from a text that starts with a non-space. */
  lemma TrimStartAtNonSpace(s: string)
    requires s != [] && !IsSpace(s[0])
    ensures TrimStart(s) == s
  {
  }

  /** Trimming leaves nothing exactly of an all-whitespace text. */
  lemma TrimStartEmptyIffAllSpace(s: string)
    ensures TrimStart(s) == [] <==> AllSpace(s)
  {
    var u := TrimStart(s);
    if u == [] {
      forall i | 0 <= i < |s| ensures IsSpace(s[i]) {
        assert s[i] == s[..|s| - |u|][i];
      }
    } else {
      assert s[|s| - |u|] == u[0];
    }
  }

  /** Python's `s.split(maxsplit=1)`: no part when `s` is all whitespace;
      otherwise the first run of non-space characters, followed, when
      anything but whitespace comes after it, by everything from the next
      non-space character to the end (trailing whitespace kept). */
  function SplitOnce(s: string): (parts: seq<string>)
    ensures |parts| <= 2
    ensures |parts| == 0 <==> AllSpace(s)
    ensures |parts| >= 1 ==> parts[0] != [] && NoSpace(parts[0])
    ensures |parts| == 2 ==> parts[1] != [] && !IsSpace(parts[1][0])
    ensures |parts| >= 1 ==> parts[0] == TakeWord(TrimStart(s))
    ensures |parts| == 1 ==> AllSpace(TrimStart(s)[|parts[0]|..])
    ensures |parts| == 2 ==> parts[1] == TrimStart(TrimStart(s)[|parts[0]|..])
  {
    var u := TrimStart(s);
    if u == [] then
      assert s == s[..|s|];
      []
    else
      assert !AllSpace(s) by { assert s[|s| - |u|] == u[0]; }
      var word := TakeWord(u);
      var rest := TrimStart(u[|word|..]);
      if rest == [] then
        assert u[|word|..] == u[|word|..][..|u[|word|..]| - |rest|];
        [word]
      else [word, rest]
  }

  /** `str.lower` on ASCII letters; every other character is kept. */
  function LowerChar(c: char): char {
    if 'A' <= c <= 'Z' then (c as int + 32) as char else c
  }

  function Lower(s: string): string {
    seq(|s|, i requires 0 <= i < |s| => LowerChar(s[i]))
  }

  /** Lower-casing keeps a word a word. */
  lemma LowerKeepsNoSpace(w: string)
    requires NoSpace(w)
    ensures |Lower(w)| == |w| && NoSpace(Lower(w))
  {
    var l := Lower(w);
    forall i | 0 <= i < |l| ensures !IsSpace(l[i]) {
      assert l[i] == LowerChar(w[i]);
    }
  }

  /** Lower-casing twice is lower-casing once. */
  lemma LowerIdempotent(w: string)
    ensures Lower(Lower(w)) == Lower(w)
  {
    var l := Lower(w);
    forall i | 0 <= i < |l| ensures Lower(l)[i] == l[i] {
      assert l[i] == LowerChar(w[i]);
    }
  }

  predicate StartsWith(s: string, prefix: string) {
    |prefix| <= |s| && s[..|prefix|] == prefix
  }

  /** Python's `s[:n]`. */
  function Take(s: string, n: nat): (r: string)
    ensures |r| == if |s| <= n then |s| else n
    ensures r == s[..|r|]
  {
    if |s| <= n then s else s[..n]
  }

  /** The concatenation of a list of strings, `"".join(ss)`. */
  function Concat(ss: seq<string>): string {
    if ss == [] then "" else ss[0] + Concat(ss[1..])
  }

  lemma {:induction false} ConcatAppend(a: seq<string>, b: seq<string>)
    ensures Concat(a + b) == Concat(a) + Concat(b)
  {
    if a != [] {
      assert (a + b)[1..] == a[1..] + b;
      ConcatAppend(a[1..], b);
    } else {
      assert a + b == b;
    }
  }

  /** `sep.join(ws)`. */
  function Join(ws: seq<string>, sep: string): string {
    if |ws| == 0 then "" else if |ws| == 1 then ws[0] else ws[0] + sep + Join(ws[1..], sep)
  }

  /** `s.replace(pattern, "")`: occurrences are removed left to right, without overlap. */
  function RemoveAll(s: string, pattern: string): (r: string)
    requires pattern != []
    ensures |r| <= |s|
    decreases |s|
  {
    if |s| < |pattern| then s
    else if s[..|pattern|] == pattern then RemoveAll(s[|pattern|..], pattern)
    else [s[0]] + RemoveAll(s[1..], pattern)
  }

  /** `pattern` occurs nowhere in `s`. */
  predicate FreeOf(s: string, pattern: string) {
    forall i | 0 <= i <= |s| - |pattern| :: !IsInfixAt(s, pattern, i)
  }

  /** A text without the pattern is left as it is. */
  lemma {:induction false} RemoveAllAbsent(s: string, pattern: string)
    requires pattern != [] && FreeOf(s, pattern)
    ensures RemoveAll(s, pattern) == s
    decreases |s|
  {
    if |s| >= |pattern| {
      assert !IsInfixAt(s, pattern, 0);
      assert s[0..|pattern|] == s[..|pattern|];
      assert FreeOf(s[1..], pattern) by {
        forall i | 0 <= i <= |s[1..]| - |pattern| ensures !IsInfixAt(s[1..], pattern, i) {
          assert !IsInfixAt(s, pattern, i + 1);
          assert s[1..][i..i + |pattern|] == s[i + 1..i + 1 + |pattern|];
        }
      }
      RemoveAllAbsent(s[1..], pattern);
      assert s == [s[0]] + s[1..];
    }
  }

  /** A leading occurrence is removed and the rest is treated on its own. */
  lemma RemoveAllLeading(pattern: string, s: string)
    requires pattern != []
    ensures RemoveAll(pattern + s, pattern) == RemoveAll(s, pattern)
  {
    assert (pattern + s)[..|pattern|] == pattern;
    assert (pattern + s)[|pattern|..] == s;
  }

  /** A character that does not start an occurrence is kept, in front. */
  lemma RemoveAllKeeps(c: char, s: string, pattern: string)
    requires pattern != [] && pattern[0] != c
    ensures RemoveAll([c] + s, pattern) == [c] + RemoveAll(s, pattern)
  {
    var t := [c] + s;
    if |t| < |pattern| {
      RemoveAllAbsent(s, pattern);
    } else {
      assert t[..|pattern|][0] == c;
      assert t[1..] == s;
    }
  }

  // Decimal rendering of integers, as Python's `str(int)` / f-string does it.

  predicate IsDigit(c: char) {
    '0' <= c <= '9'
  }

  function DigitChar(d: nat): (c: char)
    requires d < 10
    ensures IsDigit(c) && c as int - '0' as int == d
  {
    ('0' as int + d) as char
  }

  function NatToString(n: nat): (s: string)
    ensures s != [] && forall i | 0 <= i < |s| :: IsDigit(s[i])
    decreases n
  {
    if n < 10 then [DigitChar(n)] else NatToString(n / 10) + [DigitChar(n % 10)]
  }

  function IntToString(i: int): (s: string)
    ensures s != [] && forall k | 0 <= k < |s| :: s[k] != '_'
  {
    if i < 0 then "-" + NatToString(-i) else NatToString(i)
  }

  /** Reads a decimal numeral back; the inverse used to show that the
      rendering never gives two numbers the same text. */
  function ParseNat(s: string): nat
    requires forall i | 0 <= i < |s| :: IsDigit(s[i])
  {
    if s == [] then 0 else ParseNat(s[..|s| - 1]) * 10 + DigitValue(s[|s| - 1])
  }

  function DigitValue(c: char): nat
    requires IsDigit(c)
  {
    c as int - '0' as int
  }

  lemma {:induction false} ParseNatToString(n: nat)
    ensures ParseNat(NatToString(n)) == n
  {
    if n >= 10 {
      var s := NatToString(n);
      assert s[..|s| - 1] == NatToString(n / 10);
      ParseNatToString(n / 10);
    }
  }

  lemma SignShown(i: int)
    ensures IntToString(i)[0] == '-' <==> i < 0
  {
    if i >= 0 {
      assert IsDigit(NatToString(i)[0]);
    }
  }

  /** Distinct integers have distinct decimal renderings. */
  lemma IntToStringInjective(a: int, b: int)
    requires IntToString(a) == IntToString(b)
    ensures a == b
  {
    SignShown(a);
    SignShown(b);
    var s := IntToString(a);
    if a < 0 && b < 0 {
      assert NatToString(-a) == s[1..] == NatToString(-b);
      ParseNatToString(-a);
      ParseNatToString(-b);
    } else if a >= 0 && b >= 0 {
      ParseNatToString(a);
      ParseNatToString(b);
    }
  }
}

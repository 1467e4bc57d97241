/**
 * The JavaScript string operations the server helpers and the normalizer
 * use, on strings as sequences of Unicode characters (a character outside
 * the Basic Multilingual Plane is one element here, two UTF-16 units in
 * JavaScript; the core's strings do not depend on the difference).
 */
module Text {

  /** `String.prototype.toLowerCase` on the ASCII letters. */
  function LowerChar(c: char): char
  {
    if 'A' <= c <= 'Z' then (c as int + 32) as char else c
  }

  function Lower(s: string): (r: string)
    ensures |r| == |s|
    ensures forall i :: 0 <= i < |s| ==> r[i] == LowerChar(s[i])
  {
    seq(|s|, i requires 0 <= i < |s| => LowerChar(s[i]))
  }

  /** Lower-casing twice is lower-casing once. */
  lemma LowerIdempotent(s: string)
    ensures Lower(Lower(s)) == Lower(s)
  {
    assert forall i :: 0 <= i < |s| ==> LowerChar(LowerChar(s[i])) == LowerChar(s[i]);
  }

  lemma LowerAppend(a: string, b: string)
    ensures Lower(a + b) == Lower(a) + Lower(b)
  {
    assert forall i :: 0 <= i < |a| ==> (a + b)[i] == a[i];
    assert forall i :: |a| <= i < |a| + |b| ==> (a + b)[i] == b[i - |a|];
  }

  /** The white space and line terminators that `String.prototype.trim` removes. */
  predicate IsSpace(c: char)
  {
    c == '\t' || c == '\n' || c == '\U{000B}' || c == '\U{000C}' || c == '\r' || c == ' '
    || c == '\U{00A0}' || c == '\U{1680}' || ('\U{2000}' <= c <= '\U{200A}')
    || c == '\U{2028}' || c == '\U{2029}' || c == '\U{202F}' || c == '\U{205F}'
    || c == '\U{3000}' || c == '\U{FEFF}'
  }

  function TrimStart(s: string): (r: string)
    ensures |r| <= |s| && r == s[|s| - |r|..]
    ensures r == [] || !IsSpace(r[0])
    ensures forall i :: 0 <= i < |s| - |r| ==> IsSpace(s[i])
  {
    if s != [] && IsSpace(s[0]) then TrimStart(s[1..]) else s
  }

  function TrimEnd(s: string): (r: string)
    ensures |r| <= |s| && r == s[..|r|]
    ensures r == [] || !IsSpace(r[|r| - 1])
    ensures forall i :: |r| <= i < |s| ==> IsSpace(s[i])
  {
    if s != [] && IsSpace(s[|s| - 1]) then TrimEnd(s[..|s| - 1]) else s
  }

  /** `String.prototype.trim`. */
  function Trim(s: string): (r: string)
    ensures |r| <= |s|
    ensures r == [] || (!IsSpace(r[0]) && !IsSpace(r[|r| - 1]))
  {
    TrimEnd(TrimStart(s))
  }

  /** Leading white space does not survive a trim. */
  lemma TrimSpacePrefix(c: char, s: string)
    requires IsSpace(c)
    ensures Trim([c] + s) == Trim(s)
  {
    assert ([c] + s)[1..] == s;
  }

  /** A string with no white space at either end is its own trim. */
  lemma TrimOfTrimmed(s: string)
    requires s == [] || (!IsSpace(s[0]) && !IsSpace(s[|s| - 1]))
    ensures Trim(s) == s
  {
  }

  /** `s.startsWith(p)`. */
  predicate StartsWith(s: string, p: string)
  {
    |p| <= |s| && s[..|p|] == p
  }

  /** `p` occurs in `s` starting at index `i`. */
  predicate OccursAt(s: string, p: string, i: int)
  {
    0 <= i <= |s| - |p| && s[i..i + |p|] == p
  }

  /** `s.includes(p)`: `p` occurs at some position of `s`. */
  ghost predicate Contains(s: string, p: string)
  {
    exists i :: OccursAt(s, p, i)
  }

  /** The executable search behind `Contains`. */
  function IndexOf(s: string, p: string, from: nat): (r: int)
    requires from <= |s| + 1
    ensures -1 <= r
    ensures r >= 0 ==> from <= r && OccursAt(s, p, r)
    ensures r == -1 ==> forall i :: from <= i ==> !OccursAt(s, p, i)
    decreases |s| + 1 - from
  {
    if from + |p| > |s| then -1
    else if s[from..from + |p|] == p then from
    else IndexOf(s, p, from + 1)
  }

  function Includes(s: string, p: string): (b: bool)
    ensures b <==> Contains(s, p)
  {
    IndexOf(s, p, 0) >= 0
  }

  /** `s.split(sep)` for a one-character separator: the pieces between separators, in order. */
  function Split(s: string, sep: char): (r: seq<string>)
    ensures |r| >= 1
    ensures forall k :: 0 <= k < |r| ==> sep !in r[k]
    decreases |s|
  {
    if sep !in s then [s]
    else
      var i := FirstIndex(s, sep);
      [s[..i]] + Split(s[i + 1..], sep)
  }

  function FirstIndex(s: string, c: char): (i: nat)
    requires c in s
    ensures i < |s| && s[i] == c && c !in s[..i]
  {
    if s[0] == c then 0 else 1 + FirstIndex(s[1..], c)
  }

  /** The first occurrence is the only index before which `c` does not occur. */
  lemma {:induction false} FirstIndexIs(s: string, c: char, j: nat)
    requires j < |s| && s[j] == c && c !in s[..j]
    ensures FirstIndex(s, c) == j
  {
    if j > 0 {
      assert s[0] == s[..j][0];
      assert s[1..][..j - 1] == s[..j][1..];
      FirstIndexIs(s[1..], c, j - 1);
    }
  }

  /** Joining the pieces with the separator gives back the string. */
  lemma {:induction false} SplitJoin(s: string, sep: char)
    ensures Join(Split(s, sep), sep) == s
    decreases |s|
  {
    if sep in s {
      var i := FirstIndex(s, sep);
      var rest := s[i + 1..];
      SplitJoin(rest, sep);
      var parts := Split(s, sep);
      assert parts == [s[..i]] + Split(rest, sep);
      assert |parts| > 1 && parts[0] == s[..i] && parts[1..] == Split(rest, sep);
      assert Join(parts, sep) == s[..i] + [sep] + rest;
      Reassembled(s, i);
    }
  }

  /** A string is the part before an index, the character there and the part after. */
  lemma Reassembled(s: string, i: nat)
    requires i < |s|
    ensures s == s[..i] + [s[i]] + s[i + 1..]
  {
  }

  function Join(parts: seq<string>, sep: char): string
    requires |parts| >= 1
  {
    if |parts| == 1 then parts[0] else parts[0] + [sep] + Join(parts[1..], sep)
  }

  /** A string without the separator is its only piece. */
  lemma SplitWithoutSeparator(s: string, sep: char)
    requires sep !in s
    ensures Split(s, sep) == [s]
  {
  }

  /** Splitting `a + [sep] + b`, where `b` has no separator, adds `b` as one last piece. */
  lemma {:induction false} SplitAppend(a: string, sep: char, b: string)
    requires sep !in b
    ensures Split(a + [sep] + b, sep) == Split(a, sep) + [b]
    decreases |a|
  {
    if sep in a {
      var j := FirstIndex(a, sep);
      var rest := a[j + 1..];
      SliceAroundSeparator(a, sep, b, j);
      SplitAtFirst(a + [sep] + b, sep, j);
      SplitAppend(rest, sep, b);
      calc {
        Split(a + [sep] + b, sep);
        [a[..j]] + Split(rest + [sep] + b, sep);
        [a[..j]] + (Split(rest, sep) + [b]);
        ([a[..j]] + Split(rest, sep)) + [b];
        Split(a, sep) + [b];
      }
    } else {
      SplitAppendLastSeparator(a, sep, b);
    }
  }

  /** Splitting at an occurrence with no separator before it. */
  lemma SplitAtFirst(s: string, sep: char, j: nat)
    requires j < |s| && s[j] == sep && sep !in s[..j]
    ensures Split(s, sep) == [s[..j]] + Split(s[j + 1..], sep)
  {
    FirstIndexIs(s, sep, j);
  }

  /** The pieces of `a + [sep] + b` around an index `j` of `a`. */
  lemma SliceAroundSeparator(a: string, sep: char, b: string, j: nat)
    requires j < |a|
    ensures (a + [sep] + b)[..j] == a[..j] && (a + [sep] + b)[j] == a[j]
    ensures (a + [sep] + b)[j + 1..] == a[j + 1..] + [sep] + b
  {
  }

  /** With no separator before it, the appended separator is the only split point. */
  lemma SplitAppendLastSeparator(a: string, sep: char, b: string)
    requires sep !in a && sep !in b
    ensures Split(a + [sep] + b, sep) == [a, b]
  {
    var s := a + [sep] + b;
    assert s[..|a|] == a && s[|a|] == sep && s[|a| + 1..] == b;
    FirstIndexIs(s, sep, |a|);
  }

  /** The first piece of `s.split(sep, 1)`. */
  function BeforeFirst(s: string, sep: char): (r: string)
    ensures r == Split(s, sep)[0]
    ensures StartsWith(s, r) && sep !in r
  {
    if sep in s then s[..FirstIndex(s, sep)] else s
  }

  /** `s.replace(/x/g, y)` for single characters. */
  function ReplaceAll(s: string, x: char, y: char): (r: string)
    ensures |r| == |s|
    ensures forall i :: 0 <= i < |s| ==> r[i] == (if s[i] == x then y else s[i])
  {
    seq(|s|, i requires 0 <= i < |s| => if s[i] == x then y else s[i])
  }

  /** `s.padEnd(n, c)`. */
  function PadEnd(s: string, n: nat, c: char): (r: string)
    ensures |s| >= n ==> r == s
    ensures |s| < n ==> |r| == n
    ensures r[..|s|] == s
  {
    if |s| >= n then s else s + seq(n - |s|, _ => c)
  }

  function DigitChar(d: nat): char
    requires d < 10
  {
    "0123456789"[d]
  }

  /** `String(n)` for a non-negative integer: decimal digits without leading zeros. */
  function NatToString(n: nat): (r: string)
    ensures |r| >= 1
    ensures forall k :: 0 <= k < |r| ==> '0' <= r[k] <= '9'
    ensures |r| > 1 ==> r[0] != '0'
  {
    if n < 10 then [DigitChar(n)] else NatToString(n / 10) + [DigitChar(n % 10)]
  }

  /** `String(n)` for an integer. */
  function IntToString(n: int): (r: string)
    ensures |r| >= 1
    ensures n >= 0 ==> r == NatToString(n)
    ensures n < 0 ==> r[0] == '-' && r[1..] == NatToString(-n)
  {
    if n >= 0 then NatToString(n) else "-" + NatToString(-n)
  }

  function DigitValue(c: char): nat
    requires '0' <= c <= '9'
  {
    c as int - '0' as int
  }

  /** Reads decimal digits back: the value of a string of digits. */
  function DigitsValue(s: string): nat
    requires forall k :: 0 <= k < |s| ==> '0' <= s[k] <= '9'
  {
    if s == [] then 0 else 10 * DigitsValue(s[..|s| - 1]) + DigitValue(s[|s| - 1])
  }

  /** Decimal printing round-trips through `DigitsValue`. */
  lemma {:induction false} NatToStringValue(n: nat)
    ensures DigitsValue(NatToString(n)) == n
  {
    if n >= 10 {
      NatToStringValue(n / 10);
      var r := NatToString(n);
      assert r[..|r| - 1] == NatToString(n / 10);
    }
  }

  /** Different numbers print differently. */
  lemma NatToStringInjective(m: nat, n: nat)
    requires NatToString(m) == NatToString(n)
    ensures m == n
  {
    NatToStringValue(m);
    NatToStringValue(n);
  }
}

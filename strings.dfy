/**
 * The handful of Python string builtins the client relies on:
 * `str.upper`, `str.replace` of one character, `"\n".join`, and `str(n)`
 * for a non-negative integer, each with an inverse or a pointwise
 * characterisation that pins down what it computes.
 */
module Strings {

  /** `c.upper()` on the ASCII range; every other character is unchanged. */
  function UpperChar(c: char): (u: char)
    ensures 'a' <= c <= 'z' ==> 'A' <= u <= 'Z' && u as int == c as int - 32
    ensures !('a' <= c <= 'z') ==> u == c
  {
    if 'a' <= c <= 'z' then (c as int - 32) as char else c
  }

  /** `s.upper()`. */
  function Upper(s: string): (r: string)
    ensures |r| == |s|
    ensures forall i :: 0 <= i < |s| ==> r[i] == UpperChar(s[i])
  {
    if s == [] then [] else [UpperChar(s[0])] + Upper(s[1..])
  }

  /** `s.replace(from, to)` where both are single characters. */
  function Replace(s: string, from: char, to: char): (r: string)
    ensures |r| == |s|
    ensures forall i :: 0 <= i < |s| ==> r[i] == if s[i] == from then to else s[i]
  {
    if s == [] then [] else [if s[0] == from then to else s[0]] + Replace(s[1..], from, to)
  }

  /**
   * Where piece `k` starts in `sep.join(parts)`: after the pieces before it,
   * each followed by one separator.
   */
  function Offset(parts: seq<string>, k: nat): nat
    requires k <= |parts|
  {
    if k == 0 then 0 else Offset(parts, k - 1) + |parts[k - 1]| + 1
  }

  lemma {:induction false} OffsetShift(parts: seq<string>, k: nat)
    requires 1 <= k <= |parts|
    ensures Offset(parts, k) == |parts[0]| + 1 + Offset(parts[1..], k - 1)
  {
    if k > 1 {
      OffsetShift(parts, k - 1);
    }
  }

  /**
   * `sep.join(parts)` for a one-character separator: as long as the pieces
   * plus one separator between each two consecutive ones.
   */
  function Join(sep: char, parts: seq<string>): (r: string)
    ensures parts == [] ==> r == ""
    ensures parts != [] ==> |r| == Offset(parts, |parts|) - 1
  {
    if parts == [] then ""
    else if |parts| == 1 then parts[0]
    else
      OffsetShift(parts, |parts|);
      parts[0] + [sep] + Join(sep, parts[1..])
  }

  lemma SliceAfterPrefix(a: string, b: string, i: nat, j: nat)
    requires i <= j <= |b|
    ensures (a + b)[|a| + i..|a| + j] == b[i..j]
  {
  }

  /**
   * The layout of the joined string: piece `k` sits at its offset,
   * followed by the separator unless it is the last piece.
   */
  lemma {:induction false} JoinPieceAt(sep: char, parts: seq<string>, k: nat)
    requires k < |parts|
    ensures Offset(parts, k) + |parts[k]| <= |Join(sep, parts)|
    ensures Join(sep, parts)[Offset(parts, k)..Offset(parts, k) + |parts[k]|] == parts[k]
    ensures k < |parts| - 1 ==>
      Offset(parts, k) + |parts[k]| < |Join(sep, parts)| &&
      Join(sep, parts)[Offset(parts, k) + |parts[k]|] == sep
  {
    if |parts| > 1 {
      var rest := parts[1..];
      var j, jr := Join(sep, parts), Join(sep, rest);
      var front := parts[0] + [sep];
      assert j == front + jr;
      if k == 0 {
        assert j[..|parts[0]|] == parts[0];
        assert j[|parts[0]|] == sep;
      } else {
        JoinPieceAt(sep, rest, k - 1);
        OffsetShift(parts, k);
        assert parts[k] == rest[k - 1];
        var o := Offset(rest, k - 1);
        SliceAfterPrefix(front, jr, o, o + |rest[k - 1]|);
        if k < |parts| - 1 {
          assert j[|front| + o + |rest[k - 1]|] == jr[o + |rest[k - 1]|];
        }
      }
    }
  }

  /** `s.split(sep)` for a one-character separator: always at least one piece. */
  function Split(s: string, sep: char): (r: seq<string>)
    ensures |r| >= 1
    ensures forall k :: 0 <= k < |r| ==> sep !in r[k]
  {
    if s == [] then [[]]
    else
      var rest := Split(s[1..], sep);
      if s[0] == sep then [[]] + rest else [[s[0]] + rest[0]] + rest[1..]
  }

  /** A piece without the separator splits to itself. */
  lemma {:induction false} SplitPiece(a: string, sep: char)
    requires sep !in a
    ensures Split(a, sep) == [a]
  {
    if a != [] {
      SplitPiece(a[1..], sep);
      assert [a[0]] + a[1..] == a;
    }
  }

  /** Splitting `a + [sep] + t` peels off `a` when `a` holds no separator. */
  lemma {:induction false} SplitAfterPiece(a: string, sep: char, t: string)
    requires sep !in a
    ensures Split(a + [sep] + t, sep) == [a] + Split(t, sep)
  {
    if a == [] {
      assert a + [sep] + t == [sep] + t;
      assert ([sep] + t)[1..] == t;
    } else {
      var s := a + [sep] + t;
      assert s[0] == a[0] && s[1..] == a[1..] + [sep] + t;
      SplitAfterPiece(a[1..], sep, t);
      assert [a[0]] + a[1..] == a;
    }
  }

  /** Join and Split are inverse on a non-empty list of separator-free pieces. */
  lemma {:induction false} SplitJoin(parts: seq<string>, sep: char)
    requires |parts| >= 1
    requires forall k :: 0 <= k < |parts| ==> sep !in parts[k]
    ensures Split(Join(sep, parts), sep) == parts
  {
    if |parts| == 1 {
      SplitPiece(parts[0], sep);
    } else {
      SplitJoin(parts[1..], sep);
      SplitAfterPiece(parts[0], sep, Join(sep, parts[1..]));
      assert [parts[0]] + parts[1..] == parts;
    }
  }

  predicate IsDigit(c: char) {
    '0' <= c <= '9'
  }

  function DigitChar(d: nat): (c: char)
    requires d < 10
    ensures IsDigit(c) && c as int - '0' as int == d
  {
    ('0' as int + d) as char
  }

  /** `str(n)` for a non-negative integer: its decimal digits, no leading zero. */
  function NatToString(n: nat): (r: string)
    ensures |r| >= 1
    ensures forall k :: 0 <= k < |r| ==> IsDigit(r[k])
    ensures |r| > 1 ==> r[0] != '0'
    ensures DecimalValue(r) == n
  {
    if n < 10 then [DigitChar(n)] else NatToString(n / 10) + [DigitChar(n % 10)]
  }

  /** The number a string of decimal digits denotes. */
  function DecimalValue(s: string): nat
    requires forall k :: 0 <= k < |s| ==> IsDigit(s[k])
  {
    if s == [] then 0
    else
      assert IsDigit(s[|s| - 1]);
      DecimalValue(s[..|s| - 1]) * 10 + (s[|s| - 1] as int - '0' as int)
  }

  /** The length of the longest run of decimal digits at the front of `s`. */
  function DigitPrefixLength(s: string): (n: nat)
    ensures n <= |s|
    ensures forall k :: 0 <= k < n ==> IsDigit(s[k])
    ensures n < |s| ==> !IsDigit(s[n])
  {
    if s != [] && IsDigit(s[0]) then 1 + DigitPrefixLength(s[1..]) else 0
  }

  /** A digit string followed by a non-digit: the digit run is exactly the string. */
  lemma {:induction false} DigitPrefixOf(d: string, t: string)
    requires forall k :: 0 <= k < |d| ==> IsDigit(d[k])
    requires t == [] || !IsDigit(t[0])
    ensures DigitPrefixLength(d + t) == |d|
  {
    if d != [] {
      assert (d + t)[1..] == d[1..] + t;
      DigitPrefixOf(d[1..], t);
    }
  }
}

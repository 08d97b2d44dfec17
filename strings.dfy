/**
 * The JavaScript string operations the session and transport code relies on:
 * `split` on a one-character separator, `includes`, a global one-character
 * `replace`, and the decimal rendering of an integer in a template literal.
 */
module Strings {

  /** Position of the first occurrence of `c` in `s`. */
  function IndexOf(s: string, c: char): (i: nat)
    requires c in s
    ensures i < |s| && s[i] == c
    ensures forall j :: 0 <= j < i ==> s[j] != c
  {
    if s[0] == c then 0 else 1 + IndexOf(s[1..], c)
  }

  /** The segments of `parts` glued back together with `sep` between them. */
  function Join(parts: seq<string>, sep: char): string
    requires |parts| >= 1
  {
    if |parts| == 1 then parts[0] else parts[0] + [sep] + Join(parts[1..], sep)
  }

  /**
   * `s.split(sep)`: the pieces of `s` between occurrences of `sep`; there
   * are several exactly when the separator occurs, and the first runs up to
   * its first occurrence.
   */
  function Split(s: string, sep: char): (parts: seq<string>)
    ensures |parts| >= 1
    ensures |parts| > 1 <==> sep in s
    ensures parts[0] == if sep in s then s[..IndexOf(s, sep)] else s
    decreases |s|
  {
    if sep !in s then [s]
    else [s[..IndexOf(s, sep)]] + Split(s[IndexOf(s, sep) + 1..], sep)
  }

  /** No piece holds the separator. */
  lemma {:induction false} SplitPiecesExcludeSeparator(s: string, sep: char)
    ensures forall k :: 0 <= k < |Split(s, sep)| ==> sep !in Split(s, sep)[k]
    decreases |s|
  {
    var parts := Split(s, sep);
    if sep in s {
      var i := IndexOf(s, sep);
      var rest := s[i + 1..];
      SplitPiecesExcludeSeparator(rest, sep);
      assert parts == [s[..i]] + Split(rest, sep);
      assert sep !in s[..i] by {
        forall j | 0 <= j < i ensures s[..i][j] != sep { }
      }
      forall k | 0 <= k < |parts| ensures sep !in parts[k] {
        if k > 0 { assert parts[k] == Split(rest, sep)[k - 1]; }
      }
    }
  }

  /** Joining the pieces with the separator gives `s` back. */
  lemma {:induction false} SplitJoin(s: string, sep: char)
    ensures Join(Split(s, sep), sep) == s
    decreases |s|
  {
    if sep in s {
      var i := IndexOf(s, sep);
      var rest := s[i + 1..];
      SplitJoin(rest, sep);
      var parts := Split(s, sep);
      assert parts == [s[..i]] + Split(rest, sep);
      assert parts[1..] == Split(rest, sep);
      assert Join(parts, sep) == s[..i] + [sep] + Join(Split(rest, sep), sep);
      assert s == s[..i] + [sep] + rest;
    }
  }

  /** The first piece is a prefix that runs to the first separator or the end. */
  lemma FirstPiece(t: string, sep: char)
    ensures var piece := Split(t, sep)[0];
      |piece| <= |t| && t[..|piece|] == piece && (|piece| == |t| || t[|piece|] == sep)
  {
  }

  /** The second piece starts after the first separator and runs to the next separator or the end. */
  lemma SecondPiece(s: string, sep: char)
    requires sep in s
    ensures var start := IndexOf(s, sep) + 1;
      var piece := Split(s, sep)[1];
      var end := start + |piece|;
      end <= |s| && s[start..end] == piece && (end == |s| || s[end] == sep)
  {
    var i := IndexOf(s, sep);
    var rest := s[i + 1..];
    var tail := Split(rest, sep);
    assert Split(s, sep) == [s[..i]] + tail;
    FirstPiece(rest, sep);
    assert s[i + 1..i + 1 + |tail[0]|] == rest[..|tail[0]|];
  }

  /** `pat` occurs in `s` starting at position `k`. */
  predicate OccursAt(s: string, pat: string, k: nat) {
    k + |pat| <= |s| && s[k..k + |pat|] == pat
  }

  lemma OccursShifted(s: string, pat: string, k: nat)
    requires |s| > 0
    ensures OccursAt(s[1..], pat, k) <==> OccursAt(s, pat, k + 1)
  {
    if k + |pat| <= |s[1..]| {
      assert s[1..][k..k + |pat|] == s[k + 1..k + 1 + |pat|];
    }
  }

  /** `s.includes(pat)`: some occurrence of `pat` lies inside `s`. */
  function Includes(s: string, pat: string): (b: bool)
    ensures b <==> exists k: nat :: OccursAt(s, pat, k)
    decreases |s|
  {
    if |s| < |pat| then false
    else if s[..|pat|] == pat then
      assert OccursAt(s, pat, 0);
      true
    else
      var b := Includes(s[1..], pat);
      assert b ==> exists k: nat :: OccursAt(s, pat, k) by {
        if b {
          var k: nat :| OccursAt(s[1..], pat, k);
          OccursShifted(s, pat, k);
        }
      }
      assert (exists k: nat :: OccursAt(s, pat, k)) ==> b by {
        if k: nat :| OccursAt(s, pat, k) {
          assert k != 0;
          OccursShifted(s, pat, k - 1);
        }
      }
      b
  }

  /** `s` with every `from` replaced by `to`, as `s.replace(/from/g, to)` does. */
  function ReplaceAll(s: string, from: char, to: char): (r: string)
    ensures |r| == |s|
    ensures forall i :: 0 <= i < |s| ==> r[i] == if s[i] == from then to else s[i]
  {
    if s == [] then []
    else [if s[0] == from then to else s[0]] + ReplaceAll(s[1..], from, to)
  }

  predicate IsDigit(c: char) {
    '0' <= c <= '9'
  }

  function DigitValue(c: char): nat
    requires IsDigit(c)
  {
    c as int - '0' as int
  }

  /** The number written by a string of decimal digits. */
  function DecimalValue(s: string): nat
    requires forall i :: 0 <= i < |s| ==> IsDigit(s[i])
  {
    if s == [] then 0 else 10 * DecimalValue(s[..|s| - 1]) + DigitValue(s[|s| - 1])
  }

  /**
   * The decimal digits of `n`, as JavaScript prints a non-negative integer:
   * no leading zero, and reading them back gives `n`.
   */
  function NatToDecimal(n: nat): (s: string)
    ensures |s| >= 1
    ensures forall i :: 0 <= i < |s| ==> IsDigit(s[i])
    ensures |s| > 1 ==> s[0] != '0'
    ensures DecimalValue(s) == n
    decreases n
  {
    var last := ('0' as int + n % 10) as char;
    if n < 10 then [last]
    else
      var front := NatToDecimal(n / 10);
      var s := front + [last];
      assert s[..|s| - 1] == front;
      s
  }

  /** `${n}` for an integer `n`: a minus sign before the digits of a negative number. */
  function IntToDecimal(n: int): (s: string)
    ensures |s| >= 1
    ensures n < 0 <==> s[0] == '-'
    ensures n < 0 ==> s[1..] == NatToDecimal(-n)
    ensures n >= 0 ==> s == NatToDecimal(n)
  {
    if n < 0 then "-" + NatToDecimal(-n) else NatToDecimal(n)
  }
}

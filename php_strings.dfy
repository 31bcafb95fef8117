/**
 * The PHP string built-ins the scan model and the upgrader rely on:
 * strtolower, stristr (as a yes/no test), explode and implode with a
 * one-character separator, int-to-string conversion and the (int) cast of a
 * string.
 */
module PhpStrings {

  /** strtolower on one character: ASCII letters only, as PHP does in the "C" locale. */
  function LowerChar(c: char): char {
    if 'A' <= c <= 'Z' then (c as int + 32) as char else c
  }

  predicate IsUpper(c: char) {
    'A' <= c <= 'Z'
  }

  /** strtolower($s) */
  function Lower(s: string): (r: string)
    ensures |r| == |s|
    ensures forall i :: 0 <= i < |s| ==> r[i] == LowerChar(s[i])
    ensures forall i :: 0 <= i < |s| ==> !IsUpper(r[i])
  {
    if s == [] then [] else [LowerChar(s[0])] + Lower(s[1..])
  }

  /** Lowering commutes with taking a slice. */
  lemma LowerSlice(s: string, i: nat, j: nat)
    requires i <= j <= |s|
    ensures Lower(s)[i..j] == Lower(s[i..j])
  {
    assert forall k :: 0 <= k < j - i ==> Lower(s)[i..j][k] == LowerChar(s[i + k]);
  }

  /** strtolower is idempotent. */
  lemma LowerIdempotent(s: string)
    ensures Lower(Lower(s)) == Lower(s)
  {
    assert forall k :: 0 <= k < |s| ==> Lower(Lower(s))[k] == Lower(s)[k];
  }

  /** `needle` occurs in `haystack` starting at position `i`. */
  predicate OccursAt(haystack: string, needle: string, i: int) {
    0 <= i <= |haystack| - |needle| && haystack[i..i + |needle|] == needle
  }

  /** `needle` occurs in `haystack` as a contiguous substring (an empty needle always does). */
  predicate Contains(haystack: string, needle: string) {
    exists i :: 0 <= i <= |haystack| - |needle| && OccursAt(haystack, needle, i)
  }

  /** stristr($haystack, $needle) !== false */
  predicate ContainsIgnoreCase(haystack: string, needle: string) {
    Contains(Lower(haystack), Lower(needle))
  }

  /** A case-sensitive match is also a case-insensitive one. */
  lemma ContainsImpliesIgnoreCase(haystack: string, needle: string)
    requires Contains(haystack, needle)
    ensures ContainsIgnoreCase(haystack, needle)
  {
    var i :| 0 <= i <= |haystack| - |needle| && OccursAt(haystack, needle, i);
    LowerSlice(haystack, i, i + |needle|);
    assert OccursAt(Lower(haystack), Lower(needle), i);
  }

  /** The case of the haystack does not matter to stristr. */
  lemma IgnoreCaseOfLowered(haystack: string, needle: string)
    ensures ContainsIgnoreCase(Lower(haystack), needle) == ContainsIgnoreCase(haystack, needle)
  {
    LowerIdempotent(haystack);
  }

  /** explode($sep, $s) for a one-character separator: the pieces between separators, empty pieces kept. */
  function Explode(sep: char, s: string): (parts: seq<string>)
    ensures |parts| >= 1
    ensures forall k :: 0 <= k < |parts| ==> sep !in parts[k]
    decreases |s|
  {
    if s == [] then [""]
    else
      var rest := Explode(sep, s[1..]);
      if s[0] == sep then [""] + rest
      else [[s[0]] + rest[0]] + rest[1..]
  }

  /** implode($glue, $parts) */
  function Implode(glue: string, parts: seq<string>): string
    decreases |parts|
  {
    if |parts| == 0 then ""
    else if |parts| == 1 then parts[0]
    else parts[0] + glue + Implode(glue, parts[1..])
  }

  /** str_replace of one character by another. */
  function ReplaceChar(s: string, from: char, to: char): (r: string)
    ensures |r| == |s|
    ensures forall k :: 0 <= k < |s| ==> r[k] == (if s[k] == from then to else s[k])
  {
    if s == [] then [] else [if s[0] == from then to else s[0]] + ReplaceChar(s[1..], from, to)
  }

  lemma ImplodeExtendFirst(glue: string, c: char, parts: seq<string>)
    requires |parts| >= 1
    ensures Implode(glue, [[c] + parts[0]] + parts[1..]) == [c] + Implode(glue, parts)
  {
    var ps := [[c] + parts[0]] + parts[1..];
    if |parts| > 1 {
      assert ps[1..] == parts[1..];
    }
  }

  /**
   * implode($to, explode($from, $s)) replaces every `from` in `s` by `to`:
   * this is how a space-separated URL list becomes a newline-separated one.
   */
  lemma {:induction false} ImplodeExplodeReplaces(s: string, from: char, to: char)
    ensures Implode([to], Explode(from, s)) == ReplaceChar(s, from, to)
    decreases |s|
  {
    if s != [] {
      var rest := Explode(from, s[1..]);
      ImplodeExplodeReplaces(s[1..], from, to);
      if s[0] == from {
        assert ([""] + rest)[1..] == rest;
      } else {
        ImplodeExtendFirst([to], s[0], rest);
      }
    }
  }

  function DigitChar(d: nat): char
    requires d < 10
  {
    ('0' as int + d) as char
  }

  predicate IsDigit(c: char) {
    '0' <= c <= '9'
  }

  /** The decimal digits of a natural number, as PHP prints it. */
  function NatToString(n: nat): (r: string)
    ensures |r| >= 1
    ensures forall k :: 0 <= k < |r| ==> IsDigit(r[k])
    decreases n
  {
    if n < 10 then [DigitChar(n)] else NatToString(n / 10) + [DigitChar(n % 10)]
  }

  /** (string) $i for an integer. */
  function IntToString(i: int): string {
    if i < 0 then "-" + NatToString(-i) else NatToString(i)
  }

  /** The value of a string made of decimal digits only. */
  function DigitsValue(d: string): nat
    decreases |d|
  {
    if d == [] then 0
    else if IsDigit(d[|d| - 1]) then DigitsValue(d[..|d| - 1]) * 10 + (d[|d| - 1] as int - '0' as int)
    else DigitsValue(d[..|d| - 1]) * 10
  }

  /** The longest prefix of `s` made of decimal digits. */
  function LeadingDigits(s: string): (r: string)
    ensures |r| <= |s| && r == s[..|r|]
    ensures forall k :: 0 <= k < |r| ==> IsDigit(r[k])
    ensures |r| < |s| ==> !IsDigit(s[|r|])
  {
    if s != [] && IsDigit(s[0]) then [s[0]] + LeadingDigits(s[1..]) else []
  }

  predicate IsSpace(c: char) {
    c == ' ' || c == '\t' || c == '\n' || c == '\r' || c == '\U{000B}' || c == '\U{000C}'
  }

  function TrimLeadingSpace(s: string): (r: string)
    ensures r == [] || !IsSpace(r[0])
    decreases |s|
  {
    if s != [] && IsSpace(s[0]) then TrimLeadingSpace(s[1..]) else s
  }

  /** (int) $s for a string: optional leading white space, an optional sign and the leading digits; 0 when there are none. */
  function StringToInt(s: string): int {
    var t := TrimLeadingSpace(s);
    if t != [] && t[0] == '-' then -(DigitsValue(LeadingDigits(t[1..])) as int)
    else if t != [] && t[0] == '+' then DigitsValue(LeadingDigits(t[1..]))
    else DigitsValue(LeadingDigits(t))
  }

  lemma {:induction false} NatToStringValue(n: nat)
    ensures DigitsValue(NatToString(n)) == n
    decreases n
  {
    if n >= 10 {
      NatToStringValue(n / 10);
      var r := NatToString(n);
      assert r[..|r| - 1] == NatToString(n / 10);
    }
  }

  lemma {:induction false} AllDigitsLeading(d: string)
    requires forall k :: 0 <= k < |d| ==> IsDigit(d[k])
    ensures LeadingDigits(d) == d
    decreases |d|
  {
    if d != [] {
      AllDigitsLeading(d[1..]);
    }
  }

  /** (int) (string) $i == $i: the integer cast reads back what PHP prints. */
  lemma IntToStringRoundTrip(i: int)
    ensures StringToInt(IntToString(i)) == i
  {
    if i < 0 {
      var d := NatToString(-i);
      assert IntToString(i)[1..] == d;
      AllDigitsLeading(d);
      NatToStringValue(-i);
    } else {
      AllDigitsLeading(NatToString(i));
      NatToStringValue(i);
    }
  }
}

/**
 * ASCII case mapping: the part of Python's `str.lower()` and `str.upper()`
 * that the guardrails depend on. Letters outside A-Z / a-z are left as they
 * are.
 */
module Ascii {

  predicate IsUpper(c: char) { 'A' <= c <= 'Z' }

  predicate IsLower(c: char) { 'a' <= c <= 'z' }

  predicate IsDigit(c: char) { '0' <= c <= '9' }

  /** A hexadecimal digit as `uuid.UUID.hex` writes it: 0-9 and a-f. */
  predicate IsLowerHexDigit(c: char) { IsDigit(c) || 'a' <= c <= 'f' }

  /** A hexadecimal digit in upper case: 0-9 and A-F. */
  predicate IsUpperHexDigit(c: char) { IsDigit(c) || 'A' <= c <= 'F' }

  function LowerChar(c: char): char
  {
    if IsUpper(c) then (c as int + 32) as char else c
  }

  function UpperChar(c: char): char
  {
    if IsLower(c) then (c as int - 32) as char else c
  }

  /** `s.lower()`: same length, and no upper-case letter is left. */
  function Lower(s: string): (r: string)
    ensures |r| == |s|
    ensures forall i :: 0 <= i < |r| ==> !IsUpper(r[i])
  {
    seq(|s|, i requires 0 <= i < |s| => LowerChar(s[i]))
  }

  /** `s.upper()`: same length, and no lower-case letter is left. */
  function Upper(s: string): (r: string)
    ensures |r| == |s|
    ensures forall i :: 0 <= i < |r| ==> !IsLower(r[i])
  {
    seq(|s|, i requires 0 <= i < |s| => UpperChar(s[i]))
  }

  /**
   * Two characters that are equal, or the same letter in the two cases:
   * a definition that does not go through `LowerChar`.
   */
  predicate CaseVariants(c: char, d: char)
  {
    || c == d
    || (IsUpper(c) && d as int == c as int + 32)
    || (IsUpper(d) && c as int == d as int + 32)
  }

  /** Equal up to the case of ASCII letters, position by position. */
  predicate SameIgnoringCase(a: string, b: string)
  {
    |a| == |b| && forall i :: 0 <= i < |a| ==> CaseVariants(a[i], b[i])
  }

  lemma LowerCharEqual(c: char, d: char)
    ensures LowerChar(c) == LowerChar(d) <==> CaseVariants(c, d)
  {
  }

  /** Comparing lower-cased strings is exactly case-insensitive comparison. */
  lemma LowerEqualIff(a: string, b: string)
    ensures Lower(a) == Lower(b) <==> SameIgnoringCase(a, b)
  {
    if Lower(a) == Lower(b) {
      forall i | 0 <= i < |a| ensures CaseVariants(a[i], b[i]) {
        assert Lower(a)[i] == Lower(b)[i];
        LowerCharEqual(a[i], b[i]);
      }
    }
    if SameIgnoringCase(a, b) {
      forall i | 0 <= i < |a| ensures Lower(a)[i] == Lower(b)[i] {
        LowerCharEqual(a[i], b[i]);
      }
    }
  }

  /** Upper-casing lower-case hex digits gives upper-case hex digits, and lower-casing undoes it. */
  lemma UpperHexRoundTrip(h: string)
    requires forall i :: 0 <= i < |h| ==> IsLowerHexDigit(h[i])
    ensures forall i :: 0 <= i < |h| ==> IsUpperHexDigit(Upper(h)[i])
    ensures Lower(Upper(h)) == h
  {
  }
}

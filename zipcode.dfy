/**
 * The store ZIP check of `execute`: `preg_match` with the unanchored
 * pattern `(\d{5}-\d{4})|(\d{5})`, then `isset` and a non-blank `trim`.
 */
module ZipCode {
  import opened Wrappers
  import opened Php

  /** `\d{5}` matches the five characters starting at `i`. */
  predicate FiveDigitsAt(s: string, i: nat)
  {
    i + 5 <= |s| && forall k :: i <= k < i + 5 ==> IsDigit(s[k])
  }

  /** `\d{5}-\d{4}` matches the ten characters starting at `i`. */
  predicate ZipPlusFourAt(s: string, i: nat)
  {
    i + 10 <= |s| && FiveDigitsAt(s, i) && s[i + 5] == '-' &&
    forall k :: i + 6 <= k < i + 10 ==> IsDigit(s[k])
  }

  /** One of the two alternatives of the pattern matches at `i`. */
  predicate PatternAt(s: string, i: nat)
  {
    ZipPlusFourAt(s, i) || FiveDigitsAt(s, i)
  }

  /** Five consecutive digits somewhere in the string. */
  predicate ContainsFiveDigits(s: string)
  {
    exists i: nat :: i < |s| && FiveDigitsAt(s, i)
  }

  /**
   * The leftmost position at or after `from` where the pattern matches,
   * found the way the regex engine scans an unanchored pattern.
   */
  function FirstMatch(s: string, from: nat): (r: Option<nat>)
    ensures r.Some? ==> from <= r.value && PatternAt(s, r.value)
    ensures r.Some? ==> forall j: nat :: from <= j < r.value ==> !PatternAt(s, j)
    ensures r.None? ==> forall j: nat :: from <= j ==> !PatternAt(s, j)
    decreases |s| - from
  {
    if from + 5 > |s| then None
    else if PatternAt(s, from) then Some(from)
    else FirstMatch(s, from + 1)
  }

  /** `preg_match` of the pattern: 1 when it matches somewhere, 0 otherwise. */
  function PregMatch(s: string): (r: int)
    ensures r == 0 || r == 1
    ensures r == 1 <==> exists i: nat :: PatternAt(s, i)
  {
    if FirstMatch(s, 0).Some? then 1 else 0
  }

  /** The ZIP+4 alternative adds nothing: the pattern matches iff five digits occur in a row. */
  lemma PregMatchIffFiveDigits(s: string)
    ensures PregMatch(s) == 1 <==> ContainsFiveDigits(s)
  {
    var m := FirstMatch(s, 0);
    if m.Some? {
      assert FiveDigitsAt(s, m.value);
    } else if ContainsFiveDigits(s) {
      var i: nat :| i < |s| && FiveDigitsAt(s, i);
      assert PatternAt(s, i);
    }
  }

  /** The acceptance test of `execute` (the match, `isset`, and a non-blank `trim`). */
  predicate ValidZip(zip: Option<string>): (ok: bool)
    ensures ok ==> zip.Some? && |zip.value| >= 5
  {
    PregMatch(AsString(zip)) == 1 && zip.Some? && Trim(zip.value) != ""
  }

  /** A ZIP is accepted exactly when it is set and holds five consecutive digits. */
  lemma ValidZipIff(zip: Option<string>)
    ensures ValidZip(zip) <==> zip.Some? && ContainsFiveDigits(zip.value)
  {
    PregMatchIffFiveDigits(AsString(zip));
    if zip.Some? && ContainsFiveDigits(zip.value) {
      var s := zip.value;
      var i: nat :| i < |s| && FiveDigitsAt(s, i);
      assert !IsTrimmed(s[i]);
      TrimEmptyIff(s);
    }
  }

  /** The strict US form `^\d{5}(-\d{4})?$`, which the check does not enforce. */
  predicate StrictZip(s: string)
  {
    (|s| == 5 && FiveDigitsAt(s, 0)) || (|s| == 10 && ZipPlusFourAt(s, 0))
  }

  /** Every strict ZIP is accepted, but so are strings that are not ZIP codes. */
  lemma StrictZipAccepted(s: string)
    ensures StrictZip(s) ==> ValidZip(Some(s))
  {
    ValidZipIff(Some(s));
    if StrictZip(s) {
      assert FiveDigitsAt(s, 0);
    }
  }

  /** Five digits at a known position are enough for acceptance. */
  lemma AcceptedAt(s: string, i: nat)
    requires i < |s| && FiveDigitsAt(s, i)
    ensures ValidZip(Some(s))
  {
    ValidZipIff(Some(s));
  }

  /** A short +4 part passes, although it is not a US ZIP code. */
  lemma AcceptsShortPlusFour()
    ensures ValidZip(Some("12345-678")) && !StrictZip("12345-678")
  {
    AcceptedAt("12345-678", 0);
  }

  /** Text before the digits passes: the pattern is not anchored. */
  lemma AcceptsEmbeddedDigits()
    ensures ValidZip(Some("ab12345"))
  {
    AcceptedAt("ab12345", 2);
  }

  lemma RejectsFourDigits()
    ensures !ValidZip(Some("1234"))
  {
    ValidZipIff(Some("1234"));
  }

  lemma RejectsUnset()
    ensures !ValidZip(None)
  {
  }
}

/**
 * The input checks of `validarDados` and the trimming the submit handler
 * applies to the name first. The name check and the date checks are
 * independent: both may fail on one submission.
 */
module Validation {
  import opened Wrappers
  import opened Calendar
  import opened AgeCalc

  /** A birth date more than this many calendar years before now is refused. */
  const MaxPlausibleYears := 150

  /**
   * The characters JavaScript's `trim` removes: WhiteSpace (tab, vertical
   * tab, form feed, the byte-order mark and the space separators of category
   * Zs) and LineTerminator.
   */
  predicate IsJsWhitespace(c: char) {
    c == '\t' || c == '\U{000B}' || c == '\U{000C}' || c == ' ' || c == '\U{00A0}' || c == '\U{FEFF}' ||
    c == '\U{1680}' || ('\U{2000}' <= c <= '\U{200A}') || c == '\U{202F}' || c == '\U{205F}' || c == '\U{3000}' ||
    c == '\n' || c == '\r' || c == '\U{2028}' || c == '\U{2029}'
  }

  /** Where the leading whitespace of `s[from..]` ends: the first non-whitespace index, or |s|. */
  function SkipLeading(s: string, from: nat): (n: nat)
    requires from <= |s|
    ensures from <= n <= |s|
    ensures forall k :: from <= k < n ==> IsJsWhitespace(s[k])
    ensures n == |s| || !IsJsWhitespace(s[n])
    decreases |s| - from
  {
    if from < |s| && IsJsWhitespace(s[from]) then SkipLeading(s, from + 1) else from
  }

  /** Where the trailing whitespace of `s[..upto]` starts: one past the last non-whitespace index, or 0. */
  function SkipTrailing(s: string, upto: nat): (n: nat)
    requires upto <= |s|
    ensures n <= upto
    ensures forall k :: n <= k < upto ==> IsJsWhitespace(s[k])
    ensures n == 0 || !IsJsWhitespace(s[n - 1])
  {
    if upto > 0 && IsJsWhitespace(s[upto - 1]) then SkipTrailing(s, upto - 1) else upto
  }

  /** `r` is the slice of `s` starting at `i`, and everything of `s` around it is whitespace. */
  ghost predicate StripsTo(s: string, r: string, i: int) {
    0 <= i <= i + |r| <= |s| && r == s[i..i + |r|] &&
    (forall k :: 0 <= k < i ==> IsJsWhitespace(s[k])) &&
    (forall k :: i + |r| <= k < |s| ==> IsJsWhitespace(s[k]))
  }

  /** `String.prototype.trim`: the middle of `s`, with whitespace removed at both ends only. */
  function Trim(s: string): (r: string)
    ensures StripsTo(s, r, SkipLeading(s, 0))
    ensures r == [] || (!IsJsWhitespace(r[0]) && !IsJsWhitespace(r[|r| - 1]))
  {
    var i := SkipLeading(s, 0);
    var j := if i == |s| then i else SkipTrailing(s, |s|);
    s[i..j]
  }

  /** Trimming twice is trimming once. */
  lemma TrimIdempotent(s: string)
    ensures Trim(Trim(s)) == Trim(s)
  {
    var r := Trim(s);
    if r != [] {
      assert SkipLeading(r, 0) == 0;
      assert SkipTrailing(r, |r|) == |r|;
    }
  }

  /** JavaScript's `length`: characters outside the Basic Multilingual Plane take two UTF-16 code units. */
  function Utf16Length(s: string): (n: nat)
    ensures |s| <= n <= 2 * |s|
  {
    if s == [] then 0
    else (if s[0] as int > 0xFFFF then 2 else 1) + Utf16Length(s[1..])
  }

  lemma {:induction false} Utf16LengthOfBmp(s: string)
    requires forall i :: 0 <= i < |s| ==> s[i] as int <= 0xFFFF
    ensures Utf16Length(s) == |s|
  {
    if s != [] {
      Utf16LengthOfBmp(s[1..]);
    }
  }

  /** The name check as written: refused when empty or shorter than 2. */
  function NameValid(name: string): (ok: bool)
    ensures ok <==> Utf16Length(name) >= 2
  {
    !(name == [] || Utf16Length(name) < 2)
  }

  /**
   * The emptiness test is subsumed by the length test; for names within the
   * Basic Multilingual Plane the length is the number of characters.
   */
  lemma NameValidIff(name: string)
    ensures (forall i :: 0 <= i < |name| ==> name[i] as int <= 0xFFFF) ==> (NameValid(name) <==> |name| >= 2)
  {
    if forall i :: 0 <= i < |name| ==> name[i] as int <= 0xFFFF {
      Utf16LengthOfBmp(name);
    }
  }

  lemma NameExamples()
    ensures !NameValid("A")
    ensures NameValid("Ana")
    ensures !NameValid(Trim("  A "))
    ensures !NameValid("")
  {
    NameValidIff("A");
    NameValidIff("Ana");
    TrimExample();
  }

  /** The surrounding spaces of "  A " are removed. */
  lemma TrimExample()
    ensures Trim("  A ") == "A"
  {
    assert SkipLeading("  A ", 0) == 2;
    assert SkipTrailing("  A ", 4) == 3;
  }

  datatype DateIssue = Missing | InFuture | Implausible

  /**
   * The date checks in the order the source performs them: a missing date
   * stops there; otherwise a date after now and a birth year more than
   * 150 years back are reported one after the other.
   */
  function DateIssues(date: Option<Date>, now: Date): (issues: seq<DateIssue>)
    ensures |issues| <= 1
    ensures date.None? ==> issues == [Missing]
    ensures date.Some? && Before(now, date.value) ==> issues == [InFuture]
    ensures date.Some? && now.year - date.value.year > MaxPlausibleYears ==> issues == [Implausible]
    ensures issues == [] <==>
            date.Some? && OnOrBefore(date.value, now) && now.year - date.value.year <= MaxPlausibleYears
  {
    if date.None? then [Missing]
    else
      (if Before(now, date.value) then [InFuture] else []) +
      (if now.year - date.value.year > MaxPlausibleYears then [Implausible] else [])
  }

  /** The whole submission is valid when every check passes. */
  function InputValid(name: string, date: Option<Date>, now: Date): (ok: bool)
    ensures ok <==> Utf16Length(name) >= 2 && date.Some? && OnOrBefore(date.value, now) &&
                    now.year - date.value.year <= MaxPlausibleYears
  {
    NameValid(name) && DateIssues(date, now) == []
  }

  /** A short name and a missing date fail together. */
  lemma BothChecksCanFail(now: Date)
    ensures !NameValid("A") && DateIssues(None, now) == [Missing]
    ensures !InputValid("A", None, now)
  {
    NameValidIff("A");
  }

  lemma DateExamples()
    ensures DateIssues(Some(Date(2026, 9, 15)), Date(2026, 9, 15)) == []
    ensures DateIssues(Some(Date(2026, 9, 16)), Date(2026, 9, 15)) == [InFuture]
    ensures DateIssues(Some(Date(1876, 0, 1)), Date(2026, 9, 15)) == []
    ensures DateIssues(Some(Date(1875, 11, 31)), Date(2026, 9, 15)) == [Implausible]
  {
  }

  /** An accepted birth date gives a current age between 0 and 150. */
  lemma ValidDateAgeRange(birth: Date, now: Date)
    requires DateIssues(Some(birth), now) == []
    ensures 0 <= Age(birth, now) <= MaxPlausibleYears
  {
    AgeNonNegative(birth, now);
  }

  /**
   * The plausibility check compares calendar years only: someone aged 150
   * can be refused, because the birth year lies 151 years back.
   */
  lemma PlausibilityComparesYears()
    ensures Age(Date(1875, 11, 31), Date(2026, 9, 15)) == 150
    ensures DateIssues(Some(Date(1875, 11, 31)), Date(2026, 9, 15)) == [Implausible]
  {
  }
}

/**
 * Age in whole years at a reference date (`calcularIdadeNaData`): the
 * difference of the years, one less when the birthday has not yet come round
 * in the reference year.
 */
module AgeCalc {
  import opened Calendar

  /**
   * The age of someone born on `birth`, on the day `ref`. Its meaning: the
   * `a`-th birthday has come round by `ref` and the next one has not.
   */
  function Age(birth: Date, ref: Date): (a: int)
    ensures OnOrBefore(Anniversary(birth, a), ref)
    ensures Before(ref, Anniversary(birth, a + 1))
  {
    ref.year - birth.year - (if MonthDayBefore(ref, birth) then 1 else 0)
  }

  /** The script's computation step by step: start from the year difference, then decrement. */
  method AgeAtDate(birth: Date, ref: Date) returns (age: int)
    ensures age == Age(birth, ref)
  {
    age := ref.year - birth.year;
    var refMonth, refDay := ref.month, ref.day;
    var birthMonth, birthDay := birth.month, birth.day;
    if refMonth < birthMonth || (refMonth == birthMonth && refDay < birthDay) {
      age := age - 1;
    }
  }

  /** The anniversary bracket determines the age: no other number satisfies it. */
  lemma AgeUnique(birth: Date, ref: Date, n: int)
    requires OnOrBefore(Anniversary(birth, n), ref)
    requires Before(ref, Anniversary(birth, n + 1))
    ensures n == Age(birth, ref)
  {
  }

  /** The `n`-th birthday has come round by `ref` exactly when `n` is at most the age. */
  lemma BirthdayPassedIff(birth: Date, ref: Date, n: int)
    ensures OnOrBefore(Anniversary(birth, n), ref) <==> n <= Age(birth, ref)
  {
  }

  /** The age is the year difference, less one exactly when (month, day) of `ref` precedes that of `birth`. */
  lemma AgeYearDifference(birth: Date, ref: Date)
    ensures Age(birth, ref) == ref.year - birth.year || Age(birth, ref) == ref.year - birth.year - 1
    ensures Age(birth, ref) == ref.year - birth.year - 1 <==>
            ref.month < birth.month || (ref.month == birth.month && ref.day < birth.day)
  {
  }

  /** On the birthday itself there is no decrement: the day comparison is strict. */
  lemma AgeOnBirthday(birth: Date, n: int)
    ensures Age(birth, Anniversary(birth, n)) == n
  {
  }

  lemma AgeExamples()
    ensures Age(Date(2000, 9, 1), ElectionDate) == 26
    ensures Age(Date(2000, 9, 2), ElectionDate) == 25
  {
  }

  /** Born no later than the reference day, the age is not negative. */
  lemma AgeNonNegative(birth: Date, ref: Date)
    requires OnOrBefore(birth, ref)
    ensures Age(birth, ref) >= 0
  {
  }

  /** The age never decreases as the reference date moves forward. */
  lemma AgeMonotone(birth: Date, r1: Date, r2: Date)
    requires OnOrBefore(r1, r2)
    ensures Age(birth, r1) <= Age(birth, r2)
  {
  }

  /** How many of the birthdays 1 .. k have come round by `ref`. */
  function BirthdaysPassed(birth: Date, ref: Date, k: nat): nat
  {
    if k == 0 then 0
    else BirthdaysPassed(birth, ref, k - 1) + (if OnOrBefore(Anniversary(birth, k), ref) then 1 else 0)
  }

  lemma {:induction false} BirthdaysPassedUpTo(birth: Date, ref: Date, k: nat)
    requires Age(birth, ref) >= 0
    ensures BirthdaysPassed(birth, ref, k) == if k <= Age(birth, ref) then k else Age(birth, ref)
  {
    if k > 0 {
      BirthdaysPassedUpTo(birth, ref, k - 1);
      BirthdayPassedIff(birth, ref, k);
    }
  }

  /**
   * The age is the number of birthdays that have come round since birth:
   * counting the anniversaries up to any year at or past `ref` gives `Age`.
   */
  lemma AgeCountsBirthdays(birth: Date, ref: Date, k: nat)
    requires OnOrBefore(birth, ref)
    requires k >= ref.year - birth.year
    ensures Age(birth, ref) == BirthdaysPassed(birth, ref, k)
  {
    AgeNonNegative(birth, ref);
    BirthdaysPassedUpTo(birth, ref, k);
  }
}

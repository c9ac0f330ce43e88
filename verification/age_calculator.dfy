/**
 * calculate_age of utils/age_calculator.py: whole years between a birth date and today,
 * one less while this year's birthday is still ahead. Parsing the birth date is left to the
 * caller (`None` when it fails) and today's date is a parameter.
 */
module AgeCalculator {
  import opened Wrappers

  datatype Date = Date(year: int, month: int, day: int)

  /** `(a.month, a.day) < (b.month, b.day)`, compared as Python compares tuples. */
  predicate MonthDayBefore(a: Date, b: Date)
  {
    a.month < b.month || (a.month == b.month && a.day < b.day)
  }

  /** Calendar order of two dates: `a` comes strictly before `b`. */
  predicate Before(a: Date, b: Date)
  {
    a.year < b.year || (a.year == b.year && MonthDayBefore(a, b))
  }

  /** The age in whole years, or 0 when there is no birth date; it is the year difference,
      less one while the birthday has not yet come round this year. */
  function CalculateAge(born: Option<Date>, today: Date): (age: int)
    ensures born.None? ==> age == 0
    ensures born.Some? ==> today.year - born.value.year - 1 <= age <= today.year - born.value.year
    ensures born.Some? ==> (age == today.year - born.value.year <==> !MonthDayBefore(today, born.value))
  {
    match born
    case None => 0
    case Some(b) => today.year - b.year - (if MonthDayBefore(today, b) then 1 else 0)
  }

  /** On the birthday itself the age is the exact year difference. */
  lemma AgeOnBirthday(born: Date, today: Date)
    requires today.month == born.month && today.day == born.day
    ensures CalculateAge(Some(born), today) == today.year - born.year
  {
  }

  /** The age never goes down as today moves forward. */
  lemma AgeMonotone(born: Date, earlier: Date, later: Date)
    requires !Before(later, earlier)
    ensures CalculateAge(Some(born), earlier) <= CalculateAge(Some(born), later)
  {
  }

  /** Reaching the birthday adds exactly one year to the age held earlier that year. */
  lemma AgeStepsOnBirthday(born: Date, dayBefore: Date, birthday: Date)
    requires dayBefore.year == birthday.year && MonthDayBefore(dayBefore, born)
    requires birthday.month == born.month && birthday.day == born.day
    ensures CalculateAge(Some(born), birthday) == CalculateAge(Some(born), dayBefore) + 1
  {
  }

  /** The age is negative exactly when the birth date lies after today; it is not clamped. */
  lemma NegativeAgeIffBornLater(born: Date, today: Date)
    ensures CalculateAge(Some(born), today) < 0 <==> Before(today, born)
  {
  }
}

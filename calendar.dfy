/**
 * Calendar dates and the completed-years age computation that both the loan
 * extractor and the perception service use.
 */
module Calendar {

  import opened Wrappers

  /** A calendar date; parsing and `datetime.now()` happen outside the model. */
  datatype Date = Date(year: int, month: int, day: int)

  /** Python's tuple comparison `(m1, d1) < (m2, d2)`. */
  predicate MonthDayBefore(m1: int, d1: int, m2: int, d2: int) {
    m1 < m2 || (m1 == m2 && d1 < d2)
  }

  /** Chronological order of dates (year, then month, then day). */
  predicate DateLessEq(a: Date, b: Date) {
    a.year < b.year || (a.year == b.year && !MonthDayBefore(b.month, b.day, a.month, a.day))
  }

  /** The same month and day, `n` years later. */
  function Anniversary(birth: Date, n: int): Date {
    Date(birth.year + n, birth.month, birth.day)
  }

  /**
   * Age in completed years on `today`: the year difference, one less when today's
   * (month, day) comes before the birthday's.
   */
  function Age(birth: Date, today: Date): (age: int)
    ensures age == today.year - birth.year - 1 <==> MonthDayBefore(today.month, today.day, birth.month, birth.day)
    ensures age == today.year - birth.year <==> !MonthDayBefore(today.month, today.day, birth.month, birth.day)
  {
    today.year - birth.year - (if MonthDayBefore(today.month, today.day, birth.month, birth.day) then 1 else 0)
  }

  /** The age is the number of birthdays reached: the `age`-th has passed, the next has not. */
  lemma AgeIsCompletedYears(birth: Date, today: Date)
    ensures DateLessEq(Anniversary(birth, Age(birth, today)), today)
    ensures !DateLessEq(Anniversary(birth, Age(birth, today) + 1), today)
  {
  }

  /** Nobody born on or before today has a negative age. */
  lemma AgeNonNegative(birth: Date, today: Date)
    requires DateLessEq(birth, today)
    ensures Age(birth, today) >= 0
  {
  }

  /** `calculate_age` in the loan flow: no date of birth gives no age. */
  function CalculateAge(dateOfBirth: Option<Date>, today: Date): (r: Option<int>)
    ensures r.None? <==> dateOfBirth.None?
    ensures r.Some? ==> r.value == Age(dateOfBirth.value, today)
  {
    match dateOfBirth
    case None => None
    case Some(b) => Some(Age(b, today))
  }
}

/** Calendar arithmetic behind the week view and the age column.

    A day is an integer day number, day 0 being 1970-01-01, which was a Thursday.
    Weekdays are numbered as JavaScript's `Date.getDay` numbers them: 0 is Sunday, 1 Monday, ..., 6 Saturday.
    `Date.setDate(n)` with an out-of-month `n` rolls into the neighbouring month, so on day numbers
    it is plain addition. */
module Calendar {

  type Day = int

  /** `date.getDay()`: the number of days since the latest Sunday, day 3 (1970-01-04) being a Sunday. */
  function Weekday(d: Day): (w: nat)
    ensures w < 7
    ensures (d - w - 3) % 7 == 0
  {
    (d + 4) % 7
  }

  const Monday: nat := 1

  /** Shifting by seven days keeps the weekday. */
  lemma {:induction false} WeekdayPeriodic(d: Day, k: int)
    ensures Weekday(d + 7 * k) == Weekday(d)
  {
    var q := (d + 4) / 7;
    assert d + 4 == 7 * q + Weekday(d);
    assert d + 7 * k + 4 == 7 * (q + k) + Weekday(d);
  }

  /** The weekday of `d + i` is `i` weekdays after that of `d`. */
  lemma {:induction false} WeekdayAdvance(d: Day, i: int)
    ensures Weekday(d + i) == (Weekday(d) + i) % 7
  {
    var q := (d + 4) / 7;
    assert d + 4 == 7 * q + Weekday(d);
    assert d + i + 4 == 7 * q + (Weekday(d) + i);
  }

  /** The week-start initialiser and the this-week button: `getDate() - getDay() + (getDay() == 0 ? -6 : 1)`.
      A Sunday goes back six days, any other weekday `w` goes back `w - 1` days. */
  function WeekStart(today: Day): (m: Day)
    ensures Weekday(m) == Monday
    ensures today - 6 <= m <= today
  {
    var w := Weekday(today);
    var m := today - w + (if w == 0 then -6 else 1);
    WeekdayAdvance(today, m - today);
    m
  }

  /** The Monday `WeekStart` picks is the only Monday in the six days up to and including today. */
  lemma {:induction false} WeekStartUnique(today: Day, m: Day)
    requires Weekday(m) == Monday && today - 6 <= m <= today
    ensures m == WeekStart(today)
  {
    var s := WeekStart(today);
    WeekdayAdvance(s, m - s);
    assert (1 + (m - s)) % 7 == 1;
  }

  /** Moving one week back or forward keeps a Monday a Monday. */
  lemma WeekShiftKeepsMonday(m: Day)
    requires Weekday(m) == Monday
    ensures Weekday(m - 7) == Monday && Weekday(m + 7) == Monday
  {
    WeekdayPeriodic(m, -1);
    WeekdayPeriodic(m, 1);
  }

  /** The seven columns of a week that starts on a Monday run Monday, Tuesday, ..., Sunday. */
  lemma WeekColumnsMondayToSunday(m: Day, i: nat)
    requires Weekday(m) == Monday && i < 7
    ensures Weekday(m + i) == (i + 1) % 7
  {
    WeekdayAdvance(m, i);
  }

  /** A calendar date as year, month and day of month, as `getFullYear`, `getMonth` and `getDate` read it. */
  datatype CivilDate = CivilDate(year: int, month: int, day: int)

  /** `a` is on or before `b` in calendar order. */
  predicate OnOrBefore(a: CivilDate, b: CivilDate)
  {
    a.year < b.year || (a.year == b.year && (a.month < b.month || (a.month == b.month && a.day <= b.day)))
  }

  /** The `n`-th anniversary of `d`: same month and day, `n` years later. */
  function Anniversary(d: CivilDate, n: int): CivilDate
  {
    CivilDate(d.year + n, d.month, d.day)
  }
}

/**
  Local wall-clock dates and times: the part of the JavaScript `Date` object
  that the slot allocator relies on. A date is a day number counted from
  1970-01-01 in local time (that day was a Thursday); an instant is a day and
  the minutes elapsed since its midnight. Time zones, daylight-saving shifts
  and calendar months are not represented: `setDate` on a day number already
  rolls over month ends.
*/
module Calendar {

  const MinutesPerDay: nat := 1440
  const Sunday: nat := 0
  const Monday: nat := 1
  const Saturday: nat := 6

  /** A local instant: `day` (days since 1970-01-01) and `minute` since its midnight. */
  datatype Stamp = Stamp(day: int, minute: nat)

  /** The minute lies inside its day. */
  predicate Normal(t: Stamp) {
    t.minute < MinutesPerDay
  }

  /** Minutes since 1970-01-01 00:00 local time; this orders instants. */
  function Minutes(t: Stamp): int {
    t.day * MinutesPerDay + t.minute
  }

  /** `Date.getDay()`: 0 for Sunday up to 6 for Saturday. */
  function Weekday(day: int): (w: nat)
    ensures w < 7
  {
    (day + 4) % 7
  }

  /** `(getDay() + 6) % 7`: how many days lie between `dow` and the Monday before it. */
  function DaysSinceMonday(dow: nat): (r: nat)
    requires dow < 7
    ensures r < 7
    ensures (dow + 7 - r) % 7 == Monday
  {
    (dow + 6) % 7
  }

  /** The Monday of the week of `day`: `setDate(getDate() - diffToMonday)`. */
  function MondayOf(day: int): (m: int)
    ensures Weekday(m) == Monday
    ensures m <= day < m + 7
  {
    var w := Weekday(day);
    var r := DaysSinceMonday(w);
    assert (day + 4) % 7 == w;
    assert (day - r + 4) % 7 == (w + 7 - r) % 7 by {
      assert day + 4 == 7 * ((day + 4) / 7) + w;
      assert day - r + 4 == 7 * ((day + 4) / 7 - 1) + (w + 7 - r);
    }
    day - r
  }

  /** `setHours(hour, 0, 0, 0)` on day `day`. */
  function AtHour(day: int, hour: nat): (t: Stamp)
    requires hour < 24
    ensures Normal(t) && t.day == day && t.minute == 60 * hour
  {
    Stamp(day, 60 * hour)
  }

  /** `setMinutes(getMinutes() + d)`: the result may roll over into a later day. */
  function AddMinutes(t: Stamp, d: nat): (r: Stamp)
    requires Normal(t)
    ensures Normal(r)
    ensures Minutes(r) == Minutes(t) + d
    ensures t.minute + d < MinutesPerDay ==> r.day == t.day
  {
    var m := t.minute + d;
    Stamp(t.day + m / MinutesPerDay, m % MinutesPerDay)
  }

  /** The five days from a Monday are Monday to Friday, in order. */
  lemma WorkWeek(monday: int, k: nat)
    requires Weekday(monday) == Monday
    requires k < 5
    ensures Weekday(monday + k) == Monday + k
  {
    assert monday + 4 == 7 * ((monday + 4) / 7) + 1;
    assert monday + k + 4 == 7 * ((monday + 4) / 7) + 1 + k;
  }

  /** Sunday rolls back six days, Saturday five, Monday none. */
  lemma MondayRollBack()
    ensures DaysSinceMonday(Sunday) == 6
    ensures DaysSinceMonday(Saturday) == 5
    ensures DaysSinceMonday(Monday) == 0
    ensures forall dow :: 1 <= dow < 7 ==> DaysSinceMonday(dow) == dow - 1
  {
  }
}

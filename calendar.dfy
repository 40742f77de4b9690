/**
 * Calendar dates as day ordinals (ordinal 1 is Monday 0001-01-01, the
 * proleptic Gregorian numbering Python's `date.toordinal()` uses), and the
 * two weekday numberings the system mixes: JavaScript's `Date.getDay()`
 * (0 = Sunday) and the schedule's `dia_semana` (0 = Monday ... 6 = Sunday,
 * Python's `date.weekday()`).
 */
module Calendar {
  /** A calendar date; dates compare as their ordinals do. */
  type Date = int

  /** JavaScript `Date.getDay()`: 0 = Sunday, 1 = Monday, ..., 6 = Saturday. */
  function JsGetDay(d: Date): (g: int)
    ensures 0 <= g < 7
  {
    d % 7
  }

  /** Python `date.weekday()`: 0 = Monday, ..., 6 = Sunday. */
  function PyWeekday(d: Date): (w: int)
    ensures 0 <= w < 7
  {
    (d + 6) % 7
  }

  /** The remap `getDay() === 0 ? 6 : getDay() - 1` from JavaScript's numbering to `dia_semana`. */
  function DiaSemana(jsDay: int): (dia: int)
    requires 0 <= jsDay < 7
    ensures 0 <= dia < 7
    ensures jsDay == 0 <==> dia == 6
    ensures (dia + 1) % 7 == jsDay
  {
    if jsDay == 0 then 6 else jsDay - 1
  }

  /** The remapped JavaScript weekday is the weekday Django computes for the same date. */
  lemma DiaSemanaIsPyWeekday(d: Date)
    ensures DiaSemana(JsGetDay(d)) == PyWeekday(d)
  {
  }
}

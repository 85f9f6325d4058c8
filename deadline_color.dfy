// Deadline colour thresholds (utils/getColorBasedOnTime.js).
module DeadlineColor {
  const HourMs := 3600000
  const DayMs := 86400000

  datatype Color = Red | Orange | Green

  /** `getColorBasedOnTime(date)` at instant `now` (both in milliseconds). */
  function ColorBasedOnTime(date: int, now: int): (c: Color)
    ensures date - now <= HourMs <==> c == Red
    ensures HourMs < date - now <= DayMs <==> c == Orange
    ensures DayMs < date - now <==> c == Green
  {
    var difference := date - now;
    if difference <= 0 then Red
    else if difference <= 3600000 then Red
    else if difference <= 86400000 then Orange
    else Green
  }

  function Urgency(c: Color): nat
  {
    match c
    case Red => 2
    case Orange => 1
    case Green => 0
  }

  /** A later deadline is never more urgent: red, then orange, then green. */
  lemma LaterIsCalmer(d1: int, d2: int, now: int)
    requires d1 <= d2
    ensures Urgency(ColorBasedOnTime(d2, now)) <= Urgency(ColorBasedOnTime(d1, now))
  {
  }
}

// Relative-time wording for deadlines and notifications (utils/timeUntil.js).
// The clock is a parameter: `now` and `date` are instants in milliseconds.
module TimeUntil {
  import opened Strings

  /** `Math.round(a / b)` for a non-negative `a`: halves round up. */
  function Round(a: int, b: int): (r: int)
    requires a >= 0 && b > 0
    ensures r >= 0
    ensures b * r <= a + b / 2 + b % 2 && a + b / 2 < b * r + b
  {
    (2 * a + b) / (2 * b)
  }

  /** The unit unchanged for exactly one, otherwise with an "s". */
  function Pluralize(unit: string, quantity: int): (r: string)
    ensures quantity == 1 ==> r == unit
    ensures quantity != 1 ==> r == unit + "s"
  {
    if quantity == 1 then unit else unit + "s"
  }

  /** What the distance is called, before the tense is applied. */
  datatype Phrase = Moment | OneDay | Count(n: int, unit: string)

  /** The word chosen for a distance of `ms` milliseconds: every unit is rounded from the
      previous, already rounded, unit. */
  function Describe(ms: int): Phrase
    requires ms >= 0
  {
    var seconds := Round(ms, 1000);
    var minutes := Round(seconds, 60);
    var hours := Round(minutes, 60);
    var days := Round(hours, 24);
    var weeks := Round(days, 7);
    if seconds < 60 then Moment
    else if minutes < 60 then Count(minutes, "minute")
    else if hours < 24 then Count(hours, "hour")
    else if days < 7 then (if days == 1 then OneDay else Count(days, "day"))
    else if weeks < 5 then Count(weeks, "week")
    else
      var months := Round(days, 30);
      var years := Round(days, 365);
      if months < 12 then Count(months, "month") else Count(years, "year")
  }

  function Render(p: Phrase, past: bool): string
    requires p.Count? ==> p.n >= 0
  {
    match p
    case Moment => if past then "a moment ago" else "in a few seconds"
    case OneDay => if past then "yesterday" else "tomorrow"
    case Count(n, unit) =>
      if past then NatToString(n) + " " + Pluralize(unit, n) + " ago"
      else "in " + NatToString(n) + " " + Pluralize(unit, n)
  }

  /** `timeUntil(date)` evaluated at instant `now`. */
  function TimeUntil(date: int, now: int): (r: string)
  {
    var difference := date - now;
    var past := difference < 0;
    var magnitude := if past then -difference else difference;
    Render(Describe(magnitude), past)
  }

  /** Every count that is printed is at least 1, and a day count of one is never printed:
      each branch is reached only when the previous unit reached its limit. */
  lemma CountsArePositive(ms: int)
    requires ms >= 0
    ensures Describe(ms).Count? ==> Describe(ms).n >= 1
    ensures Describe(ms).Count? && Describe(ms).unit == "day" ==> Describe(ms).n >= 2
  {
    var seconds := Round(ms, 1000);
    var minutes := Round(seconds, 60);
    var hours := Round(minutes, 60);
    var days := Round(hours, 24);
    var weeks := Round(days, 7);
    if seconds >= 60 && minutes >= 60 && hours >= 24 && days >= 7 && weeks >= 5 {
      assert days >= 32;
      var months := Round(days, 30);
      if months >= 12 {
        assert days >= 345;
      }
    }
  }

  /** The fixed moment phrase is used exactly for distances that round to under 60 seconds. */
  lemma MomentUnderAMinute(ms: int)
    requires ms >= 0
    ensures Describe(ms) == Moment <==> ms < 59500
  {
  }

  /** A difference of exactly one day reads "tomorrow", one day back "yesterday". */
  lemma OneDayWording(now: int)
    ensures TimeUntil(now + 86400000, now) == "tomorrow"
    ensures TimeUntil(now - 86400000, now) == "yesterday"
  {
  }

  /** The magnitude ignores the direction: a date `d` ahead and a date `d` back get the same
      phrase, only the tense differs. */
  lemma SymmetricMagnitude(now: int, d: int)
    requires d > 0
    ensures TimeUntil(now + d, now) == Render(Describe(d), false)
    ensures TimeUntil(now - d, now) == Render(Describe(d), true)
  {
  }

  /** Past-tense wording: "yesterday" or a phrase ending in "ago". */
  predicate PastTense(r: string)
  {
    r == "yesterday" || (|r| >= 4 && r[|r| - 4..] == " ago")
  }

  /** The units `Describe` counts in; none ends in "o". */
  predicate UnitWord(u: string)
  {
    u == "minute" || u == "hour" || u == "day" || u == "week" || u == "month" || u == "year"
  }

  lemma DescribedUnits(ms: int)
    requires ms >= 0
    ensures Describe(ms).Count? ==> UnitWord(Describe(ms).unit)
  {
  }

  /** Every phrase rendered in the past tense reads as past. */
  lemma PastRendersPast(p: Phrase)
    requires p.Count? ==> p.n >= 0
    ensures PastTense(Render(p, true))
  {
    if p.Count? {
      var r := Render(p, true);
      var head := NatToString(p.n) + " " + Pluralize(p.unit, p.n);
      assert r == head + " ago";
      assert r[|r| - 4..] == " ago";
    }
  }

  /** No phrase rendered in the future tense reads as past. */
  lemma FutureIsNotPast(p: Phrase)
    requires p.Count? ==> p.n >= 0 && UnitWord(p.unit)
    ensures !PastTense(Render(p, false))
  {
    var r := Render(p, false);
    if p.Moment? {
      assert r[|r| - 4..] == "onds";
    } else if p.OneDay? {
      assert r[|r| - 4..] == "rrow";
    } else {
      var w := Pluralize(p.unit, p.n);
      assert w[|w| - 1] != 'o';
      assert r == ("in " + NatToString(p.n) + " ") + w;
      assert r[|r| - 1] == w[|w| - 1];
      assert r[0] == 'i';
    }
  }

  /** The wording is in the past tense exactly when the date is before now. */
  lemma TenseFollowsSign(date: int, now: int)
    ensures PastTense(TimeUntil(date, now)) <==> date < now
  {
    if date < now {
      var d := now - date;
      SymmetricMagnitude(now, d);
      CountsArePositive(d);
      PastRendersPast(Describe(d));
    } else if date > now {
      var d := date - now;
      SymmetricMagnitude(now, d);
      CountsArePositive(d);
      DescribedUnits(d);
      FutureIsNotPast(Describe(d));
    } else {
      assert Describe(0) == Moment;
      assert TimeUntil(date, now) == Render(Moment, false);
      FutureIsNotPast(Moment);
    }
  }
}

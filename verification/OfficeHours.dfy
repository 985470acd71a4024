/** Single moments of the moderation story: the latest office moment of the run, a moment carried into
    office hours, and the next moment of a story. */
module OfficeHours {
  import opened Timeline

  /** No three days in a row are weekend days. */
  lemma WeekendsEnd(cal: Calendar, d: int)
    ensures !(cal.Weekend(d) && cal.Weekend(d + 1) && cal.Weekend(d + 2))
  {
  }

  function WeekendsBehind(cal: Calendar, d: int): nat
  {
    if !cal.Weekend(d) then 0 else if cal.Weekend(d - 1) then 2 else 1
  }

  lemma WeekendShrinks(cal: Calendar, d: int)
    requires cal.Weekend(d)
    ensures WeekendsBehind(cal, d - 1) < WeekendsBehind(cal, d)
  {
    WeekendsEnd(cal, d - 2);
  }

  function WeekendsAhead(cal: Calendar, d: int): nat
  {
    if !cal.Weekend(d) then 0 else if cal.Weekend(d + 1) then 2 else 1
  }

  lemma WeekendPasses(cal: Calendar, d: int)
    requires cal.Weekend(d)
    ensures WeekendsAhead(cal, d + 1) < WeekendsAhead(cal, d)
  {
    WeekendsEnd(cal, d);
  }

  /** The closing moment of a weekday, and of no other day, ends that day's office time. */
  lemma ClosingOn(cal: Calendar, d: int)
    requires cal.Valid()
    ensures cal.dayOf(cal.midnight(d) + WORKDAY_END) == d
  {
    assert cal.DayLength(d);
    OnDay(cal, d, cal.midnight(d) + WORKDAY_END);
  }

  /** An office moment before the start of day d lies at or before the closing of an earlier weekday. */
  lemma BeforeDay(cal: Calendar, d: int, t: Time)
    requires cal.Valid() && cal.Office(t) && t < cal.midnight(d)
    ensures cal.dayOf(t) < d && t <= cal.midnight(cal.dayOf(t)) + WORKDAY_END
    ensures cal.dayOf(t) < d - 1 ==> t < cal.midnight(d - 1)
  {
    var e := cal.dayOf(t);
    if d <= e { LaterDays(cal, d, e); }
    if e < d - 1 { LaterDays(cal, e + 1, d - 1); }
  }

  /** The greatest office moment that is not after now. */
  method LatestOfficeMoment(cal: Calendar, now: Time) returns (moment: Time)
    requires cal.Valid()
    ensures moment <= now && cal.Office(moment)
    ensures forall t :: t <= now && cal.Office(t) ==> t <= moment
  {
    hide Calendar.Weekend, WeekendsBehind, WeekendsAhead;
    var today := cal.dayOf(now);
    var since := now - cal.midnight(today);
    moment := now;
    if WORKDAY_END <= since {
      moment := cal.midnight(today) + WORKDAY_END;
      ClosingOn(cal, today);
    } else if since < WORKDAY_START {
      moment := cal.midnight(today - 1) + WORKDAY_END;
      ClosingOn(cal, today - 1);
      assert cal.DayLength(today - 1);
    }
    forall t | t <= now && cal.Office(t) ensures t <= moment { LatestSoFar(cal, now, t); }
    while cal.Weekend(cal.dayOf(moment))
      invariant moment <= now && WORKDAY_START <= moment - cal.midnight(cal.dayOf(moment)) <= WORKDAY_END
      invariant forall t :: t <= now && cal.Office(t) ==> t <= moment
      decreases WeekendsBehind(cal, cal.dayOf(moment))
    {
      var day := cal.dayOf(moment);
      WeekendShrinks(cal, day);
      assert cal.DayLength(day - 1);
      ClosingOn(cal, day - 1);
      forall t | t <= now && cal.Office(t) ensures t <= cal.midnight(day - 1) + WORKDAY_END {
        OfficeBeforeWeekend(cal, day, moment, t);
      }
      moment := cal.midnight(day - 1) + WORKDAY_END;
    }
  }

  /** The first guess is late enough: today's clock cut to closing, or yesterday's closing before opening. */
  lemma LatestSoFar(cal: Calendar, now: Time, t: Time)
    requires cal.Valid() && t <= now && cal.Office(t)
    ensures var today := cal.dayOf(now);
            var since := now - cal.midnight(today);
            t <= if WORKDAY_END <= since then cal.midnight(today) + WORKDAY_END
                 else if since < WORKDAY_START then cal.midnight(today - 1) + WORKDAY_END
                 else now
  {
    var today := cal.dayOf(now);
    if t < cal.midnight(today) {
      BeforeDay(cal, today, t);
    } else {
      OnDay(cal, today, t);
    }
  }

  lemma OfficeBeforeWeekend(cal: Calendar, day: int, moment: Time, t: Time)
    requires cal.Valid() && cal.Weekend(day) && cal.dayOf(moment) == day && cal.Office(t) && t <= moment
    ensures t <= cal.midnight(day - 1) + WORKDAY_END
  {
    if t < cal.midnight(day) {
      BeforeDay(cal, day, t);
    } else {
      OnDay(cal, day, t);
    }
  }

  /** The hour a moment is carried to: early ones are squeezed into the first hour, late ones keep the
      time they ran over closing. */
  function CarriedHour(since: int): int
  {
    if since < WORKDAY_START then WORKDAY_START + since / 8
    else if since < WORKDAY_END then since
    else WORKDAY_START + (since - WORKDAY_END)
  }

  /** Carries a moment into office hours of the first weekday that is left for it: an office moment of the working day, not before its input. */
  method ReplyTime(cal: Calendar, at: Time) returns (local: Time)
    requires cal.Valid()
    ensures at <= local && cal.Open(local)
    ensures cal.Open(at) ==> local == at
    ensures local - cal.midnight(cal.dayOf(local)) == CarriedHour(at - cal.midnight(cal.dayOf(at)))
    ensures var first := cal.dayOf(at) + (if WORKDAY_END <= at - cal.midnight(cal.dayOf(at)) then 1 else 0);
            first <= cal.dayOf(local) && forall d :: first <= d < cal.dayOf(local) ==> cal.Weekend(d)
  {
    hide Calendar.Weekend, WeekendsBehind, WeekendsAhead;
    var day := cal.dayOf(at);
    var since := at - cal.midnight(day);
    local := at;
    assert cal.DayLength(day) && cal.DayLength(day + 1);
    if since < WORKDAY_START {
      local := cal.midnight(day) + WORKDAY_START + since / 8;
      OnDay(cal, day, local);
    } else if WORKDAY_END <= since {
      local := cal.midnight(day + 1) + WORKDAY_START + (since - WORKDAY_END);
      OnDay(cal, day + 1, local);
    }
    while cal.Weekend(cal.dayOf(local))
      invariant at <= local && WORKDAY_START <= local - cal.midnight(cal.dayOf(local)) < WORKDAY_END
      invariant cal.Open(at) ==> local == at
      invariant local - cal.midnight(cal.dayOf(local)) == CarriedHour(since)
      invariant var first := day + (if WORKDAY_END <= since then 1 else 0);
                first <= cal.dayOf(local) && forall d :: first <= d < cal.dayOf(local) ==> cal.Weekend(d)
      decreases WeekendsAhead(cal, cal.dayOf(local))
    {
      var today := cal.dayOf(local);
      WeekendPasses(cal, today);
      assert cal.DayLength(today) && cal.DayLength(today + 1);
      local := cal.midnight(today + 1) + (local - cal.midnight(today));
      OnDay(cal, today + 1, local);
    }
  }

  /** The next moment of a story: an office moment between the last one and the latest of the run.
      The minute it falls back to is never returned, because it is always past the latest. */
  method After(cal: Calendar, latest: Time, at: Time, delay: int) returns (later: Time)
    requires cal.Valid() && cal.Office(latest) && at <= latest
    ensures later <= latest
    ensures 0 < delay ==> at <= later && cal.Office(later) && (at < later || at == latest)
  {
    later := ReplyTime(cal, at + delay);
    if latest < later { later := latest; }
    if later <= at { later := at + MINUTE; }
    if latest < later { later := latest; }
  }

  lemma EarlierDay(cal: Calendar, s: Time, t: Time)
    requires cal.Valid() && cal.dayOf(s) < cal.dayOf(t)
    ensures s < t
  {
    LaterDays(cal, cal.dayOf(s) + 1, cal.dayOf(t));
  }

  /** A moment of the office day some days back: the last weekday from there on that is not after the
      latest moment. wall gives the moment of each day that shows the wanted time on the wall. */
  method Workday(cal: Calendar, latest: Time, now: Time, daysAgo: int, wall: int -> Time) returns (at: Time, ghost day: int)
    requires cal.Valid()
    requires forall d :: cal.dayOf(wall(d)) == d
    ensures at == wall(day) && at <= latest && !cal.Weekend(day) && day <= cal.dayOf(now) - daysAgo
    ensures forall d :: day < d <= cal.dayOf(now) - daysAgo ==> latest < wall(d) || cal.Weekend(d)
  {
    hide Calendar.Weekend, WeekendsBehind;
    var d := cal.dayOf(now) - daysAgo;
    at := wall(d);
    var last := cal.dayOf(latest);
    while latest < at || cal.Weekend(cal.dayOf(at))
      invariant at == wall(d) && d <= cal.dayOf(now) - daysAgo
      invariant forall e :: d < e <= cal.dayOf(now) - daysAgo ==> latest < wall(e) || cal.Weekend(e)
      decreases Max(0, d - last + 1), WeekendsBehind(cal, d)
    {
      assert cal.dayOf(wall(d)) == d;
      if d < last {
        EarlierDay(cal, at, latest);
        WeekendShrinks(cal, d);
      }
      d := d - 1;
      at := wall(d);
    }
    day := d;
  }
}

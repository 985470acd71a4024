/** The working time between two moments, laid end to end, and the three walks over it. */
module Timeline {

  /** Nanoseconds; 0 is Go's zero time. */
  type Time = int

  const HOUR := 3_600_000_000_000
  const MINUTE := 60_000_000_000
  const WORKDAY_START := 8 * HOUR
  const WORKDAY_END := 18 * HOUR

  /** The office zone: the moment each local day starts and the day each moment falls on.
      Days are 23 to 25 hours long, which covers the daylight-saving changes. */
  datatype Calendar = Calendar(midnight: int -> Time, dayOf: Time -> int, firstWeekday: int)
  {
    ghost predicate Valid()
    {
      && (forall d :: DayLength(d))
      && (forall t :: midnight(dayOf(t)) <= t < midnight(dayOf(t) + 1))
    }

    predicate DayLength(d: int) { 23 * HOUR <= midnight(d + 1) - midnight(d) <= 25 * HOUR }

    /** Saturday is 6 and Sunday 0. */
    predicate Weekend(d: int) { (d + firstWeekday) % 7 in {0, 6} }

    /** Inside office hours on a weekday. */
    predicate Open(t: Time)
    {
      !Weekend(dayOf(t)) && WORKDAY_START <= t - midnight(dayOf(t)) < WORKDAY_END
    }

    /** Inside office hours, the closing moment included. */
    predicate Office(t: Time)
    {
      !Weekend(dayOf(t)) && WORKDAY_START <= t - midnight(dayOf(t)) <= WORKDAY_END
    }
  }

  lemma {:induction false} LaterDays(cal: Calendar, a: int, b: int)
    requires cal.Valid() && a <= b
    ensures cal.midnight(a) <= cal.midnight(b)
    decreases b - a
  {
    if a < b {
      LaterDays(cal, a + 1, b);
      assert cal.DayLength(a);
    }
  }

  /** A moment inside a day's bounds falls on that day. */
  lemma OnDay(cal: Calendar, d: int, t: Time)
    requires cal.Valid() && cal.midnight(d) <= t < cal.midnight(d + 1)
    ensures cal.dayOf(t) == d
  {
    var e := cal.dayOf(t);
    if e < d { LaterDays(cal, e + 1, d); }
    if d < e { LaterDays(cal, d + 1, e); }
  }

  datatype Span = Span(from: Time, to: Time)
  datatype Line = Line(spans: seq<Span>, total: int)

  /** Non-empty spans, one after another. */
  predicate Ordered(spans: seq<Span>)
  {
    && (forall i :: 0 <= i < |spans| ==> spans[i].from < spans[i].to)
    && (forall i, j :: 0 <= i < j < |spans| ==> spans[i].to <= spans[j].from)
  }

  function Length(s: Span): int { s.to - s.from }

  function Total(spans: seq<Span>): int { if spans == [] then 0 else Length(spans[0]) + Total(spans[1..]) }

  ghost predicate Covers(spans: seq<Span>, t: Time) { exists k :: 0 <= k < |spans| && spans[k].from <= t < spans[k].to }

  ghost predicate Touches(spans: seq<Span>, t: Time) { exists k :: 0 <= k < |spans| && spans[k].from <= t <= spans[k].to }

  function End(spans: seq<Span>): Time requires spans != [] { spans[|spans| - 1].to }

  // ---- one position function and its inverse ---------------------------------------------------

  function Walk(spans: seq<Span>, x: int, end: Time): Time
  {
    if spans == [] then end
    else if x < Length(spans[0]) then spans[0].from + x
    else Walk(spans[1..], x - Length(spans[0]), end)
  }

  /** The moment x into the working time; the end of the window when there is less of it. */
  function Position(spans: seq<Span>, x: int): Time requires spans != [] { Walk(spans, x, End(spans)) }

  /** How much of the working time lies before t. */
  function Elapsed(spans: seq<Span>, t: Time): int
  {
    if spans == [] then 0
    else (if t <= spans[0].from then 0 else if spans[0].to <= t then Length(spans[0]) else t - spans[0].from) + Elapsed(spans[1..], t)
  }

  function Min(a: int, b: int): int { if a < b then a else b }
  function Max(a: int, b: int): int { if a < b then b else a }

  lemma {:induction false} ElapsedBounds(spans: seq<Span>, t: Time)
    requires Ordered(spans)
    ensures 0 <= Elapsed(spans, t) <= Total(spans)
    ensures (spans == [] || t <= spans[0].from) ==> Elapsed(spans, t) == 0
    ensures spans != [] && End(spans) <= t ==> Elapsed(spans, t) == Total(spans)
  {
    if spans != [] { ElapsedBounds(spans[1..], t); }
  }

  lemma {:induction false} TotalPositive(spans: seq<Span>)
    requires Ordered(spans)
    ensures 0 <= Total(spans) && (spans != [] ==> 0 < Total(spans))
  {
    if spans != [] { TotalPositive(spans[1..]); }
  }

  /** Elapsed undoes Position, so Position never visits a moment twice. */
  lemma {:induction false} ElapsedOfPosition(spans: seq<Span>, x: int)
    requires Ordered(spans) && spans != [] && 0 <= x
    ensures Elapsed(spans, Position(spans, x)) == Min(x, Total(spans))
    ensures spans[0].from <= Position(spans, x) <= End(spans)
  {
    var rest := spans[1..];
    TotalPositive(rest);
    if x < Length(spans[0]) {
      ElapsedBounds(rest, spans[0].from + x);
    } else if rest == [] {
      PastTheEnd(rest, x - Length(spans[0]), End(spans));
      assert Position(spans, x) == spans[0].to;
    } else {
      ElapsedOfPosition(rest, x - Length(spans[0]));
    }
  }

  lemma PositionIsMonotone(spans: seq<Span>, x: int, y: int)
    requires Ordered(spans) && spans != [] && 0 <= x <= y
    ensures Position(spans, x) <= Position(spans, y)
    ensures x < y && x < Total(spans) ==> Position(spans, x) < Position(spans, y)
  {
    ElapsedOfPosition(spans, x);
    ElapsedOfPosition(spans, y);
    if x < y && x < Total(spans) {
      if Position(spans, y) <= Position(spans, x) { ElapsedIsMonotone(spans, Position(spans, y), Position(spans, x)); }
    } else if Total(spans) <= x {
      PastTheEnd(spans, x, End(spans));
      PastTheEnd(spans, y, End(spans));
    }
  }

  lemma {:induction false} ElapsedIsMonotone(spans: seq<Span>, s: Time, t: Time)
    requires Ordered(spans) && s <= t
    ensures Elapsed(spans, s) <= Elapsed(spans, t)
  {
    if spans != [] { ElapsedIsMonotone(spans[1..], s, t); }
  }

  lemma {:induction false} PastTheEnd(spans: seq<Span>, x: int, end: Time)
    requires Ordered(spans) && Total(spans) <= x
    ensures Walk(spans, x, end) == end
  {
    if spans != [] {
      TotalPositive(spans[1..]);
      PastTheEnd(spans[1..], x - Length(spans[0]), end);
    }
  }

  /** Every position is a working moment, or the closing moment of the last day. */
  lemma {:induction false} PositionWorks(spans: seq<Span>, x: int, end: Time)
    requires Ordered(spans) && 0 <= x
    ensures Covers(spans, Walk(spans, x, end)) || Walk(spans, x, end) == end
  {
    if spans != [] && Length(spans[0]) <= x {
      PositionWorks(spans[1..], x - Length(spans[0]), end);
      var t := Walk(spans[1..], x - Length(spans[0]), end);
      if Covers(spans[1..], t) {
        var k :| 0 <= k < |spans[1..]| && spans[1..][k].from <= t < spans[1..][k].to;
        assert spans[k + 1].from <= t < spans[k + 1].to;
      }
    } else if spans != [] {
      assert spans[0].from <= spans[0].from + x < spans[0].to;
    }
  }

  /** Going on from a moment and coming back never loses time: the next working moment is not earlier. */
  lemma {:induction false} PositionOfElapsed(spans: seq<Span>, t: Time, end: Time)
    requires Ordered(spans) && (spans != [] ==> End(spans) <= end) && t <= end
    ensures t <= Walk(spans, Elapsed(spans, t), end)
    ensures Covers(spans, t) ==> Walk(spans, Elapsed(spans, t), end) == t
  {
    if spans != [] {
      var rest := spans[1..];
      ElapsedBounds(rest, t);
      PositionOfElapsed(rest, t, end);
      if Covers(spans, t) {
        var k :| 0 <= k < |spans| && spans[k].from <= t < spans[k].to;
        if 0 < k { assert rest[k - 1] == spans[k]; }
      }
    }
  }

  /** Skipping whole spans at the front skips their length. */
  lemma {:induction false} WalkSkips(spans: seq<Span>, i: nat, y: int, end: Time)
    requires Ordered(spans) && i <= |spans| && 0 <= y
    ensures Walk(spans, Total(spans[..i]) + y, end) == Walk(spans[i..], y, end)
    ensures Total(spans) == Total(spans[..i]) + Total(spans[i..])
    ensures 0 <= Total(spans[..i])
  {
    if i == 0 {
      assert spans[..0] == [] && spans[0..] == spans;
    } else {
      WalkSkips(spans[1..], i - 1, y, end);
      assert spans[..i][1..] == spans[1..][..i - 1];
      assert spans[1..][i - 1..] == spans[i..];
    }
  }

  // ---- the three walks ----------------------------------------------------------------------------

  method At(line: Line, offset: int) returns (t: Time)
    requires Ordered(line.spans)
    ensures line.spans == [] ==> t == 0
    ensures line.spans != [] ==> t == Position(line.spans, Max(0, offset))
  {
    if line.spans == [] { return 0; }
    var remaining := Max(0, offset);
    for i := 0 to |line.spans|
      invariant Position(line.spans, Max(0, offset)) == Walk(line.spans[i..], remaining, End(line.spans))
    {
      var length := line.spans[i].to - line.spans[i].from;
      if remaining < length { return line.spans[i].from + remaining; }
      remaining := remaining - length;
      assert line.spans[i..][1..] == line.spans[i + 1..];
    }
    t := line.spans[|line.spans| - 1].to;
  }

  lemma PassedSpan(spans: seq<Span>, from: Time, left: int, end: Time)
    requires Ordered(spans) && spans != [] && spans[0].to <= from && 0 <= left
    ensures Walk(spans, Elapsed(spans, from) + left, end) == Walk(spans[1..], Elapsed(spans[1..], from) + left, end)
  {
    ElapsedBounds(spans[1..], from);
  }

  lemma OpenSpan(spans: seq<Span>, from: Time, left: int, end: Time)
    requires Ordered(spans) && spans != [] && from < spans[0].to && 0 <= left
    ensures var position := Max(spans[0].from, from);
            var here := spans[0].to - position;
            Walk(spans, Elapsed(spans, from) + left, end)
            == if left < here then position + left else Walk(spans[1..], Elapsed(spans[1..], from) + (left - here), end)
  {
    ElapsedBounds(spans[1..], from);
    assert Elapsed(spans[1..], from) == 0;
  }

  lemma FromSpan(spans: seq<Span>, i: nat)
    requires Ordered(spans) && i < |spans|
    ensures Ordered(spans[i..]) && spans[i..][0] == spans[i] && spans[i..][1..] == spans[i + 1..]
  {
  }

  method Advance(line: Line, from: Time, step: int) returns (t: Time)
    requires Ordered(line.spans)
    ensures line.spans == [] ==> t == from
    ensures line.spans != [] && 0 <= step ==> t == Position(line.spans, Elapsed(line.spans, from) + step)
  {
    hide Walk, Elapsed, Ordered;
    if line.spans == [] { return from; }
    ghost var end := End(line.spans);
    ghost var target := Walk(line.spans, Elapsed(line.spans, from) + step, end);
    assert line.spans[0..] == line.spans;
    var left := step;
    for i := 0 to |line.spans|
      invariant 0 <= step ==> 0 <= left && target == Walk(line.spans[i..], Elapsed(line.spans[i..], from) + left, end)
    {
      var span := line.spans[i];
      ghost var here := line.spans[i..];
      FromSpan(line.spans, i);
      if span.to <= from {
        if 0 <= step { PassedSpan(here, from, left, end); }
        continue;
      }
      if 0 <= step { OpenSpan(here, from, left, end); }
      var position := Max(span.from, from);
      if left < span.to - position { return position + left; }
      left := left - (span.to - position);
    }
    assert line.spans[|line.spans|..] == [];
    if 0 <= step { NothingLeft(from, left, end); }
    t := line.spans[|line.spans| - 1].to;
  }

  lemma NothingLeft(from: Time, left: int, end: Time)
    ensures Walk([], Elapsed([], from) + left, end) == end
  {
  }

  /** The span that step back lands in, at its distance from the end of the window. */
  lemma BackInto(spans: seq<Span>, i: nat, left: int)
    requires Ordered(spans) && i < |spans| && 0 <= left <= Length(spans[i]) && (left == 0 ==> i == |spans| - 1)
    ensures Position(spans, Total(spans) - Total(spans[i + 1..]) - left) == spans[i].to - left
    ensures 0 <= Total(spans) - Total(spans[i + 1..]) - left
  {
    hide Walk, Total;
    var here := spans[i..];
    WalkSkips(spans, i, Length(spans[i]) - left, End(spans));
    assert here[0] == spans[i] && here[1..] == spans[i + 1..];
    FirstSpan(here, Length(spans[i]) - left, End(spans));
  }

  lemma FirstSpan(spans: seq<Span>, x: int, end: Time)
    requires spans != [] && Length(spans[0]) >= x >= 0 && (x == Length(spans[0]) ==> |spans| == 1 && end == spans[0].to)
    ensures Walk(spans, x, end) == spans[0].from + x
    ensures Total(spans) == Length(spans[0]) + Total(spans[1..])
  {
  }

  method Back(line: Line, step: int) returns (t: Time)
    requires Ordered(line.spans)
    ensures line.spans == [] ==> t == 0
    ensures line.spans != [] && 0 <= step ==> t == Position(line.spans, Max(0, Total(line.spans) - step))
  {
    if line.spans == [] { return 0; }
    var n := |line.spans|;
    var left := step;
    var i := n;
    assert line.spans[n..] == [];
    while 0 < i
      invariant 0 <= i <= n && step - left == Total(line.spans[i..])
      invariant 0 <= step ==> 0 <= left && (left == 0 ==> i == n)
    {
      i := i - 1;
      var span := line.spans[i];
      var length := span.to - span.from;
      assert line.spans[i..] == [span] + line.spans[i + 1..];
      if left <= length {
        if 0 <= step { BackInto(line.spans, i, left); }
        return span.to - left;
      }
      left := left - length;
    }
    assert line.spans[0..] == line.spans;
    t := line.spans[0].from;
  }

  /** What Advance returns, as a function. */
  function Advanced(spans: seq<Span>, from: Time, step: int): Time requires spans != [] { Position(spans, Elapsed(spans, from) + step) }

  /** Two steps forward are one step of both lengths; a step adds exactly its length of working time,
      or what is left of the window; and stepping back from the end is the same position function. */
  lemma WalksAgree(spans: seq<Span>, t: Time, a: int, b: int)
    requires Ordered(spans) && spans != [] && 0 <= a && 0 <= b
    ensures Advanced(spans, Advanced(spans, t, a), b) == Advanced(spans, t, a + b)
    ensures Elapsed(spans, Advanced(spans, t, b)) - Elapsed(spans, t) == Min(b, Total(spans) - Elapsed(spans, t))
    ensures a <= b ==> Advanced(spans, t, a) <= Advanced(spans, t, b)
    ensures b <= Total(spans) ==> Advanced(spans, Position(spans, Total(spans) - b), b) == End(spans)
  {
    hide Walk, Elapsed, Total;
    ElapsedBounds(spans, t);
    ElapsedOfPosition(spans, Elapsed(spans, t) + a);
    ElapsedOfPosition(spans, Elapsed(spans, t) + b);
    PositionIsMonotone(spans, Elapsed(spans, t) + Min(a, b), Elapsed(spans, t) + b);
    if Total(spans) < Elapsed(spans, t) + a {
      PastTheEnd(spans, Total(spans) + b, End(spans));
      PastTheEnd(spans, Elapsed(spans, t) + a + b, End(spans));
    }
    if b <= Total(spans) {
      ElapsedOfPosition(spans, Total(spans) - b);
      PastTheEnd(spans, Total(spans), End(spans));
    }
  }

  // ---- building the line ------------------------------------------------------------------------------

  ghost predicate BuiltUpTo(cal: Calendar, start: Time, end: Time, spans: seq<Span>, upTo: Time)
  {
    && Ordered(spans)
    && (forall k :: 0 <= k < |spans| ==> spans[k].to <= upTo)
    && (forall t :: Covers(spans, t) <==> t < upTo && start <= t < end && cal.Open(t))
    && (forall k :: 0 <= k < |spans| ==> start <= spans[k].from && cal.Office(spans[k].to))
  }

  lemma TotalAppend(spans: seq<Span>, s: Span)
    ensures Total(spans + [s]) == Total(spans) + Length(s)
  {
    if spans != [] {
      assert (spans + [s])[1..] == spans[1..] + [s];
      TotalAppend(spans[1..], s);
    }
  }

  /** The office hours of a day, cut to the window, are the open moments of that day in the window. */
  lemma OpenOnDay(cal: Calendar, start: Time, end: Time, day: int, t: Time)
    requires cal.Valid() && !cal.Weekend(day) && cal.midnight(day) <= t < cal.midnight(day + 1)
    ensures start <= t < end && cal.Open(t)
            <==> Max(start, cal.midnight(day) + WORKDAY_START) <= t < Min(end, cal.midnight(day) + WORKDAY_END)
  {
    OnDay(cal, day, t);
  }

  lemma CoversAppend(spans: seq<Span>, s: Span, t: Time)
    ensures Covers(spans + [s], t) <==> Covers(spans, t) || s.from <= t < s.to
  {
    if Covers(spans, t) {
      var k :| 0 <= k < |spans| && spans[k].from <= t < spans[k].to;
      assert (spans + [s])[k] == spans[k];
    }
    if s.from <= t < s.to { assert (spans + [s])[|spans|] == s; }
  }

  lemma DayAdds(cal: Calendar, start: Time, end: Time, spans: seq<Span>, day: int, s: Span)
    requires cal.Valid() && BuiltUpTo(cal, start, end, spans, cal.midnight(day)) && !cal.Weekend(day)
    requires s == Span(Max(start, cal.midnight(day) + WORKDAY_START), Min(end, cal.midnight(day) + WORKDAY_END))
    ensures s.from < s.to ==> BuiltUpTo(cal, start, end, spans + [s], cal.midnight(day + 1))
    ensures !(s.from < s.to) ==> BuiltUpTo(cal, start, end, spans, cal.midnight(day + 1))
  {
    hide Covers;
    assert cal.DayLength(day);
    var after := if s.from < s.to then spans + [s] else spans;
    forall t ensures Covers(after, t) <==> t < cal.midnight(day + 1) && start <= t < end && cal.Open(t) {
      if cal.midnight(day) <= t < cal.midnight(day + 1) { OpenOnDay(cal, start, end, day, t); }
      CoversAppend(spans, s, t);
    }
    if s.from < s.to { OnDay(cal, day, s.to); }
  }

  lemma WeekendAdds(cal: Calendar, start: Time, end: Time, spans: seq<Span>, day: int)
    requires cal.Valid() && BuiltUpTo(cal, start, end, spans, cal.midnight(day)) && cal.Weekend(day)
    ensures BuiltUpTo(cal, start, end, spans, cal.midnight(day + 1))
  {
    assert cal.DayLength(day);
    forall t | cal.midnight(day) <= t < cal.midnight(day + 1) ensures !cal.Open(t) { OnDay(cal, day, t); }
  }

  /** Ordered, disjoint, non-empty spans that cover exactly the weekday office time of the window. */
  lemma NothingBuilt(cal: Calendar, start: Time, end: Time)
    requires cal.Valid()
    ensures BuiltUpTo(cal, start, end, [], cal.midnight(cal.dayOf(start))) && Total([]) == 0
  {
  }

  lemma BuiltInFull(cal: Calendar, start: Time, end: Time, spans: seq<Span>, upTo: Time)
    requires BuiltUpTo(cal, start, end, spans, upTo) && end < upTo
    ensures Ordered(spans)
    ensures forall t :: Covers(spans, t) <==> start <= t < end && cal.Open(t)
    ensures forall k :: 0 <= k < |spans| ==> start <= spans[k].from && cal.Office(spans[k].to)
  {
  }

  method NewTimeline(cal: Calendar, start: Time, end: Time) returns (line: Line)
    requires cal.Valid()
    ensures Ordered(line.spans) && line.total == Total(line.spans)
    ensures forall t :: Covers(line.spans, t) <==> start <= t < end && cal.Open(t)
    ensures forall k :: 0 <= k < |line.spans| ==> start <= line.spans[k].from && line.spans[k].to <= end && cal.Office(line.spans[k].to)
  {
    hide BuiltUpTo, Total, Ordered, Covers;
    var spans: seq<Span> := [];
    var total := 0;
    var day := cal.dayOf(start);
    NothingBuilt(cal, start, end);
    while cal.midnight(day) <= end
      invariant BuiltUpTo(cal, start, end, spans, cal.midnight(day))
      invariant total == Total(spans) && forall k :: 0 <= k < |spans| ==> spans[k].to <= end
      decreases end - cal.midnight(day)
    {
      assert cal.DayLength(day);
      if cal.Weekend(day) {
        WeekendAdds(cal, start, end, spans, day);
      } else {
        var span := Span(cal.midnight(day) + WORKDAY_START, cal.midnight(day) + WORKDAY_END);
        if span.from < start { span := span.(from := start); }
        if end < span.to { span := span.(to := end); }
        DayAdds(cal, start, end, spans, day, span);
        if span.from < span.to {
          TotalAppend(spans, span);
          spans := spans + [span];
          total := total + (span.to - span.from);
        }
      }
      day := day + 1;
    }
    BuiltInFull(cal, start, end, spans, cal.midnight(day));
    line := Line(spans, total);
  }

  // ---- the history of one room ---------------------------------------------------------------------------

  predicate NonDecreasing(ts: seq<Time>) { forall i, j :: 0 <= i < j < |ts| ==> ts[i] <= ts[j] }

  /** A later message shares its moment with the one before it only at the end of the window. */
  predicate Separated(ts: seq<Time>, end: Time) { forall i :: 0 < i < |ts| ==> ts[i - 1] < ts[i] || ts[i] == end }

  /** The random choices of a room: where each post is drawn, and how far apart its replies are. */
  datatype Draws = Draws(offset: nat -> int, replies: nat -> nat, minutes: (nat, nat) -> nat)

  /** A positive step from a written moment is later, or the end of the window. */
  lemma StepsForward(spans: seq<Span>, from: Time, step: int)
    requires Ordered(spans) && spans != [] && from <= End(spans) && 0 < step
    ensures var t := Advanced(spans, from, step); from <= t <= End(spans) && (from < t || t == End(spans)) && Touches(spans, t)
  {
    hide Walk, Elapsed, Total, Touches;
    ElapsedBounds(spans, from);
    PositionOfElapsed(spans, from, End(spans));
    PositionIsMonotone(spans, Elapsed(spans, from), Elapsed(spans, from) + step);
    ElapsedOfPosition(spans, Elapsed(spans, from) + step);
    PositionTouches(spans, Elapsed(spans, from) + step);
    if Total(spans) <= Elapsed(spans, from) + step { PastTheEnd(spans, Elapsed(spans, from) + step, End(spans)); }
  }

  lemma PositionTouches(spans: seq<Span>, x: int)
    requires Ordered(spans) && spans != [] && 0 <= x
    ensures Touches(spans, Position(spans, x))
  {
    PositionWorks(spans, x, End(spans));
    if Position(spans, x) == End(spans) { assert spans[|spans| - 1].from <= End(spans) <= spans[|spans| - 1].to; }
  }

  ghost predicate Written(spans: seq<Span>, ts: seq<Time>, newest: Time)
    requires spans != []
  {
    && (ts == [] ==> newest < spans[0].from) && (ts != [] ==> newest == ts[|ts| - 1])
    && NonDecreasing(ts) && Separated(ts, End(spans)) && forall t :: t in ts ==> Touches(spans, t) && t <= End(spans)
  }

  lemma NothingWritten(spans: seq<Span>, newest: Time)
    requires spans != [] && newest < spans[0].from
    ensures Written(spans, [], newest)
  {
  }

  lemma WritesOn(spans: seq<Span>, ts: seq<Time>, newest: Time, t: Time)
    requires spans != [] && Written(spans, ts, newest)
    requires Touches(spans, t) && t <= End(spans) && newest <= t && (newest < t || t == End(spans))
    ensures Written(spans, ts + [t], t)
  {
    forall i | 0 <= i < |ts| ensures ts[i] <= t { }
  }

  /** A moment on a built line is an office moment of the window. */
  lemma TouchesIsOffice(cal: Calendar, start: Time, end: Time, spans: seq<Span>, t: Time)
    requires forall u :: Covers(spans, u) <==> start <= u < end && cal.Open(u)
    requires forall k :: 0 <= k < |spans| ==> start <= spans[k].from && spans[k].to <= end && cal.Office(spans[k].to)
    requires Touches(spans, t)
    ensures start <= t <= end && cal.Office(t)
  {
    var k :| 0 <= k < |spans| && spans[k].from <= t <= spans[k].to;
    if t < spans[k].to { assert Covers(spans, t); }
  }

  /** Where a post is drawn, if that is after the newest message; else a minute of working time after that. */
  function DrawnAt(spans: seq<Span>, newest: Time, offset: int): Time
    requires spans != []
  {
    var x := Position(spans, if offset < 0 then 0 else offset);
    if newest < x then x else Advanced(spans, newest, MINUTE)
  }

  /** One post or reply after newest: where it was drawn, or a minute on if that is not later. */
  method PostTime(line: Line, newest: Time, offset: int, ghost times: seq<Time>) returns (clock: Time)
    requires Ordered(line.spans)
    requires line.spans != [] ==> Written(line.spans, times, newest)
    ensures line.spans != [] ==> Written(line.spans, times + [clock], clock) && clock == DrawnAt(line.spans, newest, offset)
    ensures line.spans == [] && newest == 0 ==> clock == 0
  {
    hide Walk, Elapsed, NonDecreasing, Separated, Touches;
    clock := At(line, offset);
    if clock <= newest { clock := Advance(line, newest, MINUTE); }
    if line.spans != [] {
      PositionTouches(line.spans, Max(0, offset));
      ElapsedOfPosition(line.spans, Max(0, offset));
      assert newest <= End(line.spans) by { if times != [] { assert times[|times| - 1] in times; } }
      StepsForward(line.spans, newest, MINUTE);
      WritesOn(line.spans, times, newest, clock);
    }
  }

  method ReplyAfter(line: Line, newest: Time, minutes: nat, ghost times: seq<Time>) returns (clock: Time)
    requires Ordered(line.spans) && 0 < minutes
    requires line.spans != [] ==> times != [] && Written(line.spans, times, newest)
    ensures line.spans != [] ==> Written(line.spans, times + [clock], clock) && clock == Advanced(line.spans, newest, minutes * MINUTE)
    ensures line.spans == [] ==> clock == newest
  {
    hide Walk, Elapsed, NonDecreasing, Separated, Touches;
    clock := Advance(line, newest, minutes * MINUTE);
    if line.spans != [] {
      assert times[|times| - 1] in times;
      StepsForward(line.spans, newest, minutes * MINUTE);
      WritesOn(line.spans, times, newest, clock);
    }
  }

  /** How many messages post i brings: itself, and on every fourth one its thread. */
  function Messages(draws: Draws, i: nat): nat { 1 + if i % 4 == 1 then draws.replies(i) else 0 }

  /** Post i is message n: dated where it was drawn, after the message before it; its replies follow, each so
      many minutes of working time after the one before. */
  ghost predicate Dated(spans: seq<Span>, times: seq<Time>, n: nat, i: nat, messages: nat, draws: Draws)
    requires spans != []
  {
    && 1 <= messages && n + messages <= |times|
    && times[n] == DrawnAt(spans, if n == 0 then 0 else times[n - 1], draws.offset(i))
    && forall r :: 0 <= r < messages - 1 ==> times[n + 1 + r] == Advanced(spans, times[n + r], draws.minutes(i, r) * MINUTE)
  }

  /** Where each post stands among the messages, and that all of them are dated as drawn. */
  ghost predicate AllDated(spans: seq<Span>, times: seq<Time>, starts: seq<nat>, draws: Draws)
  {
    && starts != [] && starts[0] == 0 && starts[|starts| - 1] == |times|
    && (forall i :: 0 <= i < |starts| - 1 ==> starts[i + 1] == starts[i] + Messages(draws, i))
    && (spans != [] ==> forall i :: 0 <= i < |starts| - 1 ==> Dated(spans, times, starts[i], i, Messages(draws, i), draws))
  }

  lemma DatedStays(spans: seq<Span>, times: seq<Time>, more: seq<Time>, n: nat, i: nat, messages: nat, draws: Draws)
    requires spans != [] && Dated(spans, times, n, i, messages, draws)
    ensures Dated(spans, times + more, n, i, messages, draws)
  {
    hide Position, Elapsed;
    var longer := times + more;
    assert forall k :: 0 <= k < |times| ==> longer[k] == times[k];
    forall r | 0 <= r < messages - 1 ensures longer[n + 1 + r] == Advanced(spans, longer[n + r], draws.minutes(i, r) * MINUTE) {
      assert times[n + 1 + r] == Advanced(spans, times[n + r], draws.minutes(i, r) * MINUTE);
    }
  }

  lemma AllDatedMore(spans: seq<Span>, times: seq<Time>, starts: seq<nat>, draws: Draws, longer: seq<Time>)
    requires AllDated(spans, times, starts, draws) && times <= longer && |longer| == |times| + Messages(draws, |starts| - 1)
    requires spans != [] ==> Dated(spans, longer, |times|, |starts| - 1, Messages(draws, |starts| - 1), draws)
    ensures AllDated(spans, longer, starts + [|longer|], draws)
  {
    hide Dated, Messages;
    var more := starts + [|longer|];
    assert longer == times + longer[|times|..];
    forall i | 0 <= i < |starts| ensures more[i] == starts[i] { }
    if spans != [] {
      forall i | 0 <= i < |more| - 1 ensures Dated(spans, longer, more[i], i, Messages(draws, i), draws) {
        if i < |starts| - 1 { DatedStays(spans, times, longer[|times|..], starts[i], i, Messages(draws, i), draws); }
      }
    }
  }

  /** Post i and its thread, after the messages so far. */
  method Thread(line: Line, draws: Draws, i: nat, times: seq<Time>) returns (longer: seq<Time>)
    requires Ordered(line.spans) && forall j, r :: 0 < draws.minutes(j, r)
    requires line.spans != [] ==> Written(line.spans, times, Newest(times))
    requires line.spans == [] ==> forall t :: t in times ==> t == 0
    ensures times <= longer && |longer| == |times| + Messages(draws, i)
    ensures line.spans != [] ==> Written(line.spans, longer, Newest(longer)) && Dated(line.spans, longer, |times|, i, Messages(draws, i), draws)
    ensures line.spans == [] ==> forall t :: t in longer ==> t == 0
  {
    hide Written, Position, Elapsed, Ordered;
    var newest := Newest(times);
    assert line.spans == [] ==> newest == 0 by { if times != [] { assert times[|times| - 1] in times; } }
    var clock := PostTime(line, newest, draws.offset(i), times);
    longer := times + [clock];
    var replies := if i % 4 == 1 then draws.replies(i) else 0;
    for r := 0 to replies
      invariant times <= longer && |longer| == |times| + 1 + r && clock == longer[|times| + r]
      invariant line.spans != [] ==> Written(line.spans, longer, clock) && Dated(line.spans, longer, |times|, i, 1 + r, draws)
      invariant line.spans == [] ==> forall t :: t in longer ==> t == 0
    {
      assert clock in longer;
      ghost var before := longer;
      clock := ReplyAfter(line, clock, draws.minutes(i, r), longer);
      longer := longer + [clock];
      if line.spans != [] { DatedStays(line.spans, before, [clock], |times|, i, 1 + r, draws); }
    }
  }

  function Newest(times: seq<Time>): Time { if times == [] then 0 else times[|times| - 1] }

  /** If the window has any office time, every post and reply of a room is dated inside it (a closing
      moment included), in the order it is written, whatever the random choices were: each post where it was
      drawn unless a message is already there, each reply its minutes after the one before. In a window
      without office time every message gets Go's zero time instead. */
  method RoomHistory(cal: Calendar, start: Time, end: Time, posts: nat, draws: Draws) returns (times: seq<Time>, ghost spans: seq<Span>, ghost starts: seq<nat>)
    requires cal.Valid() && 0 < start
    requires forall i, r :: 0 < draws.minutes(i, r)
    ensures |starts| == posts + 1 && AllDated(spans, times, starts, draws)
    ensures Ordered(spans) && forall t :: Covers(spans, t) <==> start <= t < end && cal.Open(t)
    ensures posts <= |times| && NonDecreasing(times)
    ensures (exists t :: start <= t < end && cal.Open(t)) ==> forall t :: t in times ==> start <= t <= end && cal.Office(t)
    ensures (exists t :: start <= t < end && cal.Open(t)) ==> exists last :: last <= end && Separated(times, last)
    ensures !(exists t :: start <= t < end && cal.Open(t)) ==> forall t :: t in times ==> t == 0
  {
    hide AllDated, Dated, Messages;
    var line := NewTimeline(cal, start, end);
    times, spans, starts := [], line.spans, [0];
    NoneDated(spans, draws);
    if line.spans != [] { NothingWritten(line.spans, 0); }
    for i := 0 to posts
      invariant i <= |times| && |starts| == i + 1 && AllDated(spans, times, starts, draws)
      invariant line.spans != [] ==> Written(line.spans, times, Newest(times))
      invariant line.spans == [] ==> forall t :: t in times ==> t == 0
    {
      ghost var before := times;
      times := Thread(line, draws, i, times);
      PostCounts(draws, i);
      AllDatedMore(spans, before, starts, draws, times);
      starts := starts + [|times|];
    }
    if line.spans != [] {
      assert Covers(line.spans, line.spans[0].from);
      forall t | t in times ensures start <= t <= end && cal.Office(t) { TouchesIsOffice(cal, start, end, line.spans, t); }
      assert End(line.spans) <= end && Separated(times, End(line.spans));
    } else {
      assert forall t :: !Covers(line.spans, t);
      forall i | 0 <= i < |times| ensures times[i] == 0 { assert times[i] in times; }
    }
  }

  lemma NoneDated(spans: seq<Span>, draws: Draws)
    ensures AllDated(spans, [], [0], draws)
  {
  }

  lemma PostCounts(draws: Draws, i: nat)
    ensures 1 <= Messages(draws, i)
  {
  }
}

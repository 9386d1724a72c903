/** What the generated availability means: exactly the free grid starts, in order, and per day what the flat list says. */
module AvailabilityTheorems {
  import opened Common
  import opened Lists
  import opened TimeZone
  import opened WorkingHours
  import opened Availability

  // ---------- Membership ----------

  function Step(q: Query): Positive { q.interval * MINUTE }

  ghost predicate OnSteps(start: int, step: Positive, t: int) {
    exists k: nat :: t == start + k * step
  }

  lemma StepsUnfold(start: int, step: Positive, t: int)
    ensures OnSteps(start, step, t) <==> t == start || OnSteps(start + step, step, t)
    ensures OnSteps(start, step, t) ==> t >= start
  {
    if k: nat :| t == start + k * step {
      assert k * step >= 0;
      if k > 0 { assert t == start + step + (k - 1) * step; }
    }
    if t == start { assert t == start + 0 * step; }
    if k: nat :| t == start + step + k * step { assert t == start + (k + 1) * step; }
  }

  /** A start on a window's grid with room for its block. */
  ghost predicate OnGrid(q: Query, w: Interval, t: int) {
    w.startTime < w.endTime && t + q.Block() <= w.endTime && OnSteps(w.startTime, Step(q), t)
  }

  /** The declarative meaning of availability: a free start on the grid of some open range. */
  ghost predicate Bookable(q: Query, offset: int -> int, days: seq<DayRule>, t: int) {
    Free(q, t) && exists i, j :: 0 <= i < |days| && OpenAt(q, offset, days[i], j, t)
  }

  ghost predicate OpenAt(q: Query, offset: int -> int, day: DayRule, j: int, t: int) {
    !day.isClosed && 0 <= j < |day.ranges| && OnGrid(q, WindowOf(offset, day.date, day.ranges[j]), t)
  }

  lemma {:induction false} FreeFromMember(q: Query, start: int, end: int, s: Slot)
    ensures s in FreeFrom(q, start, end) <==>
              && s == q.SlotAt(s.startTime) && Free(q, s.startTime)
              && s.startTime + q.Block() <= end && OnSteps(start, Step(q), s.startTime)
    decreases end - q.Block() - start
  {
    StepsUnfold(start, Step(q), s.startTime);
    if start + q.Block() > end {
    } else {
      FreeFromMember(q, start + Step(q), end, s);
    }
  }

  lemma FreeInWindowMember(q: Query, w: Interval, s: Slot)
    ensures s in FreeInWindow(q, w) <==> s == q.SlotAt(s.startTime) && Free(q, s.startTime) && OnGrid(q, w, s.startTime)
  {
    FreeFromMember(q, w.startTime, w.endTime, s);
  }

  lemma FreeOnDayMember(q: Query, offset: int -> int, day: DayRule, s: Slot)
    ensures s in FreeOnDay(q, offset)(day) <==>
              s == q.SlotAt(s.startTime) && Free(q, s.startTime) && exists j :: OpenAt(q, offset, day, j, s.startTime)
  {
    var f := FreeInRange(q, offset, day.date);
    FlatMapMember(f, day.ranges, s);
    forall j | 0 <= j < |day.ranges|
      ensures s in f(day.ranges[j]) <==>
                s == q.SlotAt(s.startTime) && Free(q, s.startTime) && OnGrid(q, WindowOf(offset, day.date, day.ranges[j]), s.startTime)
    {
      FreeInWindowMember(q, WindowOf(offset, day.date, day.ranges[j]), s);
    }
    if j :| OpenAt(q, offset, day, j, s.startTime) {
      assert s == q.SlotAt(s.startTime) && Free(q, s.startTime) ==> s in f(day.ranges[j]);
    }
    if !day.isClosed && s in FreeOnDay(q, offset)(day) {
      var j :| 0 <= j < |day.ranges| && s in f(day.ranges[j]);
      assert OpenAt(q, offset, day, j, s.startTime);
    }
  }

  /** Sound and complete: the slots offered are exactly the bookable starts. */
  lemma SlotsAreExactlyTheBookableStarts(q: Query, offset: int -> int, days: seq<DayRule>, s: Slot)
    ensures s in AllFree(q, offset, days) <==> s == q.SlotAt(s.startTime) && Bookable(q, offset, days, s.startTime)
  {
    FlatMapMember(FreeOnDay(q, offset), days, s);
    forall i | 0 <= i < |days|
      ensures s in FreeOnDay(q, offset)(days[i]) <==>
                s == q.SlotAt(s.startTime) && Free(q, s.startTime) && exists j :: OpenAt(q, offset, days[i], j, s.startTime)
    {
      FreeOnDayMember(q, offset, days[i], s);
    }
  }

  // ---------- Order ----------

  function ByStart(): Slot -> int {
    (s: Slot) => s.startTime
  }

  predicate Precedes(a: Interval, b: Interval) {
    a.startTime < a.endTime && b.startTime < b.endTime ==> a.endTime <= b.startTime
  }

  /** The windows of open days, as instants, follow one another within each day and from day to day. */
  ghost predicate WindowsOrdered(offset: int -> int, days: seq<DayRule>) {
    && (forall i, j, k | 0 <= i < |days| && !days[i].isClosed && 0 <= j < k < |days[i].ranges| ::
          Precedes(WindowOf(offset, days[i].date, days[i].ranges[j]), WindowOf(offset, days[i].date, days[i].ranges[k])))
    && (forall i, i', j, j' | 0 <= i < i' < |days| && !days[i].isClosed && !days[i'].isClosed
                              && 0 <= j < |days[i].ranges| && 0 <= j' < |days[i'].ranges| ::
          Precedes(WindowOf(offset, days[i].date, days[i].ranges[j]), WindowOf(offset, days[i'].date, days[i'].ranges[j'])))
  }

  lemma {:induction false} FreeFromAscends(q: Query, start: int, end: int)
    ensures Ascending(ByStart(), FreeFrom(q, start, end))
    ensures forall s :: s in FreeFrom(q, start, end) ==> s.startTime >= start
    decreases end - q.Block() - start
  {
    if start + q.Block() > end {
    } else {
      FreeFromAscends(q, start + Step(q), end);
      AscendingJoin(ByStart(), FreeSlotAt(q, start), FreeFrom(q, start + Step(q), end));
    }
  }

  lemma WindowPiecesOrdered(q: Query, a: Interval, b: Interval)
    requires q.Block() > 0 && Precedes(a, b)
    ensures AllBefore(ByStart(), FreeInWindow(q, a), FreeInWindow(q, b))
  {
    forall x, y | x in FreeInWindow(q, a) && y in FreeInWindow(q, b) ensures x.startTime < y.startTime {
      FreeInWindowMember(q, a, x);
      FreeFromAscends(q, b.startTime, b.endTime);
    }
  }

  lemma FreeOnDayAscends(q: Query, offset: int -> int, day: DayRule)
    requires q.Block() > 0 && WindowsOrdered(offset, [day])
    ensures Ascending(ByStart(), FreeOnDay(q, offset)(day))
  {
    var f := FreeInRange(q, offset, day.date);
    assert [day][0] == day;
    if day.isClosed {
      return;
    }
    forall j | 0 <= j < |day.ranges| ensures Ascending(ByStart(), f(day.ranges[j])) {
      var w := WindowOf(offset, day.date, day.ranges[j]);
      FreeFromAscends(q, w.startTime, w.endTime);
    }
    forall j, k | 0 <= j < k < |day.ranges| ensures AllBefore(ByStart(), f(day.ranges[j]), f(day.ranges[k])) {
      WindowPiecesOrdered(q, WindowOf(offset, day.date, day.ranges[j]), WindowOf(offset, day.date, day.ranges[k]));
    }
    FlatMapAscends(ByStart(), f, day.ranges);
  }

  lemma GridPointsOrdered(q: Query, a: Interval, b: Interval, x: int, y: int)
    requires q.Block() > 0 && Precedes(a, b) && OnGrid(q, a, x) && OnGrid(q, b, y)
    ensures x < y
  {
    StepsUnfold(b.startTime, Step(q), y);
  }

  lemma DaysPiecesOrdered(q: Query, offset: int -> int, days: seq<DayRule>, i: nat, i': nat)
    requires q.Block() > 0 && WindowsOrdered(offset, days) && i < i' < |days|
    ensures AllBefore(ByStart(), FreeOnDay(q, offset)(days[i]), FreeOnDay(q, offset)(days[i']))
  {
    var d, d' := days[i], days[i'];
    forall x, y | x in FreeOnDay(q, offset)(d) && y in FreeOnDay(q, offset)(d')
      ensures x.startTime < y.startTime
    {
      FreeOnDayMember(q, offset, d, x);
      FreeOnDayMember(q, offset, d', y);
      var j :| OpenAt(q, offset, d, j, x.startTime);
      var j' :| OpenAt(q, offset, d', j', y.startTime);
      GridPointsOrdered(q, WindowOf(offset, d.date, d.ranges[j]), WindowOf(offset, d'.date, d'.ranges[j']), x.startTime, y.startTime);
    }
  }

  /** With ordered windows the offered starts are strictly increasing, hence without repetition. */
  lemma SlotsAscend(q: Query, offset: int -> int, days: seq<DayRule>)
    requires q.Block() > 0 && WindowsOrdered(offset, days)
    ensures Ascending(ByStart(), AllFree(q, offset, days))
  {
    forall i | 0 <= i < |days| ensures Ascending(ByStart(), FreeOnDay(q, offset)(days[i])) {
      assert forall j, k :: 0 <= j < k < |[days[i]][0].ranges| && !days[i].isClosed ==>
        Precedes(WindowOf(offset, days[i].date, days[i].ranges[j]), WindowOf(offset, days[i].date, days[i].ranges[k]));
      FreeOnDayAscends(q, offset, days[i]);
    }
    forall i, i' | 0 <= i < i' < |days|
      ensures AllBefore(ByStart(), FreeOnDay(q, offset)(days[i]), FreeOnDay(q, offset)(days[i']))
    {
      DaysPiecesOrdered(q, offset, days, i, i');
    }
    FlatMapAscends(ByStart(), FreeOnDay(q, offset), days);
  }

  // ---------- Order is needed ----------

  predicate OnMinute(t: int) {
    t % MINUTE == 0
  }

  /** Offsets of whole minutes, as every zone in use has. */
  ghost predicate WholeMinutes(offset: int -> int) {
    forall u :: OnMinute(offset(u))
  }

  lemma MultipleOnMinute(k: int)
    ensures OnMinute(k * MINUTE)
  {
  }

  lemma MinuteGap(x: int, y: int)
    requires OnMinute(x) && OnMinute(y)
    ensures OnMinute(x - y) && (x - MINUTE < y ==> x <= y)
  {
    var i, j := x / MINUTE, y / MINUTE;
    assert x == i * MINUTE && y == j * MINUTE;
    assert x - y == (i - j) * MINUTE;
    MultipleOnMinute(i - j);
  }

  lemma SolvedOnMinute(offset: int -> int, wall: int)
    requires WholeMinutes(offset) && OnMinute(wall)
    ensures OnMinute(Solved(offset, wall))
  {
    FourRounds(offset, wall);
    var last := wall - Solved(offset, wall);
    assert OnMinute(last);
    MinuteGap(wall, last);
  }

  lemma WallOnMinute(date: int, minutes: int)
    ensures OnMinute(Wall(date, minutes))
  {
    MultipleOnMinute(date * 1440 + minutes);
    assert Wall(date, minutes) == (date * 1440 + minutes) * MINUTE;
  }

  predicate WindowOnMinute(w: Interval) {
    OnMinute(w.startTime) && OnMinute(w.endTime)
  }

  lemma WindowsOnTheMinute(offset: int -> int, date: int, range: Range)
    requires WholeMinutes(offset)
    ensures WindowOnMinute(WindowOf(offset, date, range))
  {
    WallOnMinute(date, range.start);
    WallOnMinute(date, range.end);
    SolvedOnMinute(offset, Wall(date, range.start));
    SolvedOnMinute(offset, Wall(date, range.end));
  }

  /** A query for one-minute slots at every minute of an interval, with nothing booked. */
  function Probe(from: int, to: int): Query {
    Query(from, to, from, 1, 0, 1, [])
  }

  lemma MinutesApart(start: int, end: int) returns (k: nat)
    requires OnMinute(start) && OnMinute(end) && start < end
    ensures end - MINUTE == start + k * MINUTE
  {
    MinuteGap(end, start);
    k := (end - start) / MINUTE - 1;
  }

  lemma ProbeFindsEnds(a: Interval, q: Query)
    requires a.startTime < a.endTime && WindowOnMinute(a)
    requires q == Probe(q.from, q.to) && q.from <= a.startTime && a.endTime <= q.to
    ensures q.SlotAt(a.startTime) in FreeInWindow(q, a) && q.SlotAt(a.endTime - MINUTE) in FreeInWindow(q, a)
  {
    var k := MinutesApart(a.startTime, a.endTime);
    assert k * MINUTE >= 0;
    assert Step(q) == MINUTE && q.Block() == MINUTE;
    assert a.startTime == a.startTime + 0 * Step(q);
    assert OnSteps(a.startTime, Step(q), a.startTime) && OnSteps(a.startTime, Step(q), a.endTime - MINUTE);
    FreeInWindowMember(q, a, q.SlotAt(a.startTime));
    FreeInWindowMember(q, a, q.SlotAt(a.endTime - MINUTE));
  }

  function Smaller(x: int, y: int): int { if x < y then x else y }

  function Larger(x: int, y: int): int { if x < y then y else x }

  function ProbeOf(a: Interval, b: Interval): Query {
    Probe(Smaller(a.startTime, b.startTime), Larger(a.endTime, b.endTime))
  }

  lemma ProbeShowsOrder(a: Interval, b: Interval)
    requires WindowOnMinute(a) && WindowOnMinute(b)
    requires AllBefore(ByStart(), FreeInWindow(ProbeOf(a, b), a), FreeInWindow(ProbeOf(a, b), b))
    ensures Precedes(a, b)
  {
    if a.startTime < a.endTime && b.startTime < b.endTime {
      var q := ProbeOf(a, b);
      ProbeFindsEnds(a, q);
      ProbeFindsEnds(b, q);
      assert ByStart()(q.SlotAt(a.endTime - MINUTE)) < ByStart()(q.SlotAt(b.startTime));
      MinuteGap(a.endTime, b.startTime);
    }
  }

  lemma OneDayShowsOrder(offset: int -> int, days: seq<DayRule>, i: nat, j: nat, k: nat)
    requires WholeMinutes(offset) && i < |days| && !days[i].isClosed && j < k < |days[i].ranges|
    ensures
      var a, b := WindowOf(offset, days[i].date, days[i].ranges[j]), WindowOf(offset, days[i].date, days[i].ranges[k]);
      Ascending(ByStart(), AllFree(ProbeOf(a, b), offset, days)) ==> Precedes(a, b)
  {
    var day := days[i];
    var a, b := WindowOf(offset, day.date, day.ranges[j]), WindowOf(offset, day.date, day.ranges[k]);
    var q := ProbeOf(a, b);
    if !Ascending(ByStart(), AllFree(q, offset, days)) {
      return;
    }
    AscendingPieces(ByStart(), FreeOnDay(q, offset), days, i, i);
    AscendingPieces(ByStart(), FreeInRange(q, offset, day.date), day.ranges, j, k);
    WindowsOnTheMinute(offset, day.date, day.ranges[j]);
    WindowsOnTheMinute(offset, day.date, day.ranges[k]);
    ProbeShowsOrder(a, b);
  }

  lemma TwoDaysShowOrder(offset: int -> int, days: seq<DayRule>, i: nat, i': nat, j: nat, j': nat)
    requires WholeMinutes(offset) && i < i' < |days| && !days[i].isClosed && !days[i'].isClosed
    requires j < |days[i].ranges| && j' < |days[i'].ranges|
    ensures
      var a, b := WindowOf(offset, days[i].date, days[i].ranges[j]), WindowOf(offset, days[i'].date, days[i'].ranges[j']);
      Ascending(ByStart(), AllFree(ProbeOf(a, b), offset, days)) ==> Precedes(a, b)
  {
    var d, d' := days[i], days[i'];
    var a, b := WindowOf(offset, d.date, d.ranges[j]), WindowOf(offset, d'.date, d'.ranges[j']);
    var q := ProbeOf(a, b);
    if !Ascending(ByStart(), AllFree(q, offset, days)) {
      return;
    }
    AscendingPieces(ByStart(), FreeOnDay(q, offset), days, i, i');
    forall x, y | x in FreeInWindow(q, a) && y in FreeInWindow(q, b) ensures ByStart()(x) < ByStart()(y) {
      WindowInDay(q, offset, d, j, x);
      WindowInDay(q, offset, d', j', y);
    }
    WindowsOnTheMinute(offset, d.date, d.ranges[j]);
    WindowsOnTheMinute(offset, d'.date, d'.ranges[j']);
    ProbeShowsOrder(a, b);
  }

  lemma WindowInDay(q: Query, offset: int -> int, day: DayRule, j: nat, s: Slot)
    requires !day.isClosed && j < |day.ranges| && s in FreeInWindow(q, WindowOf(offset, day.date, day.ranges[j]))
    ensures s in FreeOnDay(q, offset)(day)
  {
    FlatMapMember(FreeInRange(q, offset, day.date), day.ranges, s);
    assert s in FreeInRange(q, offset, day.date)(day.ranges[j]);
  }

  ghost predicate EveryQueryAscends(offset: int -> int, days: seq<DayRule>) {
    forall q: Query :: q.Block() > 0 ==> Ascending(ByStart(), AllFree(q, offset, days))
  }

  /** Offered starts strictly increase for every query exactly when the open windows follow one another. */
  lemma EveryQueryAscendsIff(offset: int -> int, days: seq<DayRule>)
    requires WholeMinutes(offset)
    ensures EveryQueryAscends(offset, days) <==> WindowsOrdered(offset, days)
  {
    if EveryQueryAscends(offset, days) {
      forall i, j, k | 0 <= i < |days| && !days[i].isClosed && 0 <= j < k < |days[i].ranges|
        ensures Precedes(WindowOf(offset, days[i].date, days[i].ranges[j]), WindowOf(offset, days[i].date, days[i].ranges[k]))
      {
        var q := ProbeOf(WindowOf(offset, days[i].date, days[i].ranges[j]), WindowOf(offset, days[i].date, days[i].ranges[k]));
        assert q.Block() > 0;
        OneDayShowsOrder(offset, days, i, j, k);
      }
      forall i, i', j, j' | 0 <= i < i' < |days| && !days[i].isClosed && !days[i'].isClosed
                            && 0 <= j < |days[i].ranges| && 0 <= j' < |days[i'].ranges|
        ensures Precedes(WindowOf(offset, days[i].date, days[i].ranges[j]), WindowOf(offset, days[i'].date, days[i'].ranges[j']))
      {
        var q := ProbeOf(WindowOf(offset, days[i].date, days[i].ranges[j]), WindowOf(offset, days[i'].date, days[i'].ranges[j']));
        assert q.Block() > 0;
        TwoDaysShowOrder(offset, days, i, i', j, j');
      }
    } else {
      var q: Query :| q.Block() > 0 && !Ascending(ByStart(), AllFree(q, offset, days));
      if WindowsOrdered(offset, days) {
        SlotsAscend(q, offset, days);
      }
    }
  }

  // ---------- From accepted working hours to ordered windows ----------

  /** No open range begins or ends inside an hour that the clocks skip. */
  ghost predicate BoundariesExist(offset: int -> int, day: DayRule) {
    forall x :: x in day.ranges ==> Shown(offset, Wall(day.date, x.start)) && Shown(offset, Wall(day.date, x.end))
  }

  lemma RangesGiveOrderedWindows(offset: int -> int, reach: nat, d: DayRule, j: nat, d': DayRule, j': nat)
    requires Zone(offset, reach) && BoundariesExist(offset, d) && BoundariesExist(offset, d')
    requires j < |d.ranges| && j' < |d'.ranges|
    requires Wall(d.date, d.ranges[j].end) <= Wall(d'.date, d'.ranges[j'].start)
    ensures Precedes(WindowOf(offset, d.date, d.ranges[j]), WindowOf(offset, d'.date, d'.ranges[j']))
  {
    assert d.ranges[j] in d.ranges && d'.ranges[j'] in d'.ranges;
    var wall, wall' := Wall(d.date, d.ranges[j].end), Wall(d'.date, d'.ranges[j'].start);
    if wall < wall' {
      SolverIsIncreasing(offset, reach, wall, wall');
    }
  }

  lemma OrderedRulesGiveOrderedWindows(offset: int -> int, reach: nat, days: seq<DayRule>)
    requires Zone(offset, reach)
    requires forall i :: 0 <= i < |days| ==> OrderedRule(days[i]) && BoundariesExist(offset, days[i])
    requires forall i, j :: 0 <= i < j < |days| ==> days[i].date < days[j].date
    ensures WindowsOrdered(offset, days)
  {
    forall i, j, k | 0 <= i < |days| && 0 <= j < k < |days[i].ranges|
      ensures Precedes(WindowOf(offset, days[i].date, days[i].ranges[j]), WindowOf(offset, days[i].date, days[i].ranges[k]))
    {
      RangesGiveOrderedWindows(offset, reach, days[i], j, days[i], k);
    }
    forall i, i', j, j' | 0 <= i < i' < |days| && 0 <= j < |days[i].ranges| && 0 <= j' < |days[i'].ranges|
      ensures Precedes(WindowOf(offset, days[i].date, days[i].ranges[j]), WindowOf(offset, days[i'].date, days[i'].ranges[j']))
    {
      DatesSeparateWalls(days[i], j, days[i'], j');
      RangesGiveOrderedWindows(offset, reach, days[i], j, days[i'], j');
    }
  }

  lemma DatesSeparateWalls(d: DayRule, j: nat, d': DayRule, j': nat)
    requires OrderedRule(d) && OrderedRule(d') && d.date < d'.date && j < |d.ranges| && j' < |d'.ranges|
    ensures Wall(d.date, d.ranges[j].end) <= Wall(d'.date, d'.ranges[j'].start)
  {
    assert d.ranges[j] in d.ranges && d'.ranges[j'] in d'.ranges;
  }

  /** What every day's rule comes from: rows that passed validation, and exceptions within the day. */
  ghost predicate FromAccepted(stored: seq<Row>, workingHours: seq<Row>, exceptions: map<int, Exception>, from: int, days: seq<DayRule>) {
    && Accepted(stored) && QueriedFrom(workingHours, stored)
    && (forall i :: 0 <= i < |stored| ==> WithinDay(RangeOf(stored[i])))
    && (forall d | d in exceptions && exceptions[d].overrideStart.Some? && exceptions[d].overrideEnd.Some? ::
          WithinDay(Range(exceptions[d].overrideStart.value, exceptions[d].overrideEnd.value)))
    && (forall i :: 0 <= i < |days| ==> days[i] == RuleFor(workingHours, exceptions, from + i))
  }

  lemma AcceptedHoursGiveOrderedRules(
    stored: seq<Row>, workingHours: seq<Row>, exceptions: map<int, Exception>, from: int, days: seq<DayRule>)
    requires FromAccepted(stored, workingHours, exceptions, from, days)
    ensures forall i :: 0 <= i < |days| ==> OrderedRule(days[i]) && days[i].date == from + i
  {
    forall i | 0 <= i < |days| ensures OrderedRule(days[i]) && days[i].date == from + i {
      AcceptedRowsGiveOrderedRules(stored, workingHours, exceptions, from + i);
    }
  }

  ghost predicate AllBoundariesExist(offset: int -> int, days: seq<DayRule>) {
    forall i :: 0 <= i < |days| ==> BoundariesExist(offset, days[i])
  }

  lemma AcceptedHoursGiveOrderedWindows(
    offset: int -> int, reach: nat, stored: seq<Row>, workingHours: seq<Row>, exceptions: map<int, Exception>, from: int,
    days: seq<DayRule>)
    requires Zone(offset, reach) && FromAccepted(stored, workingHours, exceptions, from, days) && AllBoundariesExist(offset, days)
    ensures WindowsOrdered(offset, days)
  {
    AcceptedHoursGiveOrderedRules(stored, workingHours, exceptions, from, days);
    OrderedRulesGiveOrderedWindows(offset, reach, days);
  }

  /**
   * Working hours that passed validation, with any exceptions, over any dates: the starts offered strictly increase for
   * every query unless some range begins or ends in time the clocks skip.
   */
  lemma AcceptedHoursAscend(
    offset: int -> int, reach: nat, stored: seq<Row>, workingHours: seq<Row>, exceptions: map<int, Exception>, from: int,
    days: seq<DayRule>)
    requires Zone(offset, reach) && FromAccepted(stored, workingHours, exceptions, from, days) && AllBoundariesExist(offset, days)
    ensures EveryQueryAscends(offset, days)
  {
    AcceptedHoursGiveOrderedWindows(offset, reach, stored, workingHours, exceptions, from, days);
    forall q: Query | q.Block() > 0 ensures Ascending(ByStart(), AllFree(q, offset, days)) {
      SlotsAscend(q, offset, days);
    }
  }

  // ---------- Per-day mode ----------

  /** Every listed day has a free slot and lists exactly its first ones; every day with a free slot is listed. */
  lemma OpenDaysAreExactlyTheDaysWithFreeSlots(q: Query, offset: int -> int, days: seq<DayRule>, limit: nat, e: DaySlots)
    requires limit > 0
    ensures e in OpenDays(q, offset, days, limit) <==>
              exists i :: 0 <= i < |days| && FreeOnDay(q, offset)(days[i]) != []
                && e == DaySlots(days[i].date, Take(FreeOnDay(q, offset)(days[i]), limit))
    ensures e in OpenDays(q, offset, days, limit) ==> 0 < |e.slots| <= limit
  {
    FlatMapMember(OpenDay(q, offset, limit), days, e);
  }

  function ByDate(): DaySlots -> int {
    (d: DaySlots) => d.date
  }

  lemma OpenDaysKeepDateOrder(q: Query, offset: int -> int, days: seq<DayRule>, limit: nat)
    requires forall i, j :: 0 <= i < j < |days| ==> days[i].date < days[j].date
    ensures Ascending(ByDate(), OpenDays(q, offset, days, limit))
  {
    FlatMapAscends(ByDate(), OpenDay(q, offset, limit), days);
  }

  /** With room for everything, the per-day list, the flat list and the whole specification agree. */
  lemma {:induction false} ModesAgreeUnderLargeLimit(q: Query, offset: int -> int, days: seq<DayRule>, limit: nat)
    requires |AllFree(q, offset, days)| <= limit
    ensures Concatenated(OpenDays(q, offset, days, limit)) == Take(AllFree(q, offset, days), limit) == AllFree(q, offset, days)
  {
    if days == [] {
    } else {
      var f, first, rest := OpenDay(q, offset, limit), days[0], days[1..];
      ModesAgreeUnderLargeLimit(q, offset, rest, limit);
      FlatMapConcat(SlotsOf(), f(first), OpenDays(q, offset, rest, limit));
      var free := FreeOnDay(q, offset)(first);
      if free != [] {
        assert f(first)[1..] == [] && FlatMap(SlotsOf(), f(first)) == free + [];
      }
    }
  }

  // ---------- The skipped hour ----------

  /** Clocks go forward by an hour at one o'clock UTC on day zero. */
  function SpringForward(): int -> int {
    (u: int) => if u < 60 * MINUTE then 0 else 60 * MINUTE
  }

  lemma SpringForwardIsAZone()
    ensures Zone(SpringForward(), 60 * MINUTE)
  {
    forall at ensures OneStepNear(SpringForward(), at, 60 * MINUTE) {
      assert StepNear(SpringForward(), at, 60 * MINUTE, 60 * MINUTE, 0, 60 * MINUTE);
    }
  }

  /** Thursdays from 01:00 to 01:30 and from 02:00 to 03:00. */
  function TwoSessions(): seq<Row> {
    [Row(4, 60, 90, true), Row(4, 120, 180, true)]
  }

  lemma TwoSessionsRanges(day: int)
    ensures ActiveOnly(TwoSessions()) == TwoSessions()
    ensures RangesOf(TwoSessions(), day) == if day == 4 then [Range(60, 90), Range(120, 180)] else []
  {
    var rows := TwoSessions();
    var last := [Row(4, 120, 180, true)];
    assert rows[1..] == last && last[1..] == [];
    assert ActiveOnly(last) == [last[0]] + ActiveOnly([]) == last;
    assert RangesOf(last, day) == (if day == 4 then [Range(120, 180)] else []) + RangesOf([], day);
  }

  lemma TwoRangesSorted(a: Range, b: Range)
    requires a.start < b.start
    ensures SortByStart([a, b]) == [a, b] && SortByStart([]) == []
  {
    assert [a, b][1..] == [b] && [b][1..] == [];
    assert SortByStart([b]) == Insert(b, []) == [b];
    assert SortByStart([a, b]) == Insert(a, [b]) == [a] + [b];
  }

  lemma TwoSessionsRule()
    ensures Accepted(TwoSessions()) && QueriedFrom(TwoSessions(), TwoSessions())
    ensures RuleFor(TwoSessions(), map[], 0) == DayRule(0, false, [Range(60, 90), Range(120, 180)])
  {
    TwoRangesSorted(Range(60, 90), Range(120, 180));
    forall day ensures RangesOf(TwoSessions(), day) == SortByStart(RangesOf(ActiveOnly(TwoSessions()), day)) {
      TwoSessionsRanges(day);
    }
    TwoSessionsRanges(4);
    assert WeekdayOf(0) == 4;
  }

  /**
   * A boundary in skipped time: these hours pass validation, yet on the Thursday the clocks skip from 01:00 to 02:00
   * both windows of their rule open at the same instant, and its slot is offered twice.
   */
  lemma SkippedHourRepeatsASlot(q: Query)
    requires q.from == 0 && q.to == DAY && q.now == 0 && q.blocking == []
    requires q.durationMinutes == 30 && q.bufferMinutes == 0
    ensures Accepted(TwoSessions()) && QueriedFrom(TwoSessions(), TwoSessions()) && Zone(SpringForward(), 60 * MINUTE)
    ensures
      var day := RuleFor(TwoSessions(), map[], 0);
      !Ascending(ByStart(), AllFree(q, SpringForward(), [day])) && !WindowsOrdered(SpringForward(), [day])
  {
    SpringForwardIsAZone();
    TwoSessionsRule();
    SpringSlotTwice(q, 0, Range(60, 90), Range(120, 180));
    if WindowsOrdered(SpringForward(), [DayRule(0, false, [Range(60, 90), Range(120, 180)])]) {
      SlotsAscend(q, SpringForward(), [DayRule(0, false, [Range(60, 90), Range(120, 180)])]);
    }
  }

  lemma SpringSlotTwice(q: Query, date: int, first: Range, second: Range)
    requires q.from == 0 && q.to == DAY && q.now == 0 && q.blocking == []
    requires q.durationMinutes == 30 && q.bufferMinutes == 0
    requires date == 0 && first == Range(60, 90) && second == Range(120, 180)
    ensures !Ascending(ByStart(), AllFree(q, SpringForward(), [DayRule(date, false, [first, second])]))
  {
    SpringWindow(date, first, 60 * MINUTE, 90 * MINUTE);
    SpringWindow(date, second, 120 * MINUTE, 180 * MINUTE);
    SlotTwice(q, SpringForward(), date, first, second);
  }

  lemma SpringSolved(wall: int)
    ensures Solved(SpringForward(), wall) == if wall < 120 * MINUTE then wall else wall - 60 * MINUTE
  {
    FourRounds(SpringForward(), wall);
  }

  lemma SpringWindow(date: int, range: Range, start: int, end: int)
    requires date == 0 && start == range.start * MINUTE && end == range.end * MINUTE
    ensures
      WindowOf(SpringForward(), date, range)
      == Interval(if start < 120 * MINUTE then start else start - 60 * MINUTE, if end < 120 * MINUTE then end else end - 60 * MINUTE)
  {
    SpringSolved(Wall(date, range.start));
    SpringSolved(Wall(date, range.end));
  }

  lemma BothOffer(q: Query, offset: int -> int, date: int, first: Range, second: Range, t: int)
    requires Free(q, t) && OnGrid(q, WindowOf(offset, date, first), t) && OnGrid(q, WindowOf(offset, date, second), t)
    ensures !Ascending(ByStart(), AllFree(q, offset, [DayRule(date, false, [first, second])]))
  {
    var day := DayRule(date, false, [first, second]);
    var f, s := FreeInRange(q, offset, date), q.SlotAt(t);
    var a, b := f(first), f(second);
    FreeInWindowMember(q, WindowOf(offset, date, first), s);
    FreeInWindowMember(q, WindowOf(offset, date, second), s);
    FlatMapSmall(f, first, second);
    FlatMapSmall(FreeOnDay(q, offset), day, day);
    assert FreeOnDay(q, offset)(day) == a + b;
    var i :| 0 <= i < |a| && a[i] == s;
    var j :| 0 <= j < |b| && b[j] == s;
    assert (a + b)[i] == s && (a + b)[|a| + j] == s;
  }

  lemma SlotTwice(q: Query, offset: int -> int, date: int, first: Range, second: Range)
    requires q.from == 0 && q.to == DAY && q.now == 0 && q.blocking == []
    requires q.durationMinutes == 30 && q.bufferMinutes == 0
    requires WindowOf(offset, date, first) == Interval(60 * MINUTE, 90 * MINUTE)
    requires WindowOf(offset, date, second) == Interval(60 * MINUTE, 120 * MINUTE)
    ensures !Ascending(ByStart(), AllFree(q, offset, [DayRule(date, false, [first, second])]))
  {
    StepsUnfold(60 * MINUTE, Step(q), 60 * MINUTE);
    BothOffer(q, offset, date, first, second, 60 * MINUTE);
  }
}

/**
 * The availability gate in front of a hold: the engine is asked for slots from the requested start over the next
 * day, at most 100, and the hold goes ahead only if the requested start is among them.
 */
module HoldGate {
  import opened Common
  import opened Lists
  import opened Bookings
  import opened Availability
  import opened AvailabilityTheorems
  import opened TimeZone
  import WorkingHours

  const GATE_LIMIT: nat := 100

  const HALF_DAY := 43_200_000

  /** Slots are matched on their start alone. */
  predicate SlotMatchesAvailability(slots: seq<Slot>, startTime: int) {
    exists s :: s in slots && s.startTime == startTime
  }

  /** The query the gate makes for a start. */
  predicate AsksFrom(q: Query, startTime: int) {
    q.from == startTime && q.to == startTime + DAY
  }

  method CheckGate(q: Query, offset: int -> int, days: seq<WorkingHours.DayRule>, startTime: int) returns (passes: bool)
    requires AsksFrom(q, startTime)
    ensures passes <==> GatePasses(q, offset, days)
  {
    var g := GenerateFlat(q, offset, days, GATE_LIMIT);
    passes := SlotMatchesAvailability(g.slots, startTime);
  }

  predicate GatePasses(q: Query, offset: int -> int, days: seq<WorkingHours.DayRule>) {
    SlotMatchesAvailability(Take(AllFree(q, offset, days), GATE_LIMIT), q.from)
  }

  lemma LaterElementStartsLater(slots: seq<Slot>, i: nat)
    requires Ascending(ByStart(), slots) && 0 < i < |slots|
    ensures slots[0].startTime < slots[i].startTime
  {
    assert ByStart()(slots[0]) < ByStart()(slots[i]);
  }

  /** The limit and the nested early exits never hide the requested start: the gate passes exactly for bookable starts. */
  lemma GateIsExact(q: Query, offset: int -> int, days: seq<WorkingHours.DayRule>)
    requires q.Block() > 0 && WindowsOrdered(offset, days)
    ensures GatePasses(q, offset, days) <==> Bookable(q, offset, days, q.from)
  {
    var slots := AllFree(q, offset, days);
    var s := q.SlotAt(q.from);
    SlotsAreExactlyTheBookableStarts(q, offset, days, s);
    if Bookable(q, offset, days, q.from) {
      SlotsAscend(q, offset, days);
      var i :| 0 <= i < |slots| && slots[i] == s;
      SlotsAreExactlyTheBookableStarts(q, offset, days, slots[0]);
      if i != 0 { LaterElementStartsLater(slots, i); }
      assert Take(slots, GATE_LIMIT)[0] == s;
    }
    if x :| x in Take(slots, GATE_LIMIT) && x.startTime == q.from {
      SlotsAreExactlyTheBookableStarts(q, offset, days, x);
    }
  }

  // ---------- Which stored bookings the engine sees ----------

  predicate Fetched(b: Booking, stylist: nat, q: Query) {
    b.stylist == stylist && Active(b) && !Lapsed(b, q.now) && b.startTime < q.to && b.endTime > q.from
  }

  /** The blocking bookings of a query are the fetched rows, and nothing else. */
  predicate ReadsRows(q: Query, rows: Rows, stylist: nat) {
    && (forall id :: id in rows && Fetched(rows[id], stylist, q) ==> Interval(rows[id].startTime, rows[id].endTime) in q.blocking)
    && (forall b :: b in q.blocking ==>
          exists id :: id in rows && Fetched(rows[id], stylist, q) && b == Interval(rows[id].startTime, rows[id].endTime))
  }

  /** If duration plus buffer is at most a day, passing the gate rules out every stored conflict. */
  lemma GateIsSafe(q: Query, offset: int -> int, days: seq<WorkingHours.DayRule>, rows: Rows, stylist: nat, startTime: int)
    requires AsksFrom(q, startTime) && ReadsRows(q, rows, stylist)
    requires q.Block() <= DAY
    requires GatePasses(q, offset, days)
    ensures ConflictIds(rows, q.now, stylist, startTime, startTime + q.Block()) == {}
  {
    PassingMeansFree(q, offset, days);
    ClearOfAllMeansEach(q, q.from, q.blocking);
    forall id | id in rows ensures !Conflicts(rows[id], q.now, stylist, startTime, startTime + q.Block()) {
      var b := rows[id];
      if Fetched(b, stylist, q) {
        assert Clear(q, q.from, Interval(b.startTime, b.endTime));
      }
    }
  }

  lemma PassingMeansFree(q: Query, offset: int -> int, days: seq<WorkingHours.DayRule>)
    requires GatePasses(q, offset, days)
    ensures Free(q, q.from)
  {
    var x :| x in Take(AllFree(q, offset, days), GATE_LIMIT) && x.startTime == q.from;
    SlotsAreExactlyTheBookableStarts(q, offset, days, x);
  }

  // ---------- How long a block may be ----------

  function WindowWidth(w: Interval): int {
    w.endTime - w.startTime
  }

  /** Every open window is at most a day long, as instants. */
  predicate Narrow(offset: int -> int, days: seq<WorkingHours.DayRule>) {
    forall i, j | 0 <= i < |days| && !days[i].isClosed && 0 <= j < |days[i].ranges| ::
      WindowWidth(WindowOf(offset, days[i].date, days[i].ranges[j])) <= DAY
  }

  /** A block that can be booked at all fits its window. */
  lemma BookableBlockFits(q: Query, offset: int -> int, days: seq<WorkingHours.DayRule>, t: int)
    requires Narrow(offset, days) && Bookable(q, offset, days, t)
    ensures q.Block() <= DAY
  {
    var i, j :| 0 <= i < |days| && OpenAt(q, offset, days[i], j, t);
    StepsUnfold(WindowOf(offset, days[i].date, days[i].ranges[j]).startTime, Step(q), t);
  }

  /** Where no open window is longer than a day, passing the gate rules out every stored conflict, for any block. */
  lemma GateIsSafeOnNarrowDays(
    q: Query, offset: int -> int, days: seq<WorkingHours.DayRule>, rows: Rows, stylist: nat, startTime: int)
    requires AsksFrom(q, startTime) && ReadsRows(q, rows, stylist) && GatePasses(q, offset, days) && Narrow(offset, days)
    ensures ConflictIds(rows, q.now, stylist, startTime, startTime + q.Block()) == {}
  {
    var x :| x in Take(AllFree(q, offset, days), GATE_LIMIT) && x.startTime == q.from;
    SlotsAreExactlyTheBookableStarts(q, offset, days, x);
    BookableBlockFits(q, offset, days, x.startTime);
    GateIsSafe(q, offset, days, rows, stylist, startTime);
  }

  /**
   * A start that passes the gate is accepted by the creating transaction, if nothing was written in between and the
   * block or else every open window is at most a day long.
   */
  lemma GatePassImpliesCreateAccepted(
    q: Query, offset: int -> int, days: seq<WorkingHours.DayRule>, rows: Rows, id: Id, b: Booking)
    requires AsksFrom(q, b.startTime) && ReadsRows(q, rows, b.stylist) && AllWellFormed(rows)
    requires b.endTime == CalculateBookingEndTime(b.startTime, q.durationMinutes, q.bufferMinutes)
    requires GatePasses(q, offset, days) && (q.Block() <= DAY || Narrow(offset, days))
    ensures Created(rows, q.now, id, b).Ok?
  {
    if q.Block() <= DAY {
      GateIsSafe(q, offset, days, rows, b.stylist, b.startTime);
    } else {
      GateIsSafeOnNarrowDays(q, offset, days, rows, b.stylist, b.startTime);
    }
    forall i | i in rows ensures !Conflicts(rows[i], q.now, b.stylist, b.startTime, b.endTime) {
      assert i !in ConflictIds(rows, q.now, b.stylist, b.startTime, b.endTime);
    }
    CreateAcceptedIff(rows, q.now, id, b);
  }

  /** Around the date the clocks stand still or go forward, by at most half a day. */
  ghost predicate GoesForward(offset: int -> int, date: int, reach: nat) {
    exists t, a, b :: StepNear(offset, Wall(date, 0), reach, t, a, b) && a <= b <= a + HALF_DAY
  }

  /** On a date whose clocks do not go back, no window within the day is longer than a day. */
  lemma ForwardDaysAreNarrow(offset: int -> int, days: seq<WorkingHours.DayRule>, reach: nat)
    requires reach >= DAY && forall i :: 0 <= i < |days| ==> WorkingHours.OrderedRule(days[i]) && GoesForward(offset, days[i].date, reach)
    ensures Narrow(offset, days)
  {
    forall i, j | 0 <= i < |days| && !days[i].isClosed && 0 <= j < |days[i].ranges|
      ensures WindowWidth(WindowOf(offset, days[i].date, days[i].ranges[j])) <= DAY
    {
      assert days[i].ranges[j] in days[i].ranges;
      ForwardDayIsNarrow(offset, days[i].date, reach, days[i].ranges[j]);
    }
  }

  lemma ForwardDayIsNarrow(offset: int -> int, date: int, reach: nat, range: WorkingHours.Range)
    requires reach >= DAY && GoesForward(offset, date, reach) && WorkingHours.WithinDay(range)
    ensures WindowWidth(WindowOf(offset, date, range)) <= DAY
  {
    var t, a, b :| StepNear(offset, Wall(date, 0), reach, t, a, b) && a <= b <= a + HALF_DAY;
    SolvedApart(offset, reach, Wall(date, 0), Wall(date, range.start), Wall(date, range.end), t, a, b);
  }

  /** Two wall times of such a day are solved at most a day apart. */
  lemma SolvedApart(offset: int -> int, reach: nat, midnight: int, from: int, to: int, t: int, a: int, b: int)
    requires reach >= DAY && StepNear(offset, midnight, reach, t, a, b) && a <= b <= a + HALF_DAY
    requires midnight <= from <= midnight + DAY && midnight <= to <= midnight + DAY
    ensures Solved(offset, to) - Solved(offset, from) <= DAY
  {
    SolvedAsOneOf(offset, reach, midnight, from, t, a, b);
    SolvedAsOneOf(offset, reach, midnight, to, t, a, b);
    ForwardWidth(midnight, from, to, t, a, b);
  }

  function ForwardInstant(wall: int, t: int, a: int, b: int): int {
    if wall - b >= t || (wall - a >= t && wall < t) then wall - b else wall - a
  }

  lemma ForwardWidth(midnight: int, from: int, to: int, t: int, a: int, b: int)
    requires midnight <= from <= midnight + DAY && midnight <= to <= midnight + DAY && a <= b <= a + HALF_DAY
    ensures ForwardInstant(to, t, a, b) - ForwardInstant(from, t, a, b) <= DAY
  {
  }

  /** What the solver makes of a wall time of a day whose clocks may go forward at t. */
  lemma SolvedAsOneOf(offset: int -> int, reach: nat, midnight: int, wall: int, t: int, a: int, b: int)
    requires reach >= DAY && StepNear(offset, midnight, reach, t, a, b) && a <= b && midnight <= wall <= midnight + DAY
    ensures Solved(offset, wall) == ForwardInstant(wall, t, a, b)
  {
    FourRounds(offset, wall);
  }

  /** Every table the query may have read is free of conflicts with a start that passes. */
  ghost predicate SafeForEveryTable(q: Query, stylist: nat) {
    forall rows :: AllWellFormed(rows) && ReadsRows(q, rows, stylist) ==>
      ConflictIds(rows, q.now, stylist, q.from, q.from + q.Block()) == {}
  }

  /** A booking that begins a day after the start is not read; a block longer than a day runs into it. */
  lemma UnseenBookingConflicts(q: Query, rows: Rows, stylist: nat, startTime: int)
    requires AsksFrom(q, startTime) && AllWellFormed(rows) && ReadsRows(q, rows, stylist) && q.Block() > DAY
    ensures !SafeForEveryTable(q, stylist)
  {
    var id := Unused(rows.Keys);
    var later := Booking(stylist, startTime + DAY, startTime + DAY + 1, Confirmed, None, DepositPaid);
    var more := rows[id := later];
    assert !Fetched(later, stylist, q) && id !in rows;
    forall b | b in q.blocking
      ensures exists i :: i in more && Fetched(more[i], stylist, q) && b == Interval(more[i].startTime, more[i].endTime)
    {
      var i :| i in rows && Fetched(rows[i], stylist, q) && b == Interval(rows[i].startTime, rows[i].endTime);
      assert more[i] == rows[i];
    }
    assert AllWellFormed(more) && forall i :: i in more && i != id ==> i in rows && more[i] == rows[i];
    assert ReadsRows(q, more, stylist);
    assert id in ConflictIds(more, q.now, stylist, q.from, q.from + q.Block());
  }

  /** A start that passes the gate is safe for every table the gate may have read exactly when its block fits a day. */
  lemma PassIsSafeIff(q: Query, offset: int -> int, days: seq<WorkingHours.DayRule>, rows: Rows, stylist: nat, startTime: int)
    requires AsksFrom(q, startTime) && GatePasses(q, offset, days)
    requires AllWellFormed(rows) && ReadsRows(q, rows, stylist)
    ensures SafeForEveryTable(q, stylist) <==> q.Block() <= DAY
  {
    if q.Block() <= DAY {
      forall table | AllWellFormed(table) && ReadsRows(q, table, stylist)
        ensures ConflictIds(table, q.now, stylist, q.from, q.from + q.Block()) == {}
      {
        GateIsSafe(q, offset, days, table, stylist, startTime);
      }
    } else {
      UnseenBookingConflicts(q, rows, stylist, startTime);
    }
  }

  // ---------- A date whose clocks go back ----------

  /** Clocks go back by an hour at one o'clock UTC on day zero. */
  function FallBack(): int -> int {
    (u: int) => if u < 60 * MINUTE then 60 * MINUTE else 0
  }

  /** Thursdays from 00:00 to 23:59. */
  function AllDay(): seq<WorkingHours.Row> {
    [WorkingHours.Row(4, 0, 1439, true)]
  }

  /** The longest Thursday, asked for a start at its first instant: the longest service allowed, and a minute of buffer. */
  function LongBlock(): Query {
    Query(-60 * MINUTE, -60 * MINUTE + DAY, -60 * MINUTE, 1440, 1, 15, [])
  }

  lemma AllDayRule()
    ensures WorkingHours.Accepted(AllDay())
    ensures WorkingHours.RuleFor(AllDay(), map[], 0) == WorkingHours.DayRule(0, false, [WorkingHours.Range(0, 1439)])
  {
    assert AllDay()[1..] == [] && WorkingHours.WeekdayOf(0) == 4;
    assert WorkingHours.RangesOf(AllDay(), 4) == [WorkingHours.Range(0, 1439)] + WorkingHours.RangesOf([], 4);
  }

  lemma FallBackSolved(wall: int)
    ensures Solved(FallBack(), wall) == if wall < 60 * MINUTE then wall - 60 * MINUTE else wall
  {
    FourRounds(FallBack(), wall);
  }

  lemma AllDayWindow(date: int, range: WorkingHours.Range)
    requires date == 0 && range == WorkingHours.Range(0, 1439)
    ensures WindowOf(FallBack(), date, range) == Interval(-60 * MINUTE, 1439 * MINUTE)
  {
    FallBackSolved(Wall(date, range.start));
    FallBackSolved(Wall(date, range.end));
  }

  lemma OneWindowIsOrdered(offset: int -> int, day: WorkingHours.DayRule)
    requires |day.ranges| == 1
    ensures WindowsOrdered(offset, [day])
  {
  }

  lemma StartOfLongWindowPasses(q: Query, offset: int -> int, date: int, range: WorkingHours.Range)
    requires q == LongBlock() && WindowOf(offset, date, range) == Interval(-60 * MINUTE, 1439 * MINUTE)
    ensures GatePasses(q, offset, [WorkingHours.DayRule(date, false, [range])])
  {
    var day := WorkingHours.DayRule(date, false, [range]);
    OneWindowIsOrdered(offset, day);
    StepsUnfold(q.from, Step(q), q.from);
    assert OnGrid(q, WindowOf(offset, date, range), q.from) && Free(q, q.from);
    assert day.ranges[0] == range && [day][0] == day && OpenAt(q, offset, day, 0, q.from);
    GateIsExact(q, offset, [day]);
  }

  lemma LongBlockPasses(q: Query, date: int, range: WorkingHours.Range)
    requires q == LongBlock() && date == 0 && range == WorkingHours.Range(0, 1439)
    ensures GatePasses(q, FallBack(), [WorkingHours.DayRule(date, false, [range])])
  {
    AllDayWindow(date, range);
    StartOfLongWindowPasses(q, FallBack(), date, range);
  }

  /** On a Thursday whose clocks go back, with those hours, a service of 24 hours and a minute of buffer passes the gate over a conflict. */
  lemma LongThursdayFoolsTheGate(stylist: nat)
    ensures WorkingHours.Accepted(AllDay()) && AsksFrom(LongBlock(), LongBlock().from)
    ensures GatePasses(LongBlock(), FallBack(), [WorkingHours.RuleFor(AllDay(), map[], 0)])
    ensures !SafeForEveryTable(LongBlock(), stylist)
  {
    AllDayRule();
    LongBlockPasses(LongBlock(), 0, WorkingHours.Range(0, 1439));
    UnseenBookingConflicts(LongBlock(), map[], stylist, LongBlock().from);
  }

  // ---------- The buffer ----------

  /**
   * The gate reads only bookings that end after the start. So among stored bookings that begin within its day, a pass
   * keeps the buffer from exactly those it reads and those that ended at least a buffer before the start.
   */
  lemma BufferKeptIff(q: Query, offset: int -> int, days: seq<WorkingHours.DayRule>, rows: Rows, stylist: nat, id: Id)
    requires AsksFrom(q, q.from) && ReadsRows(q, rows, stylist) && GatePasses(q, offset, days) && q.Block() > 0
    requires id in rows && WellFormed(rows[id]) && rows[id].stylist == stylist && Active(rows[id]) && !Lapsed(rows[id], q.now)
    requires rows[id].startTime < q.to
    ensures
      var b := rows[id];
      Clear(q, q.from, Interval(b.startTime, b.endTime)) <==> b.endTime > q.from || b.endTime + q.Gap() <= q.from
  {
    PassingMeansFree(q, offset, days);
    ClearOfAllMeansEach(q, q.from, q.blocking);
  }
}

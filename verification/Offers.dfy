/**
 * What clients are offered, from the stylist's stored rows: the weekly hours, the exceptions and the bookings decide every
 * slot, with no rule, window list or loop in between.
 */
module Offers {
  import opened Common
  import opened Lists
  import opened TimeZone
  import opened WorkingHours
  import opened Availability
  import opened AvailabilityTheorems
  import HoldGate

  /** Day 0 is a Thursday, and the days of the week follow one another. */
  lemma WeekdaysInTurn(date: int)
    ensures WeekdayOf(0) == 4 && 0 <= WeekdayOf(date) < 7
    ensures WeekdayOf(date + 1) == if WeekdayOf(date) == 6 then 0 else WeekdayOf(date) + 1
  {
  }

  /** The stylist works these hours on the date: not closed, and the override if complete, or else an active weekly row. */
  ghost predicate Works(stored: seq<Row>, exceptions: map<int, Exception>, date: int, hours: Range) {
    if date in exceptions && exceptions[date].isClosed then false
    else if date in exceptions && exceptions[date].overrideStart.Some? && exceptions[date].overrideEnd.Some? then
      exceptions[date].overrideStart == Some(hours.start) && exceptions[date].overrideEnd == Some(hours.end)
    else
      exists row :: row in stored && row.isActive && row.dayOfWeek == WeekdayOf(date)
                    && row.startTime == hours.start && row.endTime == hours.end
  }

  /** The start is a whole number of steps into the hours, and the block ends within them. */
  ghost predicate FitsHours(q: Query, offset: int -> int, date: int, hours: Range, t: int) {
    var opens, closes := Solved(offset, date * DAY + hours.start * MINUTE), Solved(offset, date * DAY + hours.end * MINUTE);
    && opens < closes && t + (q.durationMinutes + q.bufferMinutes) * MINUTE <= closes
    && exists k: nat :: t == opens + k * (q.interval * MINUTE)
  }

  /** No booking is nearer than the buffer, before or after. */
  predicate KeepsBuffer(q: Query, t: int) {
    var buffer := if q.bufferMinutes > 0 then q.bufferMinutes else 0;
    forall b :: b in q.blocking ==>
      b.endTime + buffer * MINUTE <= t || t + (q.durationMinutes + q.bufferMinutes + buffer) * MINUTE <= b.startTime
  }

  ghost predicate WorkedOn(
    q: Query, offset: int -> int, stored: seq<Row>, exceptions: map<int, Exception>, from: int, days: nat, t: int) {
    exists date, hours :: from <= date < from + days && Works(stored, exceptions, date, hours) && FitsHours(q, offset, date, hours, t)
  }

  // ---------- Rules ----------

  lemma {:induction false} ActiveOnlyIff(rows: seq<Row>, row: Row)
    ensures row in ActiveOnly(rows) <==> row in rows && row.isActive
  {
    if rows == [] {
    } else {
      ActiveOnlyIff(rows[1..], row);
      assert row in rows <==> row == rows[0] || row in rows[1..];
    }
  }

  lemma WeeklyHoursIff(stored: seq<Row>, workingHours: seq<Row>, day: int, hours: Range)
    requires QueriedFrom(workingHours, stored)
    ensures
      hours in RangesOf(workingHours, day)
      <==> exists row :: row in stored && row.isActive && row.dayOfWeek == day && row.startTime == hours.start && row.endTime == hours.end
  {
    var active := ActiveOnly(stored);
    SortMembers(RangesOf(active, day), hours);
    RangesOfMembers(active, day, hours);
    if i :| 0 <= i < |active| && active[i].dayOfWeek == day && RangeOf(active[i]) == hours {
      ActiveOnlyIff(stored, active[i]);
    }
    if row :| row in stored && row.isActive && row.dayOfWeek == day && row.startTime == hours.start && row.endTime == hours.end {
      ActiveOnlyIff(stored, row);
      var i :| 0 <= i < |active| && active[i] == row;
      assert RangeOf(active[i]) == hours;
    }
  }

  /** The rule of a date lists exactly the hours worked, and is closed exactly if there are none. */
  lemma RuleListsHoursWorked(stored: seq<Row>, workingHours: seq<Row>, exceptions: map<int, Exception>, date: int, hours: Range)
    requires QueriedFrom(workingHours, stored)
    ensures
      var rule := RuleFor(workingHours, exceptions, date);
      && rule.date == date && (hours in rule.ranges <==> Works(stored, exceptions, date, hours))
      && (rule.isClosed <==> rule.ranges == [])
  {
    WeeklyHoursIff(stored, workingHours, WeekdayOf(date), hours);
  }

  // ---------- Offers ----------

  lemma FreeIsUntaken(q: Query, t: int)
    ensures Free(q, t) <==> q.from <= t < q.to && q.now <= t && KeepsBuffer(q, t)
  {
    ClearOfAllMeansEach(q, t, q.blocking);
    assert forall b :: b in q.blocking ==> (Clear(q, t, b) <==>
      b.endTime + q.Gap() <= t || t + q.Block() + q.Gap() <= b.startTime);
  }

  lemma GridIsFit(q: Query, offset: int -> int, date: int, hours: Range, t: int)
    ensures OnGrid(q, WindowOf(offset, date, hours), t) <==> FitsHours(q, offset, date, hours, t)
  {
    var opens := Solved(offset, date * DAY + hours.start * MINUTE);
    assert Step(q) == q.interval * MINUTE;
    assert OnSteps(opens, Step(q), t) <==> exists k: nat :: t == opens + k * (q.interval * MINUTE);
  }

  /** The days' rules, as the service builds them for a span of dates. */
  predicate RulesOf(workingHours: seq<Row>, exceptions: map<int, Exception>, from: int, days: seq<DayRule>) {
    forall i :: 0 <= i < |days| ==> days[i] == RuleFor(workingHours, exceptions, from + i)
  }

  lemma OpenIsWorked(
    q: Query, offset: int -> int, stored: seq<Row>, workingHours: seq<Row>, exceptions: map<int, Exception>, date: int, j: int, t: int)
    requires QueriedFrom(workingHours, stored) && OpenAt(q, offset, RuleFor(workingHours, exceptions, date), j, t)
    ensures exists hours :: Works(stored, exceptions, date, hours) && FitsHours(q, offset, date, hours, t)
  {
    var rule := RuleFor(workingHours, exceptions, date);
    var hours := rule.ranges[j];
    RuleListsHoursWorked(stored, workingHours, exceptions, date, hours);
    GridIsFit(q, offset, date, hours, t);
    assert hours in rule.ranges;
  }

  lemma WorkedIsOpen(
    q: Query, offset: int -> int, stored: seq<Row>, workingHours: seq<Row>, exceptions: map<int, Exception>, date: int, hours: Range,
    t: int) returns (j: nat)
    requires QueriedFrom(workingHours, stored) && Works(stored, exceptions, date, hours) && FitsHours(q, offset, date, hours, t)
    ensures OpenAt(q, offset, RuleFor(workingHours, exceptions, date), j, t)
  {
    var rule := RuleFor(workingHours, exceptions, date);
    RuleListsHoursWorked(stored, workingHours, exceptions, date, hours);
    GridIsFit(q, offset, date, hours, t);
    j :| 0 <= j < |rule.ranges| && rule.ranges[j] == hours;
  }

  lemma OpenAtSomeDayIff(
    q: Query, offset: int -> int, stored: seq<Row>, workingHours: seq<Row>, exceptions: map<int, Exception>, from: int,
    days: seq<DayRule>, t: int)
    requires QueriedFrom(workingHours, stored) && RulesOf(workingHours, exceptions, from, days)
    ensures
      (exists i, j :: 0 <= i < |days| && OpenAt(q, offset, days[i], j, t))
      <==> WorkedOn(q, offset, stored, exceptions, from, |days|, t)
  {
    if i, j :| 0 <= i < |days| && OpenAt(q, offset, days[i], j, t) {
      OpenIsWorked(q, offset, stored, workingHours, exceptions, from + i, j, t);
    }
    if date, hours :| from <= date < from + |days| && Works(stored, exceptions, date, hours) && FitsHours(q, offset, date, hours, t) {
      var j := WorkedIsOpen(q, offset, stored, workingHours, exceptions, date, hours, t);
      assert days[date - from] == RuleFor(workingHours, exceptions, date);
      assert OpenAt(q, offset, days[date - from], j, t);
    }
  }

  /**
   * A slot is offered exactly if it spans the service and its buffer, starts in the range asked for and not in the past,
   * keeps the buffer from every booking, and lies on the grid of hours the stylist works on one of the dates.
   */
  lemma OfferedIff(
    q: Query, offset: int -> int, stored: seq<Row>, workingHours: seq<Row>, exceptions: map<int, Exception>, from: int,
    days: seq<DayRule>, s: Slot)
    requires QueriedFrom(workingHours, stored) && RulesOf(workingHours, exceptions, from, days)
    ensures
      s in AllFree(q, offset, days) <==>
        && s.durationMinutes == q.durationMinutes && s.bufferMinutes == q.bufferMinutes
        && s.endTime == s.startTime + (q.durationMinutes + q.bufferMinutes) * MINUTE
        && q.from <= s.startTime < q.to && q.now <= s.startTime && KeepsBuffer(q, s.startTime)
        && WorkedOn(q, offset, stored, exceptions, from, |days|, s.startTime)
  {
    SlotsAreExactlyTheBookableStarts(q, offset, days, s);
    FreeIsUntaken(q, s.startTime);
    OpenAtSomeDayIff(q, offset, stored, workingHours, exceptions, from, days, s.startTime);
  }

  /** A date with a closed exception offers nothing, whatever its hours, overrides and bookings, to any query. */
  lemma ClosedDateOffersNothing(q: Query, offset: int -> int, workingHours: seq<Row>, exceptions: map<int, Exception>, date: int)
    requires date in exceptions && exceptions[date].isClosed
    ensures AllFree(q, offset, [RuleFor(workingHours, exceptions, date)]) == []
  {
    var rule := RuleFor(workingHours, exceptions, date);
    FlatMapSmall(FreeOnDay(q, offset), rule, rule);
  }

  /**
   * The gate lets a start through exactly if it is not in the past, keeps the buffer from every booking it read, and lies
   * on the grid of hours worked; provided the open windows follow one another.
   */
  lemma GateLetsThroughIff(
    q: Query, offset: int -> int, stored: seq<Row>, workingHours: seq<Row>, exceptions: map<int, Exception>, from: int,
    days: seq<DayRule>, startTime: int)
    requires QueriedFrom(workingHours, stored) && RulesOf(workingHours, exceptions, from, days) && WindowsOrdered(offset, days)
    requires HoldGate.AsksFrom(q, startTime) && q.durationMinutes + q.bufferMinutes > 0
    ensures
      HoldGate.GatePasses(q, offset, days) <==>
        q.now <= startTime && KeepsBuffer(q, startTime) && WorkedOn(q, offset, stored, exceptions, from, |days|, startTime)
  {
    HoldGate.GateIsExact(q, offset, days);
    FreeIsUntaken(q, startTime);
    OpenAtSomeDayIff(q, offset, stored, workingHours, exceptions, from, days, startTime);
  }
}

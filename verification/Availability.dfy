/**
 * The availability engine: bookable start times on a grid inside each day's open windows, clear of existing
 * bookings by the buffer on both sides. The nested loops with early exits are proved against a list written
 * without limits or exits, and that list is characterised slot by slot.
 */
module Availability {
  import opened Common
  import opened Lists
  import opened TimeZone
  import opened WorkingHours
  import Bookings

  const MINUTE := 60_000
  const DAY := 86_400_000

  type Positive = x: int | x > 0 witness 1

  datatype Interval = Interval(startTime: int, endTime: int)

  datatype Slot = Slot(startTime: int, endTime: int, durationMinutes: int, bufferMinutes: int)

  datatype DaySlots = DaySlots(date: int, slots: seq<Slot>)

  datatype Generated = Generated(slots: seq<Slot>, days: Option<seq<DaySlots>>)

  datatype Query = Query(
    from: int,
    to: int,
    now: int,
    durationMinutes: int,
    bufferMinutes: int,
    interval: Positive,           // minutes between grid starts
    blocking: seq<Interval>)
  {
    function Block(): int { (durationMinutes + bufferMinutes) * MINUTE }

    function Gap(): int { if bufferMinutes > 0 then bufferMinutes * MINUTE else 0 }

    function SlotAt(start: int): Slot { Slot(start, start + Block(), durationMinutes, bufferMinutes) }
  }

  // ---------- The specification ----------

  /** The wall time of a minute of a date, in milliseconds. */
  function Wall(date: int, minutes: int): int {
    date * DAY + minutes * MINUTE
  }

  function WindowOf(offset: int -> int, date: int, range: Range): Interval {
    Interval(Solved(offset, Wall(date, range.start)), Solved(offset, Wall(date, range.end)))
  }

  /** At least the buffer lies between the block and the booking, on either side. */
  predicate Clear(q: Query, start: int, b: Interval) {
    start >= b.endTime + q.Gap() || start + q.Block() + q.Gap() <= b.startTime
  }

  predicate ClearOfAll(q: Query, start: int, bookings: seq<Interval>) {
    bookings == [] || (Clear(q, start, bookings[0]) && ClearOfAll(q, start, bookings[1..]))
  }

  predicate Free(q: Query, start: int) {
    q.from <= start < q.to && q.now <= start && ClearOfAll(q, start, q.blocking)
  }

  function FreeSlotAt(q: Query, start: int): seq<Slot> {
    if Free(q, start) then [q.SlotAt(start)] else []
  }

  /** The free slots on the grid from `start` on, each leaving room for its whole block before `end`. */
  function FreeFrom(q: Query, start: int, end: int): seq<Slot>
    decreases end - q.Block() - start
  {
    if start + q.Block() > end then [] else FreeSlotAt(q, start) + FreeFrom(q, start + q.interval * MINUTE, end)
  }

  function FreeInWindow(q: Query, w: Interval): seq<Slot> {
    if w.endTime <= w.startTime then [] else FreeFrom(q, w.startTime, w.endTime)
  }

  function FreeInRange(q: Query, offset: int -> int, date: int): Range -> seq<Slot> {
    (range: Range) => FreeInWindow(q, WindowOf(offset, date, range))
  }

  function FreeOnDay(q: Query, offset: int -> int): DayRule -> seq<Slot> {
    (day: DayRule) => if day.isClosed then [] else FlatMap(FreeInRange(q, offset, day.date), day.ranges)
  }

  /** Every free slot of a list of days. */
  function AllFree(q: Query, offset: int -> int, days: seq<DayRule>): seq<Slot> {
    FlatMap(FreeOnDay(q, offset), days)
  }

  function OpenDay(q: Query, offset: int -> int, limit: nat): DayRule -> seq<DaySlots> {
    (day: DayRule) =>
      var free := FreeOnDay(q, offset)(day);
      if free == [] then [] else [DaySlots(day.date, Take(free, limit))]
  }

  /** The days that have a free slot, each with its first `limit` free slots. */
  function OpenDays(q: Query, offset: int -> int, days: seq<DayRule>, limit: nat): seq<DaySlots> {
    FlatMap(OpenDay(q, offset, limit), days)
  }

  function SlotsOf(): DaySlots -> seq<Slot> {
    (day: DaySlots) => day.slots
  }

  function Concatenated(days: seq<DaySlots>): seq<Slot> {
    FlatMap(SlotsOf(), days)
  }

  // ---------- The loops ----------

  function PadBlockingBookings(bookings: seq<Interval>, bufferMinutes: int): seq<Interval> {
    if bufferMinutes <= 0 then
      bookings
    else
      var pad := bufferMinutes * MINUTE;
      seq(|bookings|, i requires 0 <= i < |bookings| => Interval(bookings[i].startTime - pad, bookings[i].endTime + pad))
  }

  predicate CandidateOverlaps(candidate: int, slotEnd: int, padded: seq<Interval>) {
    exists b :: b in padded && Bookings.Overlaps(candidate, slotEnd, b.startTime, b.endTime)
  }

  lemma {:induction false} ClearOfAllMeansEach(q: Query, start: int, bookings: seq<Interval>)
    ensures ClearOfAll(q, start, bookings) <==> forall b :: b in bookings ==> Clear(q, start, b)
  {
    if bookings == [] {
    } else {
      ClearOfAllMeansEach(q, start, bookings[1..]);
      assert forall b :: b in bookings <==> b == bookings[0] || b in bookings[1..];
    }
  }

  /** Checking overlap against padded bookings is keeping the buffer on both sides. */
  lemma PaddingKeepsTheBuffer(q: Query, start: int)
    ensures var padded := PadBlockingBookings(q.blocking, q.bufferMinutes);
            !CandidateOverlaps(start, start + q.Block(), padded) <==> ClearOfAll(q, start, q.blocking)
  {
    ClearOfAllMeansEach(q, start, q.blocking);
    var padded := PadBlockingBookings(q.blocking, q.bufferMinutes);
    if b :| b in padded && Bookings.Overlaps(start, start + q.Block(), b.startTime, b.endTime) {
      var i :| 0 <= i < |padded| && padded[i] == b;
      assert q.blocking[i] in q.blocking && !Clear(q, start, q.blocking[i]);
    }
    if b :| b in q.blocking && !Clear(q, start, b) {
      var i :| 0 <= i < |q.blocking| && q.blocking[i] == b;
      assert padded[i] in padded && Bookings.Overlaps(start, start + q.Block(), padded[i].startTime, padded[i].endTime);
    }
  }

  /** One candidate: the skip tests of the innermost loop, in their order. */
  method TryCandidate(q: Query, candidate: int, padded: seq<Interval>) returns (r: seq<Slot>)
    requires padded == PadBlockingBookings(q.blocking, q.bufferMinutes)
    ensures r == FreeSlotAt(q, candidate)
  {
    PaddingKeepsTheBuffer(q, candidate);
    if candidate < q.from || candidate >= q.to || candidate < q.now {
      return [];
    }
    var slotEnd := candidate + q.Block();
    if CandidateOverlaps(candidate, slotEnd, padded) {
      return [];
    }
    return [Slot(candidate, slotEnd, q.durationMinutes, q.bufferMinutes)];
  }

  lemma Regroup<T>(a: seq<T>, b: seq<T>, c: seq<T>)
    ensures a + (b + c) == a + b + c
  {
  }

  /** One open range: append free slots to `found` until the range ends or the limit is reached. */
  method ScanWindow(q: Query, w: Interval, padded: seq<Interval>, found: seq<Slot>, limit: nat) returns (r: seq<Slot>)
    requires |found| < limit && padded == PadBlockingBookings(q.blocking, q.bufferMinutes)
    ensures r == Take(found + FreeInWindow(q, w), limit)
  {
    r := found;
    if w.endTime <= w.startTime {
      return;
    }
    var candidate := w.startTime;
    while candidate + q.Block() <= w.endTime
      invariant |r| < limit
      invariant r + FreeFrom(q, candidate, w.endTime) == found + FreeInWindow(q, w)
      decreases w.endTime - q.Block() - candidate
    {
      var slot := TryCandidate(q, candidate, padded);
      Regroup(r, slot, FreeFrom(q, candidate + q.interval * MINUTE, w.endTime));
      r := r + slot;
      if |r| >= limit {
        return;
      }
      candidate := candidate + q.interval * MINUTE;
    }
  }

  method ScanRange(q: Query, offset: int -> int, date: int, range: Range, padded: seq<Interval>, found: seq<Slot>, limit: nat)
    returns (r: seq<Slot>)
    requires |found| < limit && padded == PadBlockingBookings(q.blocking, q.bufferMinutes)
    ensures r == Take(found + FreeInRange(q, offset, date)(range), limit)
  {
    var windowStart := WallClockToUtc(offset, Wall(date, range.start));
    var windowEnd := WallClockToUtc(offset, Wall(date, range.end));
    r := ScanWindow(q, Interval(windowStart, windowEnd), padded, found, limit);
  }

  /** One day: scan its ranges in turn, stopping once the limit is reached. */
  method ScanDay(q: Query, offset: int -> int, day: DayRule, padded: seq<Interval>, found: seq<Slot>, limit: nat)
    returns (r: seq<Slot>)
    requires |found| < limit && !day.isClosed && padded == PadBlockingBookings(q.blocking, q.bufferMinutes)
    ensures r == Take(found + FreeOnDay(q, offset)(day), limit)
  {
    ghost var f := FreeInRange(q, offset, day.date);
    r := found;
    ScanStart(f, day.ranges, found);
    for i := 0 to |day.ranges|
      invariant |r| < limit && OnTrack(f, day.ranges, i, r, found)
    {
      ScanStep(f, day.ranges, i, r, found, limit);
      r := ScanRange(q, offset, day.date, day.ranges[i], padded, r, limit);
      if |r| >= limit {
        return;
      }
    }
    ScanEnd(f, day.ranges, r, found);
  }

  /** Flat mode: exactly the first `limit` free slots of the whole range. */
  method GenerateFlat(q: Query, offset: int -> int, dayRules: seq<DayRule>, limit: nat) returns (g: Generated)
    requires limit > 0
    ensures g == Generated(Take(AllFree(q, offset, dayRules), limit), None)
  {
    ghost var f := FreeOnDay(q, offset);
    var padded := PadBlockingBookings(q.blocking, q.bufferMinutes);
    var slots: seq<Slot> := [];
    ScanStart(f, dayRules, []);
    assert [] + FlatMap(f, dayRules) == AllFree(q, offset, dayRules);
    for n := 0 to |dayRules|
      invariant |slots| < limit && OnTrack(f, dayRules, n, slots, [])
    {
      ScanStep(f, dayRules, n, slots, [], limit);
      if dayRules[n].isClosed {
        assert slots + f(dayRules[n]) == slots;
      } else {
        slots := ScanDay(q, offset, dayRules[n], padded, slots, limit);
        if |slots| >= limit {
          return Generated(slots, None);
        }
      }
    }
    ScanEnd(f, dayRules, slots, []);
    return Generated(slots, None);
  }

  lemma ConcatenatedSnoc(days: seq<DaySlots>, added: seq<DaySlots>)
    requires |added| <= 1
    ensures Concatenated(days + added) == Concatenated(days) + if added == [] then [] else added[0].slots
  {
    FlatMapConcat(SlotsOf(), days, added);
  }

  /** Per-day mode: each open day with its first `limit` free slots; the flat list is their concatenation. */
  method GenerateByDay(q: Query, offset: int -> int, dayRules: seq<DayRule>, limit: nat) returns (g: Generated)
    requires limit > 0
    ensures g == Generated(Concatenated(OpenDays(q, offset, dayRules, limit)), Some(OpenDays(q, offset, dayRules, limit)))
  {
    ghost var f := OpenDay(q, offset, limit);
    var padded := PadBlockingBookings(q.blocking, q.bufferMinutes);
    var days: seq<DaySlots> := [];
    var slots: seq<Slot> := [];
    ScanStart(f, dayRules, []);
    for n := 0 to |dayRules|
      invariant OnTrack(f, dayRules, n, days, [])
      invariant slots == Concatenated(days)
    {
      var day := dayRules[n];
      var added: seq<DaySlots> := [];
      if !day.isClosed {
        var daySlots := ScanDay(q, offset, day, padded, [], limit);
        assert [] + FreeOnDay(q, offset)(day) == FreeOnDay(q, offset)(day);
        if |daySlots| > 0 {
          added := [DaySlots(day.date, daySlots)];
          slots := slots + daySlots;
        }
      }
      ghost var free := FreeOnDay(q, offset)(day);
      assert f(day) == if free == [] then [] else [DaySlots(day.date, Take(free, limit))];
      ScanStep(f, dayRules, n, days, [], 0);
      ConcatenatedSnoc(days, added);
      days := days + added;
    }
    ScanEnd(f, dayRules, days, []);
    assert [] + FlatMap(f, dayRules) == OpenDays(q, offset, dayRules, limit);
    return Generated(slots, Some(days));
  }
}

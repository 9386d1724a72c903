/**
 * Booking rows, the status transition table, and the row operations of the booking tables:
 * the compare-and-set status write, the stale-hold sweep, the conflict query, and the
 * sweep-check-insert transaction that creates a booking. Times are milliseconds.
 */
module Bookings {
  import opened Common

  type Id = nat

  datatype Booking = Booking(
    stylist: nat,
    startTime: int,
    endTime: int,
    status: BookingStatus,
    holdExpiresAt: Option<int>,
    deposit: DepositStatus)

  type Rows = map<Id, Booking>

  datatype Error = NotFound | InvalidTransition | StatusChanged | SlotUnavailable

  /** What a status write changes besides the status. */
  datatype Patch = Patch(clearHold: bool, deposit: Option<DepositStatus>)

  const CANCEL_PATCH := Patch(true, None)
  const CONFIRM_PATCH := Patch(true, Some(DepositPaid))
  const NO_PATCH := Patch(false, None)

  function CalculateBookingEndTime(startTime: int, durationMinutes: int, bufferMinutes: int): int {
    startTime + (durationMinutes + bufferMinutes) * 60_000
  }

  function AllowedTransitions(from: BookingStatus): set<BookingStatus> {
    match from
    case Held => {Confirmed, Cancelled}
    case Confirmed => {Completed, Cancelled, NoShow}
    case Completed => {}
    case Cancelled => {}
    case NoShow => {}
  }

  predicate Active(b: Booking) {
    b.status == Held || b.status == Confirmed
  }

  predicate Overlaps(aStart: int, aEnd: int, bStart: int, bEnd: int) {
    aStart < bEnd && bStart < aEnd
  }

  /** A hold that its expiry time has passed, but that may still be in status held. */
  predicate Lapsed(b: Booking, now: int) {
    b.holdExpiresAt.Some? && b.holdExpiresAt.value <= now
  }

  predicate Stale(b: Booking, now: int, scope: Option<nat>) {
    b.status == Held && Lapsed(b, now) && (scope.Some? ==> b.stylist == scope.value)
  }

  function Patched(b: Booking, to: BookingStatus, patch: Patch): Booking {
    b.(status := to,
       holdExpiresAt := if patch.clearHold then None else b.holdExpiresAt,
       deposit := if patch.deposit.Some? then patch.deposit.value else b.deposit)
  }

  /** The guarded status write: it succeeds only from the status the caller expects. */
  function CompareAndSet(rows: Rows, id: Id, from: BookingStatus, to: BookingStatus, patch: Patch): Result<Rows, Error> {
    if to !in AllowedTransitions(from) then Err(InvalidTransition)
    else if id !in rows then Err(NotFound)
    else if rows[id].status != from then Err(StatusChanged)
    else Ok(rows[id := Patched(rows[id], to, patch)])
  }

  function Swept(rows: Rows, now: int, scope: Option<nat>): Rows {
    map id | id in rows ::
      if Stale(rows[id], now, scope) then Patched(rows[id], Cancelled, CANCEL_PATCH) else rows[id]
  }

  predicate Conflicts(b: Booking, now: int, stylist: nat, startTime: int, endTime: int) {
    && b.stylist == stylist
    && Active(b)
    && !Lapsed(b, now)
    && Overlaps(b.startTime, b.endTime, startTime, endTime)
  }

  function ConflictIds(rows: Rows, now: int, stylist: nat, startTime: int, endTime: int): set<Id> {
    set id | id in rows && Conflicts(rows[id], now, stylist, startTime, endTime)
  }

  /** The creating transaction: sweep, check, insert; a conflict rolls the sweep back. */
  function Created(rows: Rows, now: int, id: Id, b: Booking): Result<Rows, Error> {
    var swept := Swept(rows, now, Some(b.stylist));
    if ConflictIds(swept, now, b.stylist, b.startTime, b.endTime) != {} then Err(SlotUnavailable)
    else Ok(swept[id := b])
  }

  /** The bookings table. Each method is one transaction. */
  class BookingTable {
    var rows: Rows

    constructor ()
      ensures rows == map[]
    {
      rows := map[];
    }

    method TransitionBookingStatus(id: Id, from: BookingStatus, to: BookingStatus, patch: Patch) returns (r: Result<Booking, Error>)
      modifies this
      ensures r.Ok? <==> CompareAndSet(old(rows), id, from, to, patch).Ok?
      ensures r.Ok? ==> rows == CompareAndSet(old(rows), id, from, to, patch).value && id in rows && r.value == rows[id]
      ensures r.Err? ==> rows == old(rows) && r.error == CompareAndSet(old(rows), id, from, to, patch).error
    {
      if to !in AllowedTransitions(from) {
        return Err(InvalidTransition);
      }
      var updated := 0;
      if id in rows && rows[id].status == from {
        rows := rows[id := Patched(rows[id], to, patch)];
        updated := 1;
      }
      if updated == 0 {
        if id !in rows {
          return Err(NotFound);
        }
        return Err(StatusChanged);
      }
      return Ok(rows[id]);
    }

    /** Cancels every stale hold, one compare-and-set at a time; inside a transaction none can fail. */
    method ExpireStaleHolds(now: int, scope: Option<nat>) returns (count: nat)
      modifies this
      ensures rows == Swept(old(rows), now, scope)
      ensures count == |set id | id in old(rows) && Stale(old(rows)[id], now, scope)|
    {
      var stale := set id | id in rows && Stale(rows[id], now, scope);
      var todo := stale;
      while todo != {}
        invariant todo <= stale
        invariant rows.Keys == old(rows).Keys
        invariant forall id :: id in rows ==>
          rows[id] == if id in stale && id !in todo then Swept(old(rows), now, scope)[id] else old(rows)[id]
        decreases todo
      {
        var id :| id in todo;
        var r := TransitionBookingStatus(id, Held, Cancelled, CANCEL_PATCH);
        todo := todo - {id};
      }
      count := |stale|;
    }

    method FindConflictingBookingIds(now: int, stylist: nat, startTime: int, endTime: int) returns (ids: set<Id>)
      ensures ids == ConflictIds(rows, now, stylist, startTime, endTime)
    {
      ids := set id | id in rows && Conflicts(rows[id], now, stylist, startTime, endTime);
    }

    method CreateBooking(now: int, id: Id, b: Booking) returns (r: Result<Id, Error>)
      requires id !in rows
      modifies this
      ensures r.Ok? <==> Created(old(rows), now, id, b).Ok?
      ensures r.Ok? ==> rows == Created(old(rows), now, id, b).value && r.value == id
      ensures r.Err? ==> rows == old(rows) && r.error == SlotUnavailable
    {
      var before := rows;
      var _ := ExpireStaleHolds(now, Some(b.stylist));
      var conflicts := FindConflictingBookingIds(now, b.stylist, b.startTime, b.endTime);
      if conflicts != {} {
        rows := before; // the transaction rolls back
        return Err(SlotUnavailable);
      }
      rows := rows[id := b];
      return Ok(id);
    }
  }

  // ---------- What the row operations guarantee ----------

  /** A row carries a hold expiry exactly while it is held, and occupies a non-empty interval. */
  predicate WellFormed(b: Booking) {
    (b.holdExpiresAt.Some? <==> b.status == Held) && b.startTime < b.endTime
  }

  predicate AllWellFormed(rows: Rows) {
    forall id :: id in rows ==> WellFormed(rows[id])
  }

  predicate Clash(a: Booking, b: Booking) {
    a.stylist == b.stylist && Active(a) && Active(b) && Overlaps(a.startTime, a.endTime, b.startTime, b.endTime)
  }

  /** No two held-or-confirmed rows of one stylist overlap, whether or not a hold has lapsed. */
  predicate Disjoint(rows: Rows) {
    forall i, j :: i in rows && j in rows && i != j ==> !Clash(rows[i], rows[j])
  }

  /** How any operation may change a row that exists: same slot, and a status kept or moved along the table. */
  predicate Advances(b: Booking, b': Booking) {
    && b'.stylist == b.stylist && b'.startTime == b.startTime && b'.endTime == b.endTime
    && (b'.status == b.status || b'.status in AllowedTransitions(b.status))
  }

  predicate Evolves(rows: Rows, rows': Rows) {
    && rows.Keys <= rows'.Keys
    && (forall id :: id in rows ==> Advances(rows[id], rows'[id]))
    && (forall id :: id in rows' && id !in rows ==> Active(rows'[id]))
  }

  /** A status write lands exactly along the table and from the status expected, and each refusal names its reason. */
  lemma WriteLandsIff(rows: Rows, id: Id, from: BookingStatus, to: BookingStatus, patch: Patch)
    ensures
      var legal := (from == Held && to in {Confirmed, Cancelled}) || (from == Confirmed && to in {Completed, Cancelled, NoShow});
      var r := CompareAndSet(rows, id, from, to, patch);
      && (r.Ok? <==> legal && id in rows && rows[id].status == from)
      && (r == Err(InvalidTransition) <==> !legal)
      && (r == Err(NotFound) <==> legal && id !in rows)
      && (r == Err(StatusChanged) <==> legal && id in rows && rows[id].status != from)
      && (r.Ok? ==>
            && r.value.Keys == rows.Keys && r.value[id].status == to
            && forall other :: other in rows && other != id ==> r.value[other] == rows[other])
  {
  }

  lemma KeepsDisjoint(rows: Rows, rows': Rows)
    requires Disjoint(rows) && Evolves(rows, rows') && rows'.Keys == rows.Keys
    ensures Disjoint(rows')
  {
    forall i, j | i in rows' && j in rows' && i != j ensures !Clash(rows'[i], rows'[j]) {
      assert Advances(rows[i], rows'[i]) && Advances(rows[j], rows'[j]);
      assert !Clash(rows[i], rows[j]);
    }
  }

  /**
   * A sweep, of one stylist or of all, changes exactly the held rows in its scope whose expiry has come, cancels them, and
   * touches nothing else of them but the expiry.
   */
  lemma SweepChangesIff(rows: Rows, now: int, scope: Option<nat>, id: Id)
    requires id in rows
    ensures Swept(rows, now, scope).Keys == rows.Keys
    ensures
      var b, z := rows[id], Swept(rows, now, scope)[id];
      && (z != b <==>
            b.status == Held && b.holdExpiresAt.Some? && b.holdExpiresAt.value <= now && (scope == None || scope == Some(b.stylist)))
      && (z != b ==> z == b.(status := Cancelled, holdExpiresAt := None))
  {
  }

  /** Why the invariant may ignore time: after the sweep, the time-aware conflict query misses no active row. */
  lemma SweepLeavesNoLapsedHold(rows: Rows, now: int, stylist: nat, id: Id)
    requires AllWellFormed(rows)
    requires id in rows
    ensures var b := Swept(rows, now, Some(stylist))[id];
            WellFormed(b) && (b.stylist == stylist && Active(b) ==> !Lapsed(b, now))
  {
  }

  lemma SweptEvolves(rows: Rows, now: int, scope: Option<nat>)
    requires AllWellFormed(rows) && Disjoint(rows)
    ensures var swept := Swept(rows, now, scope);
            AllWellFormed(swept) && Disjoint(swept) && Evolves(rows, swept)
            && forall id :: id in rows && swept[id].status == Confirmed ==> rows[id].status == Confirmed
  {
    KeepsDisjoint(rows, Swept(rows, now, scope));
  }

  lemma CreateKeepsDisjoint(rows: Rows, now: int, id: Id, b: Booking)
    requires AllWellFormed(rows) && Disjoint(rows)
    requires id !in rows && WellFormed(b) && Active(b)
    ensures Created(rows, now, id, b).Ok? ==>
              var rows' := Created(rows, now, id, b).value;
              AllWellFormed(rows') && Disjoint(rows') && Evolves(rows, rows')
  {
    var swept := Swept(rows, now, Some(b.stylist));
    if Created(rows, now, id, b).Ok? {
      KeepsDisjoint(rows, swept);
      forall i | i in swept ensures !Clash(swept[i], b) && !Clash(b, swept[i]) {
        SweepLeavesNoLapsedHold(rows, now, b.stylist, i);
        assert i !in ConflictIds(swept, now, b.stylist, b.startTime, b.endTime);
      }
    }
  }

  /**
   * Exactly when a booking is accepted: no unlapsed active row of the stylist overlaps it.
   * The sweep neither hides a conflict nor invents one.
   */
  lemma CreateAcceptedIff(rows: Rows, now: int, id: Id, b: Booking)
    requires AllWellFormed(rows)
    ensures Created(rows, now, id, b).Ok? <==>
              forall i :: i in rows ==> !Conflicts(rows[i], now, b.stylist, b.startTime, b.endTime)
  {
    var swept := Swept(rows, now, Some(b.stylist));
    var ids := ConflictIds(swept, now, b.stylist, b.startTime, b.endTime);
    forall i | i in rows
      ensures i in ids <==> Conflicts(rows[i], now, b.stylist, b.startTime, b.endTime)
    {
    }
    if ids != {} {
      var i :| i in ids;
      assert Conflicts(rows[i], now, b.stylist, b.startTime, b.endTime);
    }
  }

  /** Two requests racing for overlapping time: once one commits, the other is refused until that hold lapses. */
  lemma SecondHoldIsRefused(rows: Rows, now: int, later: int, id: Id, b: Booking, id2: Id, b2: Booking)
    requires AllWellFormed(rows) && WellFormed(b) && Active(b) && id !in rows
    requires Created(rows, now, id, b).Ok?
    requires Clash(b, b2) && !Lapsed(b, later)
    ensures Created(Created(rows, now, id, b).value, later, id2, b2) == Err(SlotUnavailable)
  {
    var rows' := Created(rows, now, id, b).value;
    assert AllWellFormed(rows');
    CreateAcceptedIff(rows', later, id2, b2);
    assert Conflicts(rows'[id], later, b2.stylist, b2.startTime, b2.endTime);
  }
}

/**
 * When holds end, over every interleaving of the booking service: a hold that nobody cancels is cancelled only once its
 * time is over, a hold whose time is over is not confirmed any more, and only confirmed bookings are marked paid.
 */
module HoldExpiry {
  import opened Common
  import opened Bookings
  import opened BookingProtocol

  /** The hold's time is over. */
  predicate Over(b: Booking, now: int) {
    match b.holdExpiresAt
    case None => false
    case Some(expiry) => expiry <= now
  }

  // ---------- How one step moves one row ----------

  /** The actor is about to cancel this booking as a hold. */
  predicate WillCancel(s: State, a: nat, id: Id) {
    match At(s, a)
    case Sweeping(ids) => id in ids
    case Writing(i, from, to, _) => i == id && from == Held && to == Cancelled
    case _ => false
  }

  predicate Ends(b: Booking, z: Booking) {
    b.status == Held && z == b.(status := Cancelled, holdExpiresAt := None)
  }

  predicate Writes(s: State, e: Event, id: Id, b: Booking, z: Booking) {
    && e.Write? && At(s, e.actor).Writing? && At(s, e.actor).id == id && b.status == At(s, e.actor).from
    && At(s, e.actor).to in AllowedTransitions(b.status) && z == Patched(b, At(s, e.actor).to, At(s, e.actor).patch)
  }

  /** The five ways in which a step may change a row. */
  predicate Moves(s: State, e: Event, id: Id, b: Booking, z: Booking) {
    || z == b
    || (Ends(b, z) && Over(b, s.clock) && (e.SweepJob? || e.CreateCommit?))
    || (Ends(b, z) && e.SweepWrite? && WillCancel(s, e.actor, id))
    || Writes(s, e, id, b, z)
    || (e.RepairWrite? && At(s, e.actor) == Repairing(id) && z == b.(deposit := DepositPaid, holdExpiresAt := None))
  }

  predicate RowMoves(s: State, e: Event, id: Id)
    requires id in s.rows
  {
    id in Apply(s, e).rows && Moves(s, e, id, s.rows[id], Apply(s, e).rows[id])
  }

  lemma SweepJobMoves(s: State, scope: Option<nat>, id: Id)
    requires id in s.rows
    ensures RowMoves(s, SweepJob(scope), id)
  {
    SweepChangesIff(s.rows, s.clock, scope, id);
  }

  lemma CreateMoves(s: State, a: nat, made: Id, id: Id)
    requires id in s.rows
    ensures RowMoves(s, CreateCommit(a, made), id)
  {
    if At(s, a).Creating? && made !in s.rows {
      SweepChangesIff(s.rows, s.clock, Some(At(s, a).booking.stylist), id);
    }
  }

  lemma SweepWriteMoves(s: State, a: nat, target: Id, id: Id)
    requires id in s.rows
    ensures RowMoves(s, SweepWrite(a, target), id)
  {
  }

  lemma WriteMoves(s: State, a: nat, id: Id)
    requires id in s.rows
    ensures RowMoves(s, Write(a), id)
  {
  }

  lemma RepairMoves(s: State, a: nat, id: Id)
    requires id in s.rows
    ensures RowMoves(s, RepairWrite(a), id)
  {
  }

  lemma StepMovesRow(s: State, e: Event, id: Id)
    requires id in s.rows
    ensures RowMoves(s, e, id)
  {
    match e {
      case SweepJob(scope) => SweepJobMoves(s, scope, id);
      case CreateCommit(a, made) => CreateMoves(s, a, made, id);
      case SweepWrite(a, target) => SweepWriteMoves(s, a, target, id);
      case Write(a) => WriteMoves(s, a, id);
      case RepairWrite(a) => RepairMoves(s, a, id);
      case _ => assert Apply(s, e).rows == s.rows;
    }
  }

  /** Nobody is about to repair a held row. */
  ghost predicate RepairsConfirmed(s: State, id: Id) {
    forall a :: At(s, a) == Repairing(id) ==> id in s.rows && s.rows[id].status != Held
  }

  lemma InvRepairsConfirmed(s: State, id: Id)
    requires Inv(s)
    ensures RepairsConfirmed(s, id)
  {
    forall a | At(s, a) == Repairing(id) ensures id in s.rows && s.rows[id].status != Held {
      assert ActorSane(s.rows, s.actors[a]);
    }
  }

  lemma ClockGoesOn(s: State, e: Event)
    ensures Apply(s, e).clock >= s.clock
  {
  }

  /** A row that is still held has kept its expiry. */
  lemma HeldKeepsExpiry(s: State, e: Event, id: Id)
    requires id in s.rows && RepairsConfirmed(s, id) && id in Apply(s, e).rows && Apply(s, e).rows[id].status == Held
    ensures s.rows[id].status == Held && Apply(s, e).rows[id].holdExpiresAt == s.rows[id].holdExpiresAt
  {
    StepMovesRow(s, e, id);
  }

  // ---------- Cancelled by nobody, then after its time ----------

  predicate CancelsAfterExpiry(s: State, a: nat, id: Id) {
    WillCancel(s, a, id) ==> id in s.rows && (s.rows[id].status == Held ==> Over(s.rows[id], s.clock))
  }

  ghost predicate NoneTooEarly(s: State, id: Id) {
    forall a :: CancelsAfterExpiry(s, a, id)
  }

  predicate RequestsCancel(e: Event, id: Id) {
    e.CancelRead? && e.id == id
  }

  predicate HeldIsOver(s: State, id: Id) {
    id in s.rows && (s.rows[id].status == Held ==> Over(s.rows[id], s.clock))
  }

  lemma OverStays(s: State, e: Event, id: Id)
    requires HeldIsOver(s, id) && RepairsConfirmed(s, id)
    ensures HeldIsOver(Apply(s, e), id)
  {
    StepMovesRow(s, e, id);
    ClockGoesOn(s, e);
    if Apply(s, e).rows[id].status == Held {
      HeldKeepsExpiry(s, e, id);
    }
  }

  lemma ReadsPlanCancel(s: State, e: Event, id: Id)
    requires IsRead(e) && WillCancel(Apply(s, e), e.actor, id) && !WillCancel(s, e.actor, id) && !RequestsCancel(e, id)
    ensures HeldIsOver(s, id)
  {
  }

  lemma OthersKeepActor(s: State, e: Event, a: nat)
    requires e.Tick? || e.SweepJob? || a != e.actor
    ensures At(Apply(s, e), a) == At(s, a)
  {
  }

  lemma WritersPlanLess(s: State, e: Event, a: nat, id: Id)
    requires !IsRead(e) && WillCancel(Apply(s, e), a, id)
    ensures WillCancel(s, a, id)
  {
    if e.Tick? || e.SweepJob? || a != e.actor {
      OthersKeepActor(s, e, a);
    } else {
      match e {
        case SweepWrite(_, _) =>
        case _ =>
      }
    }
  }

  /** A cancellation is planned only by one who read the hold's time to be over, or on request. */
  lemma PlansArise(s: State, e: Event, a: nat, id: Id)
    requires WillCancel(Apply(s, e), a, id) && !WillCancel(s, a, id) && !RequestsCancel(e, id)
    ensures HeldIsOver(s, id)
  {
    if !IsRead(e) {
      WritersPlanLess(s, e, a, id);
    } else if a != e.actor {
      OthersKeepActor(s, e, a);
    } else {
      ReadsPlanCancel(s, e, id);
    }
  }

  lemma StepKeepsNoneTooEarly(s: State, e: Event, id: Id)
    requires NoneTooEarly(s, id) && RepairsConfirmed(s, id) && !RequestsCancel(e, id)
    ensures NoneTooEarly(Apply(s, e), id)
  {
    forall a ensures CancelsAfterExpiry(Apply(s, e), a, id) {
      assert CancelsAfterExpiry(s, a, id);
      if WillCancel(Apply(s, e), a, id) {
        if !WillCancel(s, a, id) {
          PlansArise(s, e, a, id);
        }
        OverStays(s, e, id);
      }
    }
  }

  lemma CancelledAfterExpiry(s: State, e: Event, id: Id)
    requires NoneTooEarly(s, id) && id in s.rows && s.rows[id].status == Held
    requires id in Apply(s, e).rows && Apply(s, e).rows[id].status == Cancelled
    ensures Over(s.rows[id], s.clock)
  {
    StepMovesRow(s, e, id);
    if e.Write? || e.SweepWrite? {
      assert CancelsAfterExpiry(s, e.actor, id);
    }
  }

  lemma {:induction false} RunKeepsNoneTooEarly(s: State, events: seq<Event>, id: Id)
    requires Inv(s) && NoneTooEarly(s, id) && forall e :: e in events ==> !RequestsCancel(e, id)
    ensures NoneTooEarly(Run(s, events), id)
    decreases |events|
  {
    if events == [] {
    } else {
      assert events[0] in events;
      StepKeepsInv(s, events[0]);
      InvRepairsConfirmed(s, id);
      StepKeepsNoneTooEarly(s, events[0], id);
      RunKeepsNoneTooEarly(Apply(s, events[0]), events[1..], id);
    }
  }

  /** Over every run without a request to cancel it, a hold turns cancelled only at or after its expiry. */
  lemma HoldsLastTheirTime(clock: int, events: seq<Event>, e: Event, id: Id)
    requires forall x :: x in events ==> !RequestsCancel(x, id)
    ensures
      var s := Run(Init(clock), events);
      id in s.rows && s.rows[id].status == Held && id in Apply(s, e).rows && Apply(s, e).rows[id].status == Cancelled ==>
        Over(s.rows[id], s.clock)
  {
    InitInv(clock);
    RunKeepsNoneTooEarly(Init(clock), events, id);
    var s := Run(Init(clock), events);
    if id in s.rows && s.rows[id].status == Held && id in Apply(s, e).rows && Apply(s, e).rows[id].status == Cancelled {
      CancelledAfterExpiry(s, e, id);
    }
  }

  // ---------- Too late to confirm ----------

  predicate WillConfirm(s: State, a: nat, id: Id) {
    At(s, a).Writing? && At(s, a).id == id && At(s, a).to == Confirmed
  }

  predicate Lost(s: State, id: Id) {
    id in s.rows && (s.rows[id].status == Cancelled || (s.rows[id].status == Held && Over(s.rows[id], s.clock)))
  }

  /** The hold's time is over, or it is cancelled, and nobody who read it in time is still about to confirm it. */
  ghost predicate TooLate(s: State, id: Id) {
    Lost(s, id) && forall a :: !WillConfirm(s, a, id)
  }

  lemma LostReadPlansNoConfirm(s: State, e: Event, a: nat, id: Id)
    requires Lost(s, id) && !WillConfirm(s, a, id)
    ensures !WillConfirm(Apply(s, e), a, id)
  {
    if e.Tick? || e.SweepJob? || a != e.actor {
      OthersKeepActor(s, e, a);
    } else {
      match e {
        case ConfirmRead(_, _) =>
        case SweepWrite(_, _) =>
        case _ =>
      }
    }
  }

  lemma StepKeepsTooLate(s: State, e: Event, id: Id)
    requires TooLate(s, id) && RepairsConfirmed(s, id)
    ensures TooLate(Apply(s, e), id)
  {
    StepMovesRow(s, e, id);
    ClockGoesOn(s, e);
    if e.Write? { assert !WillConfirm(s, e.actor, id); }
    forall a ensures !WillConfirm(Apply(s, e), a, id) {
      assert !WillConfirm(s, a, id);
      LostReadPlansNoConfirm(s, e, a, id);
    }
  }

  /** So no run confirms it: an expired hold ends cancelled or stays as it is. */
  lemma {:induction false} TooLateToConfirm(s: State, events: seq<Event>, id: Id)
    requires Inv(s) && TooLate(s, id)
    ensures id in Run(s, events).rows && Run(s, events).rows[id].status in {Held, Cancelled}
    decreases |events|
  {
    if events == [] {
    } else {
      StepKeepsInv(s, events[0]);
      InvRepairsConfirmed(s, id);
      StepKeepsTooLate(s, events[0], id);
      TooLateToConfirm(Apply(s, events[0]), events[1..], id);
    }
  }

  // ---------- Marked paid by confirmation only ----------

  /** A write that marks the deposit marks it paid, and is one that confirms a hold. */
  predicate PaidMark(s: State, a: nat) {
    match At(s, a)
    case Writing(_, from, to, patch) => patch.deposit.Some? ==> patch.deposit.value == DepositPaid && from == Held && to == Confirmed
    case _ => true
  }

  lemma ReadsMarkPaid(s: State, e: Event, a: nat)
    requires PaidMark(s, a)
    ensures PaidMark(Apply(s, e), a)
  {
    if e.Tick? || e.SweepJob? || a != e.actor {
      OthersKeepActor(s, e, a);
    } else {
      match e {
        case SweepWrite(_, _) =>
        case _ =>
      }
    }
  }

  lemma {:induction false} RunKeepsMarks(s: State, events: seq<Event>)
    requires forall a :: PaidMark(s, a)
    ensures forall a :: PaidMark(Run(s, events), a)
    decreases |events|
  {
    if events == [] {
    } else {
      forall a ensures PaidMark(Apply(s, events[0]), a) {
        ReadsMarkPaid(s, events[0], a);
      }
      RunKeepsMarks(Apply(s, events[0]), events[1..]);
    }
  }

  /**
   * Over every run, a step changes a booking's deposit status only by marking it paid, and only when it turns the hold
   * confirmed or repairs a booking that is not held; no cancellation, sweep or completion touches it.
   */
  lemma OnlyConfirmationMarksPaid(clock: int, events: seq<Event>, e: Event, id: Id)
    requires id in Run(Init(clock), events).rows
    ensures
      var s := Run(Init(clock), events);
      var z := Apply(s, e);
      id in z.rows && (z.rows[id].deposit != s.rows[id].deposit ==>
        z.rows[id].deposit == DepositPaid && s.rows[id].deposit != DepositPaid &&
        ((s.rows[id].status == Held && z.rows[id].status == Confirmed)
         || (e.RepairWrite? && s.rows[id].status == z.rows[id].status != Held)))
  {
    var s := Run(Init(clock), events);
    InitInv(clock);
    BookingProtocol.RunKeepsInv(Init(clock), events);
    InvRepairsConfirmed(s, id);
    RunKeepsMarks(Init(clock), events);
    StepMovesRow(s, e, id);
    if e.Write? {
      assert PaidMark(s, e.actor);
    }
  }

  // ---------- Requests left alone ----------

  predicate IsStatusRead(e: Event) {
    e.CancelRead? || e.CompleteRead? || e.NoShowRead? || e.ConfirmRead? || e.ExpireJobRead?
  }

  /** The booking's status once the request has read it and then written, with nobody in between. */
  function Solo(s: State, read: Event): BookingStatus
    requires IsStatusRead(read) && read.id in s.rows
  {
    var z := Apply(Apply(s, read), Write(read.actor));
    if read.id in z.rows then z.rows[read.id].status else s.rows[read.id].status
  }

  /** What each request left alone does to a booking. */
  function Wanted(s: State, read: Event): BookingStatus
    requires IsStatusRead(read) && read.id in s.rows
  {
    var b := s.rows[read.id];
    match read
    case CancelRead(_, _) => if b.status in {Held, Confirmed} then Cancelled else b.status
    case CompleteRead(_, _) => if b.status == Confirmed then Completed else b.status
    case NoShowRead(_, _) => if b.status == Confirmed then NoShow else b.status
    case ConfirmRead(_, _) => if b.status == Held && !Over(b, s.clock) then Confirmed else b.status
    case _ => if b.status == Held && Over(b, s.clock) then Cancelled else b.status
  }

  lemma SoloCancelLands(s: State, a: nat, id: Id)
    requires CanRead(s, a, id)
    ensures Solo(s, CancelRead(a, id)) == Wanted(s, CancelRead(a, id))
  {
  }

  lemma SoloConfirmLands(s: State, a: nat, id: Id)
    requires CanRead(s, a, id)
    ensures Solo(s, ConfirmRead(a, id)) == Wanted(s, ConfirmRead(a, id))
  {
  }

  lemma SoloExpiryLands(s: State, a: nat, id: Id)
    requires CanRead(s, a, id)
    ensures Solo(s, ExpireJobRead(a, id)) == Wanted(s, ExpireJobRead(a, id))
  {
  }

  lemma SoloClosingLands(s: State, a: nat, id: Id)
    requires CanRead(s, a, id)
    ensures Solo(s, CompleteRead(a, id)) == Wanted(s, CompleteRead(a, id))
    ensures Solo(s, NoShowRead(a, id)) == Wanted(s, NoShowRead(a, id))
  {
  }

  /** A request that nobody interrupts does to a booking exactly what its kind and the hold's time say. */
  lemma SoloRequestLands(s: State, read: Event)
    requires IsStatusRead(read) && CanRead(s, read.actor, read.id)
    ensures Solo(s, read) == Wanted(s, read)
  {
    if read.CancelRead? {
      SoloCancelLands(s, read.actor, read.id);
    } else if read.ConfirmRead? {
      SoloConfirmLands(s, read.actor, read.id);
    } else if read.ExpireJobRead? {
      SoloExpiryLands(s, read.actor, read.id);
    } else {
      SoloClosingLands(s, read.actor, read.id);
    }
  }

  /** The row a creation asks for: the slot from start to the end of service and buffer, as a hold or confirmed at once. */
  predicate Requested(b: Booking, now: int, stylist: nat, start: int, minutes: int, ttl: Option<int>) {
    && b.stylist == stylist && b.startTime == start && b.endTime == start + minutes * 60_000 && b.deposit == DepositPending
    && match ttl
       case None => b.status == Confirmed && b.holdExpiresAt == None
       case Some(lasts) => b.status == Held && b.holdExpiresAt == Some(now + lasts)
  }

  /** Left alone, a creation puts exactly that row there if its time is free, and no row at all if it is not. */
  lemma SoloCreationLands(s: State, a: nat, id: Id, stylist: nat, start: int, duration: int, buffer: int, ttl: Option<int>)
    requires Inv(s) && At(s, a).Idle? && id !in s.rows && duration + buffer > 0
    ensures
      var z := Apply(Apply(s, CreateRead(a, stylist, start, duration, buffer, ttl)), CreateCommit(a, id));
      var taken := exists i :: i in s.rows && Conflicts(s.rows[i], s.clock, stylist, start, start + (duration + buffer) * 60_000);
      && (id in z.rows <==> !taken)
      && (id in z.rows ==> Requested(z.rows[id], s.clock, stylist, start, duration + buffer, ttl))
  {
    var asked := Apply(s, CreateRead(a, stylist, start, duration, buffer, ttl));
    assert At(asked, a).Creating? && Requested(At(asked, a).booking, s.clock, stylist, start, duration + buffer, ttl);
    CreateAcceptedIff(s.rows, s.clock, id, At(asked, a).booking);
  }
}

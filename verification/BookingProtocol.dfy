/**
 * The booking service as a protocol: any number of concurrent actors (requests, webhooks, jobs)
 * whose database reads and writes are separate steps, over one bookings table and one clock.
 * A $transaction is one step. Between any two steps of one actor, any steps of others may happen.
 */
module BookingProtocol {
  import opened Common
  import opened Runs
  import opened Bookings

  /** What an actor will do next, with everything it remembers from its earlier reads. */
  datatype Actor =
    | Idle
    | Sweeping(ids: set<Id>)                                   // stale ids read outside a transaction
    | Creating(booking: Booking)                               // validated; transaction not yet run
    | Writing(id: Id, from: BookingStatus, to: BookingStatus, patch: Patch)  // status read; compare-and-set not yet run
    | Repairing(id: Id)                                        // read as confirmed but deposit not marked paid
    | Announcing(id: Id)                                       // committed; confirmed event not yet fired

  datatype State = State(
    clock: int,
    rows: Rows,
    actors: map<nat, Actor>,
    history: map<Id, seq<BookingStatus>>,   // every status each booking has had, in order
    announced: multiset<Id>)         // confirmed events fired

  datatype Event =
    | Tick(to: int)
    | SweepJob(scope: Option<nat>)
    | SweepRead(actor: nat, scope: Option<nat>)
    | SweepWrite(actor: nat, id: Id)
    | CreateRead(actor: nat, stylist: nat, startTime: int, durationMinutes: int, bufferMinutes: int, holdTtl: Option<int>)
    | CreateCommit(actor: nat, id: Id)
    | ConfirmRead(actor: nat, id: Id)
    | CancelRead(actor: nat, id: Id)
    | CompleteRead(actor: nat, id: Id)
    | NoShowRead(actor: nat, id: Id)
    | ExpireJobRead(actor: nat, id: Id)
    | Write(actor: nat)
    | RepairWrite(actor: nat)
    | Announce(actor: nat)

  function Init(clock: int): State {
    State(clock, map[], map[], map[], multiset{})
  }

  function At(s: State, actor: nat): Actor {
    if actor in s.actors then s.actors[actor] else Idle
  }

  function Becomes(s: State, actor: nat, next: Actor): State {
    s.(actors := s.actors[actor := next])
  }

  /** A write to the table, recording every status that changed. */
  function WithRows(s: State, rows: Rows): State {
    s.(rows := rows,
       history := map id | id in rows ::
         if id !in s.history then [rows[id].status]
         else if id in s.rows && s.rows[id].status == rows[id].status then s.history[id]
         else s.history[id] + [rows[id].status])
  }

  /** Fires only if the actor is idle and the row exists; otherwise nothing happens. */
  predicate CanRead(s: State, actor: nat, id: Id) {
    At(s, actor).Idle? && id in s.rows
  }

  function ConfirmAfterRead(b: Booking, now: int, id: Id): Actor {
    if b.status == Confirmed then (if b.deposit != DepositPaid then Repairing(id) else Idle)
    else if b.status != Held then Idle
    else if Lapsed(b, now) then Idle
    else Writing(id, Held, Confirmed, CONFIRM_PATCH)
  }

  function ExpireAfterRead(b: Booking, now: int, id: Id): Actor {
    if b.status != Held || b.holdExpiresAt.None? then Idle
    else if b.holdExpiresAt.value > now then Idle
    else Writing(id, Held, Cancelled, CANCEL_PATCH)
  }

  function CommitCreate(s: State, actor: nat, id: Id, b: Booking): State {
    match Created(s.rows, s.clock, id, b)
    case Err(_) => Becomes(s, actor, Idle)
    case Ok(rows) => Becomes(WithRows(s, rows), actor, if b.status == Confirmed then Announcing(id) else Idle)
  }

  function CommitWrite(s: State, actor: nat, w: Actor): State
    requires w.Writing?
  {
    match CompareAndSet(s.rows, w.id, w.from, w.to, w.patch)
    case Err(_) => Becomes(s, actor, Idle)
    case Ok(rows) => Becomes(WithRows(s, rows), actor, if w.to == Confirmed then Announcing(w.id) else Idle)
  }

  function CommitSweepWrite(s: State, actor: nat, ids: set<Id>, id: Id): State {
    match CompareAndSet(s.rows, id, Held, Cancelled, CANCEL_PATCH)
    case Err(_) => Becomes(s, actor, Idle)
    case Ok(rows) => Becomes(WithRows(s, rows), actor, if ids == {id} then Idle else Sweeping(ids - {id}))
  }

  function Apply(s: State, e: Event): State {
    match e
    case Tick(to) => if s.clock <= to then s.(clock := to) else s
    case SweepJob(scope) => WithRows(s, Swept(s.rows, s.clock, scope))
    case SweepRead(a, scope) =>
      if At(s, a).Idle? then Becomes(s, a, Sweeping(set id | id in s.rows && Stale(s.rows[id], s.clock, scope))) else s
    case SweepWrite(a, id) =>
      if At(s, a).Sweeping? && id in At(s, a).ids then CommitSweepWrite(s, a, At(s, a).ids, id) else s
    case CreateRead(a, stylist, start, duration, buffer, ttl) =>
      var end := CalculateBookingEndTime(start, duration, buffer);
      if !At(s, a).Idle? || end <= start then s
      else if ttl.Some? then Becomes(s, a, Creating(Booking(stylist, start, end, Held, Some(s.clock + ttl.value), DepositPending)))
      else Becomes(s, a, Creating(Booking(stylist, start, end, Confirmed, None, DepositPending)))
    case CreateCommit(a, id) =>
      if At(s, a).Creating? && id !in s.rows then CommitCreate(s, a, id, At(s, a).booking) else s
    case ConfirmRead(a, id) =>
      if CanRead(s, a, id) then Becomes(s, a, ConfirmAfterRead(s.rows[id], s.clock, id)) else s
    case CancelRead(a, id) =>
      if CanRead(s, a, id) then Becomes(s, a, Writing(id, s.rows[id].status, Cancelled, CANCEL_PATCH)) else s
    case CompleteRead(a, id) =>
      if CanRead(s, a, id) then Becomes(s, a, Writing(id, Confirmed, Completed, NO_PATCH)) else s
    case NoShowRead(a, id) =>
      if CanRead(s, a, id) then Becomes(s, a, Writing(id, Confirmed, NoShow, NO_PATCH)) else s
    case ExpireJobRead(a, id) =>
      if CanRead(s, a, id) then Becomes(s, a, ExpireAfterRead(s.rows[id], s.clock, id)) else s
    case Write(a) =>
      if At(s, a).Writing? then CommitWrite(s, a, At(s, a)) else s
    case RepairWrite(a) =>
      var w := At(s, a);
      if w.Repairing? && w.id in s.rows
      then Becomes(s.(rows := s.rows[w.id := s.rows[w.id].(deposit := DepositPaid, holdExpiresAt := None)]), a, Idle)
      else s
    case Announce(a) =>
      var w := At(s, a);
      if w.Announcing? then Becomes(s.(announced := s.announced + multiset{w.id}), a, Idle) else s
  }

  function Run(s: State, events: seq<Event>): State
    decreases |events|
  {
    if events == [] then s else Run(Apply(s, events[0]), events[1..])
  }

  // ---------- The invariant ----------

  /** What an actor remembers is still usable when it acts, however stale its read has become. */
  predicate ActorSane(rows: Rows, w: Actor) {
    match w
    case Creating(b) => WellFormed(b) && Active(b)
    case Writing(_, from, _, patch) => from == Held ==> patch.clearHold
    case Repairing(id) => id in rows && rows[id].status != Held
    case _ => true
  }

  predicate ActorsSane(rows: Rows, actors: map<nat, Actor>) {
    forall a :: a in actors ==> ActorSane(rows, actors[a])
  }

  /** A path in the transition graph, from a status a booking may be created in. */
  predicate IsPath(h: seq<BookingStatus>) {
    && |h| > 0
    && h[0] in {Held, Confirmed}
    && forall i :: 0 <= i < |h| - 1 ==> h[i + 1] in AllowedTransitions(h[i])
  }

  predicate HistoryOk(s: State) {
    && s.history.Keys == s.rows.Keys
    && forall id :: id in s.rows ==> IsPath(s.history[id]) && s.history[id][|s.history[id]| - 1] == s.rows[id].status
  }

  predicate EverConfirmed(s: State, id: Id) {
    id in s.history && Confirmed in s.history[id]
  }

  predicate Owes(s: State, actor: nat, id: Id) {
    At(s, actor) == Announcing(id)
  }

  /** Each booking that was ever confirmed has its event either fired once, or owed by exactly one actor. */
  ghost predicate AnnouncedOk(s: State, id: Id) {
    if !EverConfirmed(s, id) then s.announced[id] == 0 && forall a :: !Owes(s, a, id)
    else if s.announced[id] == 0 then exists a :: Owes(s, a, id) && forall b :: Owes(s, b, id) ==> b == a
    else s.announced[id] == 1 && forall a :: !Owes(s, a, id)
  }

  ghost predicate Inv(s: State) {
    && AllWellFormed(s.rows)
    && Disjoint(s.rows)
    && HistoryOk(s)
    && ActorsSane(s.rows, s.actors)
    && (forall id :: AnnouncedOk(s, id))
  }

  predicate NewlyConfirmed(rows: Rows, rows': Rows, id: Id) {
    && id in rows' && rows'[id].status == Confirmed
    && (id in rows ==> rows[id].status != Confirmed)
  }

  /** How far along the graph a status is; every step moves forward. */
  function Rank(status: BookingStatus): nat {
    match status
    case Held => 0
    case Confirmed => 1
    case _ => 2
  }

  lemma {:induction false} PathRank(h: seq<BookingStatus>, i: nat)
    requires IsPath(h) && i < |h|
    ensures Rank(h[i]) >= i
  {
    if i == 0 {
    } else {
      PathRank(h, i - 1);
      assert h[(i - 1) + 1] in AllowedTransitions(h[i - 1]);
    }
  }

  lemma PathBackToHeldIsShort(h: seq<BookingStatus>)
    requires IsPath(h) && h[|h| - 1] == Held
    ensures h == [Held]
  {
    PathRank(h, |h| - 1);
  }

  lemma PathLengthAtMostThree(h: seq<BookingStatus>)
    requires IsPath(h)
    ensures |h| <= 3
    ensures forall i :: 0 <= i < |h| - 1 ==> !Terminal(h[i])
  {
    PathRank(h, |h| - 1);
    forall i | 0 <= i < |h| - 1 ensures !Terminal(h[i]) {
      assert h[i + 1] in AllowedTransitions(h[i]);
    }
  }

  predicate Terminal(status: BookingStatus) {
    status == Completed || status == Cancelled || status == NoShow
  }

  lemma PathExtends(h: seq<BookingStatus>, next: BookingStatus)
    requires IsPath(h) && next in AllowedTransitions(h[|h| - 1])
    ensures IsPath(h + [next])
    ensures Confirmed in h + [next] <==> Confirmed in h || next == Confirmed
  {
  }

  lemma LastIsMember(h: seq<BookingStatus>)
    requires |h| > 0
    ensures h[|h| - 1] in h
  {
  }

  /** A table write extends each history by at most one legal step, and confirms what it newly confirms. */
  lemma HistoryStepAt(s: State, rows: Rows, id: Id)
    requires HistoryOk(s) && Evolves(s.rows, rows) && id in rows
    ensures var h := WithRows(s, rows).history[id];
            IsPath(h) && h[|h| - 1] == rows[id].status
            && (Confirmed in h <==> EverConfirmed(s, id) || NewlyConfirmed(s.rows, rows, id))
  {
    if id in s.rows {
      assert Advances(s.rows[id], rows[id]);
      LastIsMember(s.history[id]);
      if s.rows[id].status != rows[id].status {
        PathExtends(s.history[id], rows[id].status);
      }
    } else {
      assert Active(rows[id]);
    }
  }

  lemma HistoryStep(s: State, rows: Rows)
    requires HistoryOk(s) && Evolves(s.rows, rows)
    ensures HistoryOk(WithRows(s, rows))
    ensures forall id :: EverConfirmed(WithRows(s, rows), id) <==> EverConfirmed(s, id) || NewlyConfirmed(s.rows, rows, id)
  {
    var s' := WithRows(s, rows);
    forall id | id in rows
      ensures IsPath(s'.history[id]) && s'.history[id][|s'.history[id]| - 1] == rows[id].status
      ensures EverConfirmed(s', id) <==> EverConfirmed(s, id) || NewlyConfirmed(s.rows, rows, id)
    {
      HistoryStepAt(s, rows, id);
    }
  }

  lemma SameAnnounced(s: State, s': State, id: Id)
    requires AnnouncedOk(s, id)
    requires EverConfirmed(s', id) <==> EverConfirmed(s, id)
    requires s'.announced[id] == s.announced[id]
    requires forall a :: Owes(s', a, id) <==> Owes(s, a, id)
    ensures AnnouncedOk(s', id)
  {
  }

  lemma RowsKeepSane(rows: Rows, rows': Rows, actors: map<nat, Actor>)
    requires ActorsSane(rows, actors) && Evolves(rows, rows')
    ensures ActorsSane(rows', actors)
  {
    forall a | a in actors ensures ActorSane(rows', actors[a]) {
      assert ActorSane(rows, actors[a]);
      if actors[a].Repairing? {
        assert Advances(rows[actors[a].id], rows'[actors[a].id]);
      }
    }
  }

  lemma BecomesKeepsInv(s: State, actor: nat, next: Actor)
    requires Inv(s) && !At(s, actor).Announcing? && !next.Announcing? && ActorSane(s.rows, next)
    ensures Inv(Becomes(s, actor, next))
  {
    var s' := Becomes(s, actor, next);
    forall id ensures AnnouncedOk(s', id) {
      SameAnnounced(s, s', id);
    }
  }

  lemma RowsKeepInv(s: State, rows: Rows)
    requires Inv(s) && Evolves(s.rows, rows) && AllWellFormed(rows) && Disjoint(rows)
    requires forall id :: !NewlyConfirmed(s.rows, rows, id)
    ensures Inv(WithRows(s, rows))
  {
    var s' := WithRows(s, rows);
    HistoryStep(s, rows);
    RowsKeepSane(s.rows, rows, s.actors);
    forall id ensures AnnouncedOk(s', id) {
      assert AnnouncedOk(s, id) && !NewlyConfirmed(s.rows, rows, id);
      SameAnnounced(s, s', id);
    }
  }

  lemma NobodyOwesBeforeConfirmation(s: State, rows: Rows, id: Id)
    requires Inv(s) && Evolves(s.rows, rows) && NewlyConfirmed(s.rows, rows, id)
    ensures !EverConfirmed(s, id) && s.announced[id] == 0 && forall a :: !Owes(s, a, id)
  {
    if id in s.rows {
      assert Advances(s.rows[id], rows[id]);
      PathBackToHeldIsShort(s.history[id]);
    }
    assert AnnouncedOk(s, id);
  }

  /** The one write that confirms a booking leaves exactly one actor owing its event. */
  lemma ConfirmingOwesOnce(s: State, s': State, actor: nat, id: Id)
    requires forall j :: AnnouncedOk(s, j)
    requires forall j :: EverConfirmed(s', j) <==> EverConfirmed(s, j) || j == id
    requires s'.announced == s.announced && s'.actors == s.actors[actor := Announcing(id)]
    requires !At(s, actor).Announcing?
    requires s.announced[id] == 0 && forall a :: !Owes(s, a, id)
    ensures forall j :: AnnouncedOk(s', j)
  {
    forall j ensures AnnouncedOk(s', j) {
      if j == id {
        forall b | Owes(s', b, id) ensures b == actor {
          assert !Owes(s, b, id);
        }
        assert Owes(s', actor, id);
      } else {
        SameAnnounced(s, s', j);
      }
    }
  }

  lemma ConfirmingKeepsInv(s: State, rows: Rows, actor: nat, id: Id)
    requires Inv(s) && Evolves(s.rows, rows) && AllWellFormed(rows) && Disjoint(rows)
    requires NewlyConfirmed(s.rows, rows, id) && forall j :: NewlyConfirmed(s.rows, rows, j) ==> j == id
    requires !At(s, actor).Announcing?
    ensures Inv(Becomes(WithRows(s, rows), actor, Announcing(id)))
  {
    HistoryStep(s, rows);
    RowsKeepSane(s.rows, rows, s.actors);
    NobodyOwesBeforeConfirmation(s, rows, id);
    ConfirmingOwesOnce(s, Becomes(WithRows(s, rows), actor, Announcing(id)), actor, id);
  }

  lemma CommitCreateKeepsInv(s: State, actor: nat, id: Id, b: Booking)
    requires Inv(s) && At(s, actor) == Creating(b) && id !in s.rows
    ensures Inv(CommitCreate(s, actor, id, b)) && Evolves(s.rows, CommitCreate(s, actor, id, b).rows)
  {
    assert ActorSane(s.rows, s.actors[actor]);
    CreateKeepsDisjoint(s.rows, s.clock, id, b);
    match Created(s.rows, s.clock, id, b) {
      case Err(_) => BecomesKeepsInv(s, actor, Idle);
      case Ok(rows) =>
        if b.status == Confirmed {
          ConfirmingKeepsInv(s, rows, actor, id);
        } else {
          RowsKeepInv(s, rows);
          BecomesKeepsInv(WithRows(s, rows), actor, Idle);
        }
    }
  }

  lemma CompareAndSetEvolves(rows: Rows, id: Id, from: BookingStatus, to: BookingStatus, patch: Patch)
    requires AllWellFormed(rows) && Disjoint(rows) && (from == Held ==> patch.clearHold)
    ensures CompareAndSet(rows, id, from, to, patch).Ok? ==>
              var rows' := CompareAndSet(rows, id, from, to, patch).value;
              AllWellFormed(rows') && Disjoint(rows') && Evolves(rows, rows')
  {
    if CompareAndSet(rows, id, from, to, patch).Ok? {
      KeepsDisjoint(rows, CompareAndSet(rows, id, from, to, patch).value);
    }
  }

  lemma CommitWriteKeepsInv(s: State, actor: nat)
    requires Inv(s) && At(s, actor).Writing?
    ensures Inv(CommitWrite(s, actor, At(s, actor))) && Evolves(s.rows, CommitWrite(s, actor, At(s, actor)).rows)
  {
    var w := At(s, actor);
    assert ActorSane(s.rows, s.actors[actor]);
    CompareAndSetEvolves(s.rows, w.id, w.from, w.to, w.patch);
    match CompareAndSet(s.rows, w.id, w.from, w.to, w.patch) {
      case Err(_) => BecomesKeepsInv(s, actor, Idle);
      case Ok(rows) =>
        if w.to == Confirmed {
          ConfirmingKeepsInv(s, rows, actor, w.id);
        } else {
          RowsKeepInv(s, rows);
          BecomesKeepsInv(WithRows(s, rows), actor, Idle);
        }
    }
  }

  lemma CommitSweepWriteKeepsInv(s: State, actor: nat, id: Id)
    requires Inv(s) && At(s, actor).Sweeping?
    ensures Inv(CommitSweepWrite(s, actor, At(s, actor).ids, id))
    ensures Evolves(s.rows, CommitSweepWrite(s, actor, At(s, actor).ids, id).rows)
  {
    CompareAndSetEvolves(s.rows, id, Held, Cancelled, CANCEL_PATCH);
    match CompareAndSet(s.rows, id, Held, Cancelled, CANCEL_PATCH) {
      case Err(_) => BecomesKeepsInv(s, actor, Idle);
      case Ok(rows) =>
        var ids := At(s, actor).ids;
        RowsKeepInv(s, rows);
        BecomesKeepsInv(WithRows(s, rows), actor, if ids == {id} then Idle else Sweeping(ids - {id}));
    }
  }

  lemma RepairEvolves(rows: Rows, id: Id)
    requires AllWellFormed(rows) && Disjoint(rows) && id in rows && rows[id].status != Held
    ensures var rows' := rows[id := rows[id].(deposit := DepositPaid, holdExpiresAt := None)];
            AllWellFormed(rows') && Disjoint(rows') && Evolves(rows, rows')
            && forall j :: !NewlyConfirmed(rows, rows', j)
  {
    KeepsDisjoint(rows, rows[id := rows[id].(deposit := DepositPaid, holdExpiresAt := None)]);
  }

  lemma RepairRecordsNothing(s: State, id: Id)
    requires HistoryOk(s) && id in s.rows
    ensures var rows := s.rows[id := s.rows[id].(deposit := DepositPaid, holdExpiresAt := None)];
            WithRows(s, rows) == s.(rows := rows)
  {
    var rows := s.rows[id := s.rows[id].(deposit := DepositPaid, holdExpiresAt := None)];
    assert WithRows(s, rows).history == s.history;
  }

  lemma RepairKeepsInv(s: State, actor: nat)
    requires Inv(s)
    ensures Inv(Apply(s, RepairWrite(actor))) && Evolves(s.rows, Apply(s, RepairWrite(actor)).rows)
  {
    if At(s, actor).Repairing? {
      var id := At(s, actor).id;
      assert ActorSane(s.rows, s.actors[actor]);
      RepairEvolves(s.rows, id);
      RepairRecordsNothing(s, id);
      var rows := s.rows[id := s.rows[id].(deposit := DepositPaid, holdExpiresAt := None)];
      RowsKeepInv(s, rows);
      BecomesKeepsInv(WithRows(s, rows), actor, Idle);
    }
  }

  lemma AnnounceKeepsInv(s: State, actor: nat)
    requires Inv(s)
    ensures Inv(Apply(s, Announce(actor))) && Evolves(s.rows, Apply(s, Announce(actor)).rows)
  {
    if At(s, actor).Announcing? {
      var s' := Apply(s, Announce(actor));
      var id := At(s, actor).id;
      forall j ensures AnnouncedOk(s', j) {
        assert AnnouncedOk(s, j);
        assert Owes(s, actor, id);
        assert forall a :: Owes(s', a, j) <==> Owes(s, a, j) && a != actor;
      }
    }
  }

  predicate IsRead(e: Event) {
    e.SweepRead? || e.CreateRead? || e.ConfirmRead? || e.CancelRead? || e.CompleteRead? || e.NoShowRead? || e.ExpireJobRead?
  }

  /** A read changes nothing but what its own actor remembers. */
  lemma ReadOnlyRemembers(s: State, e: Event)
    requires AllWellFormed(s.rows) && IsRead(e)
    ensures var s' := Apply(s, e);
            s' == s ||
              (At(s, e.actor).Idle? && s' == Becomes(s, e.actor, At(s', e.actor))
               && !At(s', e.actor).Announcing? && ActorSane(s.rows, At(s', e.actor)))
  {
    if !e.SweepRead? && !e.CreateRead? && e.id in s.rows {
      assert WellFormed(s.rows[e.id]);
    }
  }

  lemma ReadKeepsInv(s: State, e: Event)
    requires Inv(s) && IsRead(e)
    ensures Inv(Apply(s, e)) && Evolves(s.rows, Apply(s, e).rows)
  {
    ReadOnlyRemembers(s, e);
    var s' := Apply(s, e);
    if s' != s {
      BecomesKeepsInv(s, e.actor, At(s', e.actor));
    }
  }

  lemma TickKeepsInv(s: State, to: int)
    requires Inv(s)
    ensures Inv(Apply(s, Tick(to))) && Evolves(s.rows, Apply(s, Tick(to)).rows)
  {
    forall id ensures AnnouncedOk(Apply(s, Tick(to)), id) {
      SameAnnounced(s, Apply(s, Tick(to)), id);
    }
  }

  lemma SweepJobKeepsInv(s: State, scope: Option<nat>)
    requires Inv(s)
    ensures Inv(Apply(s, SweepJob(scope))) && Evolves(s.rows, Apply(s, SweepJob(scope)).rows)
  {
    SweptEvolves(s.rows, s.clock, scope);
    RowsKeepInv(s, Swept(s.rows, s.clock, scope));
  }

  lemma CreateCommitKeepsInv(s: State, actor: nat, id: Id)
    requires Inv(s)
    ensures Inv(Apply(s, CreateCommit(actor, id))) && Evolves(s.rows, Apply(s, CreateCommit(actor, id)).rows)
  {
    if At(s, actor).Creating? && id !in s.rows {
      CommitCreateKeepsInv(s, actor, id, At(s, actor).booking);
    }
  }

  lemma WriteKeepsInv(s: State, actor: nat)
    requires Inv(s)
    ensures Inv(Apply(s, Write(actor))) && Evolves(s.rows, Apply(s, Write(actor)).rows)
  {
    if At(s, actor).Writing? {
      CommitWriteKeepsInv(s, actor);
    }
  }

  lemma SweepWriteKeepsInv(s: State, actor: nat, id: Id)
    requires Inv(s)
    ensures Inv(Apply(s, SweepWrite(actor, id))) && Evolves(s.rows, Apply(s, SweepWrite(actor, id)).rows)
  {
    if At(s, actor).Sweeping? {
      CommitSweepWriteKeepsInv(s, actor, id);
    }
  }

  lemma StepKeepsInv(s: State, e: Event)
    requires Inv(s)
    ensures Inv(Apply(s, e)) && Evolves(s.rows, Apply(s, e).rows)
  {
    match e {
      case Tick(to) => TickKeepsInv(s, to);
      case SweepJob(scope) => SweepJobKeepsInv(s, scope);
      case SweepWrite(a, id) => SweepWriteKeepsInv(s, a, id);
      case CreateCommit(a, id) => CreateCommitKeepsInv(s, a, id);
      case Write(a) => WriteKeepsInv(s, a);
      case RepairWrite(a) => RepairKeepsInv(s, a);
      case Announce(a) => AnnounceKeepsInv(s, a);
      case _ => ReadKeepsInv(s, e);
    }
  }

  lemma {:induction false} RunKeepsInv(s: State, events: seq<Event>)
    requires Inv(s)
    ensures Inv(Run(s, events))
    decreases |events|
  {
    if events == [] {
    } else {
      StepKeepsInv(s, events[0]);
      RunKeepsInv(Apply(s, events[0]), events[1..]);
    }
  }

  // ---------- Results over every run ----------

  lemma InitInv(clock: int)
    ensures Inv(Init(clock))
  {
  }

  /** In every interleaving, no two held-or-confirmed bookings of one stylist overlap. */
  lemma NoDoubleBooking(clock: int, events: seq<Event>)
    ensures var rows := Run(Init(clock), events).rows;
            Disjoint(rows) && forall id :: id in rows ==> (rows[id].holdExpiresAt.Some? <==> rows[id].status == Held)
  {
    InitInv(clock);
    RunKeepsInv(Init(clock), events);
  }

  /** Every booking's status history is a path of the transition graph with at most three statuses. */
  lemma HistoriesArePaths(clock: int, events: seq<Event>, id: Id)
    ensures var s := Run(Init(clock), events);
            id in s.rows ==>
              id in s.history && IsPath(s.history[id]) && |s.history[id]| <= 3
              && s.history[id][|s.history[id]| - 1] == s.rows[id].status
              && forall i :: 0 <= i < |s.history[id]| - 1 ==> !Terminal(s.history[id][i])
  {
    InitInv(clock);
    RunKeepsInv(Init(clock), events);
    var s := Run(Init(clock), events);
    if id in s.rows {
      PathLengthAtMostThree(s.history[id]);
    }
  }

  /**
   * However confirms, retries, cancels and sweeps interleave, the confirmed event fires at most once, and only for a
   * booking that became confirmed; once no actor still owes it, it has fired exactly when that happened.
   */
  lemma ConfirmedEventFiresExactlyOnce(clock: int, events: seq<Event>, id: Id)
    ensures var s := Run(Init(clock), events);
            && s.announced[id] <= 1
            && (s.announced[id] == 1 ==> EverConfirmed(s, id))
            && ((forall a :: !Owes(s, a, id)) ==> (s.announced[id] == 1 <==> EverConfirmed(s, id)))
  {
    InitInv(clock);
    RunKeepsInv(Init(clock), events);
    assert AnnouncedOk(Run(Init(clock), events), id);
  }

  /** Rows are never deleted, their slot never moves, and a terminal status is never left. */
  lemma {:induction false} TerminalIsForever(s: State, events: seq<Event>, id: Id)
    requires Inv(s) && id in s.rows
    ensures var rows := Run(s, events).rows;
            && id in rows
            && rows[id].stylist == s.rows[id].stylist
            && rows[id].startTime == s.rows[id].startTime && rows[id].endTime == s.rows[id].endTime
            && (Terminal(s.rows[id].status) ==> rows[id].status == s.rows[id].status)
    decreases |events|
  {
    if events == [] {
    } else {
      StepKeepsInv(s, events[0]);
      assert Advances(s.rows[id], Apply(s, events[0]).rows[id]);
      TerminalIsForever(Apply(s, events[0]), events[1..], id);
    }
  }

  /** No unlapsed active booking of the stylist is in the way of this one. */
  predicate SlotIsOpen(s: State, b: Booking) {
    forall i :: i in s.rows ==> !Conflicts(s.rows[i], s.clock, b.stylist, b.startTime, b.endTime)
  }

  lemma FirstCommitWins(s: State, a: nat, id: Id)
    requires Inv(s) && At(s, a).Creating? && id !in s.rows
    requires SlotIsOpen(s, At(s, a).booking)
    ensures var b := At(s, a).booking;
            && WellFormed(b) && Active(b)
            && Created(s.rows, s.clock, id, b).Ok?
            && Apply(s, CreateCommit(a, id)).rows == Created(s.rows, s.clock, id, b).value
            && forall c :: c != a ==> At(Apply(s, CreateCommit(a, id)), c) == At(s, c)
  {
    assert ActorSane(s.rows, s.actors[a]);
    CreateAcceptedIff(s.rows, s.clock, id, At(s, a).booking);
  }

  /** Two requests that both passed every earlier check for clashing time: the first to commit wins, the second is refused. */
  lemma RacingHoldsExactlyOneWins(s: State, a: nat, b: nat, idA: Id, idB: Id, later: int)
    requires Inv(s) && a != b && At(s, a).Creating? && At(s, b).Creating?
    requires Clash(At(s, a).booking, At(s, b).booking)
    requires idA !in s.rows && idB !in s.rows && idA != idB
    requires SlotIsOpen(s, At(s, a).booking)
    requires s.clock <= later && !Lapsed(At(s, a).booking, later)
    ensures var s' := Apply(Apply(Apply(s, CreateCommit(a, idA)), Tick(later)), CreateCommit(b, idB));
            idA in s'.rows && s'.rows[idA] == At(s, a).booking && idB !in s'.rows
  {
    FirstCommitWins(s, a, idA);
    SecondHoldIsRefused(s.rows, s.clock, later, idA, At(s, a).booking, idB, At(s, b).booking);
  }

  /**
   * The time-free invariant is needed: a confirm that read a live hold may write after the hold has lapsed,
   * because only the status is re-checked. Such a late confirm still cannot double-book.
   */
  lemma ConfirmMayLandAfterHoldLapsed()
    ensures exists events: seq<Event> ::
              var before := Run(Init(0), events);
              var after := Apply(before, Write(1));
              && 0 in before.rows && Lapsed(before.rows[0], before.clock)
              && 0 in after.rows && after.rows[0].status == Confirmed
  {
    var e0, e1, e2, e3 := CreateRead(0, 0, 100_000, 60, 0, Some(10)), CreateCommit(0, 0), ConfirmRead(1, 0), Tick(50);
    var s2, s4 := HeldAtZero(), HeldAtZero().(clock := 50, actors := map[0 := Idle, 1 := Writing(0, Held, Confirmed, CONFIRM_PATCH)]);
    HoldIsCreated();
    assert Apply(Apply(s2, e2), e3) == s4;
    FourSteps(Run, Apply, Init(0), e0, e1, e2, e3);
    assert Run(Init(0), [e0, e1, e2, e3]) == s4;
  }

  /** One hold, created at time 0 and expiring at time 10. */
  function HeldAtZero(): State {
    State(0, map[0 := Booking(0, 100_000, 3_700_000, Held, Some(10), DepositPending)], map[0 := Idle], map[0 := [Held]], multiset{})
  }

  lemma HoldIsCreated()
    ensures Apply(Apply(Init(0), CreateRead(0, 0, 100_000, 60, 0, Some(10))), CreateCommit(0, 0)) == HeldAtZero()
  {
    var b := Booking(0, 100_000, 3_700_000, Held, Some(10), DepositPending);
    var s1 := Init(0).(actors := map[0 := Creating(b)]);
    assert Apply(Init(0), CreateRead(0, 0, 100_000, 60, 0, Some(10))) == s1;
    assert Swept(map[], 0, Some(0)) == map[];
    assert Created(map[], 0, 0, b) == Ok(map[0 := b]);
    assert CommitCreate(s1, 0, 0, b) == HeldAtZero();
  }
}

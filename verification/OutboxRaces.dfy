/**
 * Deliveries and upserts of notifications with every database call and every send as its own step: a delivery reads the
 * row, sends, and marks the row sent by id; an upsert reads the row and then writes it without looking again. Any
 * number of sweeps, queue workers and schedulers interleave. What a delivery decides from the booking, preferences and
 * conversations is a parameter of its read.
 */
module OutboxRaces {
  import opened Common
  import opened Runs
  import opened Outbox

  datatype Actor =
    | Idle
    | Upserting(key: Key)                      // read as absent or not sent; the write is next
    | Sending(key: Key)                        // read as scheduled and fit to go; the send is next
    | Marking(key: Key)                        // sent; the row is yet to be marked
    | Settling(key: Key, status: RowStatus)    // read as scheduled and not fit to go; the write saying so is next

  datatype World = World(rows: map<Key, RowStatus>, actors: map<nat, Actor>, sent: multiset<Key>)

  datatype Step =
    | UpsertRead(actor: nat, key: Key)
    | UpsertWrite(actor: nat)
    | CallOff(keys: set<Key>)                  // one conditional update
    | DeliverRead(actor: nat, key: Key, decision: Decision)
    | Send(actor: nat, succeeds: bool)
    | Mark(actor: nat)
    | Settle(actor: nat)

  function At(w: World, x: nat): Actor {
    if x in w.actors then w.actors[x] else Idle
  }

  function Becomes(w: World, x: nat, next: Actor): World {
    w.(actors := w.actors[x := next])
  }

  predicate Is(w: World, key: Key, status: RowStatus) {
    key in w.rows && w.rows[key] == status
  }

  function AfterRead(key: Key, d: Decision): Actor {
    match d
    case Delivered => Sending(key)
    case BookingNotFound => Settling(key, Failed)
    case UnknownRecipient => Settling(key, Failed)
    case BookingNotConfirmed => Settling(key, Skipped)
    case BookingNotCancelled => Settling(key, Skipped)
    case RemindersDisabled => Settling(key, Skipped)
    case DeferredActiveConversation => Idle
    case NotScheduled => Idle
  }

  function Written(w: World, x: nat, key: Key, status: RowStatus): World {
    Becomes(w.(rows := w.rows[key := status]), x, Idle)
  }

  function Apply(w: World, e: Step): World {
    match e
    case CallOff(keys) =>
      w.(rows := map key | key in w.rows :: if key in keys && w.rows[key] == Scheduled then CalledOff else w.rows[key])
    case UpsertRead(x, key) => if At(w, x).Idle? && !Is(w, key, Sent) then Becomes(w, x, Upserting(key)) else w
    case DeliverRead(x, key, d) => if At(w, x).Idle? && Is(w, key, Scheduled) then Becomes(w, x, AfterRead(key, d)) else w
    case UpsertWrite(x) => if At(w, x).Upserting? then Written(w, x, At(w, x).key, Scheduled) else w
    case Send(x, succeeds) =>
      if !At(w, x).Sending? then w
      else if !succeeds then Becomes(w, x, Idle)
      else Becomes(w, x, Marking(At(w, x).key)).(sent := w.sent + multiset{At(w, x).key})
    case Mark(x) => if At(w, x).Marking? then Written(w, x, At(w, x).key, Sent) else w
    case Settle(x) => if At(w, x).Settling? then Written(w, x, At(w, x).key, At(w, x).status) else w
  }

  function Run(w: World, steps: seq<Step>): World
    decreases |steps|
  {
    if steps == [] then w else Run(Apply(w, steps[0]), steps[1..])
  }

  const START := World(map[], map[], multiset{})

  // ---------- Sent at most once ----------

  /** A delivery of the message that is about to send it, or has sent it and not yet marked its row. */
  predicate Delivers(w: World, x: nat, key: Key) {
    At(w, x) == Sending(key) || At(w, x) == Marking(key)
  }

  /** A write of the row, other than to sent, that will not look at the row again. */
  predicate Overwrites(w: World, x: nat, key: Key) {
    At(w, x) == Upserting(key) || (At(w, x).Settling? && At(w, x).key == key)
  }

  ghost predicate Unmarked(w: World, key: Key) {
    exists x :: At(w, x) == Marking(key)
  }

  /** At most one delivery under way, and sent once exactly if so marked or about to be; a sent row is left alone. */
  ghost predicate Once(w: World, key: Key) {
    && (forall x, y :: Delivers(w, x, key) && Delivers(w, y, key) ==> x == y)
    && w.sent[key] <= 1 && (w.sent[key] == 1 <==> Is(w, key, Sent) || Unmarked(w, key))
    && (Is(w, key, Sent) ==> forall x :: !Delivers(w, x, key) && !Overwrites(w, x, key))
  }

  /** A delivery reads the row while another is under way, or marks it sent while a write of it is still to come. */
  ghost predicate Collides(w: World, e: Step, key: Key) {
    match e
    case DeliverRead(x, k, d) =>
      k == key && d == Delivered && At(w, x).Idle? && Is(w, key, Scheduled) && exists y :: Delivers(w, y, key)
    case Mark(x) => At(w, x) == Marking(key) && exists y :: Overwrites(w, y, key)
    case _ => false
  }

  lemma CollisionBreaksOnce(w: World, e: Step, key: Key)
    requires Once(w, key) && Collides(w, e, key)
    ensures !Once(Apply(w, e), key)
  {
    var x, z := e.actor, Apply(w, e);
    if e.Mark? {
      var y :| Overwrites(w, y, key);
      assert Overwrites(z, y, key) && Is(z, key, Sent);
    } else {
      var y :| Delivers(w, y, key);
      assert Delivers(z, y, key) && Delivers(z, x, key);
    }
  }

  lemma OthersStay(w: World, z: World, x: nat, key: Key)
    requires forall y :: y != x ==> At(z, y) == At(w, y)
    ensures forall y :: y != x ==> (Delivers(z, y, key) <==> Delivers(w, y, key))
    ensures forall y :: y != x ==> (Overwrites(z, y, key) <==> Overwrites(w, y, key))
    ensures (At(z, x) == Marking(key) <==> At(w, x) == Marking(key)) ==> (Unmarked(z, key) <==> Unmarked(w, key))
  {
    if Unmarked(w, key) {
      var y :| At(w, y) == Marking(key);
      assert At(z, y) == Marking(key) || y == x;
    }
  }

  /** A step of one actor that neither sends nor marks this message, and starts work on its row only where it may. */
  lemma QuietStepKeepsOnce(w: World, z: World, x: nat, key: Key)
    requires Once(w, key) && forall y :: y != x ==> At(z, y) == At(w, y)
    requires z.sent[key] == w.sent[key] && (Is(z, key, Sent) <==> Is(w, key, Sent))
    requires At(z, x) == Marking(key) <==> At(w, x) == Marking(key)
    requires Delivers(z, x, key) ==> Delivers(w, x, key) || (!Is(w, key, Sent) && forall y :: !Delivers(w, y, key))
    requires Overwrites(z, x, key) ==> Overwrites(w, x, key) || !Is(w, key, Sent)
    ensures Once(z, key)
  {
    OthersStay(w, z, x, key);
  }

  lemma SendKeepsOnce(w: World, x: nat, succeeds: bool, key: Key)
    requires Once(w, key) && At(w, x).Sending?
    ensures Once(Apply(w, Send(x, succeeds)), key)
  {
    var z := Apply(w, Send(x, succeeds));
    if succeeds && At(w, x) == Sending(key) {
      assert Delivers(w, x, key);
      OthersStay(w, z, x, key);
      assert forall y :: At(w, y) == Marking(key) ==> Delivers(w, y, key);
      assert At(z, x) == Marking(key);
    } else {
      QuietStepKeepsOnce(w, z, x, key);
    }
  }

  lemma MarkKeepsOnce(w: World, x: nat, key: Key)
    requires Once(w, key) && At(w, x).Marking? && !Collides(w, Mark(x), key)
    ensures Once(Apply(w, Mark(x)), key)
  {
    var z := Apply(w, Mark(x));
    if At(w, x) == Marking(key) {
      assert Delivers(w, x, key);
      OthersStay(w, z, x, key);
      assert forall y :: !Delivers(z, y, key) && !Overwrites(z, y, key);
      assert forall y :: At(z, y) == Marking(key) ==> Delivers(z, y, key);
    } else {
      QuietStepKeepsOnce(w, z, x, key);
    }
  }

  lemma OverwriteKeepsOnce(w: World, x: nat, key: Key, status: RowStatus)
    requires Once(w, key) && (At(w, x).Upserting? || At(w, x).Settling?) && status != Sent
    ensures Once(Written(w, x, At(w, x).key, status), key)
  {
    assert At(w, x).key == key ==> Overwrites(w, x, key);
    QuietStepKeepsOnce(w, Written(w, x, At(w, x).key, status), x, key);
  }

  /** A settling delivery never writes "sent". */
  predicate Settles(a: Actor) {
    a.Settling? ==> a.status != Sent
  }

  ghost predicate Plain(w: World) {
    forall x :: Settles(At(w, x))
  }

  lemma StepKeepsPlain(w: World, e: Step)
    requires Plain(w)
    ensures Plain(Apply(w, e))
  {
    var z := Apply(w, e);
    forall y ensures Settles(At(z, y)) {
      assert Settles(At(w, y));
    }
  }

  /** Exactly which steps keep a message from being sent twice. */
  lemma StepKeepsOnceIff(w: World, e: Step, key: Key)
    requires Once(w, key) && Plain(w)
    ensures Once(Apply(w, e), key) <==> !Collides(w, e, key)
  {
    if Collides(w, e, key) {
      CollisionBreaksOnce(w, e, key);
    } else {
      match e {
        case CallOff(keys) => QuietStepKeepsOnce(w, Apply(w, e), 0, key);
        case UpsertRead(x, k) => if At(w, x).Idle? && !Is(w, k, Sent) { QuietStepKeepsOnce(w, Apply(w, e), x, key); }
        case DeliverRead(x, k, d) => if At(w, x).Idle? && Is(w, k, Scheduled) { QuietStepKeepsOnce(w, Apply(w, e), x, key); }
        case UpsertWrite(x) => if At(w, x).Upserting? { OverwriteKeepsOnce(w, x, key, Scheduled); }
        case Send(x, succeeds) => if At(w, x).Sending? { SendKeepsOnce(w, x, succeeds, key); }
        case Mark(x) => if At(w, x).Marking? { MarkKeepsOnce(w, x, key); }
        case Settle(x) =>
          assert Settles(At(w, x));
          if At(w, x).Settling? { OverwriteKeepsOnce(w, x, key, At(w, x).status); }
      }
    }
  }

  ghost predicate NeverCollides(w: World, steps: seq<Step>, key: Key)
    decreases |steps|
  {
    steps == [] || (!Collides(w, steps[0], key) && NeverCollides(Apply(w, steps[0]), steps[1..], key))
  }

  lemma {:induction false} RunKeepsOnce(w: World, steps: seq<Step>, key: Key)
    requires Once(w, key) && Plain(w) && NeverCollides(w, steps, key)
    ensures Once(Run(w, steps), key)
    decreases |steps|
  {
    if steps == [] {
    } else {
      StepKeepsOnceIff(w, steps[0], key);
      StepKeepsPlain(w, steps[0]);
      RunKeepsOnce(Apply(w, steps[0]), steps[1..], key);
    }
  }

  /** Over every interleaving without such a step, a message goes out at most once, and has if its row is marked sent. */
  lemma SentAtMostOnce(steps: seq<Step>, key: Key)
    requires NeverCollides(START, steps, key)
    ensures Run(START, steps).sent[key] <= 1 && (Is(Run(START, steps), key, Sent) ==> Run(START, steps).sent[key] == 1)
  {
    assert Once(START, key);
    RunKeepsOnce(START, steps, key);
  }

  // ---------- Runs that send twice ----------

  /** A row is scheduled. */
  function Scheduling(key: Key): seq<Step> {
    [UpsertRead(0, key), UpsertWrite(0)]
  }

  lemma SchedulingRun(key: Key)
    ensures Run(START, Scheduling(key)) == World(map[key := Scheduled], map[0 := Idle], multiset{})
  {
    TwoSteps(Run, Apply, START, UpsertRead(0, key), UpsertWrite(0));
  }

  function BothDeliver(key: Key): seq<Step> {
    [DeliverRead(0, key, Delivered), DeliverRead(1, key, Delivered), Send(0, true), Send(1, true)]
  }

  /** The sweep and the queue both read the row before either marks it. */
  lemma TwoDeliveriesSendTwice(key: Key)
    ensures Run(START, Scheduling(key) + BothDeliver(key)).sent[key] == 2
  {
    var w := World(map[key := Scheduled], map[0 := Idle], multiset{});
    SchedulingRun(key);
    Append(Run, Apply, START, Scheduling(key), BothDeliver(key));
    FourSteps(Run, Apply, w, DeliverRead(0, key, Delivered), DeliverRead(1, key, Delivered), Send(0, true), Send(1, true));
    BothSend(w, key);
  }

  lemma BothSend(w: World, key: Key)
    requires At(w, 0).Idle? && At(w, 1).Idle? && Is(w, key, Scheduled)
    ensures
      var z := Apply(Apply(w, DeliverRead(0, key, Delivered)), DeliverRead(1, key, Delivered));
      Apply(Apply(z, Send(0, true)), Send(1, true)).sent[key] == w.sent[key] + 2
  {
    var w2 := Becomes(Becomes(w, 0, Sending(key)), 1, Sending(key));
    assert Apply(Apply(w, DeliverRead(0, key, Delivered)), DeliverRead(1, key, Delivered)) == w2;
  }

  function SendMeanwhile(key: Key): seq<Step> {
    [DeliverRead(0, key, Delivered), UpsertRead(1, key), Send(0, true), Mark(0)]
  }

  function SendAgain(key: Key): seq<Step> {
    [UpsertWrite(1), DeliverRead(0, key, Delivered), Send(0, true)]
  }

  /** A scheduler reads the row before the delivery marks it and writes it after: it is delivered once more. */
  lemma RescheduledIsSentAgain(key: Key)
    ensures Run(START, Scheduling(key) + (SendMeanwhile(key) + SendAgain(key))).sent[key] == 2
  {
    var w := World(map[key := Scheduled], map[0 := Idle], multiset{});
    var z := World(map[key := Sent], map[0 := Idle, 1 := Upserting(key)], multiset{key});
    SchedulingRun(key);
    Append(Run, Apply, START, Scheduling(key), SendMeanwhile(key) + SendAgain(key));
    Append(Run, Apply, w, SendMeanwhile(key), SendAgain(key));
    FourSteps(Run, Apply, w, DeliverRead(0, key, Delivered), UpsertRead(1, key), Send(0, true), Mark(0));
    SentWhileUpserting(w, key, z);
    SentOnceMore(z, key);
  }

  lemma SentOnceMore(w: World, key: Key)
    requires w == World(map[key := Sent], map[0 := Idle, 1 := Upserting(key)], multiset{key})
    ensures Run(w, SendAgain(key)).sent[key] == 2
  {
    ThreeSteps(Run, Apply, w, UpsertWrite(1), DeliverRead(0, key, Delivered), Send(0, true));
    var w1 := Apply(w, UpsertWrite(1));
    assert At(w1, 0) == Idle && Is(w1, key, Scheduled);
    assert At(Apply(w1, DeliverRead(0, key, Delivered)), 0) == Sending(key);
  }

  lemma SentWhileUpserting(w: World, key: Key, z: World)
    requires w == World(map[key := Scheduled], map[0 := Idle], multiset{})
    requires z == World(map[key := Sent], map[0 := Idle, 1 := Upserting(key)], multiset{key})
    ensures Apply(Apply(Apply(Apply(w, DeliverRead(0, key, Delivered)), UpsertRead(1, key)), Send(0, true)), Mark(0)) == z
  {
    var w2 := World(w.rows, map[0 := Sending(key), 1 := Upserting(key)], multiset{});
    assert Apply(Apply(w, DeliverRead(0, key, Delivered)), UpsertRead(1, key)) == w2;
    assert Apply(w2, Send(0, true)) == World(w.rows, map[0 := Marking(key), 1 := Upserting(key)], multiset{key});
  }

  // ---------- Left alone, a delivery is the one-step delivery ----------

  function Statuses(rows: map<Key, Row>): map<Key, RowStatus> {
    map key | key in rows :: rows[key].status
  }

  /** Steps that are not the actor's next do nothing, so the four cover every outcome of a delivery. */
  lemma SoloDeliveryIsTheCall(w: World, s: State, x: nat, key: Key, muted: bool, chatting: bool)
    requires At(w, x).Idle? && w.rows == Statuses(s.rows)
    ensures
      var d := Decide(s, key, muted, chatting);
      var z := Run(w, [DeliverRead(x, key, d), Send(x, true), Mark(x), Settle(x)]);
      && At(z, x).Idle? && z.rows == Statuses(AfterDelivery(s, key, muted, chatting).rows)
      && z.sent == if d == Delivered then w.sent + multiset{key} else w.sent
  {
    var d := Decide(s, key, muted, chatting);
    FourSteps(Run, Apply, w, DeliverRead(x, key, d), Send(x, true), Mark(x), Settle(x));
    SoloDeliverySteps(w, x, key, d);
    SoloDeliveryRows(s, key, muted, chatting);
  }

  /** The row's status after a delivery with that decision. */
  function Settled(key: Key, d: Decision, status: RowStatus): RowStatus {
    match AfterRead(key, d)
    case Sending(_) => Sent
    case Settling(_, to) => to
    case _ => status
  }

  lemma SoloDeliverySteps(w: World, x: nat, key: Key, d: Decision)
    requires At(w, x).Idle? && (d == NotScheduled <==> !Is(w, key, Scheduled))
    ensures
      var z := Apply(Apply(Apply(Apply(w, DeliverRead(x, key, d)), Send(x, true)), Mark(x)), Settle(x));
      && At(z, x).Idle? && z.sent == (if d == Delivered then w.sent + multiset{key} else w.sent)
      && z.rows == if Is(w, key, Scheduled) then w.rows[key := Settled(key, d, Scheduled)] else w.rows
  {
    if d == Delivered {
      SoloSend(w, x, key);
    } else if Is(w, key, Scheduled) {
      SoloSettle(w, x, key, d);
    }
  }

  lemma SoloSettle(w: World, x: nat, key: Key, d: Decision)
    requires At(w, x).Idle? && Is(w, key, Scheduled) && d != Delivered
    ensures
      var z := Apply(Apply(Apply(Apply(w, DeliverRead(x, key, d)), Send(x, true)), Mark(x)), Settle(x));
      At(z, x).Idle? && z.sent == w.sent && z.rows == w.rows[key := Settled(key, d, Scheduled)]
  {
    var w1 := Becomes(w, x, AfterRead(key, d));
    assert Apply(w, DeliverRead(x, key, d)) == w1;
    assert Apply(Apply(w1, Send(x, true)), Mark(x)) == w1;
  }

  lemma SoloSend(w: World, x: nat, key: Key)
    requires At(w, x).Idle? && Is(w, key, Scheduled)
    ensures
      var z := Apply(Apply(Apply(w, DeliverRead(x, key, Delivered)), Send(x, true)), Mark(x));
      At(z, x).Idle? && z.sent == w.sent + multiset{key} && z.rows == w.rows[key := Sent]
  {
    var w1 := Becomes(w, x, Sending(key));
    var w2 := Becomes(w1, x, Marking(key)).(sent := w.sent + multiset{key});
    assert Apply(w, DeliverRead(x, key, Delivered)) == w1 && Apply(w1, Send(x, true)) == w2;
  }

  lemma SoloDeliveryRows(s: State, key: Key, muted: bool, chatting: bool)
    ensures
      var d := Decide(s, key, muted, chatting);
      Statuses(AfterDelivery(s, key, muted, chatting).rows)
      == if key in s.rows && s.rows[key].status == Scheduled then Statuses(s.rows)[key := Settled(key, d, Scheduled)] else Statuses(s.rows)
  {
  }

  /** So is an upsert, and calling off a booking's rows is one update in both. */
  lemma SoloUpsertIsTheCall(w: World, s: State, x: nat, key: Key, scheduledFor: int)
    requires At(w, x).Idle? && w.rows == Statuses(s.rows)
    ensures
      var z := Run(w, [UpsertRead(x, key), UpsertWrite(x)]);
      At(z, x).Idle? && z.rows == Statuses(Upserted(s.rows, key, scheduledFor)) && z.sent == w.sent
  {
    TwoSteps(Run, Apply, w, UpsertRead(x, key), UpsertWrite(x));
    if !Is(w, key, Sent) {
      assert Apply(w, UpsertRead(x, key)) == Becomes(w, x, Upserting(key));
    }
  }

  lemma CallingOffIsTheCall(w: World, s: State, id: nat)
    requires w.rows == Statuses(s.rows)
    ensures Apply(w, CallOff(set key | key in s.rows && key.booking == id)).rows == Statuses(CalledOffFor(s.rows, id))
  {
  }
}

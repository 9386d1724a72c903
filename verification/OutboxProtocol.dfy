/** Runs of the outbox: schedulers, sweeps, queue workers and the booking engine, interleaved step by step. */
module OutboxProtocol {
  import opened Common
  import opened Outbox

  /** A scheduler that has read a confirmed booking and not yet written its reminders. */
  datatype Reading = Reading(id: nat, client: nat, start: int)

  datatype World = World(s: State, sweeps: map<nat, set<Key>>, readers: map<nat, Reading>)

  datatype Event =
    | Tick(to: int)
    | Record(id: nat, booking: Booking)          // the booking engine creates or changes a booking; nothing writes its start
    | Immediate(key: Key)
    | CancelPending(id: nat)
    | RemindRead(actor: nat, id: nat)
    | RemindWrite(actor: nat, kind: Kind)
    | SweepRead(actor: nat, keys: set<Key>)
    | SweepDeliver(actor: nat, key: Key, muted: bool, chatting: bool)
    | QueueDeliver(key: Key, muted: bool, chatting: bool)

  function Apply(w: World, e: Event): World {
    match e
    case Tick(to) => if w.s.clock <= to then w.(s := w.s.(clock := to)) else w
    case Record(id, b) =>
      if id in w.s.bookings && w.s.bookings[id].startTime != b.startTime then w
      else w.(s := w.s.(bookings := w.s.bookings[id := b]))
    case Immediate(key) => if IsReminder(key.kind) then w else w.(s := AfterImmediate(w.s, key))
    case CancelPending(id) => w.(s := w.s.(rows := CalledOffFor(w.s.rows, id)))
    case RemindRead(a, id) =>
      var c := Context(w.s, id);
      if c.None? || c.value.status != Confirmed then w
      else w.(readers := w.readers[a := Reading(id, c.value.client.value, c.value.startTime)])
    case RemindWrite(a, kind) =>
      if a !in w.readers || !IsReminder(kind) then w
      else w.(s := AfterReminder(w.s, w.readers[a].id, w.readers[a].client, w.readers[a].start, kind))
    case SweepRead(a, keys) =>
      w.(sweeps := w.sweeps[a := set key | key in keys && Due(w.s, key)])
    case SweepDeliver(a, key, muted, chatting) =>
      if a in w.sweeps && key in w.sweeps[a] then w.(s := AfterDelivery(w.s, key, muted, chatting)) else w
    case QueueDeliver(key, muted, chatting) =>
      if key in w.s.queued then w.(s := AfterDelivery(w.s, key, muted, chatting)) else w
  }

  function Run(w: World, events: seq<Event>): World
    decreases |events|
  {
    if events == [] then w else Run(Apply(w, events[0]), events[1..])
  }

  function Start(clock: int, deferMs: nat): World {
    World(Init(clock, deferMs), map[], map[])
  }

  // ---------- At most one message, to the right booking ----------

  function Count(log: seq<Message>, key: Key): nat {
    if log == [] then 0 else Count(log[..|log| - 1], key) + if log[|log| - 1].key == key then 1 else 0
  }

  predicate SentOnce(s: State, key: Key) {
    Count(s.log, key) == if SentAlready(s.rows, key) then 1 else 0
  }

  lemma CountAppend(log: seq<Message>, m: Message, key: Key)
    ensures Count(log + [m], key) == Count(log, key) + if m.key == key then 1 else 0
  {
    assert (log + [m])[..|log|] == log;
  }

  lemma DeliveryMarks(s: State, key: Key, muted: bool, chatting: bool, any: Key)
    ensures
      SentAlready(AfterDelivery(s, key, muted, chatting).rows, any)
      <==> SentAlready(s.rows, any) || (any == key && Decide(s, key, muted, chatting) == Delivered)
    ensures Decide(s, key, muted, chatting) == Delivered ==> !SentAlready(s.rows, key)
  {
  }

  lemma DeliveryKeepsSentOnce(s: State, key: Key, muted: bool, chatting: bool, any: Key)
    requires SentOnce(s, any)
    ensures SentOnce(AfterDelivery(s, key, muted, chatting), any)
  {
    DeliveryMarks(s, key, muted, chatting, any);
    DeliveryAppends(s, key, muted, chatting);
    if Decide(s, key, muted, chatting) == Delivered {
      CountAppend(s.log, Message(key, s.clock, s.bookings[key.booking]), any);
    }
  }

  lemma StepKeepsSentOnce(w: World, e: Event, key: Key)
    requires SentOnce(w.s, key)
    ensures SentOnce(Apply(w, e).s, key)
  {
    match e {
      case SweepDeliver(_, k, muted, chatting) => DeliveryKeepsSentOnce(w.s, k, muted, chatting, key);
      case QueueDeliver(k, muted, chatting) => DeliveryKeepsSentOnce(w.s, k, muted, chatting, key);
      case _ =>
    }
  }

  lemma {:induction false} RunKeepsSentOnce(w: World, events: seq<Event>, key: Key)
    requires SentOnce(w.s, key)
    ensures SentOnce(Run(w, events).s, key)
    decreases |events|
  {
    if events == [] {
    } else {
      StepKeepsSentOnce(w, events[0], key);
      RunKeepsSentOnce(Apply(w, events[0]), events[1..], key);
    }
  }

  /** Over any run, each booking, recipient and kind gets at most one message, and gets one exactly if its row is marked sent. */
  lemma AtMostOneMessage(clock: int, deferMs: nat, events: seq<Event>, key: Key)
    ensures
      var s := Run(Start(clock, deferMs), events).s;
      Count(s.log, key) <= 1 && (Count(s.log, key) == 1 <==> SentAlready(s.rows, key))
  {
    RunKeepsSentOnce(Start(clock, deferMs), events, key);
  }

  /** A message went to a person of the booking, and its kind fitted the booking's status at that moment. */
  predicate Apt(m: Message) {
    && (m.booking.client == Some(m.key.recipient) || m.booking.stylist == Some(m.key.recipient))
    && (IsReminder(m.key.kind) ==> m.booking.status == Confirmed)
    && (m.key.kind == Cancellation ==> m.booking.status == BookingStatus.Cancelled)
  }

  lemma DeliveryAppends(s: State, key: Key, muted: bool, chatting: bool)
    ensures
      var log := AfterDelivery(s, key, muted, chatting).log;
      if Decide(s, key, muted, chatting) == Delivered
      then key.booking in s.bookings && log == s.log + [Message(key, s.clock, s.bookings[key.booking])] && Apt(log[|s.log|])
      else log == s.log
  {
  }

  lemma {:induction false} RunSendsOnlyApt(w: World, events: seq<Event>)
    requires forall m :: m in w.s.log ==> Apt(m)
    ensures forall m :: m in Run(w, events).s.log ==> Apt(m)
    decreases |events|
  {
    if events == [] {
    } else {
      match events[0] {
        case SweepDeliver(_, key, muted, chatting) => DeliveryAppends(w.s, key, muted, chatting);
        case QueueDeliver(key, muted, chatting) => DeliveryAppends(w.s, key, muted, chatting);
        case _ =>
      }
      RunSendsOnlyApt(Apply(w, events[0]), events[1..]);
    }
  }

  /** Over any run, reminders go out only while the booking is confirmed, cancellations only while it is cancelled. */
  lemma MessagesFitTheBooking(clock: int, deferMs: nat, events: seq<Event>, m: Message)
    requires m in Run(Start(clock, deferMs), events).s.log
    ensures Apt(m)
  {
    RunSendsOnlyApt(Start(clock, deferMs), events);
  }

  // ---------- Reminders are never early ----------

  /** The reminder's time has come for the booking as it now stands. */
  predicate WindowOpen(s: State, key: Key) {
    key.booking in s.bookings && s.clock >= s.bookings[key.booking].startTime - OffsetMs(key.kind)
  }

  predicate RowTimely(s: State, key: Key) {
    key in s.rows && IsReminder(key.kind) && s.rows[key].status == Scheduled ==>
      key.booking in s.bookings && s.rows[key].scheduledFor >= s.bookings[key.booking].startTime - OffsetMs(key.kind)
  }

  predicate RowsTimely(s: State) {
    forall key :: key in s.rows ==> RowTimely(s, key)
  }

  predicate ListedOpen(w: World) {
    forall a, key :: a in w.sweeps && key in w.sweeps[a] && IsReminder(key.kind) ==> WindowOpen(w.s, key)
  }

  predicate ReadersCurrent(w: World) {
    forall a :: a in w.readers ==>
      w.readers[a].id in w.s.bookings && w.readers[a].start == w.s.bookings[w.readers[a].id].startTime
  }

  predicate QueueImmediate(s: State) {
    forall key :: key in s.queued ==> !IsReminder(key.kind)
  }

  predicate Punctual(m: Message) {
    IsReminder(m.key.kind) ==> m.at >= m.booking.startTime - OffsetMs(m.key.kind)
  }

  predicate Timely(w: World) {
    RowsTimely(w.s) && ListedOpen(w) && ReadersCurrent(w) && QueueImmediate(w.s) && forall m :: m in w.s.log ==> Punctual(m)
  }

  lemma DeliveryKeepsTimely(w: World, key: Key, muted: bool, chatting: bool)
    requires Timely(w) && (IsReminder(key.kind) ==> WindowOpen(w.s, key))
    ensures Timely(w.(s := AfterDelivery(w.s, key, muted, chatting)))
  {
    DeliveryAppends(w.s, key, muted, chatting);
  }

  lemma ReminderKeepsRowsTimely(s: State, id: nat, client: nat, kind: Kind)
    requires RowsTimely(s) && IsReminder(kind) && id in s.bookings
    ensures RowsTimely(AfterReminder(s, id, client, s.bookings[id].startTime, kind))
  {
  }

  lemma StepKeepsTimely(w: World, e: Event)
    requires Timely(w)
    ensures Timely(Apply(w, e))
  {
    match e {
      case RemindWrite(a, kind) =>
        if a in w.readers && IsReminder(kind) { ReminderKeepsRowsTimely(w.s, w.readers[a].id, w.readers[a].client, kind); }
      case SweepDeliver(a, key, muted, chatting) =>
        if a in w.sweeps && key in w.sweeps[a] { DeliveryKeepsTimely(w, key, muted, chatting); }
      case QueueDeliver(key, muted, chatting) =>
        if key in w.s.queued { DeliveryKeepsTimely(w, key, muted, chatting); }
      case _ =>
    }
  }

  lemma {:induction false} RunKeepsTimely(w: World, events: seq<Event>)
    requires Timely(w)
    ensures Timely(Run(w, events))
    decreases |events|
  {
    if events == [] {
    } else {
      StepKeepsTimely(w, events[0]);
      RunKeepsTimely(Apply(w, events[0]), events[1..]);
    }
  }

  /** Over any run, no reminder goes out before the booking's start minus the reminder's offset. */
  lemma RemindersAreNeverEarly(clock: int, deferMs: nat, events: seq<Event>, m: Message)
    requires m in Run(Start(clock, deferMs), events).s.log && IsReminder(m.key.kind)
    ensures m.at >= m.booking.startTime - OffsetMs(m.key.kind)
  {
    RunKeepsTimely(Start(clock, deferMs), events);
    assert Punctual(m);
  }

  // ---------- What a change of start would have to respect ----------

  /** The write of a new start, which the time-changed handler expects to have happened; no code makes it yet. */
  function StartWritten(w: World, id: nat, start: int): World
    requires id in w.s.bookings
  {
    w.(s := w.s.(bookings := w.s.bookings[id := w.s.bookings[id].(startTime := start)]))
  }

  /** No scheduler holds the old start, and every reminder a sweep has in hand is open for the new one. */
  predicate HandsClear(w: World, id: nat, start: int) {
    && (forall a :: a in w.readers && w.readers[a].id == id ==> w.readers[a].start == start)
    && (forall a, key :: a in w.sweeps && key in w.sweeps[a] && IsReminder(key.kind) && key.booking == id ==>
          w.s.clock >= start - OffsetMs(key.kind))
  }

  /** No reminder row of the booking is due before its new window. */
  predicate RowsClear(s: State, id: nat, start: int) {
    forall key :: key in s.rows && key.booking == id && IsReminder(key.kind) && s.rows[key].status == Scheduled ==>
      s.rows[key].scheduledFor >= start - OffsetMs(key.kind)
  }

  lemma RowsAfterStart(w: World, id: nat, start: int)
    requires RowsTimely(w.s) && id in w.s.bookings
    ensures RowsTimely(StartWritten(w, id, start).s) <==> RowsClear(w.s, id, start)
  {
    var z := StartWritten(w, id, start).s;
    if RowsClear(w.s, id, start) {
      forall key | key in z.rows ensures RowTimely(z, key) {
        assert RowTimely(w.s, key);
      }
    } else {
      var key :| key in w.s.rows && key.booking == id && IsReminder(key.kind) && w.s.rows[key].status == Scheduled
                 && w.s.rows[key].scheduledFor < start - OffsetMs(key.kind);
      assert !RowTimely(z, key);
    }
  }

  lemma HandsAfterStart(w: World, id: nat, start: int)
    requires ListedOpen(w) && ReadersCurrent(w) && id in w.s.bookings
    ensures var z := StartWritten(w, id, start); ListedOpen(z) && ReadersCurrent(z) <==> HandsClear(w, id, start)
  {
    var z := StartWritten(w, id, start);
    if ListedOpen(z) && ReadersCurrent(z) {
      forall a, key | a in w.sweeps && key in w.sweeps[a] && IsReminder(key.kind) && key.booking == id
        ensures w.s.clock >= start - OffsetMs(key.kind)
      {
        assert WindowOpen(z.s, key);
      }
    }
    if HandsClear(w, id, start) {
      forall a, key | a in z.sweeps && key in z.sweeps[a] && IsReminder(key.kind) ensures WindowOpen(z.s, key) {
        assert WindowOpen(w.s, key);
      }
    }
  }

  /** A new start leaves the outbox timely exactly when no hand and no row still goes by the old one. */
  lemma StartWriteKeepsTimelyIff(w: World, id: nat, start: int)
    requires Timely(w) && id in w.s.bookings
    ensures Timely(StartWritten(w, id, start)) <==> HandsClear(w, id, start) && RowsClear(w.s, id, start)
  {
    RowsAfterStart(w, id, start);
    HandsAfterStart(w, id, start);
  }

  /** The handler's first step, calling off the pending rows, mends the rows but not the hands. */
  lemma CallingOffMendsRowsOnly(w: World, id: nat, start: int)
    requires Timely(w) && id in w.s.bookings
    ensures Timely(Apply(StartWritten(w, id, start), CancelPending(id))) <==> HandsClear(w, id, start)
  {
    var calledOff := Apply(w, CancelPending(id));
    StepKeepsTimely(w, CancelPending(id));
    assert RowsClear(calledOff.s, id, start);
    assert Apply(StartWritten(w, id, start), CancelPending(id)) == StartWritten(calledOff, id, start);
    StartWriteKeepsTimelyIff(calledOff, id, start);
  }
}

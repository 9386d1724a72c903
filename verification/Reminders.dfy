/** Who is reminded, when, and what becomes of a notification that is delivered: one delivery, and every run. */
module Reminders {
  import opened Common
  import opened Outbox
  import opened OutboxProtocol

  const HOUR := 3_600_000

  function HoursAhead(kind: Kind): int {
    match kind
    case Reminder48h => 48
    case Reminder2h => 2
    case _ => 0
  }

  // ---------- One delivery ----------

  predicate PeopleKnown(s: State, key: Key) {
    key.booking in s.bookings && s.bookings[key.booking].client.Some? && s.bookings[key.booking].stylist.Some?
  }

  predicate ToClient(s: State, key: Key) {
    PeopleKnown(s, key) && s.bookings[key.booking].client == Some(key.recipient)
  }

  predicate ToStylist(s: State, key: Key) {
    PeopleKnown(s, key) && s.bookings[key.booking].stylist == Some(key.recipient)
  }

  /** The message still fits the booking's status. */
  predicate StillFits(s: State, key: Key) {
    && PeopleKnown(s, key)
    && (key.kind in {Reminder48h, Reminder2h} ==> s.bookings[key.booking].status == Confirmed)
    && (key.kind == Cancellation ==> s.bookings[key.booking].status == BookingStatus.Cancelled)
  }

  predicate Pending(s: State, key: Key) {
    key in s.rows && s.rows[key].status == Scheduled
  }

  /** A reminder to the client asks the client's settings; every other message goes out regardless. */
  predicate AsksClient(s: State, key: Key) {
    key.kind in {Reminder48h, Reminder2h} && ToClient(s, key)
  }

  /** A pending notification goes out exactly if it fits, to a person of the booking, and the client does not mind. */
  lemma GoesOutIff(s: State, key: Key, muted: bool, chatting: bool)
    ensures
      var z := AfterDelivery(s, key, muted, chatting);
      && (z.log != s.log <==>
            && Pending(s, key) && StillFits(s, key) && (ToClient(s, key) || ToStylist(s, key))
            && (AsksClient(s, key) ==> !muted && !chatting))
      && (z.log != s.log ==>
            && key in z.rows && z.rows[key].status == Sent
            && z.log == s.log + [Message(key, s.clock, s.bookings[key.booking])])
  {
  }

  /** What a pending notification's row becomes when it does not go out; it stays pending only while the client chats. */
  lemma DeliverySettlesIff(s: State, key: Key, muted: bool, chatting: bool)
    requires Pending(s, key)
    ensures
      var z := AfterDelivery(s, key, muted, chatting);
      && key in z.rows
      && (z.rows[key].status == Failed <==> !PeopleKnown(s, key) || (StillFits(s, key) && !ToClient(s, key) && !ToStylist(s, key)))
      && (z.rows[key].status == Skipped <==> PeopleKnown(s, key) && (!StillFits(s, key) || (AsksClient(s, key) && muted)))
      && (z.rows[key].status == Scheduled <==> StillFits(s, key) && AsksClient(s, key) && !muted && chatting)
      && (z.rows[key].status == Scheduled ==> z.rows[key].scheduledFor == s.clock + s.deferMs)
      && forall other :: other in s.rows && other != key ==> other in z.rows && z.rows[other] == s.rows[other]
  {
  }

  // ---------- Runs ----------

  predicate DeliversTo(e: Event, key: Key) {
    (e.SweepDeliver? || e.QueueDeliver?) && e.key == key
  }

  predicate Undisturbed(e: Event, key: Key) {
    DeliversTo(e, key) && !e.muted && !e.chatting
  }

  lemma StepSends(w: World, e: Event, m: Message)
    requires m in Apply(w, e).s.log && m !in w.s.log
    requires m.key.kind in {Reminder48h, Reminder2h} && m.booking.client == Some(m.key.recipient)
    ensures Undisturbed(e, m.key)
  {
    if e.SweepDeliver? || e.QueueDeliver? {
      DeliveryAppends(w.s, e.key, e.muted, e.chatting);
      GoesOutIff(w.s, e.key, e.muted, e.chatting);
    }
  }

  lemma {:induction false} SentByADelivery(w: World, events: seq<Event>, m: Message)
    requires m in Run(w, events).s.log && m !in w.s.log
    requires m.key.kind in {Reminder48h, Reminder2h} && m.booking.client == Some(m.key.recipient)
    ensures exists e :: e in events && Undisturbed(e, m.key)
    decreases |events|
  {
    if events == [] {
    } else if m in Apply(w, events[0]).s.log {
      StepSends(w, events[0], m);
      assert events[0] in events;
    } else {
      SentByADelivery(Apply(w, events[0]), events[1..], m);
      var e :| e in events[1..] && Undisturbed(e, m.key);
      assert e in events;
    }
  }

  /** Over every run, a reminder reaches the client only by a delivery that found reminders wanted and no chat going on. */
  lemma RemindersReachTheWilling(clock: int, deferMs: nat, events: seq<Event>, m: Message)
    requires m in Run(Start(clock, deferMs), events).s.log
    requires m.key.kind in {Reminder48h, Reminder2h} && m.booking.client == Some(m.key.recipient)
    ensures exists e :: e in events && Undisturbed(e, m.key)
  {
    SentByADelivery(Start(clock, deferMs), events, m);
  }

  /** A due reminder of a confirmed booking is listed by the next sweep that asks for it, and goes out if undisturbed. */
  lemma DueReminderGoesOut(w: World, a: nat, keys: set<Key>, key: Key)
    requires key in keys && Pending(w.s, key) && w.s.rows[key].scheduledFor <= w.s.clock
    requires StillFits(w.s, key) && (ToClient(w.s, key) || ToStylist(w.s, key))
    ensures
      var z := Apply(Apply(w, SweepRead(a, keys)), SweepDeliver(a, key, false, false)).s;
      && z.log == w.s.log + [Message(key, w.s.clock, w.s.bookings[key.booking])]
      && key in z.rows && z.rows[key].status == Sent
  {
    var listed := Apply(w, SweepRead(a, keys));
    assert key in listed.sweeps[a];
    GoesOutIff(w.s, key, false, false);
  }

  /** News of a booking is queued when it is scheduled, and goes out when the queue delivers it, if it fits. */
  lemma QueuedNewsGoesOut(w: World, key: Key, muted: bool, chatting: bool)
    requires key.kind !in {Reminder48h, Reminder2h} && (key in w.s.rows ==> w.s.rows[key].status != Sent)
    requires StillFits(w.s, key) && (ToClient(w.s, key) || ToStylist(w.s, key))
    ensures
      var z := Apply(Apply(w, Immediate(key)), QueueDeliver(key, muted, chatting)).s;
      && z.log == w.s.log + [Message(key, w.s.clock, w.s.bookings[key.booking])]
      && key in z.rows && z.rows[key].status == Sent
  {
    var queued := Apply(w, Immediate(key));
    assert Pending(queued.s, key) && queued.s.bookings == w.s.bookings && queued.s.log == w.s.log;
    GoesOutIff(queued.s, key, muted, chatting);
  }

  /** A row that is not due is not listed by any sweep. */
  lemma SweepsListOnlyDue(w: World, a: nat, keys: set<Key>, key: Key)
    ensures
      key in Apply(w, SweepRead(a, keys)).sweeps[a]
      <==> key in keys && Pending(w.s, key) && w.s.rows[key].scheduledFor <= w.s.clock
  {
  }

  /** The booking engine may change anything about a booking but its start. */
  lemma EngineChangesAllButStart(w: World, id: nat, b: Booking)
    ensures
      var z := Apply(w, Record(id, b)).s.bookings;
      id in z && (z[id] == b <==> id !in w.s.bookings || w.s.bookings[id].startTime == b.startTime || w.s.bookings[id] == b)
  {
  }

  // ---------- Deferrals ----------

  /** The reminder's time has come, and while it is pending it is not due before a given time. */
  predicate WaitsUntil(w: World, key: Key, until: int) {
    && key in w.s.rows && WindowOpen(w.s, key)
    && (w.s.rows[key].status == Scheduled ==> w.s.rows[key].scheduledFor >= until)
    && w.s.clock + w.s.deferMs >= until
  }

  lemma StepKeepsWaiting(w: World, e: Event, key: Key, until: int)
    requires Timely(w) && IsReminder(key.kind) && WaitsUntil(w, key, until)
    ensures WaitsUntil(Apply(w, e), key, until)
  {
    match e {
      case SweepDeliver(a, k, muted, chatting) => DeliveryWaits(w.s, k, muted, chatting, key, until);
      case QueueDeliver(k, muted, chatting) => DeliveryWaits(w.s, k, muted, chatting, key, until);
      case RemindWrite(a, kind) =>
        if a in w.readers && IsReminder(kind) { OpenWindowsAreNotRescheduled(w.s, w.readers[a].id, w.readers[a].client, kind, key); }
      case _ =>
    }
  }

  lemma DeliveryWaits(s: State, k: Key, muted: bool, chatting: bool, key: Key, until: int)
    requires key in s.rows && (s.rows[key].status == Scheduled ==> s.rows[key].scheduledFor >= until) && s.clock + s.deferMs >= until
    ensures
      var z := AfterDelivery(s, k, muted, chatting);
      && key in z.rows && (z.rows[key].status == Scheduled ==> z.rows[key].scheduledFor >= until)
      && z.clock == s.clock && z.deferMs == s.deferMs && z.bookings == s.bookings
  {
  }

  lemma OpenWindowsAreNotRescheduled(s: State, id: nat, client: nat, kind: Kind, key: Key)
    requires id in s.bookings && WindowOpen(s, key) && key in s.rows
    ensures
      var z := AfterReminder(s, id, client, s.bookings[id].startTime, kind);
      && key in z.rows && z.rows[key] == s.rows[key] && z.clock == s.clock && z.deferMs == s.deferMs && z.bookings == s.bookings
  {
  }

  lemma {:induction false} RunKeepsWaiting(w: World, events: seq<Event>, key: Key, until: int)
    requires Timely(w) && IsReminder(key.kind) && WaitsUntil(w, key, until)
    ensures WaitsUntil(Run(w, events), key, until)
    decreases |events|
  {
    if events == [] {
    } else {
      StepKeepsTimely(w, events[0]);
      StepKeepsWaiting(w, events[0], key, until);
      RunKeepsWaiting(Apply(w, events[0]), events[1..], key, until);
    }
  }

  /** A sweep delivers the reminder while the client chats. */
  predicate Defers(w: World, a: nat, key: Key) {
    && a in w.sweeps && key in w.sweeps[a] && Pending(w.s, key) && StillFits(w.s, key) && AsksClient(w.s, key)
  }

  /**
   * Over every run, a reminder put off because the client was chatting is not due again before the deferral ends, whatever
   * schedulers, cancellations and other deliveries do.
   */
  lemma DeferredReminderWaits(clock: int, deferMs: nat, before: seq<Event>, a: nat, key: Key, after: seq<Event>)
    requires Defers(Run(Start(clock, deferMs), before), a, key)
    ensures
      var w := Run(Start(clock, deferMs), before);
      var z := Run(Apply(w, SweepDeliver(a, key, false, true)), after);
      z.s.clock < w.s.clock + deferMs ==> !Due(z.s, key)
  {
    var w := Run(Start(clock, deferMs), before);
    RunKeepsTimely(Start(clock, deferMs), before);
    RunKeepsDeferral(Start(clock, deferMs), before);
    DeliverySettlesIff(w.s, key, false, true);
    var e := SweepDeliver(a, key, false, true);
    StepKeepsTimely(w, e);
    RunKeepsWaiting(Apply(w, e), after, key, w.s.clock + deferMs);
  }

  lemma {:induction false} RunKeepsDeferral(w: World, events: seq<Event>)
    ensures Run(w, events).s.deferMs == w.s.deferMs
    decreases |events|
  {
    if events == [] {
    } else {
      RunKeepsDeferral(Apply(w, events[0]), events[1..]);
    }
  }

  // ---------- Times ----------

  /** Over every run, no reminder goes out earlier than its hours before the appointment. */
  lemma RemindersKeepTheirHours(clock: int, deferMs: nat, events: seq<Event>, m: Message)
    requires m in Run(Start(clock, deferMs), events).s.log && m.key.kind in {Reminder48h, Reminder2h}
    ensures m.at >= m.booking.startTime - HoursAhead(m.key.kind) * HOUR
  {
    RemindersAreNeverEarly(clock, deferMs, events, m);
  }

  /** After the reminder sweep, every listed confirmed booking's reminder that is still ahead is set for its hours, or sent. */
  lemma SweepSetsTheHours(s: State, ids: seq<nat>, id: nat, kind: Kind)
    requires id in ids && kind in {Reminder48h, Reminder2h} && id in AfterEnsure(s, ids).bookings
    ensures
      var z := AfterEnsure(s, ids);
      var b := z.bookings[id];
      b.client.Some? && b.stylist.Some? && b.status == Confirmed && b.startTime - HoursAhead(kind) * HOUR > z.clock ==>
        var key := Key(id, b.client.value, kind);
        key in z.rows && (z.rows[key].status == Sent || z.rows[key] == Row(Scheduled, b.startTime - HoursAhead(kind) * HOUR))
  {
    EnsureBooksEveryReminder(s, ids, id, kind);
  }

  /** The sweep sets a row only for a reminder still ahead, to the client of a listed confirmed booking. */
  lemma {:induction false} SweepSetsNothingElse(s: State, ids: seq<nat>, key: Key)
    requires key in AfterEnsure(s, ids).rows && (key !in s.rows || s.rows[key] != AfterEnsure(s, ids).rows[key])
    ensures
      && key.booking in ids && key.kind in {Reminder48h, Reminder2h} && ToClient(s, key)
      && s.bookings[key.booking].status == Confirmed
      && s.bookings[key.booking].startTime - HoursAhead(key.kind) * HOUR > s.clock
    decreases |ids|
  {
    if ids == [] {
    } else {
      var init, last := ids[..|ids| - 1], ids[|ids| - 1];
      var before := AfterEnsure(s, init);
      SweepKeepsTheRest(s, init);
      if key in before.rows && before.rows[key] == AfterEnsure(s, ids).rows[key] {
        SweepSetsNothingElse(s, init, key);
      } else {
        RemindersSetOnlyTheirs(before, last, key);
      }
    }
  }

  lemma {:induction false} SweepKeepsTheRest(s: State, ids: seq<nat>)
    ensures AfterEnsure(s, ids).bookings == s.bookings && AfterEnsure(s, ids).clock == s.clock
    decreases |ids|
  {
    if ids == [] {
    } else {
      SweepKeepsTheRest(s, ids[..|ids| - 1]);
    }
  }

  lemma RemindersSetOnlyTheirs(s: State, id: nat, key: Key)
    requires key in AfterReminders(s, id).rows && (key !in s.rows || s.rows[key] != AfterReminders(s, id).rows[key])
    ensures
      && key.booking == id && key.kind in {Reminder48h, Reminder2h} && ToClient(s, key)
      && s.bookings[id].status == Confirmed && s.bookings[id].startTime - HoursAhead(key.kind) * HOUR > s.clock
  {
  }
}

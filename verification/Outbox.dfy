/**
 * The notification outbox: one row per booking, recipient and kind of message, moved through its statuses by
 * scheduling, cancelling, deferring and delivering. Each upsert and each delivery is one step; a sweep lists the due
 * rows in one step and delivers each of them in a later one. What a delivery learns from preferences and
 * conversations is a parameter of that delivery.
 */
module Outbox {
  import opened Common

  datatype Kind = Confirmation | Cancellation | NoShowNotice | Reminder48h | Reminder2h

  datatype Booking = Booking(client: Option<nat>, stylist: Option<nat>, status: BookingStatus, startTime: int)

  datatype Key = Key(booking: nat, recipient: nat, kind: Kind)

  datatype RowStatus = Scheduled | Sent | CalledOff | Skipped | Failed

  datatype Row = Row(status: RowStatus, scheduledFor: int)

  /** A message that went out, with the booking as it was when it went. */
  datatype Message = Message(key: Key, at: int, booking: Booking)

  datatype State = State(
    clock: int,
    deferMs: nat,
    bookings: map<nat, Booking>,
    rows: map<Key, Row>,
    queued: set<Key>,        // delivery jobs; the queue may run each any number of times
    log: seq<Message>)

  datatype Decision =
    | NotScheduled | BookingNotFound | BookingNotConfirmed | BookingNotCancelled | UnknownRecipient
    | RemindersDisabled | DeferredActiveConversation | Delivered

  predicate IsReminder(kind: Kind) {
    kind == Reminder48h || kind == Reminder2h
  }

  const REMINDER_KINDS: seq<Kind> := [Reminder48h, Reminder2h]

  function OffsetMs(kind: Kind): int {
    (if kind == Reminder48h then 48 else if kind == Reminder2h then 2 else 0) * 60 * 60 * 1000
  }

  function CalculateReminderScheduledFor(start: int, kind: Kind, now: int): Option<int> {
    if start - OffsetMs(kind) <= now then None else Some(start - OffsetMs(kind))
  }

  /** The booking with both its people known; otherwise nothing can be sent about it. */
  function Context(s: State, id: nat): Option<Booking> {
    if id in s.bookings && s.bookings[id].client.Some? && s.bookings[id].stylist.Some? then Some(s.bookings[id]) else None
  }

  // ---------- What each step does ----------

  predicate SentAlready(rows: map<Key, Row>, key: Key) {
    key in rows && rows[key].status == Sent
  }

  function Upserted(rows: map<Key, Row>, key: Key, scheduledFor: int): map<Key, Row> {
    if key in rows && rows[key].status == Sent then rows else rows[key := Row(Scheduled, scheduledFor)]
  }

  function CalledOffFor(rows: map<Key, Row>, id: nat): map<Key, Row> {
    map key | key in rows ::
      if key.booking == id && rows[key].status == Scheduled then rows[key].(status := CalledOff) else rows[key]
  }

  function AfterImmediate(s: State, key: Key): State {
    s.(rows := Upserted(s.rows, key, s.clock), queued := s.queued + {key})
  }

  /** One reminder of a booking, from the start time the scheduler has read. */
  function AfterReminder(s: State, id: nat, client: nat, start: int, kind: Kind): State {
    match CalculateReminderScheduledFor(start, kind, s.clock)
    case None => s
    case Some(at) => s.(rows := Upserted(s.rows, Key(id, client, kind), at))
  }

  function AfterReminders(s: State, id: nat): State {
    match Context(s, id)
    case None => s
    case Some(b) =>
      if b.status != Confirmed then s
      else AfterReminder(AfterReminder(s, id, b.client.value, b.startTime, Reminder48h), id, b.client.value, b.startTime, Reminder2h)
  }

  function AfterBookingConfirmed(s: State, id: nat): State {
    match Context(s, id)
    case None => s
    case Some(b) =>
      if b.status != Confirmed then s
      else
        var told := AfterImmediate(AfterImmediate(s, Key(id, b.client.value, Confirmation)), Key(id, b.stylist.value, Confirmation));
        AfterReminders(told, id)
  }

  function AfterBookingCancelled(s: State, id: nat): State {
    var calledOff := s.(rows := CalledOffFor(s.rows, id));
    match Context(s, id)
    case None => calledOff
    case Some(b) =>
      AfterImmediate(AfterImmediate(calledOff, Key(id, b.client.value, Cancellation)), Key(id, b.stylist.value, Cancellation))
  }

  function AfterEnsure(s: State, ids: seq<nat>): State {
    if ids == [] then s else AfterReminders(AfterEnsure(s, ids[..|ids| - 1]), ids[|ids| - 1])
  }

  function Decide(s: State, key: Key, muted: bool, chatting: bool): Decision {
    if key !in s.rows || s.rows[key].status != Scheduled then NotScheduled
    else match Context(s, key.booking)
      case None => BookingNotFound
      case Some(b) =>
        if IsReminder(key.kind) && b.status != Confirmed then BookingNotConfirmed
        else if key.kind == Cancellation && b.status != Cancelled then BookingNotCancelled
        else if key.recipient != b.client.value && key.recipient != b.stylist.value then UnknownRecipient
        else if key.recipient == b.client.value && IsReminder(key.kind) && muted then RemindersDisabled
        else if key.recipient == b.client.value && IsReminder(key.kind) && chatting then DeferredActiveConversation
        else Delivered
  }

  function Marked(s: State, key: Key, status: RowStatus): State
    requires key in s.rows
  {
    s.(rows := s.rows[key := s.rows[key].(status := status)])
  }

  function AfterDelivery(s: State, key: Key, muted: bool, chatting: bool): State {
    match Decide(s, key, muted, chatting)
    case NotScheduled => s
    case BookingNotFound => Marked(s, key, Failed)
    case BookingNotConfirmed => Marked(s, key, Skipped)
    case BookingNotCancelled => Marked(s, key, Skipped)
    case UnknownRecipient => Marked(s, key, Failed)
    case RemindersDisabled => Marked(s, key, Skipped)
    case DeferredActiveConversation => s.(rows := s.rows[key := s.rows[key].(scheduledFor := s.clock + s.deferMs)])
    case Delivered => Marked(s, key, Sent).(log := s.log + [Message(key, s.clock, s.bookings[key.booking])])
  }

  predicate Due(s: State, key: Key) {
    key in s.rows && s.rows[key].status == Scheduled && s.rows[key].scheduledFor <= s.clock
  }

  class NotificationsService {
    const deferMs: nat
    var clock: int
    var bookings: map<nat, Booking>
    var rows: map<Key, Row>
    var queued: set<Key>
    var log: seq<Message>

    constructor (clock: int, deferMs: nat)
      ensures Now() == Init(clock, deferMs)
    {
      this.clock, this.deferMs := clock, deferMs;
      bookings, rows, queued, log := map[], map[], {}, [];
    }

    function Now(): State
      reads this
    {
      State(clock, deferMs, bookings, rows, queued, log)
    }

    /** A sent message is never scheduled again; any other row, called off or skipped included, is. */
    method UpsertScheduledNotification(key: Key, scheduledFor: int)
      modifies this`rows
      ensures rows == Upserted(old(rows), key, scheduledFor)
      ensures SentAlready(rows, key) <==> old(SentAlready(rows, key))
      ensures key in rows && (rows[key].status == Sent || rows[key] == Row(Scheduled, scheduledFor))
      ensures forall k :: k != key ==> (k in rows <==> k in old(rows)) && (k in rows ==> rows[k] == old(rows)[k])
    {
      if key in rows && rows[key].status == Sent {
        return;
      }
      rows := rows[key := Row(Scheduled, scheduledFor)];
    }

    /** Nothing is pending for the booking afterwards; what was sent, skipped or failed, and other bookings, stay. */
    method CancelPendingForBooking(id: nat)
      modifies this`rows
      ensures rows == CalledOffFor(old(rows), id)
      ensures forall key :: key in rows && key.booking == id ==> rows[key].status != Scheduled
      ensures rows.Keys == old(rows.Keys)
      ensures forall key :: key in rows && (key.booking != id || old(rows)[key].status != Scheduled) ==> rows[key] == old(rows)[key]
    {
      rows := map key | key in rows ::
        if key.booking == id && rows[key].status == Scheduled then rows[key].(status := CalledOff) else rows[key];
    }

    method ScheduleImmediate(key: Key)
      modifies this`rows, this`queued
      ensures Now() == AfterImmediate(old(Now()), key)
    {
      UpsertScheduledNotification(key, clock);
      queued := queued + {key};
    }

    method ScheduleRemindersForBooking(id: nat)
      modifies this`rows
      ensures Now() == AfterReminders(old(Now()), id)
    {
      if id !in bookings || bookings[id].client.None? || bookings[id].stylist.None? || bookings[id].status != Confirmed {
        return;
      }
      var client, start := bookings[id].client.value, bookings[id].startTime;
      for i := 0 to |REMINDER_KINDS|
        invariant i == 0 ==> Now() == old(Now())
        invariant i == 1 ==> Now() == AfterReminder(old(Now()), id, client, start, Reminder48h)
        invariant i == 2 ==> Now() == old(AfterReminders(Now(), id))
      {
        var at := CalculateReminderScheduledFor(start, REMINDER_KINDS[i], clock);
        if at.Some? {
          UpsertScheduledNotification(Key(id, client, REMINDER_KINDS[i]), at.value);
        }
      }
    }

    /** A confirmed booking's announcements: to both people at once, and the reminders ahead. */
    method OnBookingConfirmed(id: nat)
      modifies this`rows, this`queued
      ensures Now() == AfterBookingConfirmed(old(Now()), id)
    {
      if id !in bookings || bookings[id].client.None? || bookings[id].stylist.None? || bookings[id].status != Confirmed {
        return;
      }
      ScheduleImmediate(Key(id, bookings[id].client.value, Confirmation));
      ScheduleImmediate(Key(id, bookings[id].stylist.value, Confirmation));
      ScheduleRemindersForBooking(id);
    }

    /** A cancelled booking: whatever was pending is called off, and both people are told. */
    method OnBookingCancelled(id: nat)
      modifies this`rows, this`queued
      ensures Now() == AfterBookingCancelled(old(Now()), id)
    {
      CancelPendingForBooking(id);
      if id !in bookings || bookings[id].client.None? || bookings[id].stylist.None? {
        return;
      }
      ScheduleImmediate(Key(id, bookings[id].client.value, Cancellation));
      ScheduleImmediate(Key(id, bookings[id].stylist.value, Cancellation));
    }

    /** The reminder sweep, over the bookings its query returned. */
    method EnsureReminderSchedules(ids: seq<nat>)
      modifies this`rows
      ensures Now() == AfterEnsure(old(Now()), ids)
    {
      assert ids[..0] == [];
      for i := 0 to |ids|
        invariant Now() == AfterEnsure(old(Now()), ids[..i])
      {
        assert ids[..i + 1][..i] == ids[..i];
        ScheduleRemindersForBooking(ids[i]);
      }
      assert ids[..|ids|] == ids;
    }

    method DeliverNotification(key: Key, muted: bool, chatting: bool) returns (d: Decision)
      modifies this`rows, this`log
      ensures Now() == AfterDelivery(old(Now()), key, muted, chatting)
      ensures d == Decide(old(Now()), key, muted, chatting)
    {
      if key !in rows || rows[key].status != Scheduled {
        return NotScheduled;
      }
      var row := rows[key];
      if key.booking !in bookings || bookings[key.booking].client.None? || bookings[key.booking].stylist.None? {
        rows := rows[key := row.(status := Failed)];
        return BookingNotFound;
      }
      var b := bookings[key.booking];
      if IsReminder(key.kind) && b.status != Confirmed {
        rows := rows[key := row.(status := Skipped)];
        return BookingNotConfirmed;
      }
      if key.kind == Cancellation && b.status != Cancelled {
        rows := rows[key := row.(status := Skipped)];
        return BookingNotCancelled;
      }
      var isClient := key.recipient == b.client.value;
      if !isClient && key.recipient != b.stylist.value {
        rows := rows[key := row.(status := Failed)];
        return UnknownRecipient;
      }
      if isClient && IsReminder(key.kind) && muted {
        rows := rows[key := row.(status := Skipped)];
        return RemindersDisabled;
      }
      if isClient && IsReminder(key.kind) && chatting {
        rows := rows[key := row.(scheduledFor := clock + deferMs)];
        return DeferredActiveConversation;
      }
      log := log + [Message(key, clock, b)];
      rows := rows[key := row.(status := Sent)];
      return Delivered;
    }
  }

  function Init(clock: int, deferMs: nat): State {
    State(clock, deferMs, map[], map[], {}, [])
  }

  /** A confirmed booking's reminder whose time is still ahead is scheduled for exactly that time, or already sent. */
  predicate Booked(s: State, id: nat, kind: Kind) {
    && Context(s, id).Some? && s.bookings[id].status == Confirmed
    && CalculateReminderScheduledFor(s.bookings[id].startTime, kind, s.clock).Some? ==>
      var key := Key(id, s.bookings[id].client.value, kind);
      key in s.rows && (s.rows[key].status == Sent || s.rows[key] == Row(Scheduled, s.bookings[id].startTime - OffsetMs(kind)))
  }

  lemma RemindersKeepBooked(s: State, id: nat, other: nat, kind: Kind)
    requires IsReminder(kind)
    ensures Booked(AfterReminders(s, id), id, kind)
    ensures Booked(s, other, kind) ==> Booked(AfterReminders(s, id), other, kind)
  {
  }

  /** The reminder sweep books every reminder of every listed booking; no booking of the list undoes another. */
  lemma {:induction false} EnsureBooksEveryReminder(s: State, ids: seq<nat>, id: nat, kind: Kind)
    requires id in ids && IsReminder(kind)
    ensures Booked(AfterEnsure(s, ids), id, kind)
    decreases |ids|
  {
    var init, last := ids[..|ids| - 1], ids[|ids| - 1];
    if id == last {
    } else {
      EnsureBooksEveryReminder(s, init, id, kind);
    }
    RemindersKeepBooked(AfterEnsure(s, init), last, id, kind);
  }

  /** A message of some kind to a person of the booking is queued and due now, or already sent. */
  predicate Told(s: State, key: Key) {
    key in s.queued && (SentAlready(s.rows, key) || (key in s.rows && s.rows[key] == Row(Scheduled, s.clock)))
  }

  /** After a confirmation both people are told and every reminder ahead is booked. */
  lemma ConfirmationTellsAndBooks(s: State, id: nat, kind: Kind)
    requires Context(s, id).Some? && s.bookings[id].status == Confirmed && IsReminder(kind)
    ensures
      var z := AfterBookingConfirmed(s, id);
      && Booked(z, id, kind)
      && Told(z, Key(id, s.bookings[id].client.value, Confirmation)) && Told(z, Key(id, s.bookings[id].stylist.value, Confirmation))
  {
    var b := s.bookings[id];
    var told := AfterImmediate(AfterImmediate(s, Key(id, b.client.value, Confirmation)), Key(id, b.stylist.value, Confirmation));
    RemindersKeepBooked(told, id, id, kind);
    RemindersKeepTold(told, id, Key(id, b.client.value, Confirmation));
    RemindersKeepTold(told, id, Key(id, b.stylist.value, Confirmation));
  }

  lemma RemindersKeepTold(s: State, id: nat, key: Key)
    requires Told(s, key) && !IsReminder(key.kind)
    ensures Told(AfterReminders(s, id), key)
  {
  }

  /** After a cancellation the only pending messages of the booking are the two that announce it. */
  lemma CancellationLeavesOnlyItsNews(s: State, id: nat, key: Key)
    requires Context(s, id).Some? && key.booking == id
    ensures
      var z := AfterBookingCancelled(s, id);
      && (key in z.rows && z.rows[key].status == Scheduled ==> key.kind == Cancellation)
      && Told(z, Key(id, s.bookings[id].client.value, Cancellation)) && Told(z, Key(id, s.bookings[id].stylist.value, Cancellation))
  {
    var b := s.bookings[id];
    var calledOff := s.(rows := CalledOffFor(s.rows, id));
    assert key in calledOff.rows ==> calledOff.rows[key].status != Scheduled;
  }
}

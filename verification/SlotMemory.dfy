/**
 * What the receptionist remembers from its own earlier turns. Each turn's parsed output writes some fields; a field
 * given as null or empty is written as absent. A change of style, size or length forgets the price and hold fields. A
 * turn is stored with the whole memory under its output, empty fields dropped, so it can bring back what it forgets.
 * The normal form of a name (trimmed, lower case) is a parameter.
 */
module SlotMemory {
  import opened Common

  datatype Field =
    | StyleName | SizeTier | LengthTier | PreferredDate | ClientName
    | ServiceOfferingId | BookingId | SelectedSlotStart | SelectedSlotIndex | QuotedPrice | QuotedDurationMinutes
    | AddonNames | AddonsConfirmed | BookingStatus

  datatype Value = Text(text: string) | Number(number: int) | Flag(flag: bool) | Names(names: seq<string>)

  type Slots = map<Field, Value>

  type Update = map<Field, Option<Value>>

  datatype Sender = Client | Stylist | Ai | System

  /** The output is missing when the message has none or when it does not parse. */
  datatype Message = Message(sender: Sender, output: Option<Update>)

  const STALE_SLOT_FIELDS: seq<Field> :=
    [ServiceOfferingId, BookingId, SelectedSlotStart, SelectedSlotIndex, QuotedPrice, QuotedDurationMinutes, AddonNames,
     AddonsConfirmed, BookingStatus]

  predicate Stale(f: Field) {
    f in STALE_SLOT_FIELDS
  }

  function Lookup(slots: Slots, f: Field): Option<Value> {
    if f in slots then Some(slots[f]) else None
  }

  function Written(u: Update, f: Field): Option<Value> {
    if f in u then u[f] else None
  }

  /** A text that is there and not empty. */
  function Truthy(v: Option<Value>): Option<string> {
    if v.Some? && v.value.Text? && v.value.text != "" then Some(v.value.text) else None
  }

  predicate Differ(norm: string -> string, previous: Option<string>, next: Option<string>) {
    previous.Some? && next.Some? && norm(previous.value) != norm(next.value)
  }

  function Updates(messages: seq<Message>): seq<Update> {
    if messages == [] then []
    else
      var m := messages[|messages| - 1];
      Updates(messages[..|messages| - 1]) + if m.sender == Ai && m.output.Some? then [m.output.value] else []
  }

  /** Only the receptionist's own messages count, those whose output parses. */
  lemma {:induction false} OnlyOwnTurnsCount(messages: seq<Message>, u: Update)
    ensures u in Updates(messages) <==> Message(Ai, Some(u)) in messages
    decreases |messages|
  {
    if messages == [] {
    } else {
      var init, last := messages[..|messages| - 1], messages[|messages| - 1];
      OnlyOwnTurnsCount(init, u);
      assert messages == init + [last];
    }
  }

  /** They count in their order. */
  lemma {:induction false} TurnsCountInOrder(first: seq<Message>, rest: seq<Message>)
    ensures Updates(first + rest) == Updates(first) + Updates(rest)
    decreases |rest|
  {
    if rest == [] {
      assert first + rest == first && Updates(first) + [] == Updates(first);
    } else {
      var init, last := rest[..|rest| - 1], rest[|rest| - 1];
      TurnsCountInOrder(first, init);
      assert (first + rest)[..|first + rest| - 1] == first + init;
    }
  }

  // ---------- The closed form ----------

  function LastWrite(us: seq<Update>, f: Field): Option<Value> {
    if us == [] then None
    else if f in us[|us| - 1] then us[|us| - 1][f]
    else LastWrite(us[..|us| - 1], f)
  }

  /** The last style that was named at all; writing the style as absent does not forget it. */
  function LastStyle(us: seq<Update>): Option<string> {
    if us == [] then None
    else if Truthy(Written(us[|us| - 1], StyleName)).Some? then Truthy(Written(us[|us| - 1], StyleName))
    else LastStyle(us[..|us| - 1])
  }

  predicate Changes(norm: string -> string, before: seq<Update>, u: Update) {
    || Differ(norm, LastStyle(before), Truthy(Written(u, StyleName)))
    || Differ(norm, Truthy(LastWrite(before, SizeTier)), Truthy(Written(u, SizeTier)))
    || Differ(norm, Truthy(LastWrite(before, LengthTier)), Truthy(Written(u, LengthTier)))
  }

  /** Where the latest change happened; zero if there was none. */
  function LatestChange(norm: string -> string, us: seq<Update>): (c: nat)
    ensures c <= |us|
  {
    if us == [] then 0
    else if Changes(norm, us[..|us| - 1], us[|us| - 1]) then |us| - 1
    else LatestChange(norm, us[..|us| - 1])
  }

  /** A price or hold field is the last value written at or after the latest change; any other is the last one written. */
  function Remembered(norm: string -> string, us: seq<Update>, f: Field): Option<Value> {
    if Stale(f) then LastWrite(us[LatestChange(norm, us)..], f) else LastWrite(us, f)
  }

  predicate Remembers(norm: string -> string, us: seq<Update>, slots: Slots) {
    forall f: Field :: Lookup(slots, f) == Remembered(norm, us, f)
  }

  lemma {:induction false} LatestChangeIsLatest(norm: string -> string, us: seq<Update>, k: nat)
    requires k < |us|
    ensures LatestChange(norm, us) > 0 ==> Changes(norm, us[..LatestChange(norm, us)], us[LatestChange(norm, us)])
    ensures LatestChange(norm, us) < k ==> !Changes(norm, us[..k], us[k])
  {
    var init := us[..|us| - 1];
    if Changes(norm, init, us[|us| - 1]) || init == [] {
    } else {
      LatestChangeIsLatest(norm, init, if k < |init| then k else 0);
      assert init[..LatestChange(norm, init)] == us[..LatestChange(norm, init)];
      if k < |init| {
        assert init[..k] == us[..k];
      }
    }
  }

  /** How one more turn changes what is remembered. */
  lemma RememberedStep(norm: string -> string, us: seq<Update>, u: Update, f: Field)
    ensures
      Remembered(norm, us + [u], f) ==
      if f in u then u[f] else if Stale(f) && Changes(norm, us, u) then None else Remembered(norm, us, f)
  {
    var all := us + [u];
    assert all[..|us|] == us && all[|us|] == u;
    var c := LatestChange(norm, us);
    if Stale(f) {
      if Changes(norm, us, u) {
        assert all[|us|..] == [u] && [u][..0] == [];
        assert LastWrite([u], f) == if f in u then u[f] else LastWrite([], f);
      } else {
        assert all[c..] == us[c..] + [u] && all[c..][..|us| - c] == us[c..];
      }
    }
  }

  // ---------- The merge ----------

  predicate ShouldClearStale(norm: string -> string, merged: Slots, previous: Option<string>, u: Update) {
    || Differ(norm, previous, Truthy(Written(u, StyleName)))
    || Differ(norm, Truthy(Lookup(merged, SizeTier)), Truthy(Written(u, SizeTier)))
    || Differ(norm, Truthy(Lookup(merged, LengthTier)), Truthy(Written(u, LengthTier)))
  }

  /** Every field the update mentions takes its value, or goes when that value is absent. */
  function Assigned(slots: Slots, u: Update): (r: Slots)
    ensures forall f: Field :: Lookup(r, f) == if f in u then u[f] else Lookup(slots, f)
  {
    (slots - u.Keys) + map f | f in u && u[f].Some? :: u[f].value
  }

  lemma ThatIsTheLastStyle(us: seq<Update>)
    requires Truthy(LastWrite(us, StyleName)).Some?
    ensures LastStyle(us) == Truthy(LastWrite(us, StyleName))
  {
  }

  lemma ClearsExactlyOnChange(norm: string -> string, us: seq<Update>, merged: Slots, u: Update)
    requires Remembers(norm, us, merged)
    ensures ShouldClearStale(norm, merged, LastStyle(us), u) <==> Changes(norm, us, u)
  {
    assert !Stale(SizeTier) && !Stale(LengthTier);
    assert Lookup(merged, SizeTier) == LastWrite(us, SizeTier) && Lookup(merged, LengthTier) == LastWrite(us, LengthTier);
  }

  lemma TurnMerged(norm: string -> string, us: seq<Update>, u: Update, before: Slots, merged: Slots)
    requires Remembers(norm, us, before)
    requires forall f: Field ::
      Lookup(merged, f) == if f in u then u[f] else if Stale(f) && Changes(norm, us, u) then None else Lookup(before, f)
    ensures Remembers(norm, us + [u], merged)
  {
    forall f: Field ensures Lookup(merged, f) == Remembered(norm, us + [u], f) {
      RememberedStep(norm, us, u, f);
    }
  }

  lemma StyleAfterTurn(norm: string -> string, us: seq<Update>, u: Update, merged: Slots)
    requires Remembers(norm, us + [u], merged)
    ensures
      LastStyle(us + [u]) == if Truthy(Lookup(merged, StyleName)).Some? then Truthy(Lookup(merged, StyleName)) else LastStyle(us)
  {
    var all := us + [u];
    assert all[..|us|] == us && !Stale(StyleName);
    assert Lookup(merged, StyleName) == LastWrite(all, StyleName);
    if Truthy(LastWrite(all, StyleName)).Some? {
      ThatIsTheLastStyle(all);
    }
  }

  /** The merge loop remembers exactly the closed form of the turns it has read, for every message history. */
  method MergeSlotsFromMessages(norm: string -> string, messages: seq<Message>) returns (merged: Slots)
    ensures Remembers(norm, Updates(messages), merged)
  {
    merged := map[];
    var previousStyleName: Option<string> := None;
    assert messages[..0] == [];
    for i := 0 to |messages|
      invariant Remembers(norm, Updates(messages[..i]), merged)
      invariant previousStyleName == LastStyle(Updates(messages[..i]))
    {
      ghost var us := Updates(messages[..i]);
      assert messages[..i + 1][..i] == messages[..i];
      var m := messages[i];
      assert Updates(messages[..i + 1]) == us + if m.sender == Ai && m.output.Some? then [m.output.value] else [];
      assert us + [] == us;
      if m.sender == Ai && m.output.Some? {
        var u := m.output.value;
        ghost var before := merged;
        ClearsExactlyOnChange(norm, us, merged, u);
        if ShouldClearStale(norm, merged, previousStyleName, u) {
          merged := ClearStale(merged);
        }
        merged := Assigned(merged, u);
        TurnMerged(norm, us, u, before, merged);
        StyleAfterTurn(norm, us, u, merged);
        if Truthy(Lookup(merged, StyleName)).Some? {
          previousStyleName := Truthy(Lookup(merged, StyleName));
        }
      }
    }
    assert messages[..|messages|] == messages;
  }

  method ClearStale(slots: Slots) returns (r: Slots)
    ensures forall f: Field :: Lookup(r, f) == if Stale(f) then None else Lookup(slots, f)
  {
    r := slots;
    for i := 0 to |STALE_SLOT_FIELDS|
      invariant forall f: Field :: Lookup(r, f) == if f in STALE_SLOT_FIELDS[..i] then None else Lookup(slots, f)
    {
      assert STALE_SLOT_FIELDS[..i + 1] == STALE_SLOT_FIELDS[..i] + [STALE_SLOT_FIELDS[i]];
      r := r - {STALE_SLOT_FIELDS[i]};
    }
    assert STALE_SLOT_FIELDS[..|STALE_SLOT_FIELDS|] == STALE_SLOT_FIELDS;
  }

  // ---------- What the memory is worth ----------

  /** After the latest change, the conversation still has the style it had then, up to normal form. */
  lemma {:induction false} StyleHoldsSinceChange(norm: string -> string, us: seq<Update>, i: nat)
    requires LatestChange(norm, us) <= i < |us| && LastStyle(us[..i + 1]).Some?
    ensures LastStyle(us).Some? && norm(LastStyle(us).value) == norm(LastStyle(us[..i + 1]).value)
    decreases |us|
  {
    if i + 1 == |us| {
      assert us[..i + 1] == us;
    } else {
      var init := us[..|us| - 1];
      assert init[..i + 1] == us[..i + 1];
      StyleHoldsSinceChange(norm, init, i);
    }
  }

  predicate Same(norm: string -> string, earlier: Option<string>, now: Option<string>) {
    earlier.None? || (now.Some? && norm(now.value) == norm(earlier.value))
  }

  /** The tier's last value was written as absent after turn i. */
  predicate Blanked(us: seq<Update>, tier: Field, i: nat) {
    exists j :: i < j < |us| && tier in us[j] && Truthy(us[j][tier]).None?
  }

  lemma {:induction false} TierHoldsSinceChange(norm: string -> string, us: seq<Update>, tier: Field, i: nat)
    requires tier == SizeTier || tier == LengthTier
    requires LatestChange(norm, us) <= i < |us| && Truthy(LastWrite(us[..i + 1], tier)).Some? && !Blanked(us, tier, i)
    ensures Truthy(LastWrite(us, tier)).Some?
    ensures norm(Truthy(LastWrite(us, tier)).value) == norm(Truthy(LastWrite(us[..i + 1], tier)).value)
    decreases |us|
  {
    if i + 1 == |us| {
      assert us[..i + 1] == us;
    } else {
      var init := us[..|us| - 1];
      assert init[..i + 1] == us[..i + 1];
      assert forall j :: 0 <= j < |init| ==> init[j] == us[j];
      TierHoldsSinceChange(norm, init, tier, i);
      assert tier in us[|us| - 1] ==> Truthy(us[|us| - 1][tier]).Some?;
    }
  }

  predicate IsTier(f: Field) {
    f == SizeTier || f == LengthTier
  }

  function TierAfter(us: seq<Update>, tier: Field): Option<string> {
    Truthy(LastWrite(us, tier))
  }

  /** With the tier known, a turn that changes nothing keeps it exactly when it does not write it as absent. */
  lemma TurnKeepsTierIff(norm: string -> string, us: seq<Update>, u: Update, tier: Field)
    requires IsTier(tier) && TierAfter(us, tier).Some? && !Changes(norm, us, u)
    ensures Same(norm, TierAfter(us, tier), TierAfter(us + [u], tier)) <==> (tier in u ==> Truthy(u[tier]).Some?)
  {
    assert (us + [u])[..|us|] == us && (us + [u])[|us|] == u;
    assert Written(u, tier) == if tier in u then u[tier] else None;
  }

  lemma {:induction false} PrefixChange(norm: string -> string, us: seq<Update>, i: nat, k: nat)
    requires LatestChange(norm, us) <= i < k <= |us|
    ensures LatestChange(norm, us[..k]) <= i
    decreases |us|
  {
    if k == |us| {
      assert us[..k] == us;
    } else {
      var init := us[..|us| - 1];
      assert init[..k] == us[..k];
      PrefixChange(norm, init, i, k);
    }
  }

  /** The tier known at turn i holds after every later turn, as far as each can tell. */
  ghost predicate HeldSince(norm: string -> string, us: seq<Update>, tier: Field, i: nat)
    requires i < |us|
  {
    forall k :: i < k <= |us| ==> Same(norm, TierAfter(us[..i + 1], tier), TierAfter(us[..k], tier))
  }

  lemma UnblankedInPrefix(us: seq<Update>, tier: Field, i: nat, k: nat)
    requires i < k <= |us| && !Blanked(us, tier, i)
    ensures !Blanked(us[..k], tier, i)
  {
    forall j | i < j < k && tier in us[..k][j] ensures Truthy(us[..k][j][tier]).Some? {
      assert us[..k][j] == us[j];
    }
  }

  lemma SameTierSinceChange(norm: string -> string, us: seq<Update>, tier: Field, i: nat)
    requires IsTier(tier) && LatestChange(norm, us) <= i < |us| && TierAfter(us[..i + 1], tier).Some? && !Blanked(us, tier, i)
    ensures Same(norm, TierAfter(us[..i + 1], tier), TierAfter(us, tier))
  {
    TierHoldsSinceChange(norm, us, tier, i);
  }

  lemma UnblankedHolds(norm: string -> string, us: seq<Update>, tier: Field, i: nat, k: nat)
    requires IsTier(tier) && LatestChange(norm, us) <= i < k <= |us| && TierAfter(us[..i + 1], tier).Some?
    requires !Blanked(us, tier, i)
    ensures Same(norm, TierAfter(us[..i + 1], tier), TierAfter(us[..k], tier))
  {
    assert us[..k][..i + 1] == us[..i + 1];
    PrefixChange(norm, us, i, k);
    UnblankedInPrefix(us, tier, i, k);
    SameTierSinceChange(norm, us[..k], tier, i);
  }

  lemma BlankedFails(norm: string -> string, us: seq<Update>, tier: Field, i: nat)
    requires i < |us| && TierAfter(us[..i + 1], tier).Some? && Blanked(us, tier, i)
    ensures !HeldSince(norm, us, tier, i)
  {
    var j :| i < j < |us| && tier in us[j] && Truthy(us[j][tier]).None?;
    var read := us[..j + 1];
    assert read[|read| - 1] == us[j];
    assert TierAfter(read, tier).None?;
    assert !Same(norm, TierAfter(us[..i + 1], tier), TierAfter(us[..j + 1], tier));
  }

  /** Since the latest change, a size or length that was known holds throughout exactly when no turn blanked it. */
  lemma TierHeldIff(norm: string -> string, us: seq<Update>, tier: Field, i: nat)
    requires IsTier(tier) && LatestChange(norm, us) <= i < |us| && TierAfter(us[..i + 1], tier).Some?
    ensures HeldSince(norm, us, tier, i) <==> !Blanked(us, tier, i)
  {
    if Blanked(us, tier, i) {
      BlankedFails(norm, us, tier, i);
    } else {
      forall k | i < k <= |us| ensures Same(norm, TierAfter(us[..i + 1], tier), TierAfter(us[..k], tier)) {
        UnblankedHolds(norm, us, tier, i, k);
      }
    }
  }

  /** A change forgets everything about price and hold, and nothing about the style, its size, its date or the client. */
  lemma ForgettableFields(f: Field)
    ensures Stale(f) <==> f !in {StyleName, SizeTier, LengthTier, PreferredDate, ClientName}
  {
  }

  /** The name is there before and in the turn, and reads differently. */
  predicate Renames(norm: string -> string, known: Option<string>, given: Option<string>) {
    known.Some? && given.Some? && norm(known.value) != norm(given.value)
  }

  /** A turn that does not speak of it forgets a price or hold field exactly if it renames the style, size or length. */
  lemma ForgottenIff(norm: string -> string, us: seq<Update>, u: Update, f: Field)
    requires f !in {StyleName, SizeTier, LengthTier, PreferredDate, ClientName} && f !in u && Remembered(norm, us, f).Some?
    ensures
      Remembered(norm, us + [u], f) == None <==>
        || Renames(norm, LastStyle(us), Truthy(Written(u, StyleName)))
        || Renames(norm, TierAfter(us, SizeTier), Truthy(Written(u, SizeTier)))
        || Renames(norm, TierAfter(us, LengthTier), Truthy(Written(u, LengthTier)))
    ensures Remembered(norm, us + [u], f) != None ==> Remembered(norm, us + [u], f) == Remembered(norm, us, f)
  {
    ForgettableFields(f);
    RememberedStep(norm, us, u, f);
  }

  /** The style known is the last one named; a turn that names none, or blanks it, leaves it known. */
  lemma StyleStaysKnown(us: seq<Update>, u: Update)
    ensures LastStyle(us + [u]) == if Truthy(Written(u, StyleName)).Some? then Truthy(Written(u, StyleName)) else LastStyle(us)
  {
    assert (us + [u])[..|us|] == us;
  }

  // ---------- The turns the service stores ----------

  /** What the context fills in where the memory has nothing, what the model gives, and what the dispatch sets itself. */
  datatype Turn = Turn(fill: Slots, out: Update, own: Slots)

  predicate FilledIn(f: Field) {
    f == StyleName || f == PreferredDate || f == ClientName
  }

  predicate SetByDispatch(f: Field) {
    f == ServiceOfferingId || f == BookingId || f == QuotedPrice || f == QuotedDurationMinutes
  }

  function Context(slots: Slots, fill: Slots): Slots {
    slots + map f | f in fill && FilledIn(f) && Truthy(Lookup(slots, f)).None? :: fill[f]
  }

  function Own(t: Turn): Slots {
    map f | f in t.own && SetByDispatch(f) :: t.own[f]
  }

  function Present(slots: Slots): Update {
    map f | f in slots :: Some(slots[f])
  }

  /** The whole context with the output over it, as it is stored: fields given as empty are left out, not written. */
  function Stored(context: Slots, t: Turn): Update {
    Present(Assigned(context, t.out) + Own(t))
  }

  function Memory(norm: string -> string, us: seq<Update>): Slots {
    map f: Field | Remembered(norm, us, f).Some? :: Remembered(norm, us, f).value
  }

  function StoredNext(norm: string -> string, us: seq<Update>, t: Turn): Update {
    Stored(Context(Memory(norm, us), t.fill), t)
  }

  /** What the turn itself says about a field: nothing, that it is empty, or a value. */
  function Given(t: Turn, f: Field): Option<Option<Value>> {
    if SetByDispatch(f) && f in t.own then Some(Some(t.own[f])) else if f in t.out then Some(t.out[f]) else None
  }

  lemma StoredWrites(context: Slots, t: Turn, f: Field)
    ensures Written(Stored(context, t), f) == if Given(t, f).Some? then Given(t, f).value else Lookup(context, f)
    ensures f in Stored(context, t) ==> Stored(context, t)[f].Some?
  {
    assert Lookup(Assigned(context, t.out), f) == if f in t.out then t.out[f] else Lookup(context, f);
  }

  lemma StaleIsNotFilledIn(f: Field)
    requires Stale(f)
    ensures !FilledIn(f)
  {
  }

  lemma NextWrites(norm: string -> string, us: seq<Update>, t: Turn, f: Field)
    ensures
      var u := StoredNext(norm, us, t);
      && (f in u ==> u[f].Some?)
      && Written(u, f) ==
           if Given(t, f).Some? then Given(t, f).value
           else if FilledIn(f) && Truthy(Remembered(norm, us, f)).None? && f in t.fill then Some(t.fill[f])
           else Remembered(norm, us, f)
  {
    StoredWrites(Context(Memory(norm, us), t.fill), t, f);
    assert Lookup(Memory(norm, us), f) == Remembered(norm, us, f);
  }

  /** A conversation: every turn is stored over what the turns before it left remembered. */
  function History(norm: string -> string, ts: seq<Turn>): (us: seq<Update>)
    ensures |us| == |ts|
  {
    if ts == [] then []
    else
      var us := History(norm, ts[..|ts| - 1]);
      us + [StoredNext(norm, us, ts[|ts| - 1])]
  }

  /** What a stored turn does to a remembered price or hold field; saying nothing about it writes the old value back. */
  datatype Effect = Keep | Forget | Set(value: Value)

  function EffectOfGiving(given: Option<Option<Value>>, changes: bool): Effect {
    match given
    case None => Keep
    case Some(None) => if changes then Forget else Keep
    case Some(Some(v)) => Set(v)
  }

  function EffectOf(norm: string -> string, us: seq<Update>, t: Turn, f: Field): Effect {
    EffectOfGiving(Given(t, f), Changes(norm, us, StoredNext(norm, us, t)))
  }

  function After(before: Option<Value>, e: Effect): Option<Value> {
    match e
    case Keep => before
    case Forget => None
    case Set(v) => Some(v)
  }

  lemma StoredStep(norm: string -> string, us: seq<Update>, t: Turn, f: Field)
    requires Stale(f)
    ensures Remembered(norm, us + [StoredNext(norm, us, t)], f) == After(Remembered(norm, us, f), EffectOf(norm, us, t, f))
  {
    NextWrites(norm, us, t, f);
    StaleIsNotFilledIn(f);
    assert Written(StoredNext(norm, us, t), f) == if Given(t, f).Some? then Given(t, f).value else Remembered(norm, us, f);
    StepOf(norm, us, StoredNext(norm, us, t), t, f);
  }

  lemma StepOf(norm: string -> string, us: seq<Update>, u: Update, t: Turn, f: Field)
    requires Stale(f) && (f in u ==> u[f].Some?)
    requires Written(u, f) == if Given(t, f).Some? then Given(t, f).value else Remembered(norm, us, f)
    ensures Remembered(norm, us + [u], f) == After(Remembered(norm, us, f), EffectOfGiving(Given(t, f), Changes(norm, us, u)))
  {
    RememberedStep(norm, us, u, f);
  }

  /** A remembered price or hold outlives a change exactly when the changing turn gives no other value and does not empty it. */
  lemma OutlivesChangeIff(norm: string -> string, us: seq<Update>, t: Turn, f: Field)
    requires Stale(f) && Remembered(norm, us, f).Some? && Changes(norm, us, StoredNext(norm, us, t))
    ensures Remembered(norm, us + [StoredNext(norm, us, t)], f) == Remembered(norm, us, f)
       <==> Given(t, f).None? || Given(t, f).value == Remembered(norm, us, f)
  {
    StoredStep(norm, us, t, f);
  }

  /** The effect of each turn of a conversation on a field. */
  function Effects(norm: string -> string, ts: seq<Turn>, f: Field): seq<Effect> {
    seq(|ts|, k requires 0 <= k < |ts| => EffectOf(norm, History(norm, ts[..k]), ts[k], f))
  }

  lemma EffectsOfPrefix(norm: string -> string, ts: seq<Turn>, f: Field)
    requires ts != []
    ensures Effects(norm, ts, f)[..|ts| - 1] == Effects(norm, ts[..|ts| - 1], f)
  {
    var init := ts[..|ts| - 1];
    forall k | 0 <= k < |init| ensures init[..k] == ts[..k] {
    }
  }

  function Outcome(es: seq<Effect>): Option<Value> {
    if es == [] then None else After(Outcome(es[..|es| - 1]), es[|es| - 1])
  }

  lemma {:induction false} RememberedIsOutcome(norm: string -> string, ts: seq<Turn>, f: Field)
    requires Stale(f)
    ensures Remembered(norm, History(norm, ts), f) == Outcome(Effects(norm, ts, f))
  {
    if ts == [] {
    } else {
      var init := ts[..|ts| - 1];
      RememberedIsOutcome(norm, init, f);
      StoredStep(norm, History(norm, init), ts[|ts| - 1], f);
      EffectsOfPrefix(norm, ts, f);
    }
  }

  /** Turn i set the field, and every later turn kept it. */
  predicate StandsFrom(es: seq<Effect>, i: nat, v: Value)
    requires i < |es|
  {
    es[i] == Set(v) && forall j :: i < j < |es| ==> es[j].Keep?
  }

  lemma {:induction false} OutcomeStands(es: seq<Effect>, v: Value)
    ensures Outcome(es) == Some(v) <==> exists i :: 0 <= i < |es| && StandsFrom(es, i, v)
  {
    if es == [] {
    } else {
      var init, last := es[..|es| - 1], es[|es| - 1];
      OutcomeStands(init, v);
      assert forall i :: 0 <= i < |init| ==> (StandsFrom(es, i, v) <==> StandsFrom(init, i, v) && last.Keep?);
      assert StandsFrom(es, |init|, v) <==> last == Set(v);
    }
  }

  /**
   * In any conversation a price or hold field is remembered exactly as the last turn that gave it a value gave it,
   * however often style, size and length changed since, unless a changing turn gave it as empty.
   */
  lemma RememberedUntilForgotten(norm: string -> string, ts: seq<Turn>, f: Field, v: Value)
    requires Stale(f)
    ensures Remembered(norm, History(norm, ts), f) == Some(v)
       <==> exists i :: 0 <= i < |ts| && StandsFrom(Effects(norm, ts, f), i, v)
  {
    RememberedIsOutcome(norm, ts, f);
    OutcomeStands(Effects(norm, ts, f), v);
  }

  /** A turn that names another style is a change, and the new style is remembered. */
  lemma NamingAnotherChanges(norm: string -> string, us: seq<Update>, t: Turn, other: string)
    requires Given(t, StyleName) == Some(Some(Text(other))) && other != ""
    requires LastStyle(us).Some? && norm(LastStyle(us).value) != norm(other)
    ensures Changes(norm, us, StoredNext(norm, us, t))
    ensures Remembered(norm, us + [StoredNext(norm, us, t)], StyleName) == Some(Text(other))
  {
    var u := StoredNext(norm, us, t);
    NextWrites(norm, us, t, StyleName);
    RememberedStep(norm, us, u, StyleName);
  }

  lemma FirstTurn(norm: string -> string, t: Turn, style: string, price: Value)
    requires Given(t, StyleName) == Some(Some(Text(style))) && style != "" && Given(t, QuotedPrice) == Some(Some(price))
    ensures
      var us := [StoredNext(norm, [], t)];
      History(norm, [t]) == us && LastStyle(us) == Some(style) && Remembered(norm, us, QuotedPrice) == Some(price)
  {
    var u := StoredNext(norm, [], t);
    assert [t][..0] == [] && [] + [u] == [u] && [u][..0] == [];
    NextWrites(norm, [], t, StyleName);
    NextWrites(norm, [], t, QuotedPrice);
    RememberedStep(norm, [], u, QuotedPrice);
  }

  /** The client changes style, the turn says nothing of the price, and the first style's price is remembered for the second. */
  lemma ChangedStyleKeepsTheOldPrice(norm: string -> string, quoting: Turn, changing: Turn, style: string, other: string, price: Value)
    requires style != "" && other != "" && norm(style) != norm(other)
    requires quoting == Turn(map[], map[StyleName := Some(Text(style))], map[QuotedPrice := price])
    requires changing == Turn(map[], map[StyleName := Some(Text(other))], map[])
    ensures
      var before, us := History(norm, [quoting]), History(norm, [quoting, changing]);
      && us == before + [us[1]] && Changes(norm, before, us[1])
      && Remembered(norm, us, QuotedPrice) == Some(price) && Remembered(norm, us, StyleName) == Some(Text(other))
  {
    assert [quoting, changing][..1] == [quoting];
    var before := History(norm, [quoting]);
    FirstTurn(norm, quoting, style, price);
    assert History(norm, [quoting, changing]) == before + [StoredNext(norm, before, changing)];
    NamingAnotherChanges(norm, before, changing, other);
    OutlivesChangeIff(norm, before, changing, QuotedPrice);
  }

  // ---------- What stays the same ----------

  predicate Naming(f: Field) {
    f == StyleName || IsTier(f)
  }

  /** The schema's promise: a style, size or length that is there is not empty. */
  predicate Parsed(t: Turn) {
    forall f :: Naming(f) ==>
      (f in t.out && t.out[f].Some? ==> Truthy(t.out[f]).Some?) && (f in t.fill ==> Truthy(Some(t.fill[f])).Some?)
  }

  predicate WritesNames(u: Update) {
    forall f :: Naming(f) && f in u ==> Truthy(u[f]).Some?
  }

  lemma {:induction false} LastNameIsThere(us: seq<Update>, f: Field)
    requires Naming(f) && (forall k :: 0 <= k < |us| ==> WritesNames(us[k])) && LastWrite(us, f).Some?
    ensures Truthy(LastWrite(us, f)).Some?
  {
    if f in us[|us| - 1] {
      assert WritesNames(us[|us| - 1]);
    } else {
      LastNameIsThere(us[..|us| - 1], f);
    }
  }

  lemma NextWritesNames(norm: string -> string, us: seq<Update>, t: Turn)
    requires (forall k :: 0 <= k < |us| ==> WritesNames(us[k])) && Parsed(t)
    ensures WritesNames(StoredNext(norm, us, t))
  {
    var u := StoredNext(norm, us, t);
    forall f | Naming(f) && f in u ensures Truthy(u[f]).Some? {
      NextWrites(norm, us, t, f);
      NameIsThere(norm, us, t, f, u);
    }
  }

  lemma NameIsThere(norm: string -> string, us: seq<Update>, t: Turn, f: Field, u: Update)
    requires (forall k :: 0 <= k < |us| ==> WritesNames(us[k])) && Parsed(t) && Naming(f) && f in u && u[f].Some?
    requires
      Written(u, f) ==
      if Given(t, f).Some? then Given(t, f).value
      else if FilledIn(f) && Truthy(Remembered(norm, us, f)).None? && f in t.fill then Some(t.fill[f])
      else Remembered(norm, us, f)
    ensures Truthy(u[f]).Some?
  {
    if LastWrite(us, f).Some? {
      LastNameIsThere(us, f);
    }
  }

  lemma {:induction false} StoredTurnsWriteNames(norm: string -> string, ts: seq<Turn>)
    requires forall t :: t in ts ==> Parsed(t)
    ensures forall k :: 0 <= k < |ts| ==> WritesNames(History(norm, ts)[k])
  {
    if ts == [] {
    } else {
      var init := ts[..|ts| - 1];
      StoredTurnsWriteNames(norm, init);
      assert Parsed(ts[|ts| - 1]);
      NextWritesNames(norm, History(norm, init), ts[|ts| - 1]);
    }
  }

  /** The style, size and length known after turn i are those known at the end. */
  predicate SameSince(norm: string -> string, us: seq<Update>, i: nat)
    requires i < |us|
  {
    && Same(norm, LastStyle(us[..i + 1]), LastStyle(us))
    && Same(norm, TierAfter(us[..i + 1], SizeTier), TierAfter(us, SizeTier))
    && Same(norm, TierAfter(us[..i + 1], LengthTier), TierAfter(us, LengthTier))
  }

  lemma NamesHoldSinceChange(norm: string -> string, us: seq<Update>, i: nat)
    requires (forall k :: 0 <= k < |us| ==> WritesNames(us[k])) && LatestChange(norm, us) <= i < |us|
    ensures SameSince(norm, us, i)
  {
    forall j | i < j < |us| ensures WritesNames(us[j]) {
    }
    assert !Blanked(us, SizeTier, i) && !Blanked(us, LengthTier, i);
    if LastStyle(us[..i + 1]).Some? {
      StyleHoldsSinceChange(norm, us, i);
    }
    if TierAfter(us[..i + 1], SizeTier).Some? {
      SameTierSinceChange(norm, us, SizeTier, i);
    }
    if TierAfter(us[..i + 1], LengthTier).Some? {
      SameTierSinceChange(norm, us, LengthTier, i);
    }
  }

  /** What was given at or after the latest change was given for the style, size and length the conversation still has. */
  lemma NothingChangedSince(norm: string -> string, ts: seq<Turn>, i: nat)
    requires (forall t :: t in ts ==> Parsed(t)) && LatestChange(norm, History(norm, ts)) <= i < |ts|
    ensures SameSince(norm, History(norm, ts), i)
  {
    StoredTurnsWriteNames(norm, ts);
    NamesHoldSinceChange(norm, History(norm, ts), i);
  }
}

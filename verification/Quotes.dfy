/**
 * The price the receptionist quotes and the price the booking engine later agrees. Names are compared after
 * trimming and lower-casing; both text functions are parameters. Prices are whole pence.
 */
module Quotes {
  import opened Common
  import opened Money

  datatype AddonRow = AddonRow(id: nat, offeringId: nat, name: string, price: real, active: bool)

  datatype OfferingRow = OfferingRow(basePrice: real, active: bool)

  datatype Catalogue = Catalogue(offerings: map<nat, OfferingRow>, addons: map<nat, AddonRow>)

  datatype Addon = Addon(id: nat, name: string, price: real)

  /** An offering as the conversation's context shows it. */
  datatype Offering = Offering(id: nat, basePrice: real, addons: seq<Addon>)

  datatype Text = Text(lower: string -> string, trimLower: string -> string)

  datatype Mode = StylistLocation | ComeToClient | Remote

  datatype Source = AiAgent | DashboardManual | ClientDirect

  datatype Venue = Venue(offeredModes: seq<Mode>, homeVisitSurcharge: Option<real>)

  datatype HoldRequest = HoldRequest(
    offeringId: nat, addonIds: seq<nat>, source: Source, mode: Option<Mode>, hasVisitAddress: bool,
    acknowledgedPolicies: bool, acknowledgedRequirements: bool)

  datatype HoldError =
    | OfferingNotFound | PoliciesNotAccepted | RequirementsNotAcknowledged | ModeNotChosen | ModeNotOffered
    | AddressRequired | AddonUnavailable

  datatype Hold = Hold(mode: Mode, surcharge: real, agreedPrice: real)

  // ---------- The quote ----------

  function FindAddon(t: Text, addons: seq<Addon>, name: string): Option<Addon> {
    if addons == [] then None
    else if t.lower(addons[0].name) == t.trimLower(name) then Some(addons[0])
    else FindAddon(t, addons[1..], name)
  }

  /** The add-ons the names match, in the order of the names, repeats included. */
  function Matched(t: Text, addons: seq<Addon>, names: seq<string>): seq<Addon> {
    if names == [] then []
    else
      var m := FindAddon(t, addons, names[|names| - 1]);
      Matched(t, addons, names[..|names| - 1]) + if m.Some? then [m.value] else []
  }

  function Ids(addons: seq<Addon>): seq<nat> {
    seq(|addons|, i requires 0 <= i < |addons| => addons[i].id)
  }

  function Total(addons: seq<Addon>): real {
    if addons == [] then 0.0 else Total(addons[..|addons| - 1]) + addons[|addons| - 1].price
  }

  lemma TotalAppend(addons: seq<Addon>, a: Addon)
    ensures Total(addons + [a]) == Total(addons) + a.price
  {
    assert (addons + [a])[..|addons|] == addons;
  }

  method ResolveAddonIds(t: Text, offering: Option<Offering>, addonNames: Option<seq<string>>) returns (ids: seq<nat>)
    ensures ids == if offering.Some? && addonNames.Some? then Ids(Matched(t, offering.value.addons, addonNames.value)) else []
  {
    ids := [];
    if offering.None? || addonNames.None? || |addonNames.value| == 0 {
      return;
    }
    var names := addonNames.value;
    assert names[..0] == [];
    for i := 0 to |names|
      invariant ids == Ids(Matched(t, offering.value.addons, names[..i]))
    {
      assert names[..i + 1][..i] == names[..i];
      var found := FindAddon(t, offering.value.addons, names[i]);
      if found.Some? {
        ids := ids + [found.value.id];
      }
    }
    assert names[..|names|] == names;
  }

  method SumSelectedAddonPrices(t: Text, offering: Option<Offering>, addonNames: Option<seq<string>>) returns (total: real)
    ensures total == if offering.Some? && addonNames.Some? then Total(Matched(t, offering.value.addons, addonNames.value)) else 0.0
  {
    total := 0.0;
    if offering.None? || addonNames.None? || |addonNames.value| == 0 {
      return;
    }
    var names := addonNames.value;
    assert names[..0] == [];
    for i := 0 to |names|
      invariant total == Total(Matched(t, offering.value.addons, names[..i]))
    {
      assert names[..i + 1][..i] == names[..i];
      var found := FindAddon(t, offering.value.addons, names[i]);
      ghost var before := Matched(t, offering.value.addons, names[..i]);
      assert Matched(t, offering.value.addons, names[..i + 1]) == before + if found.Some? then [found.value] else [];
      assert before + [] == before;
      if found.Some? {
        TotalAppend(before, found.value);
        total := total + found.value.price;
      }
    }
    assert names[..|names|] == names;
  }

  function Quote(t: Text, o: Offering, names: seq<string>): real {
    RoundToPenny(o.basePrice + Total(Matched(t, o.addons, names)))
  }

  method FormatPriceQuote(t: Text, offering: Offering, addonNames: Option<seq<string>>) returns (total: real)
    ensures total == Quote(t, offering, if addonNames.Some? then addonNames.value else [])
  {
    var addonTotal := SumSelectedAddonPrices(t, Some(offering), addonNames);
    total := RoundToPenny(offering.basePrice + addonTotal);
  }

  // ---------- The hold ----------

  /** Each id once, where it first occurs. */
  function Distinct(ids: seq<nat>): seq<nat> {
    if ids == [] then []
    else
      var init := ids[..|ids| - 1];
      Distinct(init) + if ids[|ids| - 1] in init then [] else [ids[|ids| - 1]]
  }

  predicate Selectable(c: Catalogue, offeringId: nat, ids: seq<nat>, id: nat) {
    id in ids && id in c.addons && c.addons[id].offeringId == offeringId && c.addons[id].active
  }

  /** The rows a query for the selected active add-ons of an offering may return, in any order. */
  ghost predicate Answers(c: Catalogue, offeringId: nat, ids: seq<nat>, rows: seq<nat>) {
    && (forall i, j :: 0 <= i < j < |rows| ==> rows[i] != rows[j])
    && (forall id :: id in rows <==> Selectable(c, offeringId, ids, id))
  }

  predicate InCatalogue(c: Catalogue, ids: seq<nat>) {
    forall id :: id in ids ==> id in c.addons
  }

  function TotalOf(c: Catalogue, ids: seq<nat>): real
    requires InCatalogue(c, ids)
  {
    if ids == [] then 0.0 else TotalOf(c, ids[..|ids| - 1]) + c.addons[ids[|ids| - 1]].price
  }

  function ChosenMode(venue: Venue, request: HoldRequest): Option<Mode> {
    if request.mode.Some? then request.mode
    else if |venue.offeredModes| == 1 then Some(venue.offeredModes[0])
    else None
  }

  /** The checks a hold request passes before it is priced; rows is what the add-on query returned. */
  function CheckHold(c: Catalogue, venue: Venue, hasRequirements: bool, request: HoldRequest, rows: seq<nat>): Result<Mode, HoldError> {
    if request.offeringId !in c.offerings || !c.offerings[request.offeringId].active then Err(OfferingNotFound)
    else if request.source != AiAgent && !request.acknowledgedPolicies then Err(PoliciesNotAccepted)
    else if request.source != AiAgent && hasRequirements && !request.acknowledgedRequirements then Err(RequirementsNotAcknowledged)
    else match ChosenMode(venue, request)
      case None => Err(ModeNotChosen)
      case Some(mode) =>
        if mode !in venue.offeredModes then Err(ModeNotOffered)
        else if mode == ComeToClient && !request.hasVisitAddress then Err(AddressRequired)
        else if |rows| != |Distinct(request.addonIds)| then Err(AddonUnavailable)
        else Ok(mode)
  }

  function Surcharge(venue: Venue, mode: Mode): real {
    if mode == ComeToClient && venue.homeVisitSurcharge.Some? then venue.homeVisitSurcharge.value else 0.0
  }

  function AgreedPrice(basePrice: real, surcharge: real, addonsTotal: real): real {
    RoundToPenny(basePrice + surcharge + addonsTotal)
  }

  function PriceHold(c: Catalogue, venue: Venue, hasRequirements: bool, request: HoldRequest, rows: seq<nat>): Result<Hold, HoldError>
    requires InCatalogue(c, rows)
  {
    match CheckHold(c, venue, hasRequirements, request, rows)
    case Err(e) => Err(e)
    case Ok(mode) =>
      var surcharge := Surcharge(venue, mode);
      Ok(Hold(mode, surcharge, AgreedPrice(c.offerings[request.offeringId].basePrice, surcharge, TotalOf(c, rows))))
  }

  /** What the receptionist asks for: no venue, no address, the ids its names resolved to. */
  function AiRequest(offeringId: nat, addonIds: seq<nat>): HoldRequest {
    HoldRequest(offeringId, addonIds, AiAgent, None, false, false, false)
  }

  /** A hold the receptionist creates never carries a home-visit surcharge, whatever the venue offers. */
  lemma AiHoldHasNoSurcharge(c: Catalogue, venue: Venue, hasRequirements: bool, offeringId: nat, addonIds: seq<nat>, rows: seq<nat>)
    requires InCatalogue(c, rows)
    ensures
      var r := PriceHold(c, venue, hasRequirements, AiRequest(offeringId, addonIds), rows);
      r.Ok? ==> r.value.surcharge == 0.0 && r.value.mode != ComeToClient && venue.offeredModes == [r.value.mode]
  {
    if |venue.offeredModes| == 1 {
      assert venue.offeredModes == [venue.offeredModes[0]];
    }
  }

  // ---------- An unchanged catalogue ----------

  /** The context's offering is the catalogue's, with exactly its active add-ons. */
  ghost predicate Shows(c: Catalogue, o: Offering) {
    && o.id in c.offerings && c.offerings[o.id].active && c.offerings[o.id].basePrice == o.basePrice
    && (forall i, j :: 0 <= i < j < |o.addons| ==> o.addons[i].id != o.addons[j].id)
    && (forall a :: a in o.addons ==> a.id in c.addons && c.addons[a.id] == AddonRow(a.id, o.id, a.name, a.price, true))
    && (forall id :: id in c.addons && c.addons[id].offeringId == o.id && c.addons[id].active ==> id in Ids(o.addons))
  }

  ghost predicate WholePrices(o: Offering) {
    WholePence(o.basePrice) && forall a :: a in o.addons ==> WholePence(a.price) && a.price >= 0.0
  }

  /** The prices of the names that ask again for an add-on an earlier name already asked for. */
  function Repeats(t: Text, addons: seq<Addon>, names: seq<string>): real {
    if names == [] then 0.0
    else
      var init, last := names[..|names| - 1], names[|names| - 1];
      var m := FindAddon(t, addons, last);
      Repeats(t, addons, init) + if m.Some? && AskedBefore(t, init, last) then m.value.price else 0.0
  }

  predicate AskedBefore(t: Text, names: seq<string>, name: string) {
    exists i :: 0 <= i < |names| && t.trimLower(names[i]) == t.trimLower(name)
  }

  lemma {:induction false} FoundAmong(t: Text, addons: seq<Addon>, name: string)
    requires FindAddon(t, addons, name).Some?
    ensures FindAddon(t, addons, name).value in addons
    ensures t.lower(FindAddon(t, addons, name).value.name) == t.trimLower(name)
    decreases |addons|
  {
    if t.lower(addons[0].name) == t.trimLower(name) {
    } else {
      FoundAmong(t, addons[1..], name);
    }
  }

  /** A name finds the first add-on of that normal form, and finds one whenever there is one. */
  lemma {:induction false} FoundIff(t: Text, addons: seq<Addon>, name: string)
    ensures FindAddon(t, addons, name).Some? <==> exists a :: a in addons && t.lower(a.name) == t.trimLower(name)
    ensures FindAddon(t, addons, name).Some? ==>
      exists i :: 0 <= i < |addons| && addons[i] == FindAddon(t, addons, name).value
                  && forall j :: 0 <= j < i ==> t.lower(addons[j].name) != t.trimLower(name)
    decreases |addons|
  {
    if addons == [] {
    } else if t.lower(addons[0].name) == t.trimLower(name) {
      assert addons[0] in addons;
    } else {
      var rest := addons[1..];
      FoundIff(t, rest, name);
      assert forall a :: a in addons <==> a == addons[0] || a in rest;
      if FindAddon(t, rest, name).Some? {
        var i :| 0 <= i < |rest| && rest[i] == FindAddon(t, rest, name).value
                 && forall j :: 0 <= j < i ==> t.lower(rest[j].name) != t.trimLower(name);
        assert addons[i + 1] == rest[i];
        assert forall j :: 0 < j < i + 1 ==> addons[j] == rest[j - 1];
      }
    }
  }

  lemma {:induction false} SameNormalFormSameAddon(t: Text, addons: seq<Addon>, a: string, b: string)
    requires t.trimLower(a) == t.trimLower(b)
    ensures FindAddon(t, addons, a) == FindAddon(t, addons, b)
    decreases |addons|
  {
    if addons == [] {
    } else {
      SameNormalFormSameAddon(t, addons[1..], a, b);
    }
  }

  lemma {:induction false} MatchedAmong(t: Text, addons: seq<Addon>, names: seq<string>)
    ensures forall a :: a in Matched(t, addons, names) ==> a in addons
    decreases |names|
  {
    if names == [] {
    } else {
      MatchedAmong(t, addons, names[..|names| - 1]);
      if FindAddon(t, addons, names[|names| - 1]).Some? {
        FoundAmong(t, addons, names[|names| - 1]);
      }
    }
  }

  lemma {:induction false} MatchedIffAsked(t: Text, addons: seq<Addon>, names: seq<string>, name: string)
    requires FindAddon(t, addons, name).Some?
    ensures FindAddon(t, addons, name).value in Matched(t, addons, names) <==> AskedBefore(t, names, name)
    decreases |names|
  {
    if names == [] {
    } else {
      var init, last := names[..|names| - 1], names[|names| - 1];
      MatchedIffAsked(t, addons, init, name);
      FoundAmong(t, addons, name);
      if FindAddon(t, addons, last).Some? {
        FoundAmong(t, addons, last);
      }
      if t.trimLower(last) == t.trimLower(name) {
        SameNormalFormSameAddon(t, addons, last, name);
      }
      AskedGrows(t, init, last, name);
    }
  }

  lemma AskedGrows(t: Text, init: seq<string>, last: string, name: string)
    ensures AskedBefore(t, init + [last], name) <==> AskedBefore(t, init, name) || t.trimLower(last) == t.trimLower(name)
  {
    var all := init + [last];
    if AskedBefore(t, init, name) {
      var i :| 0 <= i < |init| && t.trimLower(init[i]) == t.trimLower(name);
      assert all[i] == init[i];
    }
    assert all[|init|] == last;
  }

  // ---------- Sums over the query's answer ----------

  predicate NoDuplicates(ids: seq<nat>) {
    forall i, j :: 0 <= i < j < |ids| ==> ids[i] != ids[j]
  }

  function Without(ids: seq<nat>, k: nat): seq<nat>
    requires k < |ids|
  {
    ids[..k] + ids[k + 1..]
  }

  lemma {:induction false} TotalWithout(c: Catalogue, ids: seq<nat>, k: nat)
    requires InCatalogue(c, ids) && k < |ids|
    ensures TotalOf(c, ids) == TotalOf(c, Without(ids, k)) + c.addons[ids[k]].price
    decreases |ids|
  {
    var init := ids[..|ids| - 1];
    if k == |init| {
      assert Without(ids, k) == init;
    } else {
      TotalWithout(c, init, k);
      var less := Without(ids, k);
      assert less[..|less| - 1] == Without(init, k) && less[|less| - 1] == ids[|ids| - 1];
    }
  }

  lemma HeadIsMember(ids: seq<nat>)
    ensures ids != [] ==> ids[0] in ids
  {
  }

  /** Two duplicate-free lists of the same ids have the same length and the same total, whatever their order. */
  lemma {:induction false} OrderDoesNotMatter(c: Catalogue, a: seq<nat>, b: seq<nat>)
    requires InCatalogue(c, a) && NoDuplicates(a) && NoDuplicates(b)
    requires forall id :: id in a <==> id in b
    ensures InCatalogue(c, b) && |a| == |b| && TotalOf(c, a) == TotalOf(c, b)
    decreases |a|
  {
    if a == [] {
      HeadIsMember(b);
    } else {
      var init, last := a[..|a| - 1], a[|a| - 1];
      assert last in b;
      var k :| 0 <= k < |b| && b[k] == last;
      var rest := Without(b, k);
      assert forall id :: id in rest <==> id in b && id != last;
      OrderDoesNotMatter(c, init, rest);
      TotalWithout(c, b, k);
    }
  }

  lemma {:induction false} DistinctKeepsIds(ids: seq<nat>)
    ensures NoDuplicates(Distinct(ids)) && forall id :: id in Distinct(ids) <==> id in ids
    decreases |ids|
  {
    if ids == [] {
    } else {
      DistinctKeepsIds(ids[..|ids| - 1]);
      assert ids == ids[..|ids| - 1] + [ids[|ids| - 1]];
    }
  }

  // ---------- Quote against hold ----------

  lemma ShownAddon(c: Catalogue, o: Offering, t: Text, names: seq<string>, a: Addon)
    requires Shows(c, o) && a in o.addons
    ensures a.id in Ids(Matched(t, o.addons, names)) <==> a in Matched(t, o.addons, names)
  {
    var ms := Matched(t, o.addons, names);
    MatchedAmong(t, o.addons, names);
    if a.id in Ids(ms) {
      var i :| 0 <= i < |ms| && ms[i].id == a.id;
      assert ms[i] in o.addons;
      var j :| 0 <= j < |o.addons| && o.addons[j] == ms[i];
      var k :| 0 <= k < |o.addons| && o.addons[k] == a;
    }
    if a in ms {
      var i :| 0 <= i < |ms| && ms[i] == a;
      assert Ids(ms)[i] == a.id;
    }
  }

  lemma NameAsksAgainIff(c: Catalogue, o: Offering, t: Text, names: seq<string>, name: string)
    requires Shows(c, o) && FindAddon(t, o.addons, name).Some?
    ensures
      var a := FindAddon(t, o.addons, name).value;
      && a.id in c.addons && c.addons[a.id].price == a.price
      && (a.id in Ids(Matched(t, o.addons, names)) <==> AskedBefore(t, names, name))
  {
    FoundAmong(t, o.addons, name);
    MatchedIffAsked(t, o.addons, names, name);
    ShownAddon(c, o, t, names, FindAddon(t, o.addons, name).value);
  }

  /** The names' total is the total of the distinct ids plus the repeats. */
  lemma {:induction false} TotalIsDistinctPlusRepeats(c: Catalogue, o: Offering, t: Text, names: seq<string>)
    requires Shows(c, o)
    ensures
      var ids := Ids(Matched(t, o.addons, names));
      InCatalogue(c, Distinct(ids)) && Total(Matched(t, o.addons, names)) == TotalOf(c, Distinct(ids)) + Repeats(t, o.addons, names)
    decreases |names|
  {
    if names == [] {
    } else {
      var init, last := names[..|names| - 1], names[|names| - 1];
      TotalIsDistinctPlusRepeats(c, o, t, init);
      var ms := Matched(t, o.addons, init);
      var m := FindAddon(t, o.addons, last);
      if m.None? {
        assert ms + [] == ms;
      } else {
        NameAsksAgainIff(c, o, t, init, last);
        TotalAppend(ms, m.value);
        assert Ids(ms + [m.value]) == Ids(ms) + [m.value.id];
        DistinctAppend(c, Ids(ms), m.value.id);
      }
    }
  }

  lemma DistinctAppend(c: Catalogue, ids: seq<nat>, id: nat)
    requires InCatalogue(c, Distinct(ids)) && id in c.addons
    ensures InCatalogue(c, Distinct(ids + [id]))
    ensures TotalOf(c, Distinct(ids + [id])) == TotalOf(c, Distinct(ids)) + if id in ids then 0.0 else c.addons[id].price
  {
    assert (ids + [id])[..|ids|] == ids;
    var d := Distinct(ids);
    assert d + [] == d && (d + [id])[..|d|] == d;
  }

  /** With an unchanged catalogue the query finds every selected add-on, and its total is that of the distinct ids. */
  lemma AnswerIsComplete(c: Catalogue, o: Offering, t: Text, names: seq<string>, rows: seq<nat>)
    requires Shows(c, o) && Answers(c, o.id, Ids(Matched(t, o.addons, names)), rows)
    ensures
      var d := Distinct(Ids(Matched(t, o.addons, names)));
      InCatalogue(c, rows) && InCatalogue(c, d) && |rows| == |d| && TotalOf(c, rows) == TotalOf(c, d)
  {
    var ms := Matched(t, o.addons, names);
    var ids := Ids(ms);
    MatchedAmong(t, o.addons, names);
    forall id | id in ids ensures Selectable(c, o.id, ids, id) {
      var i :| 0 <= i < |ids| && ids[i] == id;
      assert ms[i] in o.addons;
    }
    DistinctKeepsIds(ids);
    OrderDoesNotMatter(c, rows, Distinct(ids));
  }

  lemma WholePenceSum(x: real, y: real)
    requires WholePence(x) && WholePence(y)
    ensures WholePence(x + y)
  {
    PenceRoundTrip(ToPence(x) + ToPence(y));
    assert x + y == Pounds(ToPence(x) + ToPence(y));
  }

  lemma {:induction false} TotalIsWhole(addons: seq<Addon>)
    requires forall a :: a in addons ==> WholePence(a.price)
    ensures WholePence(Total(addons))
    decreases |addons|
  {
    if addons == [] {
    } else {
      TotalIsWhole(addons[..|addons| - 1]);
      WholePenceSum(Total(addons[..|addons| - 1]), addons[|addons| - 1].price);
    }
  }

  lemma {:induction false} RepeatsAreWhole(t: Text, o: Offering, names: seq<string>)
    requires WholePrices(o)
    ensures WholePence(Repeats(t, o.addons, names)) && Repeats(t, o.addons, names) >= 0.0
    decreases |names|
  {
    if names == [] {
    } else {
      var init, last := names[..|names| - 1], names[|names| - 1];
      RepeatsAreWhole(t, o, init);
      if FindAddon(t, o.addons, last).Some? {
        FoundAmong(t, o.addons, last);
        WholePenceSum(Repeats(t, o.addons, init), FindAddon(t, o.addons, last).value.price);
      }
    }
  }

  /** No name asks a second time for an add-on that costs something. */
  predicate NoPaidRepeat(t: Text, addons: seq<Addon>, names: seq<string>) {
    names == []
    || (var init, last := names[..|names| - 1], names[|names| - 1];
        && NoPaidRepeat(t, addons, init)
        && (AskedBefore(t, init, last) && FindAddon(t, addons, last).Some? ==> FindAddon(t, addons, last).value.price == 0.0))
  }

  lemma {:induction false} RepeatsAreFreeIff(t: Text, o: Offering, names: seq<string>)
    requires WholePrices(o)
    ensures Repeats(t, o.addons, names) == 0.0 <==> NoPaidRepeat(t, o.addons, names)
    decreases |names|
  {
    if names == [] {
    } else {
      var init, last := names[..|names| - 1], names[|names| - 1];
      RepeatsAreFreeIff(t, o, init);
      RepeatsAreWhole(t, o, init);
      if FindAddon(t, o.addons, last).Some? {
        FoundAmong(t, o.addons, last);
      }
    }
  }

  /** What the receptionist's hold request comes to, from the names it quoted. */
  function AiHold(c: Catalogue, venue: Venue, hasRequirements: bool, o: Offering, t: Text, names: seq<string>, rows: seq<nat>)
      : Result<Hold, HoldError>
    requires InCatalogue(c, rows)
  {
    PriceHold(c, venue, hasRequirements, AiRequest(o.id, Ids(Matched(t, o.addons, names))), rows)
  }

  /**
   * With an unchanged catalogue the receptionist's hold passes the pricing checks exactly when the stylist's one mode
   * is not the home visit, and then carries no surcharge. The gate and the creating transaction come after.
   */
  lemma AiHoldIsPricedIff(
      c: Catalogue, venue: Venue, hasRequirements: bool, o: Offering, t: Text, names: seq<string>, rows: seq<nat>)
    requires Shows(c, o) && Answers(c, o.id, Ids(Matched(t, o.addons, names)), rows)
    ensures
      var r := AiHold(c, venue, hasRequirements, o, t, names, rows);
      && (r.Ok? <==> |venue.offeredModes| == 1 && venue.offeredModes[0] != ComeToClient)
      && (r.Ok? ==> r.value.surcharge == 0.0)
  {
    AnswerIsComplete(c, o, t, names, rows);
    AiHoldWhenRowsMatch(c, venue, hasRequirements, o, Ids(Matched(t, o.addons, names)), rows);
    AiHoldHasNoSurcharge(c, venue, hasRequirements, o.id, Ids(Matched(t, o.addons, names)), rows);
  }

  /** With an unchanged catalogue the quote exceeds the agreed price of the hold by exactly the repeats. */
  lemma QuoteExceedsHoldByRepeats(
      c: Catalogue, venue: Venue, hasRequirements: bool, o: Offering, t: Text, names: seq<string>, rows: seq<nat>)
    requires Shows(c, o) && WholePrices(o) && Answers(c, o.id, Ids(Matched(t, o.addons, names)), rows)
    requires AiHold(c, venue, hasRequirements, o, t, names, rows).Ok?
    ensures
      Quote(t, o, names) ==
      AiHold(c, venue, hasRequirements, o, t, names, rows).value.agreedPrice + Repeats(t, o.addons, names)
  {
    AnswerSplitsTotal(c, o, t, names, rows);
    AiHoldWhenRowsMatch(c, venue, hasRequirements, o, Ids(Matched(t, o.addons, names)), rows);
    QuoteSplits(o, t, names, TotalOf(c, rows));
  }

  lemma QuoteSplits(o: Offering, t: Text, names: seq<string>, distinct: real)
    requires WholePrices(o) && Total(Matched(t, o.addons, names)) == distinct + Repeats(t, o.addons, names)
    ensures Quote(t, o, names) == AgreedPrice(o.basePrice, 0.0, distinct) + Repeats(t, o.addons, names)
  {
    WholeParts(t, o, names);
    RoundedSplit(o.basePrice, Total(Matched(t, o.addons, names)), distinct, Repeats(t, o.addons, names));
  }

  lemma AnswerSplitsTotal(c: Catalogue, o: Offering, t: Text, names: seq<string>, rows: seq<nat>)
    requires Shows(c, o) && Answers(c, o.id, Ids(Matched(t, o.addons, names)), rows)
    ensures InCatalogue(c, rows) && |rows| == |Distinct(Ids(Matched(t, o.addons, names)))|
    ensures Total(Matched(t, o.addons, names)) == TotalOf(c, rows) + Repeats(t, o.addons, names)
  {
    AnswerIsComplete(c, o, t, names, rows);
    TotalIsDistinctPlusRepeats(c, o, t, names);
  }

  lemma WholeParts(t: Text, o: Offering, names: seq<string>)
    requires WholePrices(o)
    ensures WholePence(Total(Matched(t, o.addons, names))) && WholePence(Repeats(t, o.addons, names))
  {
    MatchedAmong(t, o.addons, names);
    TotalIsWhole(Matched(t, o.addons, names));
    RepeatsAreWhole(t, o, names);
  }

  lemma RoundedSplit(base: real, total: real, distinct: real, repeats: real)
    requires WholePence(base) && WholePence(total) && WholePence(repeats) && total == distinct + repeats
    ensures RoundToPenny(base + total) == AgreedPrice(base, 0.0, distinct) + repeats
  {
    WholePenceSum(base, total);
    WholePenceIsKept(base + total);
    WholePenceDifference(base + total, repeats);
    WholePenceIsKept(base + total - repeats);
    assert base + 0.0 + distinct == base + total - repeats;
  }

  lemma AiHoldWhenRowsMatch(c: Catalogue, venue: Venue, hasRequirements: bool, o: Offering, ids: seq<nat>, rows: seq<nat>)
    requires o.id in c.offerings && c.offerings[o.id].active && c.offerings[o.id].basePrice == o.basePrice
    requires InCatalogue(c, rows) && |rows| == |Distinct(ids)|
    ensures
      var r := PriceHold(c, venue, hasRequirements, AiRequest(o.id, ids), rows);
      && (r.Ok? <==> |venue.offeredModes| == 1 && venue.offeredModes[0] != ComeToClient)
      && (r.Ok? ==> r.value.agreedPrice == AgreedPrice(o.basePrice, 0.0, TotalOf(c, rows)))
  {
    var request := AiRequest(o.id, ids);
    if CheckHold(c, venue, hasRequirements, request, rows).Ok? {
      assert Surcharge(venue, venue.offeredModes[0]) == 0.0;
    }
  }

  /** The hold's agreed price is the quote exactly when no name repeats an add-on that costs something. */
  lemma QuoteIsKeptIff(
      c: Catalogue, venue: Venue, hasRequirements: bool, o: Offering, t: Text, names: seq<string>, rows: seq<nat>)
    requires Shows(c, o) && WholePrices(o) && Answers(c, o.id, Ids(Matched(t, o.addons, names)), rows)
    requires AiHold(c, venue, hasRequirements, o, t, names, rows).Ok?
    ensures
      AiHold(c, venue, hasRequirements, o, t, names, rows).value.agreedPrice == Quote(t, o, names)
      <==> NoPaidRepeat(t, o.addons, names)
  {
    QuoteExceedsHoldByRepeats(c, venue, hasRequirements, o, t, names, rows);
    RepeatsAreFreeIff(t, o, names);
  }

  predicate DistinctNames(t: Text, names: seq<string>) {
    forall i, j :: 0 <= i < j < |names| ==> t.trimLower(names[i]) != t.trimLower(names[j])
  }

  lemma {:induction false} DistinctNamesDoNotRepeat(t: Text, addons: seq<Addon>, names: seq<string>)
    requires DistinctNames(t, names)
    ensures NoPaidRepeat(t, addons, names)
    decreases |names|
  {
    if names == [] {
    } else {
      DistinctNamesDoNotRepeat(t, addons, names[..|names| - 1]);
    }
  }

  lemma {:induction false} TotalOfIsWhole(c: Catalogue, ids: seq<nat>)
    requires InCatalogue(c, ids) && forall id :: id in c.addons ==> WholePence(c.addons[id].price)
    ensures WholePence(TotalOf(c, ids))
    decreases |ids|
  {
    if ids == [] {
    } else {
      TotalOfIsWhole(c, ids[..|ids| - 1]);
      WholePenceSum(TotalOf(c, ids[..|ids| - 1]), c.addons[ids[|ids| - 1]].price);
    }
  }

  /** Whoever asks, rounding changes nothing: the agreed price is base, surcharge and add-ons, to the penny. */
  lemma HoldPriceIsTheExactSum(c: Catalogue, venue: Venue, hasRequirements: bool, request: HoldRequest, rows: seq<nat>)
    requires InCatalogue(c, rows) && PriceHold(c, venue, hasRequirements, request, rows).Ok?
    requires forall id :: id in c.addons ==> WholePence(c.addons[id].price)
    requires WholePence(c.offerings[request.offeringId].basePrice)
    requires venue.homeVisitSurcharge.Some? ==> WholePence(venue.homeVisitSurcharge.value)
    ensures
      var hold := PriceHold(c, venue, hasRequirements, request, rows).value;
      && hold.agreedPrice == c.offerings[request.offeringId].basePrice + hold.surcharge + TotalOf(c, rows)
      && hold.surcharge == (if hold.mode != ComeToClient || venue.homeVisitSurcharge.None? then 0.0 else venue.homeVisitSurcharge.value)
  {
    var hold := PriceHold(c, venue, hasRequirements, request, rows).value;
    var base := c.offerings[request.offeringId].basePrice;
    TotalOfIsWhole(c, rows);
    assert WholePence(0.0);
    ExactSum(base, hold.surcharge, TotalOf(c, rows));
  }

  lemma ExactSum(base: real, surcharge: real, addonsTotal: real)
    requires WholePence(base) && WholePence(surcharge) && WholePence(addonsTotal)
    ensures AgreedPrice(base, surcharge, addonsTotal) == base + surcharge + addonsTotal
  {
    WholePenceSum(base, surcharge);
    WholePenceSum(base + surcharge, addonsTotal);
    WholePenceIsKept(base + surcharge + addonsTotal);
  }

  // ---------- Which holds are priced ----------

  function SetOf(ids: seq<nat>): set<nat> {
    set id | id in ids
  }

  lemma {:induction false} NoDuplicatesCount(ids: seq<nat>)
    requires NoDuplicates(ids)
    ensures |SetOf(ids)| == |ids|
    decreases |ids|
  {
    if ids == [] {
      assert SetOf(ids) == {};
    } else {
      var init, last := ids[..|ids| - 1], ids[|ids| - 1];
      NoDuplicatesCount(init);
      assert SetOf(ids) == SetOf(init) + {last} && last !in SetOf(init);
    }
  }

  lemma SmallerSetIsWhole(small: set<nat>, large: set<nat>)
    requires small <= large
    ensures |small| == |large| <==> small == large
  {
    assert large == small + (large - small);
  }

  /** The service only compares counts, and so finds out whether every add-on asked for is to be had. */
  lemma CountTellsAvailability(c: Catalogue, offeringId: nat, ids: seq<nat>, rows: seq<nat>)
    requires Answers(c, offeringId, ids, rows)
    ensures |rows| == |Distinct(ids)| <==> forall id :: id in ids ==> Selectable(c, offeringId, ids, id)
  {
    DistinctKeepsIds(ids);
    NoDuplicatesCount(rows);
    NoDuplicatesCount(Distinct(ids));
    assert SetOf(rows) <= SetOf(Distinct(ids)) by {
      forall id | id in rows ensures id in ids { assert Selectable(c, offeringId, ids, id); }
    }
    SmallerSetIsWhole(SetOf(rows), SetOf(Distinct(ids)));
    if forall id :: id in ids ==> Selectable(c, offeringId, ids, id) {
      assert SetOf(rows) == SetOf(Distinct(ids));
    }
    if SetOf(rows) == SetOf(Distinct(ids)) {
      forall id | id in ids ensures Selectable(c, offeringId, ids, id) {
        assert id in SetOf(Distinct(ids));
      }
    }
  }

  /** The client, or the receptionist on the client's behalf, has accepted what has to be accepted. */
  predicate Agreed(request: HoldRequest, hasRequirements: bool) {
    request.source == AiAgent || (request.acknowledgedPolicies && (request.acknowledgedRequirements || !hasRequirements))
  }

  /** The appointment takes place there: chosen by the client, or the only mode there is. */
  predicate TakesPlace(venue: Venue, request: HoldRequest, mode: Mode) {
    && mode in venue.offeredModes && (request.mode == Some(mode) || (request.mode == None && venue.offeredModes == [mode]))
    && (request.hasVisitAddress || mode != ComeToClient)
  }

  /** A request is priced exactly if the service is offered, all is accepted, the place settled and every add-on to be had. */
  lemma HoldIsPricedIff(c: Catalogue, venue: Venue, hasRequirements: bool, request: HoldRequest, rows: seq<nat>)
    requires InCatalogue(c, rows) && Answers(c, request.offeringId, request.addonIds, rows)
    ensures
      var r := PriceHold(c, venue, hasRequirements, request, rows);
      && (r.Ok? <==>
            && request.offeringId in c.offerings && c.offerings[request.offeringId].active && Agreed(request, hasRequirements)
            && (exists mode :: TakesPlace(venue, request, mode))
            && forall id :: id in request.addonIds ==>
                 id in c.addons && c.addons[id].active && c.addons[id].offeringId == request.offeringId)
      && (r.Ok? ==> TakesPlace(venue, request, r.value.mode))
  {
    CountTellsAvailability(c, request.offeringId, request.addonIds, rows);
    if request.mode == None && |venue.offeredModes| == 1 {
      assert venue.offeredModes == [venue.offeredModes[0]];
    }
    if CheckHold(c, venue, hasRequirements, request, rows).Ok? {
      assert TakesPlace(venue, request, CheckHold(c, venue, hasRequirements, request, rows).value);
    }
  }

  /** Each refusal of a request names something that is really amiss. */
  lemma HoldRefusalsSayWhy(c: Catalogue, venue: Venue, hasRequirements: bool, request: HoldRequest, rows: seq<nat>)
    requires InCatalogue(c, rows) && Answers(c, request.offeringId, request.addonIds, rows)
    ensures
      match PriceHold(c, venue, hasRequirements, request, rows)
      case Ok(_) => true
      case Err(OfferingNotFound) => !(request.offeringId in c.offerings && c.offerings[request.offeringId].active)
      case Err(PoliciesNotAccepted) => request.source != AiAgent && !request.acknowledgedPolicies
      case Err(RequirementsNotAcknowledged) => request.source != AiAgent && hasRequirements && !request.acknowledgedRequirements
      case Err(ModeNotChosen) => request.mode == None && |venue.offeredModes| != 1
      case Err(ModeNotOffered) => request.mode.Some? && request.mode.value !in venue.offeredModes
      case Err(AddressRequired) => !request.hasVisitAddress && ComeToClient in venue.offeredModes
      case Err(AddonUnavailable) => exists id :: id in request.addonIds && !Selectable(c, request.offeringId, request.addonIds, id)
  {
    CountTellsAvailability(c, request.offeringId, request.addonIds, rows);
  }

  /** The agreed price charges each add-on asked for once, however often it is asked for. */
  lemma HoldChargesEachAddonOnce(c: Catalogue, venue: Venue, hasRequirements: bool, request: HoldRequest, rows: seq<nat>)
    requires InCatalogue(c, rows) && Answers(c, request.offeringId, request.addonIds, rows)
    requires PriceHold(c, venue, hasRequirements, request, rows).Ok?
    requires forall id :: id in c.addons ==> WholePence(c.addons[id].price)
    requires WholePence(c.offerings[request.offeringId].basePrice)
    requires venue.homeVisitSurcharge.Some? ==> WholePence(venue.homeVisitSurcharge.value)
    ensures
      var hold := PriceHold(c, venue, hasRequirements, request, rows).value;
      && InCatalogue(c, Distinct(request.addonIds))
      && hold.agreedPrice == c.offerings[request.offeringId].basePrice + hold.surcharge + TotalOf(c, Distinct(request.addonIds))
  {
    HoldPriceIsTheExactSum(c, venue, hasRequirements, request, rows);
    CountTellsAvailability(c, request.offeringId, request.addonIds, rows);
    DistinctKeepsIds(request.addonIds);
    OrderDoesNotMatter(c, rows, Distinct(request.addonIds));
  }
}

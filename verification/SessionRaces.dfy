/**
 * Refreshes with every database call as its own step: read the session, retire it by id without looking again, create
 * its successor. A refresh whose read fails goes on to look for reuse. Any number of requests interleave.
 */
module SessionRaces {
  import opened Common
  import opened Runs
  import opened Sessions
  import Lists

  datatype Request =
    | Idle
    | Retiring(token: Token)                 // read as usable; the unguarded retirement is next
    | Issuing(user: nat, family: nat)        // token retired; the successor is yet to be created
    | Suspecting(token: Token)               // refresh refused; the reuse check's read is next
    | Ending(family: nat)                    // read as revoked; the family's revocation is next

  datatype World = World(s: State, requests: map<nat, Request>)

  datatype Step =
    | Clock(to: int)
    | Deactivate(users: set<nat>)
    | SignIn(user: nat, family: nat, minted: Token)
    | SignOut(token: Token)
    | Reset(user: nat)
    | Read(request: nat, token: Token)
    | Retire(request: nat)
    | Issue(request: nat, minted: Token)
    | Suspect(request: nat)
    | End(request: nat)

  function At(w: World, x: nat): Request {
    if x in w.requests then w.requests[x] else Idle
  }

  function Becomes(w: World, x: nat, next: Request): World {
    w.(requests := w.requests[x := next])
  }

  function WithTable(w: World, t: Table): World {
    w.(s := w.s.(table := t))
  }

  function Take(w: World, e: Step): World {
    match e
    case Clock(to) => w.(s := Apply(w.s, Tick(to)))
    case Deactivate(users) => w.(s := Apply(w.s, SetDeactivated(users)))
    case SignIn(user, family, minted) => w.(s := AfterLogin(w.s, user, family, minted))
    case SignOut(token) => WithTable(w, RevokedToken(w.s.table, token))
    case Reset(user) => WithTable(w, RevokedUser(w.s.table, user))
    case Read(x, token) =>
      if !At(w, x).Idle? then w
      else Becomes(w, x, if Usable(w.s, token) then Retiring(token) else Suspecting(token))
    case Retire(x) => if At(w, x).Retiring? && At(w, x).token in w.s.table then Retired(w, x, At(w, x).token) else w
    case Issue(x, minted) =>
      var r := At(w, x);
      if r.Issuing? then Becomes(w.(s := Inserted(w.s, r.user, r.family, minted)), x, Idle) else w
    case Suspect(x) => if At(w, x).Suspecting? then Becomes(w, x, AfterSuspicion(w.s.table, At(w, x).token)) else w
    case End(x) =>
      if At(w, x).Ending? then Becomes(WithTable(w, RevokedFamily(w.s.table, At(w, x).family)), x, Idle) else w
  }

  function Retired(w: World, x: nat, token: Token): World
    requires token in w.s.table
  {
    Becomes(WithTable(w, RevokedToken(w.s.table, token)), x, Issuing(w.s.table[token].user, w.s.table[token].family))
  }

  function AfterSuspicion(t: Table, token: Token): Request {
    if token in t && t[token].revoked then Ending(t[token].family) else Idle
  }

  /** New tokens and new families are unused, also by sessions about to be created. */
  predicate New(w: World, e: Step) {
    match e
    case SignIn(_, family, minted) => minted !in w.s.table && !FamilyUsed(w.s.table, family)
    case Issue(_, minted) => minted !in w.s.table
    case _ => true
  }

  function Run(w: World, steps: seq<Step>): World
    decreases |steps|
  {
    if steps == [] then w else Run(Take(w, steps[0]), steps[1..])
  }

  predicate NewRun(w: World, steps: seq<Step>)
    decreases |steps|
  {
    steps == [] || (New(w, steps[0]) && NewRun(Take(w, steps[0]), steps[1..]))
  }

  // ---------- Claims on a family ----------

  /** What is or will be a live session of a family: an unrevoked session, or a successor about to be created. */
  datatype Claim = LiveSession(token: Token) | Successor(request: nat)

  predicate Claims(w: World, family: nat, c: Claim) {
    match c
    case LiveSession(token) => Live(w.s.table, token) && w.s.table[token].family == family
    case Successor(x) => At(w, x).Issuing? && At(w, x).family == family
  }

  ghost predicate OneClaim(w: World, family: nat) {
    forall c, d :: Claims(w, family, c) && Claims(w, family, d) ==> c == d
  }

  ghost predicate NoClaim(w: World, family: nat) {
    forall c :: !Claims(w, family, c)
  }

  /** Requests under way speak of sessions and families that exist. */
  predicate Known(w: World, r: Request) {
    match r
    case Retiring(token) => token in w.s.table
    case Issuing(_, family) => FamilyUsed(w.s.table, family)
    case _ => true
  }

  ghost predicate Inv(w: World) {
    (forall x :: Known(w, At(w, x))) && forall family :: OneClaim(w, family)
  }

  /** The guard the source leaves out: when the token is retired, it is still unrevoked. */
  predicate StillUnrevoked(w: World, x: nat) {
    At(w, x).Retiring? ==> Live(w.s.table, At(w, x).token)
  }

  /** A retirement hands its family a second claim: the token was revoked meanwhile, and the family has another claim. */
  ghost predicate Doubles(w: World, e: Step) {
    && e.Retire? && At(w, e.request).Retiring? && !StillUnrevoked(w, e.request)
    && At(w, e.request).token in w.s.table && !NoClaim(w, w.s.table[At(w, e.request).token].family)
  }

  lemma ClaimsShrink(w: World, z: World, family: nat)
    requires OneClaim(w, family) && forall c :: Claims(z, family, c) ==> Claims(w, family, c)
    ensures OneClaim(z, family)
  {
  }

  /** One claim passes to another. */
  lemma ClaimPasses(w: World, z: World, family: nat, from: Claim, to: Claim)
    requires OneClaim(w, family) && Claims(w, family, from)
    requires forall c :: Claims(z, family, c) ==> c == to || (Claims(w, family, c) && c != from)
    ensures OneClaim(z, family)
  {
  }

  lemma KnownStays(w: World, z: World, x: nat)
    requires forall y :: Known(w, At(w, y))
    requires forall token :: token in w.s.table ==> token in z.s.table && z.s.table[token].family == w.s.table[token].family
    requires (forall y :: y != x ==> At(z, y) == At(w, y)) && Known(z, At(z, x))
    ensures forall y :: Known(z, At(z, y))
  {
    forall y ensures Known(z, At(z, y)) {
      assert Known(w, At(w, y));
      if At(w, y).Issuing? {
        FamilyStaysUsed(w.s.table, z.s.table, At(w, y).family);
      }
    }
  }

  lemma FamilyStaysUsed(t: Table, u: Table, family: nat)
    requires FamilyUsed(t, family)
    requires forall token :: token in t ==> token in u && u[token].family == t[token].family
    ensures FamilyUsed(u, family)
  {
    var token :| token in t && t[token].family == family;
    assert token in u && u[token].family == family;
  }

  /** Revocations take claims away and add none. */
  lemma RevocationKeepsInv(w: World, z: World, x: nat)
    requires Inv(w) && z.s.table.Keys == w.s.table.Keys
    requires forall token :: token in w.s.table ==>
      z.s.table[token].family == w.s.table[token].family && (w.s.table[token].revoked ==> z.s.table[token].revoked)
    requires (forall y :: y != x ==> At(z, y) == At(w, y)) && !At(z, x).Issuing? && Known(z, At(z, x))
    ensures Inv(z)
  {
    KnownStays(w, z, x);
    forall family ensures OneClaim(z, family) {
      forall c | Claims(z, family, c) ensures Claims(w, family, c) {
      }
      ClaimsShrink(w, z, family);
    }
  }

  lemma SignInKeepsInv(w: World, user: nat, family: nat, minted: Token)
    requires Inv(w) && New(w, SignIn(user, family, minted))
    ensures Inv(Take(w, SignIn(user, family, minted)))
  {
    var z := Take(w, SignIn(user, family, minted));
    KnownStays(w, z, 0) by {
      assert Known(w, At(w, 0));
      if At(w, 0).Issuing? && z != w { FamilyStaysUsed(w.s.table, z.s.table, At(w, 0).family); }
    }
    forall f ensures OneClaim(z, f) {
      assert OneClaim(w, f);
      if f == family && user !in w.s.deactivated {
        forall x ensures !Claims(w, f, Successor(x)) {
          assert Known(w, At(w, x));
        }
        forall c | Claims(z, f, c) ensures c == LiveSession(minted) {
          assert c.Successor? ==> Claims(w, f, c);
        }
      } else {
        ClaimsShrink(w, z, f);
      }
    }
  }

  lemma IssueKeepsInv(w: World, x: nat, minted: Token)
    requires Inv(w) && At(w, x).Issuing? && minted !in w.s.table
    ensures Inv(Take(w, Issue(x, minted)))
  {
    var z := Take(w, Issue(x, minted));
    KnownStays(w, z, x);
    forall f ensures OneClaim(z, f) {
      assert OneClaim(w, f);
      if f == At(w, x).family {
        assert Claims(w, f, Successor(x));
        ClaimPasses(w, z, f, Successor(x), LiveSession(minted));
      } else {
        ClaimsShrink(w, z, f);
      }
    }
  }

  lemma RetireKeepsKnown(w: World, x: nat)
    requires Inv(w) && At(w, x).Retiring?
    ensures At(w, x).token in w.s.table && forall y :: Known(Take(w, Retire(x)), At(Take(w, Retire(x)), y))
  {
    assert Known(w, At(w, x));
    var token := At(w, x).token;
    var z := Take(w, Retire(x));
    assert token in z.s.table && z.s.table[token].family == w.s.table[token].family;
    KnownStays(w, z, x);
  }

  /** The retirement step: the presented session's claim passes to its successor, if it still had one to pass. */
  lemma RetireKeepsInvIff(w: World, x: nat)
    requires Inv(w) && At(w, x).Retiring?
    ensures Inv(Take(w, Retire(x))) <==> !Doubles(w, Retire(x))
  {
    RetireKeepsKnown(w, x);
    var token := At(w, x).token;
    var family := w.s.table[token].family;
    var z := Take(w, Retire(x));
    assert Claims(z, family, Successor(x));
    forall f | f != family ensures OneClaim(z, f) {
      assert OneClaim(w, f);
      ClaimsShrink(w, z, f);
    }
    assert OneClaim(w, family);
    if StillUnrevoked(w, x) {
      assert Claims(w, family, LiveSession(token));
      ClaimPasses(w, z, family, LiveSession(token), Successor(x));
    } else if NoClaim(w, family) {
      forall c | Claims(z, family, c) ensures c == Successor(x) {
        assert !Claims(w, family, c);
      }
    } else {
      var c :| Claims(w, family, c);
      assert Claims(z, family, c) && c != Successor(x);
      assert !OneClaim(z, family);
    }
  }

  /** Exactly which step gives some family two claims, and so in time two live sessions. */
  lemma StepKeepsOneClaimIff(w: World, e: Step)
    requires Inv(w) && New(w, e)
    ensures Inv(Take(w, e)) <==> !Doubles(w, e)
  {
    var z := Take(w, e);
    match e {
      case SignIn(user, family, minted) => SignInKeepsInv(w, user, family, minted);
      case Issue(x, minted) => if At(w, x).Issuing? { IssueKeepsInv(w, x, minted); }
      case Retire(x) => if At(w, x).Retiring? { RetireKeepsInvIff(w, x); }
      case Read(x, token) => if At(w, x).Idle? { RevocationKeepsInv(w, z, x); }
      case Suspect(x) => if At(w, x).Suspecting? { RevocationKeepsInv(w, z, x); }
      case End(x) => if At(w, x).Ending? { RevocationKeepsInv(w, z, x); }
      case SignOut(_) => TableRevocation(w, z);
      case Reset(_) => TableRevocation(w, z);
      case Clock(_) => TableRevocation(w, z);
      case Deactivate(_) => TableRevocation(w, z);
    }
  }

  lemma TableRevocation(w: World, z: World)
    requires Inv(w) && z.requests == w.requests && z.s.table.Keys == w.s.table.Keys
    requires forall token :: token in w.s.table ==>
      z.s.table[token].family == w.s.table[token].family && (w.s.table[token].revoked ==> z.s.table[token].revoked)
    ensures Inv(z)
  {
    forall y ensures Known(z, At(z, y)) {
      assert Known(w, At(w, y));
      if At(w, y).Issuing? {
        FamilyStaysUsed(w.s.table, z.s.table, At(w, y).family);
      }
    }
    forall family ensures OneClaim(z, family) {
      assert OneClaim(w, family);
      ClaimsShrink(w, z, family);
    }
  }

  // ---------- Every run ----------

  ghost predicate NeverDoubles(w: World, steps: seq<Step>)
    decreases |steps|
  {
    steps == [] || (New(w, steps[0]) && !Doubles(w, steps[0]) && NeverDoubles(Take(w, steps[0]), steps[1..]))
  }

  lemma {:induction false} RunKeepsInv(w: World, steps: seq<Step>)
    requires Inv(w) && NeverDoubles(w, steps)
    ensures Inv(Run(w, steps))
    decreases |steps|
  {
    if steps == [] {
    } else {
      StepKeepsOneClaimIff(w, steps[0]);
      RunKeepsInv(Take(w, steps[0]), steps[1..]);
    }
  }

  function Start(ttlMs: int, clock: int): World {
    World(Init(ttlMs, clock), map[])
  }

  /** Over every interleaving without a doubling retirement, a family has at most one live session. */
  lemma AtMostOneLive(ttlMs: int, clock: int, steps: seq<Step>, a: Token, b: Token)
    requires NeverDoubles(Start(ttlMs, clock), steps)
    ensures
      var t := Run(Start(ttlMs, clock), steps).s.table;
      Live(t, a) && Live(t, b) && t[a].family == t[b].family ==> a == b
  {
    RunKeepsInv(Start(ttlMs, clock), steps);
    var z := Run(Start(ttlMs, clock), steps);
    if Live(z.s.table, a) && Live(z.s.table, b) && z.s.table[a].family == z.s.table[b].family {
      var family := z.s.table[a].family;
      assert OneClaim(z, family) && Claims(z, family, LiveSession(a)) && Claims(z, family, LiveSession(b));
    }
  }

  /** A dead family comes back to life in exactly one way: a successor that was still to be created. */
  lemma FamilyRevivesIff(w: World, e: Step, family: nat)
    requires New(w, e) && Dead(w.s.table, family) && FamilyUsed(w.s.table, family)
    ensures !Dead(Take(w, e).s.table, family) <==> e.Issue? && Claims(w, family, Successor(e.request))
  {
    var t, u := w.s.table, Take(w, e).s.table;
    if e.Issue? && Claims(w, family, Successor(e.request)) {
      assert e.minted in u && u[e.minted].family == family && !u[e.minted].revoked;
    } else {
      forall token | token in u && u[token].family == family ensures u[token].revoked {
        assert e.SignIn? ==> e.family != family;
        assert token in t ==> t[token].revoked;
      }
    }
  }

  /** A family without a claim gains one in exactly one way: the retirement of a token revoked since it was read. */
  lemma UnclaimedGainsIff(w: World, e: Step, family: nat)
    requires New(w, e) && NoClaim(w, family) && FamilyUsed(w.s.table, family)
    ensures
      !NoClaim(Take(w, e), family)
      <==> e.Retire? && At(w, e.request).Retiring? && At(w, e.request).token in w.s.table
           && w.s.table[At(w, e.request).token].family == family
  {
    var z := Take(w, e);
    if e.Retire? && At(w, e.request).Retiring? && At(w, e.request).token in w.s.table {
      var f := w.s.table[At(w, e.request).token].family;
      assert Claims(z, f, Successor(e.request));
      forall c | f != family ensures !Claims(z, family, c) {
        assert !Claims(w, family, c);
      }
    } else {
      forall c ensures !Claims(z, family, c) {
        assert !Claims(w, family, c);
        assert e.Issue? ==> !Claims(w, family, Successor(e.request));
      }
    }
  }

  /** Every retirement finds its token still unrevoked. */
  predicate Guarded(w: World, steps: seq<Step>)
    decreases |steps|
  {
    steps == []
    || (New(w, steps[0]) && (steps[0].Retire? ==> StillUnrevoked(w, steps[0].request)) && Guarded(Take(w, steps[0]), steps[1..]))
  }

  /** With the guard, a family that has neither a live session nor one on its way never has one again. */
  lemma {:induction false} EndedFamilyStaysEnded(w: World, steps: seq<Step>, family: nat)
    requires Guarded(w, steps) && NoClaim(w, family) && FamilyUsed(w.s.table, family)
    ensures NoClaim(Run(w, steps), family) && Dead(Run(w, steps).s.table, family)
    decreases |steps|
  {
    if steps == [] {
      forall token | token in w.s.table && w.s.table[token].family == family ensures w.s.table[token].revoked {
        assert !Claims(w, family, LiveSession(token));
      }
    } else {
      var e := steps[0];
      UnclaimedGainsIff(w, e, family);
      if e.Retire? && At(w, e.request).Retiring? {
        assert !Claims(w, family, LiveSession(At(w, e.request).token));
      }
      UsedStaysUsed(w, e, family);
      EndedFamilyStaysEnded(Take(w, e), steps[1..], family);
    }
  }

  lemma UsedStaysUsed(w: World, e: Step, family: nat)
    requires New(w, e) && FamilyUsed(w.s.table, family)
    ensures FamilyUsed(Take(w, e).s.table, family)
  {
    var t, u := w.s.table, Take(w, e).s.table;
    assert forall token :: token in t ==> token in u && u[token].family == t[token].family;
    FamilyStaysUsed(t, u, family);
  }

  // ---------- Dead for good ----------

  /** A refresh has read a token of the family as usable and is about to retire it. */
  predicate Retires(w: World, family: nat, x: nat) {
    At(w, x).Retiring? && At(w, x).token in w.s.table && w.s.table[At(w, x).token].family == family
  }

  /** The family has no live session and no refresh of it is half done. */
  ghost predicate Over(w: World, family: nat) {
    NoClaim(w, family) && forall x :: !Retires(w, family, x)
  }

  ghost predicate DeadForGood(w: World, family: nat) {
    forall steps :: NewRun(w, steps) ==> Dead(Run(w, steps).s.table, family)
  }

  ghost predicate DeadWhileGuarded(w: World, family: nat) {
    forall steps :: Guarded(w, steps) ==> Dead(Run(w, steps).s.table, family)
  }

  lemma NoClaimIsDead(w: World, family: nat)
    ensures Dead(w.s.table, family) <==> forall token :: !Claims(w, family, LiveSession(token))
  {
    if forall token :: !Claims(w, family, LiveSession(token)) {
      forall token | token in w.s.table && w.s.table[token].family == family ensures w.s.table[token].revoked {
        assert !Claims(w, family, LiveSession(token));
      }
    }
  }

  lemma OverStays(w: World, e: Step, family: nat)
    requires New(w, e) && Over(w, family) && FamilyUsed(w.s.table, family)
    ensures Over(Take(w, e), family)
  {
    var z := Take(w, e);
    UnclaimedGainsIff(w, e, family);
    assert e.Retire? ==> !Retires(w, family, e.request);
    forall x ensures !Retires(z, family, x) {
      assert !Retires(w, family, x);
      if At(z, x).Retiring? && At(z, x).token in w.s.table {
        assert !Claims(w, family, LiveSession(At(z, x).token));
      } else if At(z, x).Retiring? && At(z, x).token in z.s.table {
        assert !Claims(z, family, LiveSession(At(z, x).token));
      }
    }
  }

  lemma {:induction false} OverIsForGood(w: World, steps: seq<Step>, family: nat)
    requires NewRun(w, steps) && Over(w, family) && FamilyUsed(w.s.table, family)
    ensures Dead(Run(w, steps).s.table, family)
    decreases |steps|
  {
    if steps == [] {
      NoClaimIsDead(w, family);
    } else {
      OverStays(w, steps[0], family);
      UsedStaysUsed(w, steps[0], family);
      OverIsForGood(Take(w, steps[0]), steps[1..], family);
    }
  }

  /** A pending successor can be created, and then the family lives. */
  lemma SuccessorRevives(w: World, family: nat, x: nat)
    requires Claims(w, family, Successor(x))
    ensures !DeadForGood(w, family) && !DeadWhileGuarded(w, family)
  {
    var minted := Lists.Unused(w.s.table.Keys);
    var e := Issue(x, minted);
    OneStep(Run, Take, w, e);
    assert [e][0] == e && [e][1..] == [] && New(w, e);
    assert NewRun(Take(w, e), []) && Guarded(Take(w, e), []);
    assert NewRun(w, [e]) && Guarded(w, [e]);
    assert Live(Take(w, e).s.table, minted) && Take(w, e).s.table[minted].family == family;
  }

  /** A pending retirement does not look again, so it leads to a successor. */
  lemma RetirementRevives(w: World, family: nat, x: nat)
    requires Retires(w, family, x)
    ensures !DeadForGood(w, family)
  {
    var e, z := Retire(x), Take(w, Retire(x));
    assert Claims(z, family, Successor(x));
    SuccessorRevives(z, family, x);
    var steps :| NewRun(z, steps) && !Dead(Run(z, steps).s.table, family);
    assert ([e] + steps)[0] == e && ([e] + steps)[1..] == steps;
    assert NewRun(w, [e] + steps) && Run(w, [e] + steps) == Run(z, steps);
  }

  /** A family is dead for good exactly when it has no live session and no refresh of it is half done. */
  lemma DeadForGoodIff(w: World, family: nat)
    requires FamilyUsed(w.s.table, family)
    ensures DeadForGood(w, family) <==> Over(w, family)
  {
    NoClaimIsDead(w, family);
    if Over(w, family) {
      forall steps | NewRun(w, steps) ensures Dead(Run(w, steps).s.table, family) {
        OverIsForGood(w, steps, family);
      }
    } else if x :| Retires(w, family, x) {
      RetirementRevives(w, family, x);
    } else {
      assert NewRun(w, []) && Run(w, []) == w;
      var c :| Claims(w, family, c);
      if c.Successor? { SuccessorRevives(w, family, c.request); }
    }
  }

  /** If retirements looked again, pending successors alone would matter. */
  lemma DeadWhileGuardedIff(w: World, family: nat)
    requires FamilyUsed(w.s.table, family)
    ensures DeadWhileGuarded(w, family) <==> NoClaim(w, family)
  {
    NoClaimIsDead(w, family);
    if NoClaim(w, family) {
      forall steps | Guarded(w, steps) ensures Dead(Run(w, steps).s.table, family) {
        EndedFamilyStaysEnded(w, steps, family);
      }
    } else {
      assert Guarded(w, []) && Run(w, []) == w;
      var c :| Claims(w, family, c);
      if c.Successor? { SuccessorRevives(w, family, c.request); }
    }
  }

  /**
   * The write that answers a replay ends the family for good exactly when no refresh of it is half done; were every
   * retirement to find its token unrevoked, exactly when no successor is still to be created.
   */
  lemma EndIsForGoodIff(w: World, x: nat, family: nat)
    requires At(w, x) == Ending(family) && FamilyUsed(w.s.table, family)
    ensures DeadForGood(Take(w, End(x)), family) <==> forall y :: !Retires(w, family, y) && !Claims(w, family, Successor(y))
    ensures DeadWhileGuarded(Take(w, End(x)), family) <==> forall y :: !Claims(w, family, Successor(y))
  {
    var z := Take(w, End(x));
    UsedStaysUsed(w, End(x), family);
    DeadForGoodIff(z, family);
    DeadWhileGuardedIff(z, family);
    assert forall y :: Retires(z, family, y) <==> Retires(w, family, y);
    assert forall y :: Claims(z, family, Successor(y)) <==> Claims(w, family, Successor(y));
    NoClaimIsDead(z, family);
    assert NoClaim(z, family) <==> forall y :: !Claims(z, family, Successor(y)) by {
      forall c: Claim | c.LiveSession? ensures !Claims(z, family, c) {
      }
    }
  }

  // ---------- Exchanges ----------

  predicate Exchanges(w: World, e: Step, token: Token) {
    e.Retire? && At(w, e.request) == Retiring(token) && token in w.s.table
  }

  function TimesExchanged(w: World, steps: seq<Step>, token: Token): nat
    decreases |steps|
  {
    if steps == [] then 0
    else (if Exchanges(w, steps[0], token) then 1 else 0) + TimesExchanged(Take(w, steps[0]), steps[1..], token)
  }

  lemma RevokedStaysSo(w: World, e: Step, token: Token)
    requires New(w, e) && token in w.s.table && w.s.table[token].revoked
    ensures token in Take(w, e).s.table && Take(w, e).s.table[token].revoked
  {
  }

  lemma {:induction false} RevokedIsNotExchanged(w: World, steps: seq<Step>, token: Token)
    requires Guarded(w, steps) && token in w.s.table && w.s.table[token].revoked
    ensures TimesExchanged(w, steps, token) == 0
    decreases |steps|
  {
    if steps == [] {
    } else {
      RevokedStaysSo(w, steps[0], token);
      RevokedIsNotExchanged(Take(w, steps[0]), steps[1..], token);
    }
  }

  /** If every retirement finds its token unrevoked, no token is exchanged twice, however requests interleave. */
  lemma {:induction false} ExchangedOnceWhileGuarded(w: World, steps: seq<Step>, token: Token)
    requires Guarded(w, steps)
    ensures TimesExchanged(w, steps, token) <= 1
    decreases |steps|
  {
    if steps == [] {
    } else if Exchanges(w, steps[0], token) {
      RevokedIsNotExchanged(Take(w, steps[0]), steps[1..], token);
    } else {
      ExchangedOnceWhileGuarded(Take(w, steps[0]), steps[1..], token);
    }
  }

  /** A locked-out user gets a live session in exactly two ways: a sign-in, or a successor still to be created. */
  lemma LockoutEndsIff(w: World, e: Step, user: nat)
    requires New(w, e) && LockedOut(w.s.table, user)
    ensures
      !LockedOut(Take(w, e).s.table, user)
      <==> (e.SignIn? && e.user == user && user !in w.s.deactivated)
           || (e.Issue? && At(w, e.request).Issuing? && At(w, e.request).user == user)
  {
    var t, u := w.s.table, Take(w, e).s.table;
    if e.SignIn? || e.Issue? {
      assert e.minted !in t;
      assert forall token :: token in t ==> token in u && u[token] == t[token];
      assert e.minted in u ==> !u[e.minted].revoked;
    } else {
      forall token | token in u && u[token].user == user ensures u[token].revoked {
        assert token in t && t[token].revoked;
      }
    }
  }

  // ---------- Runs ----------

  /** Left alone, a refresh is the one-step request: rotation when its token is usable, reuse detection when not. */
  lemma SoloRefreshIsTheRequest(w: World, x: nat, token: Token, minted: Token)
    requires At(w, x).Idle?
    ensures Usable(w.s, token) ==> Run(w, [Read(x, token), Retire(x), Issue(x, minted)]).s == AfterRefresh(w.s, token, minted)
    ensures !Usable(w.s, token) ==> Run(w, [Read(x, token), Suspect(x), End(x)]).s == AfterRefresh(w.s, token, minted)
  {
    ThreeSteps(Run, Take, w, Read(x, token), Retire(x), Issue(x, minted));
    ThreeSteps(Run, Take, w, Read(x, token), Suspect(x), End(x));
  }

  /** Signing in and out, a reset, the clock and a deactivation are one write each, as in the one-step model. */
  lemma OneWriteRequestsAreTheCalls(w: World, user: nat, family: nat, token: Token, to: int, users: set<nat>)
    ensures Take(w, SignIn(user, family, token)) == w.(s := Apply(w.s, Login(user, family, token)))
    ensures Take(w, SignOut(token)) == w.(s := Apply(w.s, Sessions.Logout(token)))
    ensures Take(w, Reset(user)) == w.(s := Apply(w.s, Sessions.ResetPassword(user)))
    ensures Take(w, Clock(to)) == w.(s := Apply(w.s, Tick(to)))
    ensures Take(w, Deactivate(users)) == w.(s := Apply(w.s, SetDeactivated(users)))
  {
  }

  /** Two refreshes that both read the token before either retires it leave its family with two live sessions. */
  lemma InterleavedRefreshesLeaveTwo(w: World, token: Token, first: Token, second: Token)
    requires At(w, 0).Idle? && At(w, 1).Idle? && Usable(w.s, token)
    requires first !in w.s.table && second !in w.s.table && first != second
    ensures
      var t := Run(w, [Read(0, token), Read(1, token), Retire(0)] + [Retire(1), Issue(0, first), Issue(1, second)]).s.table;
      Live(t, first) && Live(t, second) && t[first].family == t[second].family == w.s.table[token].family
  {
    var s := w.s.table[token];
    var w3 := Becomes(Becomes(WithTable(w, RevokedToken(w.s.table, token)), 1, Retiring(token)), 0, Issuing(s.user, s.family));
    Append(Run, Take, w, [Read(0, token), Read(1, token), Retire(0)], [Retire(1), Issue(0, first), Issue(1, second)]);
    ThreeSteps(Run, Take, w, Read(0, token), Read(1, token), Retire(0));
    ThreeSteps(Run, Take, w3, Retire(1), Issue(0, first), Issue(1, second));
    BothRetire(w, token, w3);
    BothIssue(w3, token, s.user, s.family, first, second);
  }

  lemma BothRetire(w: World, token: Token, w3: World)
    requires At(w, 0).Idle? && At(w, 1).Idle? && Usable(w.s, token)
    requires
      var s := w.s.table[token];
      w3 == Becomes(Becomes(WithTable(w, RevokedToken(w.s.table, token)), 1, Retiring(token)), 0, Issuing(s.user, s.family))
    ensures Take(Take(Take(w, Read(0, token)), Read(1, token)), Retire(0)) == w3
  {
    var read := Becomes(Becomes(w, 0, Retiring(token)), 1, Retiring(token));
    assert Take(Take(w, Read(0, token)), Read(1, token)) == read;
    assert Take(read, Retire(0)).requests == w3.requests && Take(read, Retire(0)) == w3;
  }

  lemma BothIssue(w: World, token: Token, user: nat, family: nat, first: Token, second: Token)
    requires At(w, 0) == Issuing(user, family) && At(w, 1) == Retiring(token)
    requires token in w.s.table && w.s.table[token].user == user && w.s.table[token].family == family
    requires first !in w.s.table && second !in w.s.table && first != second
    ensures
      var t := Take(Take(Take(w, Retire(1)), Issue(0, first)), Issue(1, second)).s.table;
      Live(t, first) && Live(t, second) && t[first].family == t[second].family == family
  {
    assert At(Take(w, Retire(1)), 1) == Issuing(user, family);
  }

  /** A refresh half done when the password is reset gives the locked-out user a live session afterwards. */
  lemma PendingSuccessorOutlivesReset(w: World, token: Token, minted: Token)
    requires At(w, 0).Idle? && Usable(w.s, token) && minted !in w.s.table
    ensures
      var user := w.s.table[token].user;
      var reset := Run(w, [Read(0, token), Retire(0), Reset(user)]);
      LockedOut(reset.s.table, user) && !LockedOut(Take(reset, Issue(0, minted)).s.table, user)
  {
    var user := w.s.table[token].user;
    ThreeSteps(Run, Take, w, Read(0, token), Retire(0), Reset(user));
    LockoutEndsIff(Run(w, [Read(0, token), Retire(0), Reset(user)]), Issue(0, minted), user);
  }
}

/**
 * Refresh-token families: login, rotation, reuse detection, logout and password reset over the sessions table.
 * A session is keyed by its refresh token; fresh tokens and fresh families are parameters, since they are random.
 * Here one request is one step; SessionRaces interleaves the reads and writes of refreshes.
 */
module Sessions {
  import opened Common

  type Token = nat

  datatype Session = Session(user: nat, family: nat, serial: nat, expiresAt: int, revoked: bool)

  type Table = map<Token, Session>

  datatype Error = Unauthorized

  /** Everything the service reads; next is the creation order the next session gets, ttlMs the configured lifetime. */
  datatype State = State(ttlMs: int, clock: int, table: Table, deactivated: set<nat>, next: nat)

  // ---------- What each request does ----------

  predicate Live(t: Table, token: Token) {
    token in t && !t[token].revoked
  }

  predicate Usable(s: State, token: Token) {
    Live(s.table, token) && s.table[token].expiresAt > s.clock && s.table[token].user !in s.deactivated
  }

  predicate FamilyUsed(t: Table, family: nat) {
    exists token :: token in t && t[token].family == family
  }

  function Inserted(s: State, user: nat, family: nat, minted: Token): State {
    s.(table := s.table[minted := Session(user, family, s.next, s.clock + s.ttlMs, false)], next := s.next + 1)
  }

  function RevokedWhere(t: Table, p: Session -> bool): Table {
    map token | token in t :: if p(t[token]) then t[token].(revoked := true) else t[token]
  }

  function RevokedFamily(t: Table, family: nat): Table {
    RevokedWhere(t, (x: Session) => x.family == family)
  }

  function RevokedUser(t: Table, user: nat): Table {
    RevokedWhere(t, (x: Session) => x.user == user)
  }

  function RevokedToken(t: Table, token: Token): Table {
    if token in t then t[token := t[token].(revoked := true)] else t
  }

  predicate LockedOut(t: Table, user: nat) {
    forall token :: token in t && t[token].user == user ==> t[token].revoked
  }

  /** The write half of a rotation: retire the presented token and issue the minted one in its family. */
  function Rotated(s: State, token: Token, minted: Token): State
    requires token in s.table
  {
    Inserted(s.(table := RevokedToken(s.table, token)), s.table[token].user, s.table[token].family, minted)
  }

  function AfterRefresh(s: State, token: Token, minted: Token): State {
    if Usable(s, token) then Rotated(s, token, minted)
    else if token in s.table && s.table[token].revoked then s.(table := RevokedFamily(s.table, s.table[token].family))
    else s
  }

  function AfterLogin(s: State, user: nat, family: nat, minted: Token): State {
    if user in s.deactivated then s else Inserted(s, user, family, minted)
  }

  class IdentityService {
    const ttlMs: int
    var clock: int
    var table: Table
    var deactivated: set<nat>
    var next: nat

    constructor (ttlMs: int, clock: int)
      ensures Now() == Init(ttlMs, clock)
    {
      this.ttlMs, this.clock, table, deactivated, next := ttlMs, clock, map[], {}, 0;
    }

    function Now(): State
      reads this
    {
      State(ttlMs, clock, table, deactivated, next)
    }

    method IssueSession(user: nat, family: nat, minted: Token) returns (r: Result<Token, Error>)
      modifies this`table, this`next
      ensures Now() == old(AfterLogin(Now(), user, family, minted))
      ensures r == if user in deactivated then Err(Unauthorized) else Ok(minted)
    {
      if user in deactivated {
        return Err(Unauthorized);
      }
      table := table[minted := Session(user, family, next, clock + ttlMs, false)];
      next := next + 1;
      return Ok(minted);
    }

    method RefreshSession(token: Token, minted: Token) returns (r: Result<Token, Error>)
      modifies this`table, this`next
      ensures Now() == if old(Usable(Now(), token)) then old(Rotated(Now(), token, minted)) else old(Now())
      ensures r == if old(Usable(Now(), token)) then Ok(minted) else Err(Unauthorized)
    {
      if token !in table || table[token].revoked || table[token].expiresAt <= clock {
        return Err(Unauthorized);
      }
      var session := table[token];
      if session.user in deactivated {
        return Err(Unauthorized);
      }
      table := table[token := session.(revoked := true)];
      r := IssueSession(session.user, session.family, minted);
    }

    method DetectRefreshTokenReuse(token: Token) returns (reused: bool)
      modifies this`table
      ensures reused == old(token in table && table[token].revoked)
      ensures table == if reused then RevokedFamily(old(table), old(table)[token].family) else old(table)
    {
      if token in table && table[token].revoked {
        table := RevokedFamily(table, table[token].family);
        return true;
      }
      return false;
    }

    /** The refresh endpoint: a refresh that fails looks for reuse before the error is returned. */
    method Refresh(token: Token, minted: Token) returns (r: Result<Token, Error>)
      modifies this`table, this`next
      ensures Now() == old(AfterRefresh(Now(), token, minted))
      ensures r == if old(Usable(Now(), token)) then Ok(minted) else Err(Unauthorized)
    {
      r := RefreshSession(token, minted);
      if r.Err? {
        var _ := DetectRefreshTokenReuse(token);
      }
    }

    /** The token is dead afterwards, known or not, and no other session is touched. */
    method Logout(token: Token)
      modifies this`table
      ensures table == RevokedToken(old(table), token)
      ensures !Live(table, token) && table.Keys == old(table.Keys)
      ensures forall other :: other in table && other != token ==> table[other] == old(table)[other]
    {
      if token in table {
        table := table[token := table[token].(revoked := true)];
      }
    }

    /** The user is locked out afterwards, and no other user's session is touched. */
    method ResetPassword(user: nat)
      modifies this`table
      ensures table == RevokedUser(old(table), user)
      ensures LockedOut(table, user) && table.Keys == old(table.Keys)
      ensures forall token :: token in table && table[token].user != user ==> table[token] == old(table)[token]
    {
      table := RevokedUser(table, user);
    }
  }

  // ---------- Runs ----------

  datatype Event =
    | Tick(to: int)
    | Login(user: nat, family: nat, minted: Token)
    | Refresh(token: Token, minted: Token)
    | Logout(token: Token)
    | ResetPassword(user: nat)
    | SetDeactivated(users: set<nat>)

  function Init(ttlMs: int, clock: int): State {
    State(ttlMs, clock, map[], {}, 0)
  }

  /** A login draws an unused family and an unused token; a refresh draws an unused token. */
  predicate Fresh(s: State, e: Event) {
    match e
    case Login(_, family, minted) => minted !in s.table && !FamilyUsed(s.table, family)
    case Refresh(_, minted) => minted !in s.table
    case _ => true
  }

  function Apply(s: State, e: Event): State {
    match e
    case Tick(to) => if s.clock <= to then s.(clock := to) else s
    case Login(user, family, minted) => AfterLogin(s, user, family, minted)
    case Refresh(token, minted) => AfterRefresh(s, token, minted)
    case Logout(token) => s.(table := RevokedToken(s.table, token))
    case ResetPassword(user) => s.(table := RevokedUser(s.table, user))
    case SetDeactivated(users) => s.(deactivated := users)
  }

  predicate FreshRun(s: State, events: seq<Event>)
    decreases |events|
  {
    events == [] || (Fresh(s, events[0]) && FreshRun(Apply(s, events[0]), events[1..]))
  }

  function Run(s: State, events: seq<Event>): State
    decreases |events|
  {
    if events == [] then s else Run(Apply(s, events[0]), events[1..])
  }

  /** A live session is the newest of its family, and all of a family belong to one user. */
  predicate NewestOnly(t: Table) {
    forall a, b :: a in t && b in t && a != b && t[a].family == t[b].family ==>
      t[a].user == t[b].user && (Live(t, a) ==> t[b].serial < t[a].serial && t[b].revoked)
  }

  predicate Inv(s: State) {
    NewestOnly(s.table) && forall a :: a in s.table ==> s.table[a].serial < s.next
  }

  predicate Dead(t: Table, family: nat) {
    forall token :: token in t && t[token].family == family ==> t[token].revoked
  }

  lemma LoginKeepsInv(s: State, user: nat, family: nat, minted: Token)
    requires Inv(s) && minted !in s.table && !FamilyUsed(s.table, family)
    ensures Inv(Inserted(s, user, family, minted))
  {
    assert forall a :: a in s.table ==> s.table[a].family != family;
  }

  lemma RotationKeepsInv(s: State, token: Token, minted: Token)
    requires Inv(s) && Live(s.table, token) && minted !in s.table
    ensures Inv(Rotated(s, token, minted))
  {
    var retired := RevokedToken(s.table, token);
    assert NewestOnly(retired) && Dead(retired, s.table[token].family);
  }

  lemma RevocationKeepsInv(s: State, p: Session -> bool)
    requires Inv(s)
    ensures Inv(s.(table := RevokedWhere(s.table, p)))
  {
  }

  lemma StepKeepsInv(s: State, e: Event)
    requires Inv(s) && Fresh(s, e)
    ensures Inv(Apply(s, e))
  {
    match e {
      case Login(user, family, minted) => LoginKeepsInv(s, user, family, minted);
      case Refresh(token, minted) =>
        if Usable(s, token) {
          RotationKeepsInv(s, token, minted);
        } else if token in s.table {
          RevocationKeepsInv(s, (x: Session) => x.family == s.table[token].family);
        }
      case ResetPassword(user) => RevocationKeepsInv(s, (x: Session) => x.user == user);
      case _ =>
    }
  }

  lemma {:induction false} RunKeepsInv(s: State, events: seq<Event>)
    requires Inv(s) && FreshRun(s, events)
    ensures Inv(Run(s, events))
    decreases |events|
  {
    if events == [] {
    } else {
      StepKeepsInv(s, events[0]);
      RunKeepsInv(Apply(s, events[0]), events[1..]);
    }
  }

  /** In every reachable state a family has at most one unrevoked session, and it is the newest of the family. */
  lemma OneLivePerFamily(ttlMs: int, clock: int, events: seq<Event>, a: Token, b: Token)
    requires FreshRun(Init(ttlMs, clock), events)
    ensures
      var t := Run(Init(ttlMs, clock), events).table;
      Live(t, a) && b in t && b != a && t[a].family == t[b].family ==> t[b].revoked && t[b].serial < t[a].serial
  {
    RunKeepsInv(Init(ttlMs, clock), events);
  }

  lemma StepKeepsDead(s: State, e: Event, family: nat)
    requires Fresh(s, e) && Dead(s.table, family) && FamilyUsed(s.table, family)
    ensures Dead(Apply(s, e).table, family) && FamilyUsed(Apply(s, e).table, family)
  {
    var token :| token in s.table && s.table[token].family == family;
    assert token in Apply(s, e).table && Apply(s, e).table[token].family == family;
  }

  /** A family with no unrevoked session never gains one again. */
  lemma {:induction false} DeadFamilyStaysDead(s: State, events: seq<Event>, family: nat)
    requires FreshRun(s, events) && Dead(s.table, family) && FamilyUsed(s.table, family)
    ensures Dead(Run(s, events).table, family)
    decreases |events|
  {
    if events == [] {
    } else {
      StepKeepsDead(s, events[0], family);
      DeadFamilyStaysDead(Apply(s, events[0]), events[1..], family);
    }
  }

  lemma StepKeepsRevoked(s: State, e: Event, token: Token)
    requires Fresh(s, e) && token in s.table && s.table[token].revoked
    ensures var t := Apply(s, e).table; token in t && t[token].revoked && t[token].family == s.table[token].family
  {
  }

  lemma {:induction false} RunKeepsRevoked(s: State, events: seq<Event>, token: Token)
    requires FreshRun(s, events) && token in s.table && s.table[token].revoked
    ensures var t := Run(s, events).table; token in t && t[token].revoked && t[token].family == s.table[token].family
    decreases |events|
  {
    if events == [] {
    } else {
      StepKeepsRevoked(s, events[0], token);
      RunKeepsRevoked(Apply(s, events[0]), events[1..], token);
    }
  }

  /**
   * A token that was rotated once and is presented again, whoever presents it and whatever happens in between, ends
   * its family for good: no session of the family is live after that, in any continuation.
   */
  lemma ReplayEndsTheFamily(s: State, token: Token, first: Token, between: seq<Event>, second: Token, after: seq<Event>)
    requires Usable(s, token) && first !in s.table
    requires FreshRun(Rotated(s, token, first), between)
    requires second !in Run(Rotated(s, token, first), between).table
    requires FreshRun(AfterRefresh(Run(Rotated(s, token, first), between), token, second), after)
    ensures !Usable(Run(Rotated(s, token, first), between), token)
    ensures Dead(Run(AfterRefresh(Run(Rotated(s, token, first), between), token, second), after).table, s.table[token].family)
  {
    var rotated := Rotated(s, token, first);
    RunKeepsRevoked(rotated, between, token);
    var replayed := AfterRefresh(Run(rotated, between), token, second);
    assert token in replayed.table && replayed.table[token].family == s.table[token].family;
    DeadFamilyStaysDead(replayed, after, s.table[token].family);
  }

  lemma StepKeepsExpiry(s: State, e: Event, token: Token)
    requires Fresh(s, e) && token in s.table
    ensures token in Apply(s, e).table && Apply(s, e).table[token].expiresAt == s.table[token].expiresAt
  {
  }

  lemma {:induction false} RunKeepsExpiry(s: State, events: seq<Event>, token: Token)
    requires FreshRun(s, events) && token in s.table
    ensures token in Run(s, events).table && Run(s, events).table[token].expiresAt == s.table[token].expiresAt
    decreases |events|
  {
    if events == [] {
    } else {
      StepKeepsExpiry(s, events[0], token);
      RunKeepsExpiry(Apply(s, events[0]), events[1..], token);
    }
  }

  /** A token issued at login is usable at once, and in no run is it usable once its lifetime is over. */
  lemma TokenLivesItsLifetime(s: State, user: nat, family: nat, minted: Token, events: seq<Event>)
    requires user !in s.deactivated && FreshRun(AfterLogin(s, user, family, minted), events)
    ensures Usable(AfterLogin(s, user, family, minted), minted) <==> s.ttlMs > 0
    ensures
      var z := Run(AfterLogin(s, user, family, minted), events);
      Usable(z, minted) ==> z.clock < s.clock + s.ttlMs
  {
    RunKeepsExpiry(AfterLogin(s, user, family, minted), events, minted);
  }

  /** How many times a token is exchanged for a new one over a run. */
  function Exchanges(s: State, events: seq<Event>, token: Token): nat
    decreases |events|
  {
    if events == [] then 0
    else
      Exchanges(Apply(s, events[0]), events[1..], token)
      + if events[0].Refresh? && events[0].token == token && Usable(s, token) then 1 else 0
  }

  lemma {:induction false} RevokedIsNeverExchanged(s: State, events: seq<Event>, token: Token)
    requires FreshRun(s, events) && token in s.table && s.table[token].revoked
    ensures Exchanges(s, events, token) == 0
    decreases |events|
  {
    if events == [] {
    } else {
      StepKeepsRevoked(s, events[0], token);
      RevokedIsNeverExchanged(Apply(s, events[0]), events[1..], token);
    }
  }

  /** Over any run a refresh token is exchanged at most once. */
  lemma {:induction false} ExchangedAtMostOnce(s: State, events: seq<Event>, token: Token)
    requires FreshRun(s, events)
    ensures Exchanges(s, events, token) <= 1
    decreases |events|
  {
    if events == [] {
    } else {
      if events[0].Refresh? && events[0].token == token && Usable(s, token) {
        RevokedIsNeverExchanged(Apply(s, events[0]), events[1..], token);
      } else {
        ExchangedAtMostOnce(Apply(s, events[0]), events[1..], token);
      }
    }
  }

  predicate LogsIn(e: Event, user: nat) {
    e.Login? && e.user == user
  }

  lemma StepKeepsLockedOut(s: State, e: Event, user: nat)
    requires LockedOut(s.table, user) && !LogsIn(e, user)
    ensures LockedOut(Apply(s, e).table, user)
  {
    var t := Apply(s, e).table;
    forall token | token in t && t[token].user == user ensures t[token].revoked {
      if e.Refresh? && Usable(s, e.token) {
        assert s.table[e.token].user != user;
      }
    }
  }

  /** While the user does not log in, a run keeps every session of the user revoked. */
  lemma {:induction false} LockedOutUntilLogin(s: State, events: seq<Event>, user: nat)
    requires FreshRun(s, events) && LockedOut(s.table, user)
    requires forall e :: e in events ==> !LogsIn(e, user)
    ensures LockedOut(Run(s, events).table, user)
    decreases |events|
  {
    if events == [] {
    } else {
      StepKeepsLockedOut(s, events[0], user);
      LockedOutUntilLogin(Apply(s, events[0]), events[1..], user);
    }
  }

  /** After a password reset, no session of the user is live until the user logs in again. */
  lemma ResetRevokesEverySession(s: State, events: seq<Event>, user: nat)
    requires FreshRun(Apply(s, ResetPassword(user)), events)
    requires forall e :: e in events ==> !LogsIn(e, user)
    ensures LockedOut(Run(Apply(s, ResetPassword(user)), events).table, user)
  {
    LockedOutUntilLogin(Apply(s, ResetPassword(user)), events, user);
  }

  // ---------- Who is signed out ----------

  /** The request ends this session: spends it, replays a dead one of its family, signs it out, or resets its user. */
  predicate SignsOut(s: State, e: Event, token: Token)
    requires token in s.table
  {
    match e
    case Refresh(presented, _) =>
      if presented == token then s.table[token].expiresAt > s.clock && s.table[token].user !in s.deactivated
      else presented in s.table && s.table[presented].revoked && s.table[presented].family == s.table[token].family
    case Logout(presented) => presented == token
    case ResetPassword(user) => user == s.table[token].user
    case _ => false
  }

  /** A live session ends exactly by such a request; an expired or unknown token presented harms nobody. */
  lemma LiveSessionEndsIff(s: State, e: Event, token: Token)
    requires Fresh(s, e) && Live(s.table, token)
    ensures !Live(Apply(s, e).table, token) <==> SignsOut(s, e, token)
  {
  }

  // ---------- Deactivated users ----------

  lemma NewSessionIsForActive(s: State, e: Event, token: Token)
    requires token in Apply(s, e).table && token !in s.table
    ensures Apply(s, e).table[token].user !in s.deactivated
  {
  }

  lemma StepKeepsUser(s: State, e: Event, token: Token)
    requires Fresh(s, e) && token in s.table
    ensures token in Apply(s, e).table && Apply(s, e).table[token].user == s.table[token].user
  {
  }

  /** While a user is deactivated, no run gives the user a session, by login, refresh or otherwise. */
  lemma {:induction false} DeactivatedGetNoSession(s: State, events: seq<Event>, user: nat, token: Token)
    requires FreshRun(s, events) && user in s.deactivated
    requires forall e :: e in events && e.SetDeactivated? ==> user in e.users
    requires token in Run(s, events).table && Run(s, events).table[token].user == user
    ensures token in s.table && s.table[token].user == user
    decreases |events|
  {
    if events == [] {
    } else {
      var e := events[0];
      assert e in events;
      DeactivatedGetNoSession(Apply(s, e), events[1..], user, token);
      if token in s.table {
        StepKeepsUser(s, e, token);
      } else {
        NewSessionIsForActive(s, e, token);
      }
    }
  }
}

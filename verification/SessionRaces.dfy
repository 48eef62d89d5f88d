/**
 Refresh split into its separate database statements, racing with logins, logouts, revocations, password
 resets, status changes and account deletion. A refresh reads, and some steps later writes whatever it decided.
 */
module SessionRaces {
  import opened Wrappers
  import opened Calendar
  import opened Lockout
  import opened Sessions

  /** Where a refresh request stands. */
  datatype Stage =
    | Presented(token: Token)
    | Accepted(sid: Id, read: Session)  // current token of a live session: about to rotate
    | NotCurrent(token: Token)          // first lookup found nothing: about to look for a replay
    | Replayed(sid: Id)                 // previous token found: about to revoke
    | Answered(minted: Option<Id>)      // finished, with the session id of the access token minted, if any

  /**
   The tables, the requests in progress, every session id ever used, and the session ids of the access tokens
   minted so far, one entry for each token.
   */
  datatype World = World(users: Users, sessions: Table, requests: map<Id, Stage>, used: set<Id>, minted: seq<Id>)

  datatype Action =
    | Present(p: Id, token: Token)
    | Advance(p: Id, newToken: Token, now: Instant)
    | Login(user: Id, sid: Id, token: Token, now: Instant)
    | Logout(sid: Id, now: Instant)
    | RevokeOthers(user: Id, keep: Option<Id>, now: Instant)
    | SetStatus(user: Id, status: AccountStatus, now: Instant)
    | Reset(user: Id, password: Secret, now: Instant)
    | DeleteUser(user: Id)

  function To(w: World, p: Id, at: Stage): World { w.(requests := w.requests[p := at]) }

  ghost function CurrentId(t: Table, h: Hash): (sid: Id)
    requires exists sid :: IsCurrent(t, sid, h)
    ensures IsCurrent(t, sid, h)
  {
    var sid :| IsCurrent(t, sid, h);
    sid
  }

  ghost function PreviousId(t: Table, h: Hash): (sid: Id)
    requires exists sid :: IsPrevious(t, sid, h)
    ensures IsPrevious(t, sid, h)
  {
    var sid :| IsPrevious(t, sid, h);
    sid
  }

  /** The first read, with the refusals that follow it. */
  ghost function ReadCurrent(w: World, p: Id, token: Token, now: Instant): World
  {
    if exists sid :: IsCurrent(w.sessions, sid, Hash(token)) then
      var sid := CurrentId(w.sessions, Hash(token));
      if Expired(w.sessions[sid], now) || !ActiveUser(w.users, w.sessions[sid].user) then To(w, p, Answered(None))
      else To(w, p, Accepted(sid, w.sessions[sid]))
    else To(w, p, NotCurrent(token))
  }

  /** The rotation is written by id alone, whatever has happened to the row since it was read. */
  ghost function WriteRotation(w: World, p: Id, sid: Id, read: Session, newToken: Token): World
  {
    if sid !in w.sessions then To(w, p, Answered(None))
    else
      var row := w.sessions[sid].(previous := Some(read.current), current := Hash(newToken));
      To(w.(sessions := w.sessions[sid := row], minted := w.minted + [sid]), p, Answered(Some(sid)))
  }

  ghost function ReadPrevious(w: World, p: Id, token: Token): World
  {
    if exists sid :: IsPrevious(w.sessions, sid, Hash(token))
    then To(w, p, Replayed(PreviousId(w.sessions, Hash(token))))
    else To(w, p, Answered(None))
  }

  ghost function WriteRevocation(w: World, p: Id, sid: Id, now: Instant): World
  {
    if sid !in w.sessions then To(w, p, Answered(None))
    else To(w.(sessions := w.sessions[sid := w.sessions[sid].(revokedAt := Some(now))]), p, Answered(None))
  }

  ghost function AdvanceRequest(w: World, p: Id, newToken: Token, now: Instant): World
    requires p in w.requests
  {
    match w.requests[p]
    case Presented(token) => ReadCurrent(w, p, token, now)
    case Accepted(sid, read) => WriteRotation(w, p, sid, read, newToken)
    case NotCurrent(token) => ReadPrevious(w, p, token)
    case Replayed(sid) => WriteRevocation(w, p, sid, now)
    case Answered(_) => w
  }

  ghost function Step(w: World, a: Action): World
  {
    match a
    case Present(p, token) => if p in w.requests then w else To(w, p, Presented(token))
    case Advance(p, newToken, now) => if p in w.requests then AdvanceRequest(w, p, newToken, now) else w
    case Login(user, sid, token, now) =>
      if sid in w.used || user !in w.users then w
      else w.(sessions := w.sessions[sid := NewSession(user, token, now)], used := w.used + {sid},
              minted := w.minted + [sid])
    case Logout(sid, now) =>
      if sid in w.sessions && w.sessions[sid].revokedAt.None?
      then w.(sessions := w.sessions[sid := w.sessions[sid].(revokedAt := Some(now))]) else w
    case RevokeOthers(user, keep, now) => w.(sessions := RevokeAll(w.sessions, user, keep, now))
    case SetStatus(user, status, now) =>
      if user !in w.users then w
      else w.(users := w.users[user := w.users[user].(status := status)],
              sessions := RevokeAll(w.sessions, user, None, now))
    case Reset(user, password, now) =>
      if user !in w.users then w
      else
        var row := w.users[user].(password := Some(password), failedLoginCount := 0, lockedUntil := None);
        w.(users := w.users[user := row], sessions := RevokeAll(w.sessions, user, None, now))
    case DeleteUser(user) =>
      w.(users := w.users - {user},
         sessions := map sid | sid in w.sessions && w.sessions[sid].user != user :: w.sessions[sid])
  }

  ghost function Run(w: World, actions: seq<Action>): World
  {
    if actions == [] then w else Step(Run(w, actions[..|actions| - 1]), actions[|actions| - 1])
  }

  /** A refresh that nothing interrupts: its request and the three statements it takes at most. */
  ghost function Uninterrupted(w: World, p: Id, token: Token, newToken: Token, now: Instant): World
  {
    var next := Advance(p, newToken, now);
    Step(Step(Step(Step(w, Present(p, token)), next), next), next)
  }

  lemma UninterruptedCurrent(w: World, p: Id, token: Token, newToken: Token, now: Instant)
    requires p !in w.requests && exists sid :: IsCurrent(w.sessions, sid, Hash(token))
    ensures var sid, w' := CurrentId(w.sessions, Hash(token)), Uninterrupted(w, p, token, newToken, now);
            p in w'.requests &&
            if Expired(w.sessions[sid], now) || !ActiveUser(w.users, w.sessions[sid].user)
            then w'.requests[p] == Answered(None) && w'.sessions == w.sessions
            else
              w'.requests[p] == Answered(Some(sid))
              && w'.sessions == w.sessions[sid := RotatedTo(w.sessions[sid], newToken)]
  {
  }

  lemma UninterruptedOther(w: World, p: Id, token: Token, newToken: Token, now: Instant)
    requires p !in w.requests && forall sid :: !IsCurrent(w.sessions, sid, Hash(token))
    ensures var w' := Uninterrupted(w, p, token, newToken, now);
            && p in w'.requests && w'.requests[p] == Answered(None)
            && w'.sessions ==
                 if exists sid :: IsPrevious(w.sessions, sid, Hash(token)) then
                   var sid := PreviousId(w.sessions, Hash(token));
                   w.sessions[sid := w.sessions[sid].(revokedAt := Some(now))]
                 else w.sessions
  {
  }

  /** The statements of a refresh, run without interruption, do what the whole refresh does. */
  lemma UninterruptedIsRefresh(w: World, chains: Chains, p: Id, token: Token, newToken: Token, now: Instant)
    returns (chains': Chains, reply: RefreshReply)
    requires ChainsOk(w.sessions, chains) && p !in w.requests
    ensures w.sessions.Keys == chains.Keys
    ensures var w' := Uninterrupted(w, p, token, newToken, now);
            && RefreshOutcome(w.users, w.sessions, chains, Some(token), newToken, now, w'.sessions, chains', reply)
            && p in w'.requests && w'.requests[p] == Answered(if reply.Rotated? then Some(reply.sid) else None)
  {
    hide Uninterrupted, RefreshOutcome, ChainsOk, RevokeAll;
    SameKeys(w.sessions, chains);
    chains', reply := chains, Unauthorized;
    if exists sid :: IsCurrent(w.sessions, sid, Hash(token)) {
      var sid := CurrentId(w.sessions, Hash(token));
      UninterruptedCurrent(w, p, token, newToken, now);
      if !Expired(w.sessions[sid], now) {
        if ActiveUser(w.users, w.sessions[sid].user) {
          chains', reply := chains[sid := chains[sid] + [newToken]], Rotated(sid, newToken);
        } else {
          reply := Unavailable;
        }
      }
      OutcomeOfCurrent(w.users, w.sessions, chains, sid, token, newToken, now,
                       Uninterrupted(w, p, token, newToken, now).sessions, chains', reply);
    } else {
      UninterruptedOther(w, p, token, newToken, now);
      if exists sid :: IsPrevious(w.sessions, sid, Hash(token)) {
        OutcomeOfReplay(w.users, w.sessions, chains, PreviousId(w.sessions, Hash(token)), token, newToken, now);
      } else {
        OutcomeOfUnknown(w.users, w.sessions, chains, token, newToken, now);
      }
    }
  }

  /** Ids in use have been recorded, also those that requests and access tokens carry. */
  ghost predicate WorldOk(w: World)
  {
    && w.sessions.Keys <= w.used && (forall sid :: sid in w.minted ==> sid in w.used)
    && (forall p :: p in w.requests ==>
          (w.requests[p].Accepted? ==> w.requests[p].sid in w.used)
            && (w.requests[p].Replayed? ==> w.requests[p].sid in w.used))
  }

  /** A session that has been revoked, or removed with its user. */
  predicate Dead(w: World, sid: Id)
  {
    sid in w.used && (sid !in w.sessions || w.sessions[sid].revokedAt.Some?)
  }

  /** A refresh that has passed the checks for this session and is about to rotate it. */
  predicate AcceptedFor(w: World, p: Id, sid: Id)
  {
    p in w.requests && w.requests[p].Accepted? && w.requests[p].sid == sid
  }

  lemma StepKeepsOk(w: World, a: Action)
    requires WorldOk(w)
    ensures WorldOk(Step(w, a)) && w.used <= Step(w, a).used
  {
  }

  /** `revokedAt` once set stays set, even under a rotation whose read came before it. */
  lemma DeadStaysDead(w: World, a: Action, sid: Id)
    requires WorldOk(w) && Dead(w, sid)
    ensures Dead(Step(w, a), sid)
    ensures forall p :: AcceptedFor(Step(w, a), p, sid) ==> AcceptedFor(w, p, sid)
  {
  }

  /** The ways a session dies. */
  lemma RevocationsKill(w: World, sid: Id, now: Instant)
    requires WorldOk(w) && sid in w.sessions
    ensures Dead(Step(w, Logout(sid, now)), sid)
    ensures forall keep :: keep != Some(sid) ==> Dead(Step(w, RevokeOthers(w.sessions[sid].user, keep, now)), sid)
    ensures w.sessions[sid].user in w.users ==>
      forall status :: Dead(Step(w, SetStatus(w.sessions[sid].user, status, now)), sid)
    ensures w.sessions[sid].user in w.users ==>
      forall password :: Dead(Step(w, Reset(w.sessions[sid].user, password, now)), sid)
    ensures Dead(Step(w, DeleteUser(w.sessions[sid].user)), sid)
    ensures forall p, token :: p in w.requests && w.requests[p] == Replayed(sid) ==>
      Dead(Step(w, Advance(p, token, now)), sid)
  {
  }

  /**
   No resurrection: once a session is revoked, then after any further steps the guard refuses every access
   token that carries its id, the ones minted later by refreshes already under way included, and no refresh
   has been accepted for it that was not accepted before.
   */
  lemma {:induction false} NoResurrection(w: World, actions: seq<Action>, sid: Id)
    requires WorldOk(w) && Dead(w, sid)
    ensures var w' := Run(w, actions);
            && WorldOk(w') && Dead(w', sid)
            && (forall now :: !Admits(w'.users, w'.sessions, sid, now))
            && (forall p :: AcceptedFor(w', p, sid) ==> AcceptedFor(w, p, sid))
    decreases |actions|
  {
    hide Step, WorldOk;
    if actions != [] {
      var prefix, a := actions[..|actions| - 1], actions[|actions| - 1];
      NoResurrection(w, prefix, sid);
      StepKeepsOk(Run(w, prefix), a);
      DeadStaysDead(Run(w, prefix), a, sid);
    }
  }

  // ------------------------------------------------------------ expiry

  /** No step moves the expiry of a session or hands it to another user, and a session that is gone stays gone. */
  lemma StepKeepsExpiry(w: World, a: Action, sid: Id)
    requires WorldOk(w) && sid in w.used && sid in Step(w, a).sessions
    ensures sid in w.sessions && Step(w, a).sessions[sid].expiresAt == w.sessions[sid].expiresAt
    ensures Step(w, a).sessions[sid].user == w.sessions[sid].user
  {
  }

  lemma {:induction false} RunKeepsExpiry(w: World, actions: seq<Action>, sid: Id)
    requires WorldOk(w) && sid in w.used
    ensures var w' := Run(w, actions);
            && WorldOk(w') && sid in w'.used
            && (sid in w'.sessions ==>
                  sid in w.sessions && w'.sessions[sid].expiresAt == w.sessions[sid].expiresAt
                  && w'.sessions[sid].user == w.sessions[sid].user)
    decreases |actions|
  {
    hide Step, WorldOk;
    if actions != [] {
      var prefix, a := actions[..|actions| - 1], actions[|actions| - 1];
      RunKeepsExpiry(w, prefix, sid);
      StepKeepsOk(Run(w, prefix), a);
      if sid in Step(Run(w, prefix), a).sessions { StepKeepsExpiry(Run(w, prefix), a, sid); }
    }
  }

  /** A refresh accepts a session only if it is neither revoked nor past its expiry and its user is active. */
  lemma AcceptedIsLive(w: World, p: Id, newToken: Token, now: Instant, sid: Id)
    requires p in w.requests && !AcceptedFor(w, p, sid) && AcceptedFor(Step(w, Advance(p, newToken, now)), p, sid)
    ensures sid in w.sessions && w.sessions[sid].revokedAt.None? && now <= w.sessions[sid].expiresAt
    ensures w.sessions[sid].user in w.users && w.users[w.sessions[sid].user].status == Active
  {
  }

  /**
   Thirty days after its login a session is over for good: after any steps, rotations included, neither the guard
   nor a refresh accepts it at a later instant.
   */
  lemma SessionsEnd(w: World, user: Id, sid: Id, token: Token, login: Instant, actions: seq<Action>, now: Instant)
    requires WorldOk(w) && user in w.users && sid !in w.used && now > login + 2_592_000_000
    ensures var w' := Run(Step(w, Login(user, sid, token, login)), actions);
            && !Admits(w'.users, w'.sessions, sid, now)
            && (forall p, newToken :: p in w'.requests && AcceptedFor(Step(w', Advance(p, newToken, now)), p, sid) ==>
                  AcceptedFor(w', p, sid))
  {
    var w1 := Step(w, Login(user, sid, token, login));
    StepKeepsOk(w, Login(user, sid, token, login));
    assert sid in w1.used && sid in w1.sessions && w1.sessions[sid].expiresAt == login + 2_592_000_000;
    RunKeepsExpiry(w1, actions, sid);
    hide Run, WorldOk;
    var w' := Run(w1, actions);
    GuardAdmitsExactly(w'.users, w'.sessions, sid, now);
    hide Step, Admits;
    forall p, newToken | p in w'.requests && AcceptedFor(Step(w', Advance(p, newToken, now)), p, sid)
      ensures AcceptedFor(w', p, sid)
    {
      if !AcceptedFor(w', p, sid) { AcceptedIsLive(w', p, newToken, now, sid); }
    }
  }

  // ------------------------------------------------------------ what ends a session, and what does not

  /** A live session ends only by a step that is meant to end it. */
  lemma EndsOnlyByRevocation(w: World, a: Action, sid: Id)
    requires WorldOk(w) && sid in w.sessions && w.sessions[sid].revokedAt.None? && Dead(Step(w, a), sid)
    ensures var owner := w.sessions[sid].user;
            match a
            case Logout(s, _) => s == sid
            case RevokeOthers(user, keep, _) => user == owner && keep != Some(sid)
            case SetStatus(user, _, _) => user == owner
            case Reset(user, _, _) => user == owner
            case DeleteUser(user) => user == owner
            case Advance(p, _, _) => p in w.requests && w.requests[p] == Replayed(sid)
            case _ => false
  {
  }

  /** The token handed out at login can be refreshed for thirty days, when nothing interrupts. */
  lemma LoginCanRefresh(w: World, chains: Chains, user: Id, sid: Id, token: Token, login: Instant, p: Id,
                        newToken: Token, now: Instant)
    requires ChainsOk(w.sessions, chains) && !Issued(chains, token)
    requires ActiveUser(w.users, user) && sid !in w.used && sid !in w.sessions && p !in w.requests
    requires now <= login + 2_592_000_000
    ensures var w' := Uninterrupted(Step(w, Login(user, sid, token, login)), p, token, newToken, now);
            && p in w'.requests && w'.requests[p] == Answered(Some(sid))
            && sid in w'.sessions && w'.sessions[sid].current == Hash(newToken)
  {
    var w1 := Step(w, Login(user, sid, token, login));
    assert IsCurrent(w1.sessions, sid, Hash(token));
    StoredHashesWereIssued(w.sessions, chains, Hash(token));
    var s := CurrentId(w1.sessions, Hash(token));
    assert s != sid ==> IsCurrent(w.sessions, s, Hash(token));
    UninterruptedCurrent(w1, p, token, newToken, now);
    hide Uninterrupted;
  }

  /** A reset sets the password and lifts the lock: the next login depends on the new password alone. */
  lemma ResetSetsPassword(w: World, user: Id, password: Secret, now: Instant, a: Attempt)
    requires user in w.users
    ensures var was, row := w.users[user], Step(w, Reset(user, password, now)).users[user];
            ReplyTo(row, a) == LoggedIn
            <==> a.password == password && was.emailVerified && was.status != Banned && was.status != Suspended
    ensures var users' := Step(w, Reset(user, password, now)).users;
            users' == w.users[user := users'[user]]
  {
  }

  /** The user cannot use the service: there is no such account any more, or it is not active. */
  predicate Out(w: World, user: Id) { user !in w.users || w.users[user].status != Active }

  lemma StaysOut(w: World, a: Action, user: Id)
    requires Out(w, user) && !(a.SetStatus? && a.user == user)
    ensures Out(Step(w, a), user)
  {
  }

  lemma {:induction false} RunStaysOut(w: World, actions: seq<Action>, user: Id)
    requires Out(w, user) && forall a :: a in actions ==> !(a.SetStatus? && a.user == user)
    ensures Out(Run(w, actions), user)
    decreases |actions|
  {
    if actions != [] {
      var prefix, a := actions[..|actions| - 1], actions[|actions| - 1];
      RunStaysOut(w, prefix, user);
      StaysOut(Run(w, prefix), a, user);
    }
  }

  /**
   Whoever is given a status other than ACTIVE, or deleted, is out until an administrator says otherwise: after any
   other steps the guard refuses all sessions of the user, those of later logins included, and so does a refresh.
   */
  lemma ShutOut(w: World, first: Action, actions: seq<Action>, user: Id, sid: Id, now: Instant)
    requires first == DeleteUser(user) || (first.SetStatus? && first.user == user && first.status != Active)
    requires forall a :: a in actions ==> !(a.SetStatus? && a.user == user)
    ensures var w' := Run(Step(w, first), actions);
            sid in w'.sessions && w'.sessions[sid].user == user ==>
              && !Admits(w'.users, w'.sessions, sid, now)
              && (forall p, newToken :: p in w'.requests && AcceptedFor(Step(w', Advance(p, newToken, now)), p, sid)
                    ==> AcceptedFor(w', p, sid))
  {
    assert Out(Step(w, first), user);
    RunStaysOut(Step(w, first), actions, user);
    var w' := Run(Step(w, first), actions);
    if sid in w'.sessions && w'.sessions[sid].user == user {
      GuardAdmitsExactly(w'.users, w'.sessions, sid, now);
      hide Step, Run, Admits;
      forall p, newToken | p in w'.requests && AcceptedFor(Step(w', Advance(p, newToken, now)), p, sid)
        ensures AcceptedFor(w', p, sid)
      {
        if !AcceptedFor(w', p, sid) { AcceptedIsLive(w', p, newToken, now, sid); }
      }
    }
  }

  // ------------------------------------------------------------ tokens minted after a revocation

  /** How many access tokens have been minted for a session. */
  function TokensFor(minted: seq<Id>, sid: Id): nat
  {
    if minted == [] then 0
    else TokensFor(minted[..|minted| - 1], sid) + (if minted[|minted| - 1] == sid then 1 else 0)
  }

  lemma OneMoreToken(minted: seq<Id>, id: Id, sid: Id)
    ensures TokensFor(minted + [id], sid) == TokensFor(minted, sid) + (if id == sid then 1 else 0)
  {
    assert (minted + [id])[..|minted|] == minted;
  }

  /** The refreshes that have passed the checks for this session and are about to rotate it. */
  function Underway(w: World, sid: Id): set<Id> { set p | p in w.requests && AcceptedFor(w, p, sid) }

  /** This step writes the rotation of a refresh that was accepted for the session. */
  predicate Mints(w: World, a: Action, sid: Id)
  {
    a.Advance? && AcceptedFor(w, a.p, sid) && sid in w.sessions
  }

  /**
   For a dead session a token comes into being exactly when a refresh that was accepted before writes its
   rotation; that refresh is then done, and the step adds this one token only.
   */
  lemma LateMintsWereAccepted(w: World, a: Action, sid: Id)
    requires WorldOk(w) && Dead(w, sid)
    ensures TokensFor(Step(w, a).minted, sid) == TokensFor(w.minted, sid) + (if Mints(w, a, sid) then 1 else 0)
    ensures Mints(w, a, sid) ==> Underway(Step(w, a), sid) == Underway(w, sid) - {a.p}
    ensures Underway(Step(w, a), sid) <= Underway(w, sid)
  {
    TokensOfStep(w, a, sid);
    DeadStaysDead(w, a, sid);
    if Mints(w, a, sid) {
      OthersStayUnderway(w, a.p, a.newToken, a.now, sid);
    }
  }

  lemma TokensOfStep(w: World, a: Action, sid: Id)
    requires WorldOk(w) && Dead(w, sid)
    ensures TokensFor(Step(w, a).minted, sid) == TokensFor(w.minted, sid) + (if Mints(w, a, sid) then 1 else 0)
  {
    hide TokensFor;
    forall id ensures TokensFor(w.minted + [id], sid) == TokensFor(w.minted, sid) + (if id == sid then 1 else 0) {
      OneMoreToken(w.minted, id, sid);
    }
  }

  lemma OthersStayUnderway(w: World, p: Id, newToken: Token, now: Instant, sid: Id)
    requires AcceptedFor(w, p, sid) && sid in w.sessions
    ensures Underway(Step(w, Advance(p, newToken, now)), sid) == Underway(w, sid) - {p}
  {
  }

  /**
   Hence a revoked session gets at most as many further access tokens as refreshes were accepted for it
   before the revocation, over any further steps.
   */
  lemma {:induction false} LateMintsAreBounded(w: World, actions: seq<Action>, sid: Id)
    requires WorldOk(w) && Dead(w, sid)
    ensures var w' := Run(w, actions);
            && Underway(w', sid) <= Underway(w, sid)
            && TokensFor(w'.minted, sid) + |Underway(w', sid)| <= TokensFor(w.minted, sid) + |Underway(w, sid)|
    decreases |actions|
  {
    hide Step, WorldOk, Dead, TokensFor, Underway, Mints;
    if actions != [] {
      var prefix, a := actions[..|actions| - 1], actions[|actions| - 1];
      LateMintsAreBounded(w, prefix, sid);
      NoResurrection(w, prefix, sid);
      var w1 := Run(w, prefix);
      LateMintsWereAccepted(w1, a, sid);
      UnderwayShrinks(w1, a, sid);
    }
  }

  lemma UnderwayShrinks(w: World, a: Action, sid: Id)
    requires Underway(Step(w, a), sid) <= Underway(w, sid)
    requires Mints(w, a, sid) ==> Underway(Step(w, a), sid) == Underway(w, sid) - {a.p}
    ensures |Underway(Step(w, a), sid)| + (if Mints(w, a, sid) then 1 else 0) <= |Underway(w, sid)|
  {
    hide Step;
    Subsets(Underway(Step(w, a), sid), Underway(w, sid));
    if Mints(w, a, sid) {
      assert a.p in Underway(w, sid);
    }
  }

  lemma Subsets(a: set<Id>, b: set<Id>)
    requires a <= b
    ensures |a| <= |b|
  {
    assert b == a + (b - a);
  }

  /** The bound is met: a refresh read before the revocation does mint a token for the dead session. */
  lemma LateMintsHappen(w: World, p: Id, newToken: Token, now: Instant, later: Instant, sid: Id)
    requires WorldOk(w) && AcceptedFor(w, p, sid) && sid in w.sessions && w.sessions[sid].revokedAt.None?
    ensures var w' := Run(w, [Logout(sid, now), Advance(p, newToken, later)]);
            Dead(w', sid) && TokensFor(w'.minted, sid) == TokensFor(w.minted, sid) + 1
  {
    var revoked, advance := Logout(sid, now), Advance(p, newToken, later);
    assert [revoked, advance][..1] == [revoked] && [revoked][..0] == [];
    assert Run(w, [revoked]) == Step(Run(w, []), revoked);
    assert Run(w, [revoked, advance]) == Step(Step(w, revoked), advance);
    OneMoreToken(w.minted, sid, sid);
    hide TokensFor;
  }
}

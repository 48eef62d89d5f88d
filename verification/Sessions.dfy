/**
 The session table: what creation, refresh and the revocations do to it, and the chain of refresh tokens
 behind each session. Refresh tokens are opaque random values, SHA-256 is taken to be injective, and a fresh
 token or session id is one that was never issued before.
 */
module Sessions {
  import opened Wrappers
  import opened Calendar
  import opened Lockout

  type Token = nat

  /** A SHA-256 hash, known by what it hashes. */
  datatype Hash = Hash(token: Token)

  datatype Session = Session(user: Id, current: Hash, previous: Option<Hash>, expiresAt: Instant,
                             revokedAt: Option<Instant>)

  const REFRESH_TTL: nat := 30 * 24 * 3600 * 1000

  type Users = map<Id, User>
  type Table = map<Id, Session>

  datatype RefreshReply = Unauthorized | Unavailable | Rotated(sid: Id, token: Token)

  predicate IsCurrent(t: Table, sid: Id, h: Hash) { sid in t && t[sid].current == h }

  predicate IsPrevious(t: Table, sid: Id, h: Hash) { sid in t && t[sid].previous == Some(h) }

  predicate Expired(s: Session, now: Instant) { s.revokedAt.Some? || s.expiresAt < now }

  predicate ActiveUser(users: Users, user: Id) { user in users && users[user].status == Active }

  function NewSession(user: Id, token: Token, now: Instant): Session
  {
    Session(user, Hash(token), None, now + REFRESH_TTL, None)
  }

  function RotatedTo(s: Session, token: Token): Session
  {
    s.(previous := Some(s.current), current := Hash(token))
  }

  /** `updateMany` of the sessions of a user that are not revoked yet, but for one kept. */
  function RevokeAll(t: Table, user: Id, keep: Option<Id>, now: Instant): Table
  {
    map sid | sid in t ::
      if t[sid].user == user && t[sid].revokedAt.None? && keep != Some(sid) then t[sid].(revokedAt := Some(now))
        else t[sid]
  }

  /** The guard's decision on an access token that carries this session id. */
  predicate Admits(users: Users, t: Table, sid: Id, now: Instant)
  {
    sid in t && !Expired(t[sid], now) && ActiveUser(users, t[sid].user)
  }

  // ------------------------------------------------------------ token chains

  /** The refresh tokens issued for each session, oldest first. */
  type Chains = map<Id, seq<Token>>

  predicate Issued(chains: Chains, token: Token) { exists sid :: sid in chains && token in chains[sid] }

  predicate NoTokenTwice(chains: Chains)
  {
    forall a, b, i, j ::
      a in chains && b in chains && 0 <= i < |chains[a]| && 0 <= j < |chains[b]| && chains[a][i] == chains[b][j] ==>
        a == b && i == j
  }

  /** Each row stores the hashes of the last token of its chain and of the one before it. */
  predicate EndsOfChain(s: Session, chain: seq<Token>)
  {
    && chain != []
    && s.current == Hash(chain[|chain| - 1])
    && s.previous == if |chain| >= 2 then Some(Hash(chain[|chain| - 2])) else None
  }

  predicate ChainsOk(t: Table, chains: Chains)
  {
    t.Keys == chains.Keys && NoTokenTwice(chains) && forall sid :: sid in t ==> EndsOfChain(t[sid], chains[sid])
  }

  /** The two unique lookups never conflict: a stored hash belongs to one session, as current or as previous. */
  lemma LookupsAreUnambiguous(t: Table, chains: Chains, a: Id, b: Id, h: Hash)
    requires ChainsOk(t, chains)
    ensures IsCurrent(t, a, h) && IsCurrent(t, b, h) ==> a == b
    ensures IsPrevious(t, a, h) && IsPrevious(t, b, h) ==> a == b
    ensures !(IsCurrent(t, a, h) && IsPrevious(t, b, h))
  {
  }

  /** What a lookup finds for the token at a given place of a chain. */
  lemma LookupByAge(t: Table, chains: Chains, sid: Id, i: nat)
    requires ChainsOk(t, chains) && sid in chains && i < |chains[sid]|
    ensures var h, n := Hash(chains[sid][i]), |chains[sid]|;
            && (i == n - 1 ==> IsCurrent(t, sid, h))
            && (i == n - 2 ==> IsPrevious(t, sid, h) && forall s :: !IsCurrent(t, s, h))
            && (i < n - 2 ==> forall s :: !IsCurrent(t, s, h) && !IsPrevious(t, s, h))
  {
    var h, n := Hash(chains[sid][i]), |chains[sid]|;
    assert EndsOfChain(t[sid], chains[sid]);
    forall s | i < n - 1 ensures !IsCurrent(t, s, h) {
      if s in t { assert EndsOfChain(t[s], chains[s]); }
    }
    forall s | i < n - 2 ensures !IsPrevious(t, s, h) {
      if s in t { assert EndsOfChain(t[s], chains[s]); }
    }
  }

  lemma RotationKeepsChains(t: Table, chains: Chains, sid: Id, token: Token)
    requires ChainsOk(t, chains) && sid in t && !Issued(chains, token)
    ensures ChainsOk(t[sid := RotatedTo(t[sid], token)], chains[sid := chains[sid] + [token]])
  {
    var chains' := chains[sid := chains[sid] + [token]];
    forall a, b, i, j | a in chains' && b in chains' && 0 <= i < |chains'[a]| && 0 <= j < |chains'[b]|
      && chains'[a][i] == chains'[b][j]
      ensures a == b && i == j
    {
      assert i < |chains[a]| ==> chains'[a][i] == chains[a][i] && chains[a][i] in chains[a];
      assert j < |chains[b]| ==> chains'[b][j] == chains[b][j] && chains[b][j] in chains[b];
    }
  }

  lemma CreationKeepsChains(t: Table, chains: Chains, sid: Id, user: Id, token: Token, now: Instant)
    requires ChainsOk(t, chains) && sid !in t && !Issued(chains, token)
    ensures ChainsOk(t[sid := NewSession(user, token, now)], chains[sid := [token]])
  {
    var chains' := chains[sid := [token]];
    forall a, b, i, j | a in chains' && b in chains' && 0 <= i < |chains'[a]| && 0 <= j < |chains'[b]|
      && chains'[a][i] == chains'[b][j]
      ensures a == b && i == j
    {
      assert a != sid ==> chains[a][i] in chains[a];
      assert b != sid ==> chains[b][j] in chains[b];
    }
  }

  /** Only the hash columns matter to the chains. */
  lemma SameHashesSameChains(t: Table, t': Table, chains: Chains)
    requires ChainsOk(t, chains) && t'.Keys == t.Keys
    requires forall sid :: sid in t ==> t'[sid].current == t[sid].current && t'[sid].previous == t[sid].previous
    ensures ChainsOk(t', chains)
  {
    forall sid | sid in t' ensures EndsOfChain(t'[sid], chains[sid]) {
      assert EndsOfChain(t[sid], chains[sid]);
    }
  }

  // ------------------------------------------------------------ refresh

  ghost predicate Refused(t: Table, chains: Chains, t': Table, chains': Chains)
  {
    t' == t && chains' == chains
  }

  /**
   A current token: refused when its session is revoked or past its expiry, or its user is not active, and
   rotated otherwise.
   */
  ghost predicate CurrentOutcome(users: Users, t: Table, chains: Chains, sid: Id, newToken: Token, now: Instant,
                                 t': Table, chains': Chains, reply: RefreshReply)
    requires sid in t && sid in chains
  {
    var s := t[sid];
    if s.revokedAt.Some? || s.expiresAt < now then reply == Unauthorized && Refused(t, chains, t', chains')
    else if s.user !in users || users[s.user].status != Active then
      reply == Unavailable && Refused(t, chains, t', chains')
    else
      && reply == Rotated(sid, newToken) && chains' == chains[sid := chains[sid] + [newToken]]
      && sid in t' && t' == t[sid := t'[sid]]
      && t'[sid] == Session(s.user, Hash(newToken), Some(s.current), s.expiresAt, s.revokedAt)
  }

  /** What a refresh does, told by what its two lookups find. */
  ghost predicate RefreshOutcome(users: Users, t: Table, chains: Chains, token: Option<Token>, newToken: Token,
                                 now: Instant,
                                 t': Table, chains': Chains, reply: RefreshReply)
    requires t.Keys == chains.Keys
  {
    if token.None? then reply == Unauthorized && Refused(t, chains, t', chains')
    else
      var h := Hash(token.value);
      && (forall sid :: IsCurrent(t, sid, h) ==>
            CurrentOutcome(users, t, chains, sid, newToken, now, t', chains', reply))
      && ((forall s :: !IsCurrent(t, s, h)) ==>
            && reply == Unauthorized && chains' == chains
            && (forall sid :: IsPrevious(t, sid, h) ==> t' == t[sid := t[sid].(revokedAt := Some(now))])
            && ((forall s :: !IsPrevious(t, s, h)) ==> t' == t))
  }

  lemma CurrentIsUnique(t: Table, chains: Chains, sid: Id, h: Hash)
    requires ChainsOk(t, chains) && IsCurrent(t, sid, h)
    ensures forall s :: IsCurrent(t, s, h) ==> s == sid
  {
    forall s | IsCurrent(t, s, h) ensures s == sid { LookupsAreUnambiguous(t, chains, s, sid, h); }
  }

  lemma PreviousIsUnique(t: Table, chains: Chains, sid: Id, h: Hash)
    requires ChainsOk(t, chains) && IsPrevious(t, sid, h)
    ensures forall s :: IsPrevious(t, s, h) ==> s == sid
  {
    forall s | IsPrevious(t, s, h) ensures s == sid { LookupsAreUnambiguous(t, chains, s, sid, h); }
  }

  lemma SameKeys(t: Table, chains: Chains)
    requires ChainsOk(t, chains)
    ensures t.Keys == chains.Keys
  {
  }

  lemma NoTokenOutcome(users: Users, t: Table, chains: Chains, newToken: Token, now: Instant)
    requires t.Keys == chains.Keys
    ensures RefreshOutcome(users, t, chains, None, newToken, now, t, chains, Unauthorized)
  {
  }

  lemma NoTokenNoChange(users: Users, t: Table, chains: Chains, newToken: Token, now: Instant,
                        t': Table, chains': Chains, reply: RefreshReply)
    requires t.Keys == chains.Keys && RefreshOutcome(users, t, chains, None, newToken, now, t', chains', reply)
    ensures reply == Unauthorized && t' == t && chains' == chains
  {
  }

  lemma OutcomeOfCurrent(users: Users, t: Table, chains: Chains, sid: Id, token: Token, newToken: Token, now: Instant,
                         t': Table, chains': Chains, reply: RefreshReply)
    requires ChainsOk(t, chains) && IsCurrent(t, sid, Hash(token))
    requires sid in chains && CurrentOutcome(users, t, chains, sid, newToken, now, t', chains', reply)
    ensures t.Keys == chains.Keys && RefreshOutcome(users, t, chains, Some(token), newToken, now, t', chains', reply)
  {
    CurrentIsUnique(t, chains, sid, Hash(token));
    SameKeys(t, chains);
    hide ChainsOk, CurrentOutcome;
  }

  lemma OutcomeOfReplay(users: Users, t: Table, chains: Chains, sid: Id, token: Token, newToken: Token, now: Instant)
    requires ChainsOk(t, chains) && IsPrevious(t, sid, Hash(token)) && forall s :: !IsCurrent(t, s, Hash(token))
    ensures t.Keys == chains.Keys
    ensures RefreshOutcome(users, t, chains, Some(token), newToken, now, t[sid := t[sid].(revokedAt := Some(now))],
                           chains, Unauthorized)
  {
    PreviousIsUnique(t, chains, sid, Hash(token));
    SameKeys(t, chains);
    hide ChainsOk, CurrentOutcome;
  }

  lemma OutcomeOfUnknown(users: Users, t: Table, chains: Chains, token: Token, newToken: Token, now: Instant)
    requires t.Keys == chains.Keys
    requires forall s :: !IsCurrent(t, s, Hash(token)) && !IsPrevious(t, s, Hash(token))
    ensures RefreshOutcome(users, t, chains, Some(token), newToken, now, t, chains, Unauthorized)
  {
    hide CurrentOutcome;
  }

  /**
   The age of a token decides its fate: the newest of a session rotates if and only if the session is neither
   revoked nor past its expiry and its user is active, the one before it always revokes the session, and any older
   one is refused without changing anything.
   */
  ghost predicate AgeDecides(users: Users, t: Table, chains: Chains, sid: Id, i: nat, newToken: Token, now: Instant,
                             t': Table, chains': Chains, reply: RefreshReply)
    requires sid in t && sid in chains && i < |chains[sid]|
  {
    var s, n := t[sid], |chains[sid]|;
    && (i == n - 1 ==>
          && (reply == Unauthorized <==> s.revokedAt.Some? || s.expiresAt < now)
          && (reply == Rotated(sid, newToken) <==>
                s.revokedAt.None? && now <= s.expiresAt && s.user in users && users[s.user].status == Active)
          && (!reply.Rotated? ==> t' == t && chains' == chains)
          && (reply.Rotated? ==>
                && chains' == chains[sid := chains[sid] + [newToken]] && sid in t' && t' == t[sid := t'[sid]]
                && t'[sid].current == Hash(newToken) && t'[sid].previous == Some(Hash(chains[sid][i]))
                && t'[sid].user == s.user && t'[sid].expiresAt == s.expiresAt && t'[sid].revokedAt == None))
    && (i == n - 2 ==>
          && reply == Unauthorized && chains' == chains
          && sid in t' && t' == t[sid := t'[sid]] && t'[sid] == s.(revokedAt := Some(now)))
    && (i < n - 2 ==> reply == Unauthorized && t' == t && chains' == chains)
  }

  lemma TokenAgeDecides(users: Users, t: Table, chains: Chains, sid: Id, i: nat, newToken: Token, now: Instant,
                        t': Table, chains': Chains, reply: RefreshReply)
    requires ChainsOk(t, chains) && sid in chains && i < |chains[sid]|
    requires RefreshOutcome(users, t, chains, Some(chains[sid][i]), newToken, now, t', chains', reply)
    ensures AgeDecides(users, t, chains, sid, i, newToken, now, t', chains', reply)
  {
    LookupByAge(t, chains, sid, i);
    assert EndsOfChain(t[sid], chains[sid]);
    hide ChainsOk;
  }

  /** The guard admits a session if and only if it is neither revoked nor past its expiry and its user is active. */
  lemma GuardAdmitsExactly(users: Users, t: Table, sid: Id, now: Instant)
    ensures Admits(users, t, sid, now) <==>
      && sid in t && t[sid].revokedAt.None? && now <= t[sid].expiresAt
      && t[sid].user in users && users[t[sid].user].status == Active
  {
  }

  /** A token that was never issued is refused without changing anything. */
  lemma StrangersAreRefused(users: Users, t: Table, chains: Chains, token: Token, newToken: Token, now: Instant,
                            t': Table, chains': Chains, reply: RefreshReply)
    requires ChainsOk(t, chains) && !Issued(chains, token)
    requires RefreshOutcome(users, t, chains, Some(token), newToken, now, t', chains', reply)
    ensures reply == Unauthorized && t' == t && chains' == chains
  {
    StoredHashesWereIssued(t, chains, Hash(token));
  }

  // ------------------------------------------------------------ the service

  datatype AdminReply = NotFound | Forbidden | Done

  datatype TokenType = EmailVerification | PasswordReset

  /** A VerificationToken row, found by the hash of its token. */
  datatype ResetToken = ResetToken(user: Id, kind: TokenType, expiresAt: Instant, usedAt: Option<Instant>)

  predicate Usable(tokens: map<Hash, ResetToken>, h: Hash, now: Instant)
  {
    h in tokens && tokens[h].kind == PasswordReset && tokens[h].usedAt.None? && tokens[h].expiresAt >= now
  }

  class AuthService {
    var users: Users
    var emails: map<Id, Id>  // user by email
    var sessions: Table
    var resetTokens: map<Hash, ResetToken>
    ghost var chains: Chains

    ghost predicate Valid()
      reads this
    {
      ChainsOk(sessions, chains) && forall u :: u in users ==> CounterOk(users[u])
    }

    constructor (users: Users, emails: map<Id, Id>, resetTokens: map<Hash, ResetToken>)
      requires forall u :: u in users ==> CounterOk(users[u])
      ensures Valid() && sessions == map[] && this.users == users && this.emails == emails
        && this.resetTokens == resetTokens
    {
      this.users, this.emails, this.resetTokens := users, emails, resetTokens;
      sessions, chains := map[], map[];
    }

    /**
     One login. `sid` and `token` are the session id and refresh token that a success would use.
     */
    method Login(email: Id, attempt: Attempt, sid: Id, token: Token) returns (reply: LoginReply, session: Option<Id>)
      requires Valid() && sid !in sessions && !Issued(chains, token)
      modifies this
      ensures Valid() && emails == old(emails) && resetTokens == old(resetTokens)
      ensures reply == if email !in emails || emails[email] !in old(users) then InvalidCredentials
                       else ReplyTo(old(users)[emails[email]], attempt)
      ensures users == if email in emails && emails[email] in old(users)
                       then old(users)[emails[email] := AfterLogin(old(users)[emails[email]], attempt)] else old(users)
      ensures email !in emails || emails[email] !in old(users) ==> reply == InvalidCredentials && users == old(users)
      ensures email in emails && emails[email] in old(users) ==>
        var id := emails[email];
        && id in users && users == old(users)[id := users[id]]
        && LoginDoes(old(users)[id], attempt, reply, users[id])
        && (LockedAt(old(users)[id], attempt.at) ==>
              reply != LoggedIn && users == old(users) && sessions == old(sessions))
      ensures session == if reply == LoggedIn then Some(sid) else None
      ensures reply == LoggedIn ==> sessions == old(sessions)[sid := NewSession(emails[email], token, attempt.later)]
      ensures reply == LoggedIn ==> chains == old(chains)[sid := [token]]
      ensures reply == LoggedIn ==>
        && email in emails && sid in sessions && sessions == old(sessions)[sid := sessions[sid]]
        && sessions[sid].user == emails[email] && sessions[sid].current == Hash(token) && sessions[sid].previous == None
        && sessions[sid].expiresAt == attempt.later + 2_592_000_000 && sessions[sid].revokedAt == None
      ensures reply != LoggedIn ==> sessions == old(sessions) && chains == old(chains)
    {
      session := None;
      if email !in emails || emails[email] !in users { return InvalidCredentials, None; }
      var id := emails[email];
      var user := users[id];
      LoginAnswers(user, attempt);
      hide LoginDoes;
      if user.password.None? { return InvalidCredentials, None; }
      if user.status == Banned || user.status == Suspended { return AccountUnavailable, None; }
      if user.lockedUntil.Some? && user.lockedUntil.value > attempt.at { return InvalidCredentials, None; }
      if user.password.value != attempt.password {
        var failed := user.failedLoginCount + 1;
        var lock := failed >= MAX_FAILED_LOGINS;
        users := users[id := user.(failedLoginCount := if lock then 0 else failed,
                                   lockedUntil := if lock then Some(attempt.later + LOCKOUT_MS) else None)];
        return InvalidCredentials, None;
      }
      if !user.emailVerified { return EmailUnverified, None; }
      users := users[id := user.(failedLoginCount := 0, lockedUntil := None)];
      CreateSession(id, sid, token, attempt.later);
      return LoggedIn, Some(sid);
    }

    method CreateSession(user: Id, sid: Id, token: Token, now: Instant)
      requires Valid() && sid !in sessions && !Issued(chains, token)
      modifies `sessions, `chains
      ensures Valid()
      ensures sessions == old(sessions)[sid := NewSession(user, token, now)] && chains == old(chains)[sid := [token]]
      ensures sid in sessions && sessions[sid] == Session(user, Hash(token), None, now + 2_592_000_000, None)
    {
      CreationKeepsChains(sessions, chains, sid, user, token, now);
      sessions := sessions[sid := Session(user, Hash(token), None, now + REFRESH_TTL, None)];
      chains := chains[sid := [token]];
    }

    /** Uninterrupted refresh: rotation of a current token, revocation on a replayed previous one. */
    method Refresh(token: Option<Token>, newToken: Token, now: Instant) returns (reply: RefreshReply)
      requires Valid() && !Issued(chains, newToken)
      modifies `sessions, `chains
      ensures Valid()
      ensures RefreshOutcome(users, old(sessions), old(chains), token, newToken, now, sessions, chains, reply)
      ensures forall sid, i ::
        sid in old(sessions) && sid in old(chains) && 0 <= i < |old(chains)[sid]| && token == Some(old(chains)[sid][i])
        ==> AgeDecides(users, old(sessions), old(chains), sid, i, newToken, now, sessions, chains, reply)
      ensures token.None? || !Issued(old(chains), token.value) ==>
        reply == Unauthorized && sessions == old(sessions) && chains == old(chains)
    {
      reply := RefreshByLookup(token, newToken, now);
      hide RefreshOutcome, AgeDecides, ChainsOk, CounterOk;
      forall sid, i |
        sid in old(sessions) && sid in old(chains) && 0 <= i < |old(chains)[sid]| && token == Some(old(chains)[sid][i])
        ensures AgeDecides(users, old(sessions), old(chains), sid, i, newToken, now, sessions, chains, reply)
      {
        TokenAgeDecides(users, old(sessions), old(chains), sid, i, newToken, now, sessions, chains, reply);
      }
      if token.None? {
        NoTokenNoChange(users, old(sessions), old(chains), newToken, now, sessions, chains, reply);
      } else if !Issued(old(chains), token.value) {
        StrangersAreRefused(users, old(sessions), old(chains), token.value, newToken, now, sessions, chains, reply);
      }
    }

    /** The two lookups of a refresh and the writes that follow them. */
    method RefreshByLookup(token: Option<Token>, newToken: Token, now: Instant) returns (reply: RefreshReply)
      requires Valid() && !Issued(chains, newToken)
      modifies `sessions, `chains
      ensures Valid()
      ensures RefreshOutcome(users, old(sessions), old(chains), token, newToken, now, sessions, chains, reply)
    {
      hide ChainsOk, CounterOk, Issued, RefreshOutcome;
      SameKeys(sessions, chains);
      if token.None? {
        NoTokenOutcome(users, sessions, chains, newToken, now);
        return Unauthorized;
      }
      var hash := Hash(token.value);
      ghost var t0, chains0 := sessions, chains;
      if exists sid :: sid in sessions && sessions[sid].current == hash {
        var sid :| sid in sessions && sessions[sid].current == hash;
        var s := sessions[sid];
        if s.revokedAt.Some? || s.expiresAt < now {
          reply := Unauthorized;
        } else if s.user !in users || users[s.user].status != Active {
          reply := Unavailable;
        } else {
          RotationKeepsChains(sessions, chains, sid, newToken);
          sessions := sessions[sid := s.(previous := Some(s.current), current := Hash(newToken))];
          chains := chains[sid := chains[sid] + [newToken]];
          reply := Rotated(sid, newToken);
        }
        OutcomeOfCurrent(users, t0, chains0, sid, token.value, newToken, now, sessions, chains, reply);
        return;
      }
      assert forall sid :: !IsCurrent(sessions, sid, hash);
      if exists sid :: sid in sessions && sessions[sid].previous == Some(hash) {
        var sid :| sid in sessions && sessions[sid].previous == Some(hash);
        sessions := sessions[sid := sessions[sid].(revokedAt := Some(now))];
        SameHashesSameChains(t0, sessions, chains);
        OutcomeOfReplay(users, t0, chains0, sid, token.value, newToken, now);
      } else {
        OutcomeOfUnknown(users, t0, chains0, token.value, newToken, now);
      }
      return Unauthorized;
    }

    method Logout(sid: Id, now: Instant)
      requires Valid()
      modifies `sessions
      ensures Valid()
      ensures sessions == if sid in old(sessions) && old(sessions)[sid].revokedAt.None?
                          then old(sessions)[sid := old(sessions)[sid].(revokedAt := Some(now))] else old(sessions)
    {
      if sid in sessions && sessions[sid].revokedAt.None? {
        ghost var before := sessions;
        sessions := sessions[sid := sessions[sid].(revokedAt := Some(now))];
        SameHashesSameChains(before, sessions, chains);
      }
    }

    /** Revokes one session, only if it is the user's own; false means "Session not found". */
    method RevokeSession(user: Id, sid: Id, now: Instant) returns (found: bool)
      requires Valid()
      modifies `sessions
      ensures Valid()
      ensures found <==> sid in old(sessions) && old(sessions)[sid].user == user && old(sessions)[sid].revokedAt.None?
      ensures sessions == if found then old(sessions)[sid := old(sessions)[sid].(revokedAt := Some(now))]
        else old(sessions)
    {
      found := sid in sessions && sessions[sid].user == user && sessions[sid].revokedAt.None?;
      if found {
        ghost var before := sessions;
        sessions := sessions[sid := sessions[sid].(revokedAt := Some(now))];
        SameHashesSameChains(before, sessions, chains);
      }
    }

    method RevokeAllSessions(user: Id, except: Option<Id>, now: Instant)
      requires Valid()
      modifies `sessions
      ensures Valid()
      ensures sessions == RevokeAll(old(sessions), user, except, now)
      ensures sessions.Keys == old(sessions).Keys
      ensures forall sid :: sid in old(sessions) ==>
        var s := old(sessions)[sid];
        sessions[sid] == if s.user == user && s.revokedAt.None? && except != Some(sid) then s.(revokedAt := Some(now))
          else s
    {
      ghost var before := sessions;
      sessions := map sid | sid in sessions ::
        if sessions[sid].user == user && sessions[sid].revokedAt.None? && except != Some(sid)
        then sessions[sid].(revokedAt := Some(now)) else sessions[sid];
      SameHashesSameChains(before, sessions, chains);
    }

    /** Spends a reset token: new password, counters cleared, every session of the user revoked. */
    method ResetPassword(token: Token, password: Secret, now: Instant) returns (ok: bool)
      requires Valid()
      requires Hash(token) in resetTokens ==> resetTokens[Hash(token)].user in users
      modifies this
      ensures Valid() && emails == old(emails) && chains == old(chains)
      ensures ok <==>
        && Hash(token) in old(resetTokens) && old(resetTokens)[Hash(token)].kind == PasswordReset
        && old(resetTokens)[Hash(token)].usedAt.None? && now <= old(resetTokens)[Hash(token)].expiresAt
      ensures !ok ==> users == old(users) && sessions == old(sessions) && resetTokens == old(resetTokens)
      ensures ok ==>
        var r := old(resetTokens)[Hash(token)];
        && resetTokens == old(resetTokens)[Hash(token) := r.(usedAt := Some(now))]
        && !Usable(resetTokens, Hash(token), now)
        && users == old(users)[r.user := old(users)[r.user].(password := Some(password), failedLoginCount := 0,
             lockedUntil := None)]
        && sessions == RevokeAll(old(sessions), r.user, None, now)
        && (forall sid :: sid in old(sessions) && old(sessions)[sid].user != r.user ==>
              sid in sessions && sessions[sid] == old(sessions)[sid])
        && (forall sid, at :: sid in sessions && sessions[sid].user == r.user ==> !Admits(users, sessions, sid, at))
    {
      var h := Hash(token);
      if h !in resetTokens || resetTokens[h].kind != PasswordReset || resetTokens[h].usedAt.Some?
        || resetTokens[h].expiresAt < now {
        return false;
      }
      var r := resetTokens[h];
      resetTokens := resetTokens[h := r.(usedAt := Some(now))];
      users := users[r.user := users[r.user].(password := Some(password), failedLoginCount := 0, lockedUntil := None)];
      RevokeAllSessions(r.user, None, now);
      return true;
    }

    /** The administrator's status change; `allowed` is the rank check's answer. It signs the user out everywhere. */
    method SetUserStatus(user: Id, status: AccountStatus, allowed: bool, now: Instant) returns (r: AdminReply)
      requires Valid()
      modifies `users, `sessions
      ensures Valid()
      ensures r == if user !in old(users) then NotFound else if !allowed then Forbidden else Done
      ensures users == if r == Done then old(users)[user := old(users)[user].(status := status)] else old(users)
      ensures sessions == if r == Done then RevokeAll(old(sessions), user, None, now) else old(sessions)
      ensures forall sid :: sid in old(sessions) && old(sessions)[sid].user != user ==>
        sid in sessions && sessions[sid] == old(sessions)[sid]
      ensures r == Done ==> forall sid, at :: sid in sessions && sessions[sid].user == user ==>
        !Admits(users, sessions, sid, at)
    {
      if user !in users { return NotFound; }
      if !allowed { return Forbidden; }
      users := users[user := users[user].(status := status)];
      RevokeAllSessions(user, None, now);
      return Done;
    }

    /** The administrator's password reset; the rank check does not apply to one's own account. */
    method AdminResetPassword(acting: Id, user: Id, allowed: bool, password: Secret, now: Instant)
      returns (r: AdminReply)
      requires Valid()
      modifies `users, `sessions
      ensures Valid()
      ensures r == if user !in old(users) then NotFound else if user != acting && !allowed then Forbidden else Done
      ensures users == if r == Done
                       then old(users)[user := old(users)[user].(password := Some(password), failedLoginCount := 0,
                                                                 lockedUntil := None)]
                       else old(users)
      ensures sessions == if r == Done then RevokeAll(old(sessions), user, None, now) else old(sessions)
      ensures forall sid :: sid in old(sessions) && old(sessions)[sid].user != user ==>
        sid in sessions && sessions[sid] == old(sessions)[sid]
      ensures r == Done ==> forall sid, at :: sid in sessions && sessions[sid].user == user ==>
        !Admits(users, sessions, sid, at)
    {
      if user !in users { return NotFound; }
      if user != acting && !allowed { return Forbidden; }
      users := users[user := users[user].(password := Some(password), failedLoginCount := 0, lockedUntil := None)];
      RevokeAllSessions(user, None, now);
      return Done;
    }
  }

  /** A hash that the table knows is the hash of an issued token. */
  lemma StoredHashesWereIssued(t: Table, chains: Chains, h: Hash)
    requires ChainsOk(t, chains)
    ensures forall sid :: IsCurrent(t, sid, h) || IsPrevious(t, sid, h) ==> Issued(chains, h.token)
  {
    forall sid | IsCurrent(t, sid, h) || IsPrevious(t, sid, h) ensures Issued(chains, h.token) {
      assert EndsOfChain(t[sid], chains[sid]);
      assert h.token in chains[sid];
    }
  }
}

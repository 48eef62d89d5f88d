/** The failed-login counter and the lockout it drives. */
module Lockout {
  import opened Wrappers
  import opened Calendar

  type Secret = nat  // passwords; the hash check is an injective comparison

  datatype AccountStatus = Active | Suspended | Banned | Deleted

  const MAX_FAILED_LOGINS := 5
  const LOCKOUT_MS: nat := 15 * 60_000

  /** The columns of a User row that login reads and writes. */
  datatype User = User(status: AccountStatus, password: Option<Secret>, emailVerified: bool,
                       failedLoginCount: int, lockedUntil: Option<Instant>)

  datatype LoginReply = InvalidCredentials | AccountUnavailable | EmailUnverified | LoggedIn

  /** One login: the password given, the clock at the lock check, and the clock at the update after the hash check. */
  datatype Attempt = Attempt(password: Secret, at: Instant, later: Instant)

  predicate Locked(u: User, now: Instant) { u.lockedUntil.Some? && u.lockedUntil.value > now }

  /** The password is checked at all: the account can log in, is not shut out and is not locked. */
  predicate Checked(u: User, a: Attempt)
  {
    u.password.Some? && u.status != Banned && u.status != Suspended && !Locked(u, a.at)
  }

  predicate FailedCheck(u: User, a: Attempt) { Checked(u, a) && u.password != Some(a.password) }

  function ReplyTo(u: User, a: Attempt): LoginReply
  {
    if u.password.None? then InvalidCredentials
    else if u.status == Banned || u.status == Suspended then AccountUnavailable
    else if Locked(u, a.at) || u.password != Some(a.password) then InvalidCredentials
    else if !u.emailVerified then EmailUnverified
    else LoggedIn
  }

  function AfterLogin(u: User, a: Attempt): User
  {
    if FailedCheck(u, a) then
      if u.failedLoginCount + 1 >= MAX_FAILED_LOGINS
      then u.(failedLoginCount := 0, lockedUntil := Some(a.later + LOCKOUT_MS))
      else u.(failedLoginCount := u.failedLoginCount + 1, lockedUntil := None)
    else if ReplyTo(u, a) == LoggedIn then u.(failedLoginCount := 0, lockedUntil := None)
    else u
  }

  // ------------------------------------------------------------ what a login answers and writes

  /** The account is locked at this instant. */
  predicate LockedAt(u: User, now: Instant) { u.lockedUntil.Some? && now < u.lockedUntil.value }

  /** One login, told by the row alone: what it replies and what it leaves in the row. */
  predicate LoginDoes(u: User, a: Attempt, reply: LoginReply, u': User)
  {
    && (reply == LoggedIn <==>
          && u.password == Some(a.password) && u.status != Banned && u.status != Suspended
          && !LockedAt(u, a.at) && u.emailVerified)
    && (reply == AccountUnavailable <==> u.password.Some? && (u.status == Banned || u.status == Suspended))
    && (reply == EmailUnverified <==>
          && u.password == Some(a.password) && u.status != Banned && u.status != Suspended
          && !LockedAt(u, a.at) && !u.emailVerified)
    && u' == u.(failedLoginCount := u'.failedLoginCount, lockedUntil := u'.lockedUntil)
    && (if reply == LoggedIn then u'.failedLoginCount == 0 && u'.lockedUntil == None
        else if reply == InvalidCredentials && u.password.Some? && !LockedAt(u, a.at) then
          if u.failedLoginCount >= 4 then u'.failedLoginCount == 0 && u'.lockedUntil == Some(a.later + 900_000)
          else u'.failedLoginCount == u.failedLoginCount + 1 && u'.lockedUntil == None
        else u' == u)
  }

  /** The password is answered for exactly as the row says. */
  lemma LoginAnswers(u: User, a: Attempt)
    ensures LoginDoes(u, a, ReplyTo(u, a), AfterLogin(u, a))
  {
  }

  /** While an account is locked, all passwords get the same reply, no login succeeds and the row stays as it is. */
  lemma LockedLoginsLookAlike(u: User, a: Attempt, b: Attempt)
    requires u.lockedUntil.Some? && a.at < u.lockedUntil.value && b.at < u.lockedUntil.value
    ensures ReplyTo(u, a) == ReplyTo(u, b) != LoggedIn
    ensures AfterLogin(u, a) == u == AfterLogin(u, b)
  {
  }

  /** A wrong guess that is answered: some other password would get another reply or leave another row. */
  ghost predicate Answered(u: User, a: Attempt)
  {
    u.password != Some(a.password) && exists other :: OtherwiseFor(u, a, other)
  }

  predicate OtherwiseFor(u: User, a: Attempt, other: Secret)
  {
    var b := a.(password := other);
    ReplyTo(u, b) != ReplyTo(u, a) || AfterLogin(u, b) != AfterLogin(u, a)
  }

  /** Wrong guesses are answered exactly when the password is checked. */
  lemma AnsweredIsChecked(u: User, a: Attempt)
    ensures Answered(u, a) <==> FailedCheck(u, a)
  {
    if FailedCheck(u, a) {
      assert OtherwiseFor(u, a, u.password.value);
    }
  }

  predicate CounterOk(u: User) { 0 <= u.failedLoginCount < MAX_FAILED_LOGINS }

  lemma LoginKeepsCounter(u: User, a: Attempt)
    requires CounterOk(u)
    ensures CounterOk(AfterLogin(u, a))
  {
  }

  /** Logins one after the other, each finished before the next begins, none before the instant t. */
  predicate Serialised(attempts: seq<Attempt>, t: Instant)
  {
    attempts == [] || (t <= attempts[0].at <= attempts[0].later && Serialised(attempts[1..], attempts[0].later))
  }

  /** None of these logins succeeds. */
  predicate NoSuccess(u: User, attempts: seq<Attempt>)
    decreases |attempts|
  {
    attempts == [] || (ReplyTo(u, attempts[0]) != LoggedIn && NoSuccess(AfterLogin(u, attempts[0]), attempts[1..]))
  }

  /** Wrong guesses answered between two instants, both included. */
  ghost function AnswersIn(u: User, attempts: seq<Attempt>, from: Instant, to: Instant): nat
    decreases |attempts|
  {
    if attempts == [] then 0 else
      (if Answered(u, attempts[0]) && from <= attempts[0].at <= to then 1 else 0)
      + AnswersIn(AfterLogin(u, attempts[0]), attempts[1..], from, to)
  }

  function Max(a: nat, b: nat): nat { if a < b then b else a }

  /** The first instant at which a password can be checked again. */
  function OpenFrom(u: User, t: Instant): Instant { if u.lockedUntil.Some? then Max(t, u.lockedUntil.value) else t }

  /** How many more failed checks fit before the end of the window, given those already counted. */
  function Budget(count: int, open: Instant, to: Instant): int
  {
    if open > to then 0 else 5 * ((to - open) / LOCKOUT_MS + 1) - count
  }

  /** One failed check uses up one of the budget; the fifth in a row costs a lockout of time instead. */
  lemma FailureUsesBudget(u: User, a: Attempt, t: Instant, to: Instant)
    requires CounterOk(u) && t <= a.at <= a.later && FailedCheck(u, a)
    ensures var u' := AfterLogin(u, a);
            Budget(u'.failedLoginCount, OpenFrom(u', a.later), to) + (if a.at <= to then 1 else 0)
              <= Budget(u.failedLoginCount, OpenFrom(u, t), to)
  {
    var u' := AfterLogin(u, a);
    var open, open' := OpenFrom(u, t), OpenFrom(u', a.later);
    assert open <= a.at <= a.later <= open';
    if open' <= to {
      DivGrows(to - open', to - open);
      if u.failedLoginCount + 1 >= MAX_FAILED_LOGINS {
        DivGrows(to - open' + LOCKOUT_MS, to - open);
      }
    } else if open <= to {
      assert (to - open) / LOCKOUT_MS >= 0;
    }
  }

  lemma DivGrows(a: nat, b: nat)
    requires a <= b
    ensures a / LOCKOUT_MS <= b / LOCKOUT_MS
    ensures a >= LOCKOUT_MS ==> (a - LOCKOUT_MS) / LOCKOUT_MS == a / LOCKOUT_MS - 1
  {
  }

  lemma {:induction false} InsideTheWindow(u: User, attempts: seq<Attempt>, t: Instant, from: Instant, to: Instant)
    requires CounterOk(u) && Serialised(attempts, t) && NoSuccess(u, attempts) && from <= t
    ensures AnswersIn(u, attempts, from, to) <= Max(0, Budget(u.failedLoginCount, OpenFrom(u, t), to))
    decreases |attempts|
  {
    if attempts != [] {
      var a := attempts[0];
      hide Budget, OpenFrom, Answered;
      AnsweredIsChecked(u, a);
      LoginKeepsCounter(u, a);
      InsideTheWindow(AfterLogin(u, a), attempts[1..], a.later, from, to);
      if FailedCheck(u, a) {
        FailureUsesBudget(u, a, t, to);
        BudgetIsNat(AfterLogin(u, a), a.later, to);
      } else {
        BudgetShrinks(u, t, a.later, to);
      }
    }
  }

  lemma BudgetIsNat(u: User, t: Instant, to: Instant)
    requires CounterOk(u)
    ensures Budget(u.failedLoginCount, OpenFrom(u, t), to) >= 0
  {
  }

  lemma BudgetShrinks(u: User, t: Instant, t': Instant, to: Instant)
    requires CounterOk(u) && t <= t'
    ensures Budget(u.failedLoginCount, OpenFrom(u, t'), to) <= Budget(u.failedLoginCount, OpenFrom(u, t), to)
  {
    var open, open' := OpenFrom(u, t), OpenFrom(u, t');
    if open' <= to { DivGrows(to - open', to - open); }
  }

  /**
   The rate bound: with no success in between, any window of length T sees at most 5 (floor(T / 15 min) + 1)
   wrong guesses answered on the account, wherever the window starts.
   */
  lemma {:induction false} LockoutLimitsGuesses(u: User, attempts: seq<Attempt>, t: Instant, from: Instant, length: nat)
    requires CounterOk(u) && Serialised(attempts, t) && NoSuccess(u, attempts)
    ensures AnswersIn(u, attempts, from, from + length) <= 5 * (length / 900_000 + 1)
    decreases |attempts|
  {
    var to := from + length;
    if attempts != [] {
      var a := attempts[0];
      if a.at < from {
        LoginKeepsCounter(u, a);
        LockoutLimitsGuesses(AfterLogin(u, a), attempts[1..], a.later, from, length);
      } else {
        InsideTheWindow(u, attempts, a.at, from, to);
        BudgetFits(u, a.at, from, length);
      }
    } else {
      assert length / LOCKOUT_MS >= 0;
    }
  }

  lemma BudgetFits(u: User, t: Instant, from: Instant, length: nat)
    requires CounterOk(u) && from <= t
    ensures Max(0, Budget(u.failedLoginCount, OpenFrom(u, t), from + length)) <= 5 * (length / LOCKOUT_MS + 1)
  {
    var open := OpenFrom(u, t);
    assert length / LOCKOUT_MS >= 0;
    if open <= from + length { DivGrows(from + length - open, length); }
  }
}

/**
 Sign-in, lockout and refresh-token rotation, over whole serial histories.
 */
module Sessions {
  import opened Common

  type Id = nat
  type Time = nat

  const MAX_FAILED_ATTEMPTS: nat := 5
  const LOCKOUT: nat := 15 * 60_000

  // A refresh token: its subject and its unique id (section 4.1.7 of RFC 7519).
  datatype Token = Token(user: Id, jti: nat)

  type TokenHash = Token -> string

  datatype AccountStatus = Active | Suspended | PendingVerification | Deactivated

  datatype User = User(
    password: nat,  // verifyPassword compares with it
    status: AccountStatus,
    deleted: bool,
    superAdmin: bool,
    maintenanceAllowed: bool,
    mustChangePassword: bool,
    temporaryExpiresAt: Option<Time>,
    failedLoginCount: nat,
    lockedUntil: Option<Time>,
    refreshTokenHash: Option<string>)

  // `minted` counts the refresh tokens signed so far: the next jti.
  datatype Auth = Auth(users: map<Id, User>, minted: nat)

  const START: Auth := Auth(map[], 0)

  datatype Reply =
    | InvalidCredentials | AccountLocked | AccountInactive | TemporaryExpired | UnderMaintenance
    | Unauthorized | BadRequest | NotFound
    | SignedIn(token: Token)
    | Done

  predicate LockedAt(u: User, now: Time) {
    u.lockedUntil.Some? && u.lockedUntil.value > now
  }

  // A login that gets as far as comparing the password.
  predicate ReachesPassword(a: Auth, who: Option<Id>, now: Time) {
    && who.Some? && who.value in a.users
    && var u := a.users[who.value];
       !u.deleted && !LockedAt(u, now) && u.status in {Active, PendingVerification}
  }

  function CountFailure(u: User, now: Time): User {
    if u.failedLoginCount + 1 >= MAX_FAILED_ATTEMPTS
    then u.(failedLoginCount := 0, lockedUntil := Some(now + LOCKOUT))
    else u.(failedLoginCount := u.failedLoginCount + 1, lockedUntil := None)
  }

  // Sign in user `id` with a fresh token, writing `u` over its row.
  function Mint(a: Auth, h: TokenHash, id: Id, u: User): (Auth, Reply) {
    var token := Token(id, a.minted);
    (Auth(a.users[id := u.(refreshTokenHash := Some(h(token)))], a.minted + 1), SignedIn(token))
  }

  function Login(a: Auth, h: TokenHash, who: Option<Id>, password: nat, maintenance: bool, now: Time): (Auth, Reply) {
    if who == None || who.value !in a.users || a.users[who.value].deleted then (a, InvalidCredentials)
    else
      var u := a.users[who.value];
      if LockedAt(u, now) then (a, AccountLocked)
      else if u.status !in {Active, PendingVerification} then (a, AccountInactive)
      else if password != u.password then
        (a.(users := a.users[who.value := CountFailure(u, now)]), InvalidCredentials)
      else if u.mustChangePassword && u.temporaryExpiresAt.Some? && u.temporaryExpiresAt.value < now then
        (a, TemporaryExpired)
      else if !u.superAdmin && !u.maintenanceAllowed && maintenance then (a, UnderMaintenance)
      else Mint(a, h, who.value, u.(failedLoginCount := 0, lockedUntil := None))
  }

  // `genuine`: the signature and expiry of the token check out.
  function Refresh(a: Auth, h: TokenHash, token: Token, genuine: bool): (Auth, Reply) {
    if !genuine then (a, Unauthorized)
    else if token.user !in a.users || a.users[token.user].deleted
         || a.users[token.user].refreshTokenHash != Some(h(token)) then (a, Unauthorized)
    else Mint(a, h, token.user, a.users[token.user])
  }

  function ChangePassword(a: Auth, h: TokenHash, id: Id, current: nat, next: nat): (Auth, Reply) {
    if id !in a.users || a.users[id].deleted then (a, Unauthorized)
    else if current != a.users[id].password then (a, Unauthorized)
    else if next == a.users[id].password then (a, BadRequest)
    else
      var u := a.users[id];
      Mint(a, h, id, u.(password := next, mustChangePassword := false, temporaryExpiresAt := None,
                        failedLoginCount := 0, lockedUntil := None,
                        status := if u.status == PendingVerification then Active else u.status))
  }

  function Write(a: Auth, id: Id, u: User): (Auth, Reply) {
    (a.(users := a.users[id := u]), Done)
  }

  function Logout(a: Auth, id: Id): (Auth, Reply) {
    if id !in a.users then (a, NotFound) else Write(a, id, a.users[id].(refreshTokenHash := None))
  }

  // resetFarmerPassword
  function ResetPassword(a: Auth, id: Id, password: nat, expires: Time): (Auth, Reply) {
    if id !in a.users then (a, NotFound)
    else Write(a, id, a.users[id].(password := password, mustChangePassword := true, temporaryExpiresAt := Some(expires),
                                   refreshTokenHash := None, failedLoginCount := 0, lockedUntil := None))
  }

  // softDeleteFarmer, on the linked login
  function Deactivate(a: Auth, id: Id): (Auth, Reply) {
    if id !in a.users then (a, NotFound)
    else Write(a, id, a.users[id].(status := Deactivated, refreshTokenHash := None))
  }

  datatype Event =
    | LoginEvent(who: Option<Id>, password: nat, maintenance: bool)
    | RefreshEvent(token: Token, genuine: bool)
    | ChangeEvent(id: Id, current: nat, next: nat)
    | LogoutEvent(id: Id)
    | ResetEvent(id: Id, temporary: nat, expires: Time)
    | DeactivateEvent(id: Id)
    | StatusEvent(id: Id, status: AccountStatus)
    | AllowEvent(id: Id, allowed: bool)
    | RegisterEvent(id: Id, secret: nat, admin: bool)
    | ProvisionEvent(id: Id, issued: nat, validUntil: Time)  // a farmer's login

  function Step(a: Auth, h: TokenHash, e: Event, now: Time): (Auth, Reply) {
    match e
    case LoginEvent(who, password, maintenance) => Login(a, h, who, password, maintenance, now)
    case RefreshEvent(token, genuine) => Refresh(a, h, token, genuine)
    case ChangeEvent(id, current, next) => ChangePassword(a, h, id, current, next)
    case LogoutEvent(id) => Logout(a, id)
    case ResetEvent(id, temporary, expires) => ResetPassword(a, id, temporary, expires)
    case DeactivateEvent(id) => Deactivate(a, id)
    case StatusEvent(id, status) => if id !in a.users then (a, NotFound) else Write(a, id, a.users[id].(status := status))
    case AllowEvent(id, allowed) =>
      if id !in a.users then (a, NotFound) else Write(a, id, a.users[id].(maintenanceAllowed := allowed))
    case RegisterEvent(id, secret, admin) =>
      if id in a.users then (a, BadRequest)
      else Write(a, id, User(secret, PendingVerification, false, admin, false, false, None, 0, None, None))
    case ProvisionEvent(id, issued, validUntil) =>
      if id in a.users then (a, BadRequest)
      else Write(a, id, User(issued, Active, false, false, false, true, Some(validUntil), 0, None, None))
  }

  // ---------------------------------------------------------------------------
  // When each handler goes through, and what it leaves
  // ---------------------------------------------------------------------------

  predicate Usable(u: User) {
    !u.deleted && (u.status == Active || u.status == PendingVerification)
  }

  predicate LockedOut(u: User, now: Time) {
    match u.lockedUntil
    case Some(until) => now < until
    case None => false
  }

  predicate RunOut(u: User, now: Time) {
    match u.temporaryExpiresAt
    case Some(expires) => u.mustChangePassword && expires < now
    case None => false
  }

  predicate MayEnter(u: User, maintenance: bool) {
    !maintenance || u.superAdmin || u.maintenanceAllowed
  }

  // The row with a new session token.
  function WithToken(a: Auth, h: TokenHash, id: Id, u: User): Auth {
    Auth(a.users[id := u.(refreshTokenHash := Some(h(Token(id, a.minted))))], a.minted + 1)
  }

  // A login signs in exactly with the right password on a usable, unlocked account, not with a
  // temporary password that has run out, and past the maintenance gate; it clears counter and lock.
  lemma LoginExactly(a: Auth, h: TokenHash, who: Option<Id>, password: nat, maintenance: bool, now: Time)
    ensures Login(a, h, who, password, maintenance, now).1.SignedIn? <==>
      && who.Some? && who.value in a.users
      && var u := a.users[who.value];
         Usable(u) && !LockedOut(u, now) && password == u.password && !RunOut(u, now) && MayEnter(u, maintenance)
    ensures Login(a, h, who, password, maintenance, now).1.SignedIn? ==>
      && Login(a, h, who, password, maintenance, now).1.token == Token(who.value, a.minted)
      && Login(a, h, who, password, maintenance, now).0
         == WithToken(a, h, who.value, a.users[who.value].(failedLoginCount := 0, lockedUntil := None))
  {
  }

  // The reply to every other login; a wrong password on an open account is the only one that leaves
  // a trace: one more on the counter, or at the fifth a lock of fifteen minutes.
  lemma LoginRefusals(a: Auth, h: TokenHash, id: Id, password: nat, maintenance: bool, now: Time)
    requires id in a.users
    ensures var u, n, reply := a.users[id], Login(a, h, Some(id), password, maintenance, now).0, Login(a, h, Some(id), password, maintenance, now).1;
      && (u.deleted ==> n == a && reply == InvalidCredentials)
      && (!u.deleted && LockedOut(u, now) ==> n == a && reply == AccountLocked)
      && (!u.deleted && !LockedOut(u, now) && !Usable(u) ==> n == a && reply == AccountInactive)
      && (Usable(u) && !LockedOut(u, now) && password != u.password ==>
            && reply == InvalidCredentials && n.minted == a.minted
            && n.users == a.users[id :=
                 if u.failedLoginCount < 4 then u.(failedLoginCount := u.failedLoginCount + 1, lockedUntil := None)
                 else u.(failedLoginCount := 0, lockedUntil := Some(now + 15 * 60 * 1000))])
      && (Usable(u) && !LockedOut(u, now) && password == u.password && RunOut(u, now) ==> n == a && reply == TemporaryExpired)
      && (Usable(u) && !LockedOut(u, now) && password == u.password && !RunOut(u, now) && !MayEnter(u, maintenance) ==>
            n == a && reply == UnderMaintenance)
  {
  }

  lemma UnknownIsRefused(a: Auth, h: TokenHash, who: Option<Id>, password: nat, maintenance: bool, now: Time)
    requires who == None || who.value !in a.users
    ensures Login(a, h, who, password, maintenance, now) == (a, InvalidCredentials)
  {
  }

  // A refresh goes through exactly with a genuine token that is the user's current one.
  lemma RefreshExactly(a: Auth, h: TokenHash, token: Token, genuine: bool)
    ensures var (n, reply) := Refresh(a, h, token, genuine);
      && (reply.SignedIn? <==>
            && genuine && token.user in a.users && !a.users[token.user].deleted
            && a.users[token.user].refreshTokenHash == Some(h(token)))
      && (reply.SignedIn? ==> n == WithToken(a, h, token.user, a.users[token.user]) && reply.token == Token(token.user, a.minted))
      && (!reply.SignedIn? ==> n == a && reply == Unauthorized)
  {
  }

  // A password change goes through exactly with the right current and a different new password.
  lemma ChangeExactly(a: Auth, h: TokenHash, id: Id, current: nat, next: nat)
    ensures var (n, reply) := ChangePassword(a, h, id, current, next);
      && (reply.SignedIn? <==> id in a.users && !a.users[id].deleted && current == a.users[id].password && next != current)
      && (reply.SignedIn? ==>
            && n.minted == a.minted + 1 && reply.token == Token(id, a.minted)
            && n.users.Keys == a.users.Keys && (forall i :: i in a.users && i != id ==> n.users[i] == a.users[i])
            && n.users[id].password == next && !n.users[id].mustChangePassword && n.users[id].temporaryExpiresAt == None
            && n.users[id].failedLoginCount == 0 && n.users[id].lockedUntil == None
            && n.users[id].refreshTokenHash == Some(h(reply.token))
            && n.users[id].status == (if a.users[id].status == PendingVerification then Active else a.users[id].status)
            && n.users[id].deleted == a.users[id].deleted && n.users[id].superAdmin == a.users[id].superAdmin
            && n.users[id].maintenanceAllowed == a.users[id].maintenanceAllowed)
      && (!reply.SignedIn? ==> n == a)
      && (id in a.users && !a.users[id].deleted && current == a.users[id].password == next ==> reply == BadRequest)
      && (id !in a.users || a.users[id].deleted || current != a.users[id].password ==> reply == Unauthorized)
  {
  }

  // The handlers that write a row without asking for a password, column by column.
  lemma WritesExactly(a: Auth, h: TokenHash, e: Event, now: Time, id: Id)
    requires id in a.users
    requires e.LogoutEvent? || e.ResetEvent? || e.DeactivateEvent? || e.StatusEvent? || e.AllowEvent?
    requires e.id == id
    ensures var (n, reply) := Step(a, h, e, now); var u, v := a.users[id], n.users[id];
      && reply == Done && n.minted == a.minted && n.users == a.users[id := v]
      && v.password == (if e.ResetEvent? then e.temporary else u.password)
      && v.status == (if e.DeactivateEvent? then Deactivated else if e.StatusEvent? then e.status else u.status)
      && v.mustChangePassword == (e.ResetEvent? || u.mustChangePassword)
      && v.temporaryExpiresAt == (if e.ResetEvent? then Some(e.expires) else u.temporaryExpiresAt)
      && v.failedLoginCount == (if e.ResetEvent? then 0 else u.failedLoginCount)
      && v.lockedUntil == (if e.ResetEvent? then None else u.lockedUntil)
      && v.refreshTokenHash == (if e.StatusEvent? || e.AllowEvent? then u.refreshTokenHash else None)
      && v.maintenanceAllowed == (if e.AllowEvent? then e.allowed else u.maintenanceAllowed)
      && v.deleted == u.deleted && v.superAdmin == u.superAdmin
  {
  }

  // ---------------------------------------------------------------------------
  // A password set is a password to sign in with
  // ---------------------------------------------------------------------------

  // After a change the new password signs in and the old one does not.
  lemma ChangedPasswordCounts(a: Auth, h: TokenHash, id: Id, current: nat, next: nat, now: Time)
    requires ChangePassword(a, h, id, current, next).1.SignedIn?
    ensures var n := ChangePassword(a, h, id, current, next).0;
      && id in n.users
      && (Login(n, h, Some(id), next, false, now).1.SignedIn? <==> a.users[id].status in {Active, PendingVerification})
      && !Login(n, h, Some(id), current, false, now).1.SignedIn?
      && (a.users[id].status in {Active, PendingVerification} ==> Login(n, h, Some(id), current, false, now).1 == InvalidCredentials)
  {
  }

  // After a reset the temporary password signs in until it runs out, and no other one does.
  lemma ResetPasswordCounts(a: Auth, h: TokenHash, id: Id, temporary: nat, expires: Time, other: nat, now: Time)
    requires id in a.users && Usable(a.users[id]) && other != temporary
    ensures var n := ResetPassword(a, id, temporary, expires).0;
      && (Login(n, h, Some(id), temporary, false, now).1.SignedIn? <==> now <= expires)
      && (now > expires ==> Login(n, h, Some(id), temporary, false, now).1 == TemporaryExpired)
      && Login(n, h, Some(id), other, false, now).1 == InvalidCredentials
  {
  }

  // So does the password a farmer's login is issued with, and the one an account is registered with.
  lemma IssuedPasswordCounts(a: Auth, h: TokenHash, id: Id, issued: nat, until: Time, other: nat, at: Time, now: Time)
    requires id !in a.users && other != issued
    ensures var n := Step(a, h, ProvisionEvent(id, issued, until), at).0;
      && (Login(n, h, Some(id), issued, false, now).1.SignedIn? <==> now <= until)
      && Login(n, h, Some(id), other, false, now).1 == InvalidCredentials
    ensures forall admin ::
      && Login(Step(a, h, RegisterEvent(id, issued, admin), at).0, h, Some(id), issued, false, now).1.SignedIn?
      && Login(Step(a, h, RegisterEvent(id, issued, admin), at).0, h, Some(id), other, false, now).1 == InvalidCredentials
  {
  }

  // ---------------------------------------------------------------------------
  // Histories
  // ---------------------------------------------------------------------------

  datatype Entry = Entry(at: Time, event: Event)

  function After(a: Auth, h: TokenHash, history: seq<Entry>): Auth
    decreases |history|
  {
    if history == [] then a else After(Step(a, h, history[0].event, history[0].at).0, h, history[1..])
  }

  lemma {:induction false} AfterBoth(a: Auth, h: TokenHash, first: seq<Entry>, second: seq<Entry>)
    ensures After(a, h, first + second) == After(After(a, h, first), h, second)
    decreases |first|
  {
    if first == [] {
      assert first + second == second;
    } else {
      assert (first + second)[1..] == first[1..] + second;
      AfterBoth(Step(a, h, first[0].event, first[0].at).0, h, first[1..], second);
    }
  }

  // ---------------------------------------------------------------------------
  // Lockout
  // ---------------------------------------------------------------------------

  // The failure counter is 0 to 4, and 0 on a row that carries a lock.
  ghost predicate CountersOk(a: Auth) {
    forall id :: id in a.users ==>
      && a.users[id].failedLoginCount < MAX_FAILED_ATTEMPTS
      && (a.users[id].lockedUntil.Some? ==> a.users[id].failedLoginCount == 0)
  }

  lemma LoginKeepsCounters(a: Auth, h: TokenHash, who: Option<Id>, password: nat, maintenance: bool, now: Time)
    requires CountersOk(a)
    ensures CountersOk(Login(a, h, who, password, maintenance, now).0)
  {
  }

  lemma StepKeepsCounters(a: Auth, h: TokenHash, e: Event, now: Time)
    requires CountersOk(a)
    ensures CountersOk(Step(a, h, e, now).0)
  {
    hide Login;
    if e.LoginEvent? { LoginKeepsCounters(a, h, e.who, e.password, e.maintenance, now); }
  }

  lemma {:induction false} CountersStayOk(a: Auth, h: TokenHash, history: seq<Entry>)
    requires CountersOk(a)
    ensures CountersOk(After(a, h, history))
    decreases |history|
  {
    if history != [] {
      StepKeepsCounters(a, h, history[0].event, history[0].at);
      CountersStayOk(Step(a, h, history[0].event, history[0].at).0, h, history[1..]);
    }
  }

  // A wrong password compared with the account's at login.
  predicate WrongGuess(a: Auth, e: Event, now: Time, id: Id) {
    && e.LoginEvent? && e.who == Some(id) && ReachesPassword(a, e.who, now)
    && e.password != a.users[id].password
  }

  // What starts the count afresh: signing in, choosing a password, an administrator's reset.
  predicate Clears(a: Auth, h: TokenHash, e: Event, now: Time, id: Id) {
    match e
    case LoginEvent(who, _, _) => who == Some(id) && Step(a, h, e, now).1.SignedIn?
    case ChangeEvent(i, _, _) => i == id && Step(a, h, e, now).1.SignedIn?
    case ResetEvent(i, _, _) => i == id && i in a.users
    case _ => false
  }

  function WrongGuesses(a: Auth, h: TokenHash, history: seq<Entry>, id: Id): nat
    decreases |history|
  {
    if history == [] then 0
    else
      (if WrongGuess(a, history[0].event, history[0].at, id) then 1 else 0)
      + WrongGuesses(Step(a, h, history[0].event, history[0].at).0, h, history[1..], id)
  }

  predicate NeverCleared(a: Auth, h: TokenHash, history: seq<Entry>, id: Id)
    decreases |history|
  {
    history == [] ||
    (!Clears(a, h, history[0].event, history[0].at, id)
     && NeverCleared(Step(a, h, history[0].event, history[0].at).0, h, history[1..], id))
  }

  // In order, all at or after `from` and before `until`.
  ghost predicate Within(history: seq<Entry>, from: Time, until: Time) {
    && (forall i :: 0 <= i < |history| ==> from <= history[i].at < until)
    && (forall i, j :: 0 <= i < j < |history| ==> history[i].at <= history[j].at)
  }

  // How many wrong guesses the account can still take between `now` and `until`: five per
  // lockout period begun, counted from when it opens, less those already on the counter.
  function GuessesLeft(a: Auth, id: Id, now: Time, until: Time): int {
    var opens := if id in a.users && LockedAt(a.users[id], now) then a.users[id].lockedUntil.value else now;
    if until <= opens then 0
    else 5 * ((until - opens + LOCKOUT - 1) / LOCKOUT) - if id in a.users then a.users[id].failedLoginCount else 0
  }

  lemma GuessesOnlyShrink(a: Auth, id: Id, from: Time, now: Time, until: Time)
    requires CountersOk(a) && from <= now
    ensures 0 <= GuessesLeft(a, id, now, until) <= GuessesLeft(a, id, from, until)
  {
  }

  lemma FailureSpendsOne(a: Auth, id: Id, now: Time, until: Time)
    requires CountersOk(a) && ReachesPassword(a, Some(id), now) && now < until
    ensures var n := a.(users := a.users[id := CountFailure(a.users[id], now)]);
      GuessesLeft(n, id, now, until) + 1 <= GuessesLeft(a, id, now, until)
  {
  }

  lemma StepSpends(a: Auth, h: TokenHash, e: Event, from: Time, now: Time, until: Time, id: Id)
    requires CountersOk(a) && from <= now < until && !Clears(a, h, e, now, id)
    ensures (if WrongGuess(a, e, now, id) then 1 else 0) + GuessesLeft(Step(a, h, e, now).0, id, now, until)
         <= GuessesLeft(a, id, from, until)
  {
    GuessesOnlyShrink(a, id, from, now, until);
    if WrongGuess(a, e, now, id) {
      FailureSpendsOne(a, id, now, until);
    }
  }

  lemma {:induction false} GuessesAreBounded(a: Auth, h: TokenHash, history: seq<Entry>, from: Time, until: Time, id: Id)
    requires CountersOk(a) && Within(history, from, until) && NeverCleared(a, h, history, id)
    ensures WrongGuesses(a, h, history, id) <= GuessesLeft(a, id, from, until)
    decreases |history|
  {
    if history == [] {
      GuessesOnlyShrink(a, id, from, from, until);
    } else {
      var e, now := history[0].event, history[0].at;
      var n := Step(a, h, e, now).0;
      StepSpends(a, h, e, from, now, until, id);
      StepKeepsCounters(a, h, e, now);
      assert Within(history[1..], now, until) by {
        assert forall i :: 0 <= i < |history[1..]| ==> history[1..][i] == history[i + 1];
      }
      GuessesAreBounded(n, h, history[1..], now, until, id);
    }
  }

  lemma GuessesPerPeriod(a: Auth, id: Id, from: Time, k: nat)
    requires CountersOk(a)
    ensures GuessesLeft(a, id, from, from + k * LOCKOUT) <= MAX_FAILED_ATTEMPTS * k
  {
    var opens := if id in a.users && LockedAt(a.users[id], from) then a.users[id].lockedUntil.value else from;
    assert (from + k * LOCKOUT - opens + LOCKOUT - 1) / LOCKOUT <= k;
  }

  // Main theorem: whatever happened before, in any window of k lockout periods in which the account
  // was not cleared, login compares at most 5k wrong passwords with the account's.
  lemma LockoutBound(h: TokenHash, before: seq<Entry>, window: seq<Entry>, id: Id, from: Time, k: nat)
    requires Within(window, from, from + k * LOCKOUT)
    requires NeverCleared(After(START, h, before), h, window, id)
    ensures WrongGuesses(After(START, h, before), h, window, id) <= MAX_FAILED_ATTEMPTS * k
  {
    CountersStayOk(START, h, before);
    hide After, NeverCleared, WrongGuesses, GuessesLeft, Within, CountersOk;
    var a := After(START, h, before);
    GuessesAreBounded(a, h, window, from, from + k * LOCKOUT, id);
    GuessesPerPeriod(a, id, from, k);
  }

  // Login compares no password with a locked account's until the lock runs out.
  lemma LockHolds(a: Auth, h: TokenHash, window: seq<Entry>, id: Id, from: Time)
    requires CountersOk(a) && id in a.users && LockedAt(a.users[id], from)
    requires Within(window, from, a.users[id].lockedUntil.value) && NeverCleared(a, h, window, id)
    ensures WrongGuesses(a, h, window, id) == 0
  {
    GuessesAreBounded(a, h, window, from, a.users[id].lockedUntil.value, id);
  }

  // ---------------------------------------------------------------------------
  // The other place that compares passwords
  // ---------------------------------------------------------------------------

  // Changing the password compares the current one too, without a look at lock or counter.
  predicate WrongChange(a: Auth, e: Event, id: Id) {
    && e.ChangeEvent? && e.id == id && id in a.users && !a.users[id].deleted
    && e.current != a.users[id].password
  }

  function WrongChanges(a: Auth, h: TokenHash, history: seq<Entry>, id: Id): nat
    decreases |history|
  {
    if history == [] then 0
    else
      (if WrongChange(a, history[0].event, id) then 1 else 0)
      + WrongChanges(Step(a, h, history[0].event, history[0].at).0, h, history[1..], id)
  }

  // Every wrong answer to the question for the account's password, at login or at a change.
  function WrongComparisons(a: Auth, h: TokenHash, history: seq<Entry>, id: Id): nat {
    WrongGuesses(a, h, history, id) + WrongChanges(a, h, history, id)
  }

  function Wrong(a: Auth, id: Id): Event
    requires id in a.users
  {
    ChangeEvent(id, a.users[id].password + 1, 0)
  }

  // n wrong changes at one instant.
  function Retries(a: Auth, id: Id, at: Time, n: nat): seq<Entry>
    requires id in a.users
  {
    if n == 0 then [] else [Entry(at, Wrong(a, id))] + Retries(a, id, at, n - 1)
  }

  // They leave everything as it was, counter and lock included, and all of them are compared.
  lemma {:induction false} RetriesChangeNothing(a: Auth, h: TokenHash, id: Id, at: Time, n: nat)
    requires id in a.users && !a.users[id].deleted
    ensures var w := Retries(a, id, at, n);
      && After(a, h, w) == a && NeverCleared(a, h, w, id) && Within(w, at, at + 1)
      && WrongGuesses(a, h, w, id) == 0 && WrongChanges(a, h, w, id) == n
  {
    if n > 0 {
      RetriesChangeNothing(a, h, id, at, n - 1);
      var w := Retries(a, id, at, n);
      assert w[1..] == Retries(a, id, at, n - 1);
      assert Step(a, h, w[0].event, at) == (a, Unauthorized);
    }
  }

  // So the bound is one on login alone: for the comparisons of login and change together there is no
  // bound, on a locked account either.
  lemma BoundIsForLogins(a: Auth, h: TokenHash, id: Id, at: Time, bound: nat)
    requires id in a.users && !a.users[id].deleted
    ensures exists w: seq<Entry> :: Within(w, at, at + 1) && NeverCleared(a, h, w, id) && WrongComparisons(a, h, w, id) > bound
  {
    RetriesChangeNothing(a, h, id, at, bound + 1);
    var w := Retries(a, id, at, bound + 1);
    assert WrongComparisons(a, h, w, id) == bound + 1;
  }

  // ---------------------------------------------------------------------------
  // The bound is met
  // ---------------------------------------------------------------------------

  lemma {:induction false} CountsBoth(a: Auth, h: TokenHash, first: seq<Entry>, second: seq<Entry>, id: Id)
    ensures var n := After(a, h, first);
      && WrongGuesses(a, h, first + second, id) == WrongGuesses(a, h, first, id) + WrongGuesses(n, h, second, id)
      && WrongChanges(a, h, first + second, id) == WrongChanges(a, h, first, id) + WrongChanges(n, h, second, id)
      && (NeverCleared(a, h, first + second, id) <==> NeverCleared(a, h, first, id) && NeverCleared(n, h, second, id))
    decreases |first|
  {
    if first == [] {
      assert first + second == second;
    } else {
      assert (first + second)[1..] == first[1..] + second;
      hide Step, WrongGuess, WrongChange, Clears;
      CountsBoth(Step(a, h, first[0].event, first[0].at).0, h, first[1..], second, id);
    }
  }

  // A login with a wrong password.
  function Guess(a: Auth, id: Id): Event
    requires id in a.users
  {
    LoginEvent(Some(id), a.users[id].password + 1, false)
  }

  function Guesses(a: Auth, id: Id, at: Time, n: nat): seq<Entry>
    requires id in a.users
  {
    seq(n, _ => Entry(at, Guess(a, id)))
  }

  // The account as it is but for counter and lock.
  function With(a: Auth, id: Id, count: nat, until: Option<Time>): Auth
    requires id in a.users
  {
    a.(users := a.users[id := a.users[id].(failedLoginCount := count, lockedUntil := until)])
  }

  predicate OpenAt(a: Auth, id: Id, now: Time) {
    && ReachesPassword(a, Some(id), now)
    && a.users[id].failedLoginCount < MAX_FAILED_ATTEMPTS
  }

  lemma OneGuess(a: Auth, h: TokenHash, id: Id, now: Time)
    requires OpenAt(a, id, now)
    ensures var count := a.users[id].failedLoginCount; var n := Step(a, h, Guess(a, id), now).0;
      && n == (if count == 4 then With(a, id, 0, Some(now + LOCKOUT)) else With(a, id, count + 1, None))
      && WrongGuess(a, Guess(a, id), now, id) && !Clears(a, h, Guess(a, id), now, id) && !WrongChange(a, Guess(a, id), id)
  {
  }

  // Wrong passwords in a row, as many as are left before the lock.
  lemma {:induction false} GuessesInARow(a: Auth, h: TokenHash, id: Id, now: Time, n: nat)
    requires OpenAt(a, id, now) && n == MAX_FAILED_ATTEMPTS - a.users[id].failedLoginCount
    ensures var w := Guesses(a, id, now, n);
      && After(a, h, w) == With(a, id, 0, Some(now + LOCKOUT))
      && WrongGuesses(a, h, w, id) == n && WrongChanges(a, h, w, id) == 0 && NeverCleared(a, h, w, id)
    decreases n
  {
    var w := Guesses(a, id, now, n);
    var next := Step(a, h, Guess(a, id), now).0;
    OneGuess(a, h, id, now);
    assert w[1..] == Guesses(next, id, now, n - 1);
    hide Step, WrongGuess, WrongChange, Clears;
    if n > 1 {
      GuessesInARow(next, h, id, now, n - 1);
    } else {
      assert w[1..] == [];
    }
  }

  // k lockout periods: five wrong passwords at the start of each.
  function Periods(a: Auth, id: Id, from: Time, k: nat): seq<Entry>
    requires id in a.users
    decreases k
  {
    if k == 0 then [] else Guesses(a, id, from, MAX_FAILED_ATTEMPTS) + Periods(a, id, from + LOCKOUT, k - 1)
  }

  lemma {:induction false} SamePeriods(a: Auth, n: Auth, id: Id, from: Time, k: nat)
    requires id in a.users && id in n.users && n.users[id].password == a.users[id].password
    ensures Periods(a, id, from, k) == Periods(n, id, from, k)
    decreases k
  {
    if k > 0 { SamePeriods(a, n, id, from + LOCKOUT, k - 1); }
  }

  lemma WithinBoth(first: seq<Entry>, second: seq<Entry>, from: Time, middle: Time, until: Time)
    requires Within(first, from, middle) && Within(second, middle, until) && from <= middle <= until
    ensures Within(first + second, from, until)
  {
  }

  lemma GuessesInOrder(a: Auth, id: Id, at: Time, n: nat, until: Time)
    requires id in a.users && at < until
    ensures Within(Guesses(a, id, at, n), at, until)
  {
  }

  lemma OnePeriodMore(from: Time, k: nat)
    requires k > 0
    ensures from + LOCKOUT + (k - 1) * LOCKOUT == from + k * LOCKOUT && from + LOCKOUT <= from + k * LOCKOUT
  {
  }

  lemma {:induction false} PeriodsInOrder(a: Auth, id: Id, from: Time, k: nat)
    requires id in a.users
    ensures Within(Periods(a, id, from, k), from, from + k * LOCKOUT)
    decreases k
  {
    if k > 0 {
      var first, rest := Guesses(a, id, from, MAX_FAILED_ATTEMPTS), Periods(a, id, from + LOCKOUT, k - 1);
      PeriodsInOrder(a, id, from + LOCKOUT, k - 1);
      OnePeriodMore(from, k);
      GuessesInOrder(a, id, from, MAX_FAILED_ATTEMPTS, from + LOCKOUT);
      hide Within, Guesses;
      WithinBoth(first, rest, from, from + LOCKOUT, from + k * LOCKOUT);
    }
  }

  lemma {:induction false} PeriodsAttain(a: Auth, h: TokenHash, id: Id, from: Time, k: nat)
    requires OpenAt(a, id, from) && a.users[id].failedLoginCount == 0
    ensures var w := Periods(a, id, from, k);
      WrongGuesses(a, h, w, id) == MAX_FAILED_ATTEMPTS * k && WrongChanges(a, h, w, id) == 0 && NeverCleared(a, h, w, id)
    decreases k
  {
    if k > 0 {
      var first := Guesses(a, id, from, MAX_FAILED_ATTEMPTS);
      var n := With(a, id, 0, Some(from + LOCKOUT));
      GuessesInARow(a, h, id, from, MAX_FAILED_ATTEMPTS);
      PeriodsAttain(n, h, id, from + LOCKOUT, k - 1);
      SamePeriods(a, n, id, from + LOCKOUT, k - 1);
      hide WrongGuesses, WrongChanges, NeverCleared, After;
      CountsBoth(a, h, first, Periods(n, id, from + LOCKOUT, k - 1), id);
    }
  }

  lemma RetriesInOrder(a: Auth, h: TokenHash, id: Id, at: Time, c: nat, rest: seq<Entry>, until: Time)
    requires id in a.users && !a.users[id].deleted && Within(rest, at, until) && at < until
    ensures Within(Retries(a, id, at, c) + rest, at, until)
  {
    RetriesChangeNothing(a, h, id, at, c);
    SameInstant(a, id, at, c);
  }

  lemma {:induction false} SameInstant(a: Auth, id: Id, at: Time, c: nat)
    requires id in a.users
    ensures forall i :: 0 <= i < |Retries(a, id, at, c)| ==> Retries(a, id, at, c)[i].at == at
  {
    if c > 0 { SameInstant(a, id, at, c - 1); }
  }

  // No smaller bound holds: for any k and c there is a history from the start with a window of k
  // periods, the account never cleared, in which login compares 5k wrong passwords and changes c.
  lemma BoundIsMet(h: TokenHash, id: Id, from: Time, k: nat, c: nat) returns (before: seq<Entry>, window: seq<Entry>)
    requires k > 0
    ensures Within(window, from, from + k * LOCKOUT)
    ensures var a := After(START, h, before);
      && NeverCleared(a, h, window, id)
      && WrongGuesses(a, h, window, id) == MAX_FAILED_ATTEMPTS * k
      && WrongComparisons(a, h, window, id) == MAX_FAILED_ATTEMPTS * k + c
  {
    before := [Entry(from, RegisterEvent(id, 0, false))];
    var a := After(START, h, before);
    Registered(h, id, from);
    var retries, periods := Retries(a, id, from, c), Periods(a, id, from, k);
    window := retries + periods;
    PeriodsInOrder(a, id, from, k);
    RetriesInOrder(a, h, id, from, c, periods, from + k * LOCKOUT);
    RetriesChangeNothing(a, h, id, from, c);
    PeriodsAttain(a, h, id, from, k);
    hide WrongGuesses, WrongChanges, NeverCleared, After, Within;
    CountsBoth(a, h, retries, periods, id);
  }

  lemma Registered(h: TokenHash, id: Id, at: Time)
    ensures var a := After(START, h, [Entry(at, RegisterEvent(id, 0, false))]);
      OpenAt(a, id, at) && a.users[id].failedLoginCount == 0
  {
    assert [Entry(at, RegisterEvent(id, 0, false))][1..] == [];
  }

  // ---------------------------------------------------------------------------
  // Refresh rotation
  // ---------------------------------------------------------------------------

  ghost predicate Injective(h: TokenHash) {
    forall t, u :: h(t) == h(u) ==> t == u
  }

  // The stored hash is that of a token minted for this user.
  ghost predicate HashesMinted(a: Auth, h: TokenHash) {
    forall id :: id in a.users && a.users[id].refreshTokenHash.Some? ==>
      exists jti :: 0 <= jti < a.minted && a.users[id].refreshTokenHash.value == h(Token(id, jti))
  }

  predicate Live(a: Auth, h: TokenHash, token: Token) {
    token.user in a.users && a.users[token.user].refreshTokenHash == Some(h(token))
  }

  // Minted once, and not the current token of its user.
  predicate Spent(a: Auth, h: TokenHash, token: Token) {
    token.jti < a.minted && !Live(a, h, token)
  }

  predicate Accepts(a: Auth, h: TokenHash, e: Event, now: Time, token: Token) {
    e.RefreshEvent? && e.token == token && Step(a, h, e, now).1.SignedIn?
  }

  // Events after which the user's earlier tokens are no longer good.
  predicate Supersedes(a: Auth, h: TokenHash, e: Event, now: Time, id: Id) {
    match e
    case LoginEvent(who, _, _) => who == Some(id) && Step(a, h, e, now).1.SignedIn?
    case RefreshEvent(token, _) => token.user == id && Step(a, h, e, now).1.SignedIn?
    case ChangeEvent(i, _, _) => i == id && Step(a, h, e, now).1.SignedIn?
    case LogoutEvent(i) => i == id && i in a.users
    case ResetEvent(i, _, _) => i == id && i in a.users
    case DeactivateEvent(i) => i == id && i in a.users
    case _ => false
  }

  lemma MintKeepsHashes(a: Auth, h: TokenHash, id: Id, u: User)
    requires HashesMinted(a, h)
    ensures HashesMinted(Mint(a, h, id, u).0, h)
  {
    var n := Mint(a, h, id, u).0;
    forall i | i in n.users && n.users[i].refreshTokenHash.Some?
      ensures exists jti :: 0 <= jti < n.minted && n.users[i].refreshTokenHash.value == h(Token(i, jti))
    {
      if i == id {
        assert n.users[i].refreshTokenHash.value == h(Token(i, a.minted));
      } else {
        var jti :| 0 <= jti < a.minted && a.users[i].refreshTokenHash.value == h(Token(i, jti));
        assert 0 <= jti < n.minted && n.users[i].refreshTokenHash.value == h(Token(i, jti));
      }
    }
  }

  lemma StepKeepsHashes(a: Auth, h: TokenHash, e: Event, now: Time)
    requires HashesMinted(a, h)
    ensures HashesMinted(Step(a, h, e, now).0, h)
  {
    if Step(a, h, e, now).1.SignedIn? {
      match e
      case LoginEvent(who, _, _) =>
        MintKeepsHashes(a, h, who.value, a.users[who.value].(failedLoginCount := 0, lockedUntil := None));
      case RefreshEvent(token, _) => MintKeepsHashes(a, h, token.user, a.users[token.user]);
      case ChangeEvent(id, _, next) =>
        var u := a.users[id];
        MintKeepsHashes(a, h, id, u.(password := next, mustChangePassword := false, temporaryExpiresAt := None,
                                     failedLoginCount := 0, lockedUntil := None,
                                     status := if u.status == PendingVerification then Active else u.status));
      case _ =>
    }
  }

  lemma {:induction false} HashesStayMinted(a: Auth, h: TokenHash, history: seq<Entry>)
    requires HashesMinted(a, h)
    ensures HashesMinted(After(a, h, history), h)
    decreases |history|
  {
    if history != [] {
      StepKeepsHashes(a, h, history[0].event, history[0].at);
      HashesStayMinted(Step(a, h, history[0].event, history[0].at).0, h, history[1..]);
    }
  }

  lemma SpentStaysSpent(a: Auth, h: TokenHash, e: Event, now: Time, token: Token)
    requires Injective(h) && Spent(a, h, token)
    ensures Spent(Step(a, h, e, now).0, h, token) && !Accepts(a, h, e, now, token)
  {
  }

  lemma {:induction false} SpentForever(a: Auth, h: TokenHash, history: seq<Entry>, token: Token)
    requires Injective(h) && Spent(a, h, token)
    ensures Spent(After(a, h, history), h, token)
    decreases |history|
  {
    if history != [] {
      SpentStaysSpent(a, h, history[0].event, history[0].at, token);
      SpentForever(Step(a, h, history[0].event, history[0].at).0, h, history[1..], token);
    }
  }

  lemma SupersedingSpends(a: Auth, h: TokenHash, e: Event, now: Time, token: Token)
    requires Injective(h) && Supersedes(a, h, e, now, token.user) && token.jti < a.minted
    ensures Spent(Step(a, h, e, now).0, h, token)
  {
  }

  lemma AcceptedWasMinted(a: Auth, h: TokenHash, e: Event, now: Time, token: Token)
    requires Injective(h) && HashesMinted(a, h) && Accepts(a, h, e, now, token)
    ensures token.jti < a.minted && Supersedes(a, h, e, now, token.user)
  {
    var jti :| 0 <= jti < a.minted && a.users[token.user].refreshTokenHash.value == h(Token(token.user, jti));
    assert Token(token.user, jti) == token;
  }

  function StateAt(h: TokenHash, history: seq<Entry>, i: nat): Auth
    requires i <= |history|
  {
    After(START, h, history[..i])
  }

  lemma StateNext(h: TokenHash, history: seq<Entry>, i: nat, j: nat)
    requires i < j <= |history|
    ensures StateAt(h, history, j)
         == After(Step(StateAt(h, history, i), h, history[i].event, history[i].at).0, h, history[i + 1..j])
  {
    assert history[..j] == history[..i] + history[i..j];
    AfterBoth(START, h, history[..i], history[i..j]);
    assert history[i..j][1..] == history[i + 1..j];
  }

  // Main theorem: once a token's user has signed in again, refreshed, changed password, logged
  // out, been reset or been deactivated, that token is never accepted.
  lemma SupersededNeverAccepted(h: TokenHash, history: seq<Entry>, i: nat, j: nat, token: Token)
    requires Injective(h) && i < j < |history|
    requires token.jti < StateAt(h, history, i).minted
    requires Supersedes(StateAt(h, history, i), h, history[i].event, history[i].at, token.user)
    ensures !Accepts(StateAt(h, history, j), h, history[j].event, history[j].at, token)
  {
    var a := StateAt(h, history, i);
    SupersedingSpends(a, h, history[i].event, history[i].at, token);
    SpentForever(Step(a, h, history[i].event, history[i].at).0, h, history[i + 1..j], token);
    StateNext(h, history, i, j);
    SpentStaysSpent(StateAt(h, history, j), h, history[j].event, history[j].at, token);
  }

  // In particular no token is accepted twice.
  lemma AcceptedOnce(h: TokenHash, history: seq<Entry>, i: nat, j: nat, token: Token)
    requires Injective(h) && i < j < |history|
    requires Accepts(StateAt(h, history, i), h, history[i].event, history[i].at, token)
    ensures !Accepts(StateAt(h, history, j), h, history[j].event, history[j].at, token)
  {
    HashesStayMinted(START, h, history[..i]);
    AcceptedWasMinted(StateAt(h, history, i), h, history[i].event, history[i].at, token);
    SupersededNeverAccepted(h, history, i, j, token);
  }

  // ---------------------------------------------------------------------------
  // The service itself, field by field on the users table
  // ---------------------------------------------------------------------------

  class AuthService {
    var users: map<Id, User>
    var minted: nat
    const hashToken: TokenHash

    function State(): Auth
      reads this
    {
      Auth(users, minted)
    }

    constructor (h: TokenHash)
      ensures State() == START && hashToken == h
    {
      users, minted, hashToken := map[], 0, h;
    }

    method SignRefreshToken(id: Id) returns (token: Token)
      modifies this`minted
      ensures token == Token(id, old(minted)) && minted == old(minted) + 1
    {
      token := Token(id, minted);
      minted := minted + 1;
    }

    method SignIn(who: Option<Id>, password: nat, maintenance: bool, now: Time) returns (reply: Reply)
      modifies this
      ensures (State(), reply) == Login(old(State()), hashToken, who, password, maintenance, now)
    {
      if who == None || who.value !in users || users[who.value].deleted {
        return InvalidCredentials;
      }
      var id := who.value;
      var user := users[id];
      if user.lockedUntil.Some? && user.lockedUntil.value > now {
        return AccountLocked;
      }
      if user.status != Active && user.status != PendingVerification {
        return AccountInactive;
      }
      if password != user.password {
        var failedCount := user.failedLoginCount + 1;
        var shouldLock := failedCount >= MAX_FAILED_ATTEMPTS;
        users := users[id := user.(failedLoginCount := if shouldLock then 0 else failedCount,
                                   lockedUntil := if shouldLock then Some(now + LOCKOUT) else None)];
        return InvalidCredentials;
      }
      if user.mustChangePassword && user.temporaryExpiresAt.Some? && user.temporaryExpiresAt.value < now {
        return TemporaryExpired;
      }
      if !user.superAdmin && !user.maintenanceAllowed && maintenance {
        return UnderMaintenance;
      }
      var refreshToken := SignRefreshToken(id);
      users := users[id := user.(failedLoginCount := 0, lockedUntil := None,
                                 refreshTokenHash := Some(hashToken(refreshToken)))];
      return SignedIn(refreshToken);
    }

    method Rotate(token: Token, genuine: bool) returns (reply: Reply)
      modifies this
      ensures (State(), reply) == Refresh(old(State()), hashToken, token, genuine)
    {
      if !genuine {
        return Unauthorized;
      }
      var id := token.user;
      if id !in users || users[id].deleted || users[id].refreshTokenHash != Some(hashToken(token)) {
        return Unauthorized;
      }
      var newRefreshToken := SignRefreshToken(id);
      users := users[id := users[id].(refreshTokenHash := Some(hashToken(newRefreshToken)))];
      return SignedIn(newRefreshToken);
    }

    method ReplacePassword(id: Id, current: nat, next: nat) returns (reply: Reply)
      modifies this
      ensures (State(), reply) == ChangePassword(old(State()), hashToken, id, current, next)
    {
      if id !in users || users[id].deleted {
        return Unauthorized;
      }
      var user := users[id];
      if current != user.password {
        return Unauthorized;
      }
      if next == user.password {
        return BadRequest;
      }
      var refreshToken := SignRefreshToken(id);
      if user.status == PendingVerification {
        user := user.(status := Active);
      }
      users := users[id := user.(password := next, mustChangePassword := false, temporaryExpiresAt := None,
                                 failedLoginCount := 0, lockedUntil := None,
                                 refreshTokenHash := Some(hashToken(refreshToken)))];
      return SignedIn(refreshToken);
    }

    method SignOut(id: Id) returns (reply: Reply)
      modifies this
      ensures (State(), reply) == Logout(old(State()), id)
    {
      if id !in users {
        return NotFound;
      }
      users := users[id := users[id].(refreshTokenHash := None)];
      return Done;
    }
  }
}

/**
 The handlers that read a user row, think, and update it later: login, refresh and password change,
 with any number of them between their read and their update.
 */
module SessionRaces {
  import opened Common
  import opened Sessions

  // ---------------------------------------------------------------------------
  // A handler in two statements
  // ---------------------------------------------------------------------------

  // What a handler means to write, decided on the row it read.
  datatype Plan =
    | Refuse
    | CountFailed(id: Id, count: nat, until: Option<Time>)
    | Admit(id: Id)
    | Rotate(id: Id)
    | Choose(id: Id, next: nat, activate: bool)

  predicate IsSplit(e: Event) {
    e.LoginEvent? || e.RefreshEvent? || e.ChangeEvent?
  }

  function Target(e: Event): Option<Id>
    requires IsSplit(e)
  {
    match e
    case LoginEvent(who, _, _) => who
    case RefreshEvent(token, _) => Some(token.user)
    case ChangeEvent(id, _, _) => Some(id)
  }

  function Read(a: Auth, h: TokenHash, e: Event, now: Time): Plan
    requires IsSplit(e)
  {
    match e
    case LoginEvent(who, _, _) =>
      if Step(a, h, e, now).1.SignedIn? then Admit(who.value)
      else if who.Some? && WrongGuess(a, e, now, who.value) then
        var u := CountFailure(a.users[who.value], now);
        CountFailed(who.value, u.failedLoginCount, u.lockedUntil)
      else Refuse
    case RefreshEvent(token, _) => if Step(a, h, e, now).1.SignedIn? then Rotate(token.user) else Refuse
    case ChangeEvent(id, _, next) =>
      if Step(a, h, e, now).1.SignedIn? then Choose(id, next, a.users[id].status == PendingVerification) else Refuse
  }

  // The update: the columns the plan names, whatever the row holds by now.
  function Update(a: Auth, h: TokenHash, plan: Plan): Auth {
    if plan.Refuse? || plan.id !in a.users then a
    else
      var u := a.users[plan.id];
      match plan
      case CountFailed(id, count, until) => a.(users := a.users[id := u.(failedLoginCount := count, lockedUntil := until)])
      case Admit(id) => Mint(a, h, id, u.(failedLoginCount := 0, lockedUntil := None)).0
      case Rotate(id) => Mint(a, h, id, u).0
      case Choose(id, next, activate) =>
        Mint(a, h, id, u.(password := next, mustChangePassword := false, temporaryExpiresAt := None,
                          failedLoginCount := 0, lockedUntil := None,
                          status := if activate then Active else u.status)).0
  }

  lemma PlanIsForTarget(a: Auth, h: TokenHash, e: Event, now: Time)
    requires IsSplit(e) && !Read(a, h, e, now).Refuse?
    ensures Target(e) == Some(Read(a, h, e, now).id) && Read(a, h, e, now).id in a.users
  {
  }

  // The two statements on one row, with nothing in between, are the step.
  lemma ReadThenUpdate(a: Auth, h: TokenHash, e: Event, now: Time)
    requires IsSplit(e)
    ensures Update(a, h, Read(a, h, e, now)) == Step(a, h, e, now).0
  {
  }

  // What is decided depends on the one row only.
  lemma ReadsOneRow(a: Auth, b: Auth, h: TokenHash, e: Event, now: Time)
    requires IsSplit(e) && Target(e).Some? && Target(e).value in a.users && Target(e).value in b.users
    requires a.users[Target(e).value] == b.users[Target(e).value]
    ensures Read(a, h, e, now) == Read(b, h, e, now)
  {
  }

  // ---------------------------------------------------------------------------
  // Interleavings
  // ---------------------------------------------------------------------------

  // A call between its read and its update, with the row it read.
  datatype Call = Call(event: Event, at: Time, plan: Plan, seen: User)

  datatype State = State(auth: Auth, calls: map<nat, Call>)

  datatype Action =
    | Decide(pid: nat, event: Event, now: Time)
    | Write(pid: nat)
    | Whole(event: Event, now: Time)  // a handler that is one statement

  predicate Next(h: TokenHash, s: State, a: Action, n: State) {
    match a
    case Decide(pid, e, now) =>
      && IsSplit(e) && pid !in s.calls
      && var plan := Read(s.auth, h, e, now);
         n == if plan.Refuse? || plan.id !in s.auth.users then s
              else s.(calls := s.calls[pid := Call(e, now, plan, s.auth.users[plan.id])])
    case Write(pid) =>
      pid in s.calls && n == State(Update(s.auth, h, s.calls[pid].plan), s.calls - {pid})
    case Whole(e, now) =>
      !IsSplit(e) && n == s.(auth := Step(s.auth, h, e, now).0)
  }

  // `acts[i]` leads from `run[i]` to `run[i + 1]`.
  ghost predicate IsRun(h: TokenHash, run: seq<State>, acts: seq<Action>) {
    && |run| == |acts| + 1 && run[0] == State(Sessions.START, map[])
    && forall i :: 0 <= i < |acts| ==> Next(h, run[i], acts[i], run[i + 1])
  }

  // ---------------------------------------------------------------------------
  // One token, accepted by overlapping calls only
  // ---------------------------------------------------------------------------

  predicate Refreshes(c: Call, token: Token) {
    c.event.RefreshEvent? && c.event.token == token
  }

  ghost predicate CallOk(a: Auth, c: Call) {
    && IsSplit(c.event) && !c.plan.Refuse? && Target(c.event) == Some(c.plan.id) && c.plan.id in a.users
    && (c.event.RefreshEvent? ==> c.plan == Rotate(c.event.token.user) && c.event.token.jti < a.minted)
  }

  ghost predicate Inv(h: TokenHash, s: State) {
    && HashesMinted(s.auth, h)
    && forall pid :: pid in s.calls ==> CallOk(s.auth, s.calls[pid])
  }

  ghost predicate Later(a: Auth, n: Auth) {
    a.users.Keys <= n.users.Keys && a.minted <= n.minted
  }

  lemma StepIsLater(a: Auth, h: TokenHash, e: Event, now: Time)
    ensures Later(a, Step(a, h, e, now).0)
  {
  }

  lemma UpdateIsLater(a: Auth, h: TokenHash, plan: Plan)
    requires HashesMinted(a, h)
    ensures Later(a, Update(a, h, plan)) && HashesMinted(Update(a, h, plan), h)
  {
    hide HashesMinted;
    if !plan.Refuse? && plan.id in a.users {
      var u := a.users[plan.id];
      match plan
      case CountFailed(id, count, until) => SameHashes(a, h, id, u.(failedLoginCount := count, lockedUntil := until));
      case Admit(id) => MintKeepsHashes(a, h, id, u.(failedLoginCount := 0, lockedUntil := None));
      case Rotate(id) => MintKeepsHashes(a, h, id, u);
      case Choose(id, next, activate) =>
        MintKeepsHashes(a, h, id, u.(password := next, mustChangePassword := false, temporaryExpiresAt := None,
                                     failedLoginCount := 0, lockedUntil := None,
                                     status := if activate then Active else u.status));
    }
  }

  lemma SameHashes(a: Auth, h: TokenHash, id: Id, u: User)
    requires HashesMinted(a, h) && id in a.users && u.refreshTokenHash == a.users[id].refreshTokenHash
    ensures HashesMinted(a.(users := a.users[id := u]), h)
  {
  }

  lemma LiveWasMinted(a: Auth, h: TokenHash, token: Token)
    requires Injective(h) && HashesMinted(a, h) && Live(a, h, token)
    ensures token.jti < a.minted
  {
    var jti :| 0 <= jti < a.minted && a.users[token.user].refreshTokenHash.value == h(Token(token.user, jti));
    assert Token(token.user, jti) == token;
  }

  lemma DecidedOk(a: Auth, h: TokenHash, e: Event, now: Time)
    requires Injective(h) && HashesMinted(a, h) && IsSplit(e) && !Read(a, h, e, now).Refuse?
    ensures Read(a, h, e, now).id in a.users
    ensures CallOk(a, Call(e, now, Read(a, h, e, now), a.users[Read(a, h, e, now).id]))
    ensures e.RefreshEvent? ==> Live(a, h, e.token)
  {
    PlanIsForTarget(a, h, e, now);
    if e.RefreshEvent? { LiveWasMinted(a, h, e.token); }
  }

  lemma StepKeeps(h: TokenHash, s: State, a: Action, n: State)
    requires Injective(h) && Inv(h, s) && Next(h, s, a, n)
    ensures Inv(h, n) && Later(s.auth, n.auth)
  {
    hide HashesMinted, Read, Update, Step, Injective;
    match a {
      case Decide(pid, e, now) =>
        if !Read(s.auth, h, e, now).Refuse? { DecidedOk(s.auth, h, e, now); }
      case Write(pid) =>
        UpdateIsLater(s.auth, h, s.calls[pid].plan);
      case Whole(e, now) =>
        StepIsLater(s.auth, h, e, now);
        StepKeepsHashes(s.auth, h, e, now);
    }
  }

  lemma {:induction false} RunKeeps(h: TokenHash, run: seq<State>, acts: seq<Action>, i: nat)
    requires Injective(h) && IsRun(h, run, acts) && i < |run|
    ensures Inv(h, run[i])
  {
    hide Next, Inv, Injective;
    if i == 0 {
      Empty(h);
    } else {
      RunKeeps(h, run, acts, i - 1);
      assert Next(h, run[i - 1], acts[i - 1], run[i - 1 + 1]);
      StepKeeps(h, run[i - 1], acts[i - 1], run[i]);
    }
  }

  lemma Empty(h: TokenHash)
    ensures Inv(h, State(Sessions.START, map[]))
  {
  }

  // A spent token stays spent, whatever stale plans are carried out.
  lemma UpdateKeepsSpent(a: Auth, h: TokenHash, plan: Plan, token: Token)
    requires Injective(h) && Spent(a, h, token)
    ensures Spent(Update(a, h, plan), h, token)
  {
    assert h(token) != h(Token(token.user, a.minted));
  }

  lemma NextKeepsSpent(h: TokenHash, s: State, a: Action, n: State, token: Token)
    requires Injective(h) && Spent(s.auth, h, token) && Next(h, s, a, n)
    ensures Spent(n.auth, h, token)
  {
    hide Spent, Read, Update, Step, Injective;
    match a
    case Decide(_, _, _) =>
    case Write(pid) => UpdateKeepsSpent(s.auth, h, s.calls[pid].plan, token);
    case Whole(e, now) => SpentStaysSpent(s.auth, h, e, now, token);
  }

  // Every call that still means to rotate the token was there at `from`.
  ghost predicate NoneNewer(from: State, s: State, token: Token) {
    forall pid :: pid in s.calls && Refreshes(s.calls[pid], token) ==> pid in from.calls && from.calls[pid] == s.calls[pid]
  }

  lemma SpentIsRefused(a: Auth, h: TokenHash, token: Token, genuine: bool, now: Time)
    requires Spent(a, h, token)
    ensures Read(a, h, RefreshEvent(token, genuine), now).Refuse?
  {
  }

  lemma NextKeepsNone(h: TokenHash, from: State, s: State, a: Action, n: State, token: Token)
    requires Spent(s.auth, h, token) && NoneNewer(from, s, token) && Next(h, s, a, n)
    ensures NoneNewer(from, n, token)
  {
    if a.Decide? && a.event.RefreshEvent? && a.event.token == token {
      SpentIsRefused(s.auth, h, token, a.event.genuine, a.now);
    }
    hide Read, Update, Step, Spent;
  }

  lemma {:induction false} NoLaterCalls(h: TokenHash, run: seq<State>, acts: seq<Action>, i: nat, j: nat, token: Token)
    requires Injective(h) && IsRun(h, run, acts) && i <= j < |run| && Spent(run[i].auth, h, token)
    ensures Spent(run[j].auth, h, token) && NoneNewer(run[i], run[j], token)
    decreases j
  {
    hide Next, Spent, Injective;
    if i < j {
      NoLaterCalls(h, run, acts, i, j - 1, token);
      assert Next(h, run[j - 1], acts[j - 1], run[j - 1 + 1]);
      NextKeepsSpent(h, run[j - 1], acts[j - 1], run[j], token);
      NextKeepsNone(h, run[i], run[j - 1], acts[j - 1], run[j], token);
    }
  }

  lemma RotationSpends(a: Auth, h: TokenHash, token: Token)
    requires Injective(h) && token.user in a.users && token.jti < a.minted
    ensures Spent(Update(a, h, Rotate(token.user)), h, token)
  {
    assert h(token) != h(Token(token.user, a.minted));
  }

  // Main theorem: of two calls that both rotate one token, the later to write had read before the
  // earlier wrote.  A call begun after the token was rotated is always refused.
  lemma AcceptancesOverlap(h: TokenHash, run: seq<State>, acts: seq<Action>, i: nat, j: nat, p: nat, q: nat, token: Token)
    requires Injective(h) && IsRun(h, run, acts) && i < j < |acts| && acts[i] == Write(p) && acts[j] == Write(q)
    requires p in run[i].calls && Refreshes(run[i].calls[p], token)
    requires q in run[j].calls && Refreshes(run[j].calls[q], token)
    ensures q != p && q in run[i].calls && run[i].calls[q] == run[j].calls[q]
  {
    RunKeeps(h, run, acts, i);
    assert CallOk(run[i].auth, run[i].calls[p]);
    assert Next(h, run[i], acts[i], run[i + 1]);
    RotationSpends(run[i].auth, h, token);
    NoLaterCalls(h, run, acts, i + 1, j, token);
  }

  // Two calls of one event read the row, then both write.
  lemma TwoAtOnce(h: TokenHash, s: State, p: nat, q: nat, e: Event, now: Time)
    returns (a: State, b: State, c: State, d: State)
    requires IsSplit(e) && !Read(s.auth, h, e, now).Refuse? && p != q && p !in s.calls && q !in s.calls
    ensures Next(h, s, Decide(p, e, now), a) && Next(h, a, Decide(q, e, now), b)
    ensures Next(h, b, Write(p), c) && Next(h, c, Write(q), d)
    ensures p in b.calls && q in c.calls && b.calls[p].plan == c.calls[q].plan == Read(s.auth, h, e, now)
    ensures a.auth == b.auth == s.auth
    ensures d.auth == Update(Update(s.auth, h, Read(s.auth, h, e, now)), h, Read(s.auth, h, e, now))
  {
    PlanIsForTarget(s.auth, h, e, now);
    hide Read, Update;
    var plan := Read(s.auth, h, e, now);
    var call := Call(e, now, plan, s.auth.users[plan.id]);
    a := s.(calls := s.calls[p := call]);
    b := s.(calls := a.calls[q := call]);
    c := State(Update(b.auth, h, plan), b.calls - {p});
    d := State(Update(c.auth, h, plan), c.calls - {q});
  }

  // And overlapping is enough: two calls that read the row while the token is live are both accepted,
  // each with a token of its own.
  lemma OverlapIsEnough(h: TokenHash, s: State, p: nat, q: nat, token: Token, now: Time)
    returns (a: State, b: State, c: State, d: State)
    requires Live(s.auth, h, token) && !s.auth.users[token.user].deleted && p != q && p !in s.calls && q !in s.calls
    ensures var e := RefreshEvent(token, true);
      && Next(h, s, Decide(p, e, now), a) && Next(h, a, Decide(q, e, now), b) && Next(h, b, Write(p), c) && Next(h, c, Write(q), d)
    ensures p in b.calls && q in c.calls && b.calls[p].plan == c.calls[q].plan == Rotate(token.user)
    ensures d.auth.minted == s.auth.minted + 2
  {
    assert Read(s.auth, h, RefreshEvent(token, true), now) == Rotate(token.user);
    a, b, c, d := TwoAtOnce(h, s, p, q, RefreshEvent(token, true), now);
    hide Next, Read;
  }

  // Two wrong passwords compared by overlapping logins count once.
  lemma OverlappingFailuresCountOnce(h: TokenHash, s: State, p: nat, q: nat, id: Id, now: Time)
    returns (a: State, b: State, c: State, d: State)
    requires OpenAt(s.auth, id, now) && s.auth.users[id].failedLoginCount + 1 < MAX_FAILED_ATTEMPTS
    requires p != q && p !in s.calls && q !in s.calls
    ensures var e := Guess(s.auth, id);
      && Next(h, s, Decide(p, e, now), a) && Next(h, a, Decide(q, e, now), b) && Next(h, b, Write(p), c) && Next(h, c, Write(q), d)
      && WrongGuess(s.auth, e, now, id) && WrongGuess(a.auth, e, now, id)
    ensures id in d.auth.users && d.auth.users[id].failedLoginCount == s.auth.users[id].failedLoginCount + 1
  {
    var e := Guess(s.auth, id);
    assert Read(s.auth, h, e, now) == CountFailed(id, s.auth.users[id].failedLoginCount + 1, None);
    a, b, c, d := TwoAtOnce(h, s, p, q, e, now);
    hide Next, Read;
  }

  // ---------------------------------------------------------------------------
  // Undisturbed calls
  // ---------------------------------------------------------------------------

  // Each update finds the row as the call read it.
  ghost predicate Undisturbed(run: seq<State>, acts: seq<Action>)
    requires |run| == |acts| + 1
  {
    forall i :: 0 <= i < |acts| && acts[i].Write? && acts[i].pid in run[i].calls ==> FindsRow(run[i], run[i].calls[acts[i].pid])
  }

  predicate FindsRow(s: State, c: Call) {
    !c.plan.Refuse? && c.plan.id in s.auth.users && s.auth.users[c.plan.id] == c.seen
  }

  // The serial history of the updates: calls in the order they write, and the one-statement handlers.
  function Log(run: seq<State>, acts: seq<Action>, k: nat): seq<Entry>
    requires |run| == |acts| + 1 && k <= |acts|
  {
    if k == 0 then []
    else
      Log(run, acts, k - 1) +
      match acts[k - 1]
      case Decide(_, _, _) => []
      case Write(pid) => if pid in run[k - 1].calls then [Entry(run[k - 1].calls[pid].at, run[k - 1].calls[pid].event)] else []
      case Whole(e, now) => [Entry(now, e)]
  }

  // A call's plan is what it would decide on any table with that row.
  ghost predicate PlanFits(h: TokenHash, c: Call) {
    && IsSplit(c.event) && !c.plan.Refuse? && Target(c.event) == Some(c.plan.id)
    && Read(Auth(map[c.plan.id := c.seen], 0), h, c.event, c.at) == c.plan
  }

  ghost predicate PlansFit(h: TokenHash, s: State) {
    forall pid :: pid in s.calls ==> PlanFits(h, s.calls[pid])
  }

  lemma DecidedFits(a: Auth, h: TokenHash, e: Event, now: Time)
    requires IsSplit(e) && !Read(a, h, e, now).Refuse?
    ensures Read(a, h, e, now).id in a.users
    ensures PlanFits(h, Call(e, now, Read(a, h, e, now), a.users[Read(a, h, e, now).id]))
  {
    PlanIsForTarget(a, h, e, now);
    var id := Read(a, h, e, now).id;
    ReadsOneRow(a, Auth(map[id := a.users[id]], 0), h, e, now);
  }

  lemma {:induction false} PlansStayFit(h: TokenHash, run: seq<State>, acts: seq<Action>, i: nat)
    requires IsRun(h, run, acts) && i < |run|
    ensures PlansFit(h, run[i])
  {
    if i > 0 {
      PlansStayFit(h, run, acts, i - 1);
      assert Next(h, run[i - 1], acts[i - 1], run[i - 1 + 1]);
      if acts[i - 1].Decide? && !Read(run[i - 1].auth, h, acts[i - 1].event, acts[i - 1].now).Refuse? {
        DecidedFits(run[i - 1].auth, h, acts[i - 1].event, acts[i - 1].now);
      }
      hide Read, Update, Step, PlanFits;
    }
  }

  lemma WriteIsStep(h: TokenHash, s: State, c: Call)
    requires PlanFits(h, c) && FindsRow(s, c)
    ensures Update(s.auth, h, c.plan) == Step(s.auth, h, c.event, c.at).0
  {
    ReadsOneRow(s.auth, Auth(map[c.plan.id := c.seen], 0), h, c.event, c.at);
    ReadThenUpdate(s.auth, h, c.event, c.at);
    hide Read, Update, Step;
  }

  lemma AfterOne(a: Auth, h: TokenHash, entry: Entry)
    ensures After(a, h, [entry]) == Step(a, h, entry.event, entry.at).0
  {
    assert [entry][1..] == [];
  }

  // As long as no call is disturbed the run is the serial history of its updates, so that everything
  // proved of serial histories, the lockout bound included, holds of its log.
  lemma {:induction false} UndisturbedIsSerial(h: TokenHash, run: seq<State>, acts: seq<Action>, k: nat)
    requires IsRun(h, run, acts) && Undisturbed(run, acts) && k <= |acts|
    ensures run[k].auth == After(Sessions.START, h, Log(run, acts, k))
    decreases k
  {
    hide Read, Update, Step, PlanFits, FindsRow;
    if k > 0 {
      UndisturbedIsSerial(h, run, acts, k - 1);
      PlansStayFit(h, run, acts, k - 1);
      var s, log := run[k - 1], Log(run, acts, k - 1);
      assert Next(h, s, acts[k - 1], run[k - 1 + 1]);
      match acts[k - 1] {
        case Decide(_, _, _) =>
          assert Log(run, acts, k) == log + [] == log;
        case Write(pid) =>
          WriteIsStep(h, s, s.calls[pid]);
          AfterOne(s.auth, h, Entry(s.calls[pid].at, s.calls[pid].event));
          AfterBoth(Sessions.START, h, log, [Entry(s.calls[pid].at, s.calls[pid].event)]);
        case Whole(e, now) =>
          AfterOne(s.auth, h, Entry(now, e));
          AfterBoth(Sessions.START, h, log, [Entry(now, e)]);
      }
    }
  }
}

/**
 One browser tab and the token server, end to end. A refresh request or its answer can be lost;
 a request can reach the server after the tab has given up on it; the server can fail between
 its two statements. The tab does not reload while it awaits an answer.
 */
module BrowserSession {
  import opened Common
  import opened RefreshTokens
  import opened BrowserTab

  /** The answer to the awaited refresh: new tokens, or an error. */
  datatype Answer = Tokens(tenant: nat, token: nat) | Refused

  /** `tenantOf` gives each user's tenant; `wire` holds the tokens of the requests still on their way to the server. */
  datatype State = State(
    tenantOf: nat -> nat, server: Table, tab: Tab, wire: multiset<nat>, answer: Option<Answer>)

  datatype Step =
    | SignIn(user: nat, token: nat, family: nat, now: int)
    | SignOut
    | Got401(retried: bool, atLogin: bool)
    | Serve(token: nat, successor: nat, now: int, account: Account, k: nat)
    | Drop(token: nat)                       // a request is lost on its way
    | DeliverAnswer(atLogin: bool)
    | GiveUp(atLogin: bool)                  // a network error: the answer is lost, or slow to come
    | ReloadPage

  function Init(tenantOf: nat -> nat): State {
    State(tenantOf, map[], Tab(EMPTY, false, [], None, [], 0), multiset{}, None)
  }

  predicate CanStep(s: State, step: Step) {
    match step
    case SignIn(user, token, family, now) => Enabled(s.server, Login(token, user, family, now))
    case SignOut => true
    case Got401(_, _) => true
    case Serve(token, successor, now, account, k) =>
      && token in s.wire
      && Enabled(s.server, Rotate(token, successor, now, account))
      && k <= Length(s.server, Rotate(token, successor, now, account))
    case Drop(token) => token in s.wire
    case DeliverAnswer(_) => s.tab.awaiting.Some? && s.answer.Some?
    case GiveUp(_) => s.tab.awaiting.Some?
    case ReloadPage => s.tab.awaiting.None?
  }

  /** What the server sends back to a call that stopped after `k` statements. */
  function Reply(s: State, token: nat, successor: nat, now: int, account: Account, k: nat): Answer {
    if Judge(s.server, token, now, account) == Accepted && k == 2
    then Tokens(s.tenantOf(s.server[token].user), successor) else Refused
  }

  function Apply(s: State, step: Step): State
    requires CanStep(s, step)
  {
    match step
    case SignIn(user, token, family, now) =>
      var tenant := s.tenantOf(user);
      s.(server := Start(s.server, token, user, family, now), tab := s.tab.(store := Save(s.tab.store, tenant, token)))
    case SignOut => s.(tab := Reload(s.tab.(store := EMPTY)), answer := None)
    case Got401(retried, atLogin) =>
      var tab := Unauthorized(s.tab, retried, atLogin);
      if s.tab.awaiting.None? && tab.awaiting.Some?
      then s.(tab := tab, wire := s.wire + multiset{tab.awaiting.value}, answer := None) else s.(tab := tab)
    case Serve(token, successor, now, account, k) =>
      s.(server := Stopped(s.server, Rotate(token, successor, now, account), k),
         wire := s.wire - multiset{token},
         answer := if s.tab.awaiting == Some(token) then Some(Reply(s, token, successor, now, account, k))
           else s.answer)
    case Drop(token) => s.(wire := s.wire - multiset{token})
    case DeliverAnswer(atLogin) =>
      (match s.answer.value
       case Tokens(tenant, token) => s.(tab := Refreshed(s.tab, Some(tenant), token), answer := None)
       case Refused => s.(tab := RefreshFailed(s.tab, atLogin), answer := None))
    case GiveUp(atLogin) => s.(tab := RefreshFailed(s.tab, atLogin), answer := None)
    case ReloadPage => s.(tab := Reload(s.tab))
  }

  ghost predicate Runs(s: State, steps: seq<Step>, last: State)
    decreases |steps|
  {
    if steps == [] then s == last
    else
      var n := |steps| - 1;
      exists mid :: Runs(s, steps[..n], mid) && CanStep(mid, steps[n]) && Apply(mid, steps[n]) == last
  }

  // ---------------------------------------------------------------- the invariant

  predicate Stored(store: Store, token: nat) {
    exists tenant :: tenant in store.refresh && store.refresh[tenant] == token
  }

  /** The token belongs to a user of this tenant. */
  predicate Belongs(s: State, token: nat, tenant: nat) {
    token in s.server && s.tenantOf(s.server[token].user) == tenant
  }

  /** Every stored token is live, except that the awaited one may have been used up. */
  ghost predicate StoreOk(s: State) {
    forall tenant :: tenant in s.tab.store.refresh ==>
      var token := s.tab.store.refresh[tenant];
      Belongs(s, token, tenant) && (Live(s.server, token) || s.tab.awaiting == Some(token))
  }

  /** Every request under way presents a live token, which the tab will not present again. */
  ghost predicate WireOk(s: State) {
    forall token :: token in s.wire ==>
      s.wire[token] == 1 && Live(s.server, token) && (s.tab.awaiting == Some(token) || !Stored(s.tab.store, token))
  }

  ghost predicate AnswerOk(s: State) {
    && (s.answer.Some? && s.answer.value.Tokens? ==>
          var token := s.answer.value.token;
          && s.tab.awaiting.Some? && s.tab.awaiting.value !in s.wire && token !in s.wire
          && Live(s.server, token) && Belongs(s, token, s.answer.value.tenant)
          && Belongs(s, s.tab.awaiting.value, s.answer.value.tenant)
          && token != s.tab.awaiting.value && !Stored(s.tab.store, token) && !Live(s.server, s.tab.awaiting.value))
    && (s.tab.awaiting.Some? ==> s.tab.awaiting.value in s.server)
  }

  ghost predicate QueueOk(tab: Tab) {
    && (tab.awaiting.Some? ==> tab.isRefreshing)
    && (tab.failedQueue != [] ==> tab.isRefreshing)
    && (forall p :: p in tab.failedQueue ==> p < tab.nextPromise)
    && (forall r :: r in tab.settled ==> r.promise < tab.nextPromise)
    && (forall i, j :: 0 <= i < j < |tab.failedQueue| ==> tab.failedQueue[i] != tab.failedQueue[j])
    && (forall i, j :: 0 <= i < j < |tab.settled| ==> tab.settled[i].promise != tab.settled[j].promise)
    && (forall r :: r in tab.settled ==> r.promise !in tab.failedQueue)
  }

  ghost predicate Inv(s: State) {
    OneLive(s.server) && StoreOk(s) && WireOk(s) && AnswerOk(s) && QueueOk(s.tab)
  }

  lemma QueueKept(s: State, step: Step)
    requires QueueOk(s.tab) && CanStep(s, step)
    ensures QueueOk(Apply(s, step).tab)
  {
    match step
    case DeliverAnswer(_) => SettleKeeps(s.tab, s.answer.value.Tokens?);
    case GiveUp(_) => SettleKeeps(s.tab, false);
    case Got401(_, _) => assert forall i :: 0 <= i < |s.tab.failedQueue| ==> s.tab.failedQueue[i] in s.tab.failedQueue;
    case _ =>
  }

  /** Settling a whole queue settles each promise for the first time. */
  lemma SettleKeeps(tab: Tab, resolved: bool)
    requires QueueOk(tab)
    ensures var settled := tab.settled + SettleAll(tab.failedQueue, resolved);
            && (forall r :: r in settled ==> r.promise < tab.nextPromise)
            && (forall i, j :: 0 <= i < j < |settled| ==> settled[i].promise != settled[j].promise)
  {
    var settled := tab.settled + SettleAll(tab.failedQueue, resolved);
    var n := |tab.settled|;
    forall i | 0 <= i < |settled|
      ensures settled[i].promise < tab.nextPromise
      ensures i < n ==> settled[i] in tab.settled
      ensures n <= i ==> settled[i].promise == tab.failedQueue[i - n] && settled[i].promise in tab.failedQueue
    {
      if i < n {
        assert settled[i] == tab.settled[i] && tab.settled[i] in tab.settled;
      } else {
        assert settled[i] == SettleAll(tab.failedQueue, resolved)[i - n];
        assert tab.failedQueue[i - n] in tab.failedQueue;
      }
    }
    forall i, j | 0 <= i < j < |settled| ensures settled[i].promise != settled[j].promise {
      if j < n {
        assert settled[i] == tab.settled[i] && settled[j] == tab.settled[j];
      }
    }
  }

  /** What a rotation of a live token does to the table, wherever it stops. */
  ghost predicate Rotated(before: Table, after: Table, token: nat, successor: nat, done: bool) {
    && token in before
    && (forall t :: t in before ==> t in after && after[t].user == before[t].user)
    && (forall t :: t in before && t != token ==> (Live(after, t) <==> Live(before, t)))
    && (forall t :: t in after && t !in before ==> t == successor)
    && (done ==> Live(after, successor) && after[successor].user == before[token].user && !Live(after, token))
  }

  lemma ServeRotates(server: Table, token: nat, successor: nat, now: int, account: Account, k: nat)
    requires Live(server, token) && successor !in server && k <= Length(server, Rotate(token, successor, now, account))
    ensures var op := Rotate(token, successor, now, account);
            Rotated(server, Stopped(server, op, k), token, successor,
                    Judge(server, token, now, account) == Accepted && k == 2)
  {
  }

  lemma ServedStore(s: State, s': State, token: nat, successor: nat, done: bool)
    requires StoreOk(s) && WireOk(s) && token in s.wire && successor !in s.server
    requires s' == s.(server := s'.server, wire := s'.wire, answer := s'.answer)
    requires Rotated(s.server, s'.server, token, successor, done)
    ensures StoreOk(s')
  {
  }

  lemma ServedWire(s: State, s': State, token: nat, successor: nat, done: bool)
    requires WireOk(s) && token in s.wire && successor !in s.server && s'.wire == s.wire - multiset{token}
    requires s'.tab == s.tab && Rotated(s.server, s'.server, token, successor, done)
    ensures WireOk(s') && token !in s'.wire
  {
    forall t | t in s'.wire ensures s'.wire[t] == 1 && t != token && Live(s'.server, t) {
      assert t in s.wire;
    }
  }

  lemma ServedAnswer(s: State, s': State, token: nat, successor: nat, done: bool)
    requires StoreOk(s) && WireOk(s) && AnswerOk(s) && token in s.wire && successor !in s.server
    requires s' == s.(server := s'.server, wire := s.wire - multiset{token}, answer := s'.answer)
    requires Rotated(s.server, s'.server, token, successor, done)
    requires if s.tab.awaiting != Some(token) then s'.answer == s.answer
             else s'.answer == Some(if done then Tokens(s.tenantOf(s.server[token].user), successor) else Refused)
    ensures AnswerOk(s')
  {
    assert s.wire[token] == 1;
    if s.tab.awaiting == Some(token) {
      assert successor !in s'.wire;
    }
  }

  lemma ServeKeeps(s: State, step: Step)
    requires Inv(s) && CanStep(s, step) && step.Serve?
    ensures Inv(Apply(s, step))
  {
    var token, successor := step.token, step.successor;
    var done := Judge(s.server, token, step.now, step.account) == Accepted && step.k == 2;
    QueueKept(s, step);
    OneLiveKept(s.server, Rotate(token, successor, step.now, step.account), step.k);
    ServeRotates(s.server, token, successor, step.now, step.account, step.k);
    ServedStore(s, Apply(s, step), token, successor, done);
    ServedWire(s, Apply(s, step), token, successor, done);
    ServedAnswer(s, Apply(s, step), token, successor, done);
  }

  /** A login adds one live token and changes no other row. */
  lemma SignInStore(s: State, s': State, user: nat, token: nat)
    requires StoreOk(s) && token !in s.server && Live(s'.server, token) && s'.server[token].user == user
    requires forall t :: t in s.server ==> t in s'.server && s'.server[t] == s.server[t]
    requires s' == s.(server := s'.server, tab := s.tab.(store := Save(s.tab.store, s.tenantOf(user), token)))
    ensures StoreOk(s')
  {
  }

  lemma SignInWire(s: State, s': State, user: nat, token: nat)
    requires WireOk(s) && AnswerOk(s) && token !in s.server && Live(s'.server, token) && s'.server[token].user == user
    requires forall t :: t in s.server ==> t in s'.server && s'.server[t] == s.server[t]
    requires s' == s.(server := s'.server, tab := s.tab.(store := Save(s.tab.store, s.tenantOf(user), token)))
    ensures WireOk(s') && AnswerOk(s')
  {
    forall t | Stored(s'.tab.store, t) ensures t == token || Stored(s.tab.store, t) {
      var tenant :| tenant in s'.tab.store.refresh && s'.tab.store.refresh[tenant] == t;
      assert t != token ==> tenant in s.tab.store.refresh && s.tab.store.refresh[tenant] == t;
    }
  }

  lemma SignInKeeps(s: State, step: Step)
    requires Inv(s) && CanStep(s, step) && step.SignIn?
    ensures Inv(Apply(s, step))
  {
    QueueKept(s, step);
    OneLiveKept(s.server, Login(step.token, step.user, step.family, step.now), 1);
    SignInStore(s, Apply(s, step), step.user, step.token);
    SignInWire(s, Apply(s, step), step.user, step.token);
  }

  /** A 401 that starts a refresh presents the active tenant's token, which is live and not under way. */
  lemma StartKeeps(s: State, step: Step)
    requires Inv(s) && step.Got401? && s.tab.awaiting.None?
             && Unauthorized(s.tab, step.retried, step.atLogin).awaiting.Some?
    ensures Inv(Apply(s, step))
  {
    QueueKept(s, step);
    var token := GetRefreshToken(s.tab.store).value;
    assert Stored(s.tab.store, token) && Live(s.server, token);
    assert token !in s.wire;
  }

  /** Any other 401 sends nothing, and at most clears the store. */
  lemma QuietKeeps(s: State, step: Step)
    requires Inv(s) && step.Got401?
             && !(s.tab.awaiting.None? && Unauthorized(s.tab, step.retried, step.atLogin).awaiting.Some?)
    ensures Inv(Apply(s, step))
  {
    QueueKept(s, step);
    var store, store' := s.tab.store, Unauthorized(s.tab, step.retried, step.atLogin).store;
    forall tenant | tenant in store'.refresh ensures tenant in store.refresh
      && store'.refresh[tenant] == store.refresh[tenant] {}
    forall token | Stored(store', token) ensures Stored(store, token) {}
  }

  lemma Got401Keeps(s: State, step: Step)
    requires Inv(s) && CanStep(s, step) && step.Got401?
    ensures Inv(Apply(s, step))
  {
    if s.tab.awaiting.None? && Unauthorized(s.tab, step.retried, step.atLogin).awaiting.Some? {
      StartKeeps(s, step);
    } else {
      QuietKeeps(s, step);
    }
  }

  lemma AnsweredKeeps(s: State, step: Step)
    requires Inv(s) && CanStep(s, step) && (step.DeliverAnswer? || step.GiveUp?)
    ensures Inv(Apply(s, step))
  {
    QueueKept(s, step);
  }

  lemma InvKept(s: State, step: Step)
    requires Inv(s) && CanStep(s, step)
    ensures Inv(Apply(s, step))
  {
    match step
    case Serve(_, _, _, _, _) => ServeKeeps(s, step);
    case SignIn(_, _, _, _) => SignInKeeps(s, step);
    case Got401(_, _) => Got401Keeps(s, step);
    case DeliverAnswer(_) => AnsweredKeeps(s, step);
    case GiveUp(_) => AnsweredKeeps(s, step);
    case _ => QueueKept(s, step);
  }

  lemma {:induction false} InvAlong(s: State, steps: seq<Step>, last: State)
    requires Inv(s) && Runs(s, steps, last)
    ensures Inv(last)
    decreases |steps|
  {
    if steps != [] {
      var n := |steps| - 1;
      var mid :| Runs(s, steps[..n], mid) && CanStep(mid, steps[n]) && Apply(mid, steps[n]) == last;
      InvAlong(s, steps[..n], mid);
      InvKept(mid, steps[n]);
    }
  }

  lemma {:induction false} Reachable(tenantOf: nat -> nat, steps: seq<Step>, s: State)
    requires Runs(Init(tenantOf), steps, s)
    ensures Inv(s)
  {
    InvAlong(Init(tenantOf), steps, s);
  }

  /** In no run, whatever is lost, late or half done, does the server ever see a revoked token. */
  lemma {:induction false} NeverPresentsRevoked(tenantOf: nat -> nat, steps: seq<Step>, s: State, token: nat,
      now: int, account: Account)
    requires Runs(Init(tenantOf), steps, s) && token in s.wire
    ensures Judge(s.server, token, now, account) != Reuse
  {
    Reachable(tenantOf, steps, s);
  }

  /**
   Between refreshes, each stored token is the one live token of its family and belongs to the tenant it is stored
   under.
   */
  lemma {:induction false} StoredTokenIsTheLiveOne(tenantOf: nat -> nat, steps: seq<Step>, s: State, tenant: nat,
      other: nat)
    requires Runs(Init(tenantOf), steps, s) && s.tab.awaiting.None? && tenant in s.tab.store.refresh
    ensures var token := s.tab.store.refresh[tenant];
            && Live(s.server, token) && tenantOf(s.server[token].user) == tenant
            && (Live(s.server, other) && s.server[other].family == s.server[token].family ==> other == token)
  {
    Reachable(tenantOf, steps, s);
    TenantsFixed(Init(tenantOf), steps, s);
  }

  lemma {:induction false} TenantsFixed(s: State, steps: seq<Step>, last: State)
    requires Runs(s, steps, last)
    ensures last.tenantOf == s.tenantOf
    decreases |steps|
  {
    if steps != [] {
      var n := |steps| - 1;
      var mid :| Runs(s, steps[..n], mid) && CanStep(mid, steps[n]) && Apply(mid, steps[n]) == last;
      TenantsFixed(s, steps[..n], mid);
    }
  }

  /** A token is presented only when no refresh is awaited, and only the live token of the active tenant. */
  lemma OnlyGot401Sends(s: State, step: Step, token: nat)
    requires CanStep(s, step) && Apply(s, step).wire[token] > s.wire[token]
    ensures step.Got401? && s.tab.awaiting.None? && Apply(s, step).tab.awaiting == Some(token)
    ensures GetRefreshToken(s.tab.store) == Some(token) && Apply(s, step).server == s.server
  {
  }

  lemma {:induction false} OneRefreshAtATime(tenantOf: nat -> nat, steps: seq<Step>, s: State, step: Step)
    requires Runs(Init(tenantOf), steps, s) && CanStep(s, step)
    ensures var s' := Apply(s, step);
            forall token :: s'.wire[token] > s.wire[token] ==>
              && s'.wire[token] == 1
              && s.tab.awaiting.None? && s'.tab.awaiting == Some(token)
              && GetRefreshToken(s.tab.store) == Some(token) && Live(s'.server, token)
  {
    Reachable(tenantOf, steps, s);
    InvKept(s, step);
    var s' := Apply(s, step);
    forall token | s'.wire[token] > s.wire[token]
      ensures s'.wire[token] == 1 && s.tab.awaiting.None? && s'.tab.awaiting == Some(token)
      ensures GetRefreshToken(s.tab.store) == Some(token) && Live(s'.server, token)
    {
      OnlyGot401Sends(s, step, token);
      assert token in s'.wire;
    }
  }

  /**
   Every queued request is settled exactly once: no promise is ever settled twice, and the end of a
   refresh, good or bad, settles the whole queue and nothing else.
   */
  lemma StepSettles(s: State, step: Step)
    requires CanStep(s, step)
    ensures var s' := Apply(s, step);
            if step.DeliverAnswer? || step.GiveUp?
            then s'.tab.failedQueue == []
                 && s'.tab.settled ==
                    s.tab.settled + SettleAll(s.tab.failedQueue, step.DeliverAnswer? && s.answer.value.Tokens?)
            else s'.tab.settled == s.tab.settled
  {
  }

  lemma {:induction false} QueueSettledOnce(tenantOf: nat -> nat, steps: seq<Step>, s: State, step: Step)
    requires Runs(Init(tenantOf), steps, s) && CanStep(s, step)
    ensures forall i, j :: 0 <= i < j < |s.tab.settled| ==> s.tab.settled[i].promise != s.tab.settled[j].promise
    ensures forall r :: r in s.tab.settled ==> r.promise !in s.tab.failedQueue
    ensures var s' := Apply(s, step);
            if step.DeliverAnswer? || step.GiveUp?
            then s'.tab.failedQueue == []
                 && s'.tab.settled ==
                    s.tab.settled + SettleAll(s.tab.failedQueue, step.DeliverAnswer? && s.answer.value.Tokens?)
            else s'.tab.settled == s.tab.settled
  {
    Reachable(tenantOf, steps, s);
    QueueDistinct(s.tab);
    StepSettles(s, step);
  }

  lemma QueueDistinct(tab: Tab)
    requires QueueOk(tab)
    ensures forall i, j :: 0 <= i < j < |tab.settled| ==> tab.settled[i].promise != tab.settled[j].promise
    ensures forall r :: r in tab.settled ==> r.promise !in tab.failedQueue
  {
  }

  // ---------------------------------------------------------------- a 401 without a stored token

  /** Refreshing for ever: the flag is set and nothing is awaited. */
  predicate Wedged(tab: Tab) {
    tab.isRefreshing && tab.awaiting.None?
  }

  /**
   In any run a step leaves the flag set with nothing awaited exactly when it is a first 401 on the login page that
   finds no stored token; then it stays set until the page is loaded again, even after signing in, and every later
   401 waits for ever.
   */
  lemma {:induction false} WedgedExactlyWhen(tenantOf: nat -> nat, steps: seq<Step>, s: State, step: Step)
    requires Runs(Init(tenantOf), steps, s) && CanStep(s, step) && !Wedged(s.tab)
    ensures Wedged(Apply(s, step).tab) <==>
            step == Got401(false, true) && !s.tab.isRefreshing && GetRefreshToken(s.tab.store).None?
  {
    Reachable(tenantOf, steps, s);
  }

  lemma {:induction false} WedgedForEver(s: State, steps: seq<Step>, last: State)
    requires Wedged(s.tab) && Runs(s, steps, last)
    requires forall i :: 0 <= i < |steps| ==> !steps[i].ReloadPage? && !steps[i].SignOut?
    ensures Wedged(last.tab) && last.tab.settled == s.tab.settled && s.tab.failedQueue <= last.tab.failedQueue
    decreases |steps|
  {
    if steps != [] {
      var n := |steps| - 1;
      var mid :| Runs(s, steps[..n], mid) && CanStep(mid, steps[n]) && Apply(mid, steps[n]) == last;
      WedgedForEver(s, steps[..n], mid);
    }
  }
}

/**
 When a pre-auth token can still get a code checked, and when it can still yield an access token: the exact condition on
 the counter and on the calls that are open.
 */
module SuperAdminLateCalls {
  import opened Common
  import S = SuperAdminTotp
  import opened SuperAdminOverlap
  import opened SuperAdminLockout

  /** A call on the token is open in this phase. */
  predicate In(w: World, token: nat, phase: Phase) {
    exists c :: c in w.calls && w.calls[c].token == token && w.calls[c].phase == phase
  }

  /** And the row that it read has a secret to compare with. */
  predicate InWithSecret(w: World, token: nat, phase: Phase) {
    exists c :: c in w.calls && w.calls[c].token == token && w.calls[c].phase == phase && w.calls[c].secret.Some?
  }

  /**
   The counter lets a call pass, or will: it is below three, or has a deadline, or a call is about to give it one or to
   delete it.
   */
  predicate MayPass(w: World, token: nat) {
    || Counter(w, token) < S.MAX_WRONG
    || (token in w.keys && w.keys[token].deadline.Some?)
    || In(w, token, FirstWrong) || In(w, token, Right) || In(w, token, Spent)
  }

  /** A call has been let in on the token, or can be. */
  predicate MayEnter(w: World, token: nat) {
    !Shut(w, token) || InWithSecret(w, token, Validated)
  }

  predicate CanCheck(w: World, token: nat) {
    InWithSecret(w, token, Passed) || (MayEnter(w, token) && MayPass(w, token))
  }

  predicate CanIssue(w: World, token: nat) {
    CanCheck(w, token) || In(w, token, Right) || In(w, token, Spent) || In(w, token, Cleared)
  }

  /** Some run from here has one more wrong code checked for the token. */
  ghost predicate ChecksAgain(w: World, events: seq<Event>, token: nat) {
    Possible(w, events) && !(CallsOn(Run(w, events).past.wrong, token) <= CallsOn(w.past.wrong, token))
  }

  /** Some run from here yields one more access token for it. */
  ghost predicate IssuesAgain(w: World, events: seq<Event>, token: nat) {
    Possible(w, events) && !(CallsOn(Run(w, events).past.issued, token) <= CallsOn(w.past.issued, token))
  }

  // ---------------------------------------------------------------- when nothing can be checked, nothing ever is

  lemma Opened(w: World, token: nat, phase: Phase, t: nat, p: Phase)
    requires Inv(w) && Accepted(w, token) && (token != t || p != phase)
    ensures In(Open(w, token, phase), t, p) ==> In(w, t, p)
    ensures InWithSecret(Open(w, token, phase), t, p) ==> InWithSecret(w, t, p)
  {
  }

  lemma OpenChecks(w: World, token: nat, phase: Phase, t: nat)
    requires Inv(w) && Accepted(w, token) && (phase == Validated || phase == SettingUp)
    requires !CanCheck(w, t) && t in w.tokens
    ensures !CanCheck(Open(w, token, phase), t)
  {
    Opened(w, token, phase, t, Passed);
    Opened(w, token, phase, t, FirstWrong);
    Opened(w, token, phase, t, Right);
    Opened(w, token, phase, t, Spent);
    if Shut(w, t) {
      assert token != t;
      Opened(w, token, phase, t, Validated);
    }
  }

  lemma OutsideChecks(w: World, e: Event, t: nat)
    requires Inv(w) && Can(w, e) && (e.Wait? || e.SetActive? || e.Login?) && !CanCheck(w, t) && t in w.tokens
    ensures !CanCheck(Step(w, e), t)
  {
    var w' := Step(w, e);
    assert forall p :: In(w', t, p) ==> In(w, t, p);
    assert forall p :: InWithSecret(w', t, p) ==> InWithSecret(w, t, p);
  }

  /** Another call's phases are as they were. */
  lemma OthersIn(w: World, c: nat, act: Act, t: nat, p: Phase)
    requires Known(w, c) && Ready(w.calls[c].phase, act)
    requires var w' := Done(w, c, act); c in w'.calls && w.calls[c].token == t ==> w'.calls[c].phase != p
    ensures In(Done(w, c, act), t, p) ==> In(w, t, p)
    ensures InWithSecret(Done(w, c, act), t, p) ==> InWithSecret(w, t, p)
  {
    DoneLocal(w, c, act);
    SameButOne(w, Done(w, c, act), c, t, p);
  }

  lemma SameButOne(w: World, w': World, c: nat, t: nat, p: Phase)
    requires c in w.calls && forall d :: d in w'.calls && d != c ==> d in w.calls && w'.calls[d] == w.calls[d]
    requires c in w'.calls ==> w'.calls[c].token == w.calls[c].token
    requires c in w'.calls && w.calls[c].token == t ==> w'.calls[c].phase != p
    ensures In(w', t, p) ==> In(w, t, p)
    ensures InWithSecret(w', t, p) ==> InWithSecret(w, t, p)
  {
  }

  lemma OtherTokensChecks(w: World, c: nat, act: Act, t: nat)
    requires Inv(w) && Known(w, c) && Ready(w.calls[c].phase, act) && w.calls[c].token != t
    requires !CanCheck(w, t) && t in w.tokens
    ensures !CanCheck(Done(w, c, act), t)
  {
    DoneLocal(w, c, act);
    OthersIn(w, c, act, t, Passed);
    OthersIn(w, c, act, t, FirstWrong);
    OthersIn(w, c, act, t, Right);
    OthersIn(w, c, act, t, Spent);
    OthersIn(w, c, act, t, Validated);
  }

  /** What the token's own call does to the counter and to itself, while no call can be let past. */
  ghost predicate Blocked(w: World, t: nat) {
    && t in w.keys && w.keys[t].count >= S.MAX_WRONG && w.keys[t].deadline.None?
    && !In(w, t, FirstWrong) && !In(w, t, Right) && !In(w, t, Spent)
  }

  lemma BlockedIs(w: World, t: nat)
    ensures !MayPass(w, t) <==> Blocked(w, t)
  {
  }

  lemma OwnBlocked(w: World, c: nat, act: Act)
    requires Inv(w) && Known(w, c) && Ready(w.calls[c].phase, act)
    requires Blocked(w, w.calls[c].token) && !InWithSecret(w, w.calls[c].token, Passed)
    ensures Blocked(Done(w, c, act), w.calls[c].token) && !InWithSecret(Done(w, c, act), w.calls[c].token, Passed)
  {
    var t := w.calls[c].token;
    OthersIn(w, c, act, t, FirstWrong);
    OthersIn(w, c, act, t, Right);
    OthersIn(w, c, act, t, Spent);
    OthersIn(w, c, act, t, Passed);
  }

  lemma OwnShut(w: World, c: nat, act: Act)
    requires Inv(w) && Known(w, c) && Ready(w.calls[c].phase, act)
    requires !MayEnter(w, w.calls[c].token) && !InWithSecret(w, w.calls[c].token, Passed)
    ensures !MayEnter(Done(w, c, act), w.calls[c].token)
    ensures !InWithSecret(Done(w, c, act), w.calls[c].token, Passed)
  {
    var t := w.calls[c].token;
    ActOpens(w, c, act, t);
    DoneLocal(w, c, act);
    OthersIn(w, c, act, t, Validated);
    if act.Get? {
      assert w.calls[c].secret.None?;
      assert forall d :: d != c && d in Done(w, c, act).calls ==> d in w.calls;
    } else {
      OthersIn(w, c, act, t, Passed);
    }
  }

  lemma StepChecks(w: World, e: Event, t: nat)
    requires Inv(w) && Can(w, e) && !CanCheck(w, t) && t in w.tokens
    ensures !CanCheck(Step(w, e), t) && t in Step(w, e).tokens
  {
    match e
    case Do(c, act) =>
      DoneLocal(w, c, act);
      if w.calls[c].token != t {
        OtherTokensChecks(w, c, act, t);
      } else if MayEnter(w, t) {
        BlockedIs(w, t);
        OwnBlocked(w, c, act);
        BlockedIs(Done(w, c, act), t);
      } else {
        OwnShut(w, c, act);
      }
    case Enter(token) => OpenChecks(w, token, Validated, t);
    case EnterSetup(token) => OpenChecks(w, token, SettingUp, t);
    case _ => OutsideChecks(w, e, t);
  }

  /** Then no code is compared for the token, right or wrong. */
  lemma StepAddsNone(w: World, e: Event, t: nat)
    requires Inv(w) && Can(w, e) && !CanCheck(w, t) && t in w.tokens
    ensures CallsOn(Step(w, e).past.wrong, t) <= CallsOn(w.past.wrong, t)
    ensures e.Do? && w.calls[e.c].token == t ==> !(e.act.Compare? && e.c in Step(w, e).calls)
  {
    if e.Do? {
      if w.calls[e.c].token == t {
        ComparesNone(w, e.c, e.act);
      } else {
        var past := Done(w, e.c, e.act).past;
        DoneLocal(w, e.c, e.act);
        OnlyOwnEntries(w.past.wrong, past.wrong, e.c, t);
        OwnEntriesAfter(w, e.c, e.act);
      }
    }
  }

  lemma ComparesNone(w: World, c: nat, act: Act)
    requires Inv(w) && Known(w, c) && Ready(w.calls[c].phase, act) && !InWithSecret(w, w.calls[c].token, Passed)
    ensures Done(w, c, act).past.wrong == w.past.wrong && (act.Compare? ==> c !in Done(w, c, act).calls)
  {
    if act.Compare? {
      assert w.calls[c].secret.None?;
    } else {
      OnlyCompareCompares(w, c, act);
    }
  }

  lemma OnlyCompareCompares(w: World, c: nat, act: Act)
    requires Known(w, c) && !act.Compare?
    ensures Done(w, c, act).past.wrong == w.past.wrong
  {
  }

  lemma OnlyFinishIssues(w: World, c: nat, act: Act)
    requires Known(w, c) && !act.Finish?
    ensures Done(w, c, act).past.issued == w.past.issued
  {
  }

  /** A call is right only after a comparison, or if it was. */
  lemma RightBefore(w: World, c: nat, act: Act)
    requires Known(w, c) && Ready(w.calls[c].phase, act) && !act.Compare?
    ensures c in Done(w, c, act).calls && AfterRight(Done(w, c, act).calls[c].phase) ==> AfterRight(w.calls[c].phase)
  {
  }

  lemma {:induction false} NeverChecks(w: World, events: seq<Event>, t: nat)
    requires Inv(w) && !CanCheck(w, t) && t in w.tokens && Possible(w, events)
    ensures Inv(Run(w, events)) && !CanCheck(Run(w, events), t) && t in Run(w, events).tokens
    ensures CallsOn(Run(w, events).past.wrong, t) <= CallsOn(w.past.wrong, t)
    decreases |events|
  {
    if events != [] {
      var n := |events| - 1;
      NeverChecks(w, events[..n], t);
      StepKeeps(Run(w, events[..n]), events[n]);
      StepChecks(Run(w, events[..n]), events[n], t);
      StepAddsNone(Run(w, events[..n]), events[n], t);
    }
  }

  // ---------------------------------------------------------------- nor issued

  predicate NoneRight(w: World, t: nat) {
    !In(w, t, Right) && !In(w, t, Spent) && !In(w, t, Cleared)
  }

  lemma StepIssuesNone(w: World, e: Event, t: nat)
    requires Inv(w) && Can(w, e) && !CanCheck(w, t) && NoneRight(w, t) && t in w.tokens
    ensures NoneRight(Step(w, e), t) && CallsOn(Step(w, e).past.issued, t) <= CallsOn(w.past.issued, t)
  {
    match e
    case Do(c, act) => DoIssuesNone(w, c, act, t);
    case Enter(token) =>
      Opened(w, token, Validated, t, Right);
      Opened(w, token, Validated, t, Spent);
      Opened(w, token, Validated, t, Cleared);
    case EnterSetup(token) =>
      Opened(w, token, SettingUp, t, Right);
      Opened(w, token, SettingUp, t, Spent);
      Opened(w, token, SettingUp, t, Cleared);
    case _ =>
      assert forall p :: In(Step(w, e), t, p) ==> In(w, t, p);
  }

  lemma DoIssuesNone(w: World, c: nat, act: Act, t: nat)
    requires Inv(w) && Known(w, c) && Ready(w.calls[c].phase, act)
    requires !CanCheck(w, t) && NoneRight(w, t) && t in w.tokens
    ensures NoneRight(Done(w, c, act), t) && CallsOn(Done(w, c, act).past.issued, t) <= CallsOn(w.past.issued, t)
  {
    if w.calls[c].token == t {
      OwnIssuesNone(w, c, act);
    } else {
      DoneLocal(w, c, act);
      OnlyOwnEntries(w.past.issued, Done(w, c, act).past.issued, c, t);
      OtherIssuesNone(w, c, act, t);
    }
    OthersIn(w, c, act, t, Right);
    OthersIn(w, c, act, t, Spent);
    OthersIn(w, c, act, t, Cleared);
  }

  lemma OwnIssuesNone(w: World, c: nat, act: Act)
    requires Inv(w) && Known(w, c) && Ready(w.calls[c].phase, act)
    requires !InWithSecret(w, w.calls[c].token, Passed) && NoneRight(w, w.calls[c].token)
    ensures c in Done(w, c, act).calls ==> !AfterRight(Done(w, c, act).calls[c].phase)
    ensures Done(w, c, act).past.issued == w.past.issued
  {
    ComparesNone(w, c, act);
    if !act.Compare? { RightBefore(w, c, act); }
    var token := w.calls[c].token;
    assert act.Finish? ==> In(w, token, Cleared);
    OnlyFinishIssues(w, c, act);
  }

  lemma OtherIssuesNone(w: World, c: nat, act: Act, t: nat)
    requires Inv(w) && Known(w, c) && Ready(w.calls[c].phase, act) && w.calls[c].token != t
    requires CallsOn(Done(w, c, act).past.issued, t) <= CallsOn(w.past.issued, t) + {c}
    ensures CallsOn(Done(w, c, act).past.issued, t) <= CallsOn(w.past.issued, t)
  {
    if !act.Finish? { OnlyFinishIssues(w, c, act); }
  }

  lemma {:induction false} NeverIssues(w: World, events: seq<Event>, t: nat)
    requires Inv(w) && !CanCheck(w, t) && NoneRight(w, t) && t in w.tokens && Possible(w, events)
    ensures NoneRight(Run(w, events), t) && CallsOn(Run(w, events).past.issued, t) <= CallsOn(w.past.issued, t)
    decreases |events|
  {
    if events != [] {
      var n := |events| - 1;
      NeverIssues(w, events[..n], t);
      NeverChecks(w, events[..n], t);
      StepIssuesNone(Run(w, events[..n]), events[n], t);
    }
  }

  // ---------------------------------------------------------------- and otherwise there is such a run

  /** No row, counter or history that matters to other calls has changed, and they are where they were. */
  ghost predicate Undisturbed(w: World, w': World) {
    && w'.now == w.now && w'.keys == w.keys && w'.past == w.past
    && forall d :: Known(w, d) ==> Known(w', d) && w'.calls[d] == w.calls[d]
  }

  /** A token that is good lets a call in: the account is switched on and set up first, if need be. */
  lemma {:induction false} LetIn(first: World, events: seq<Event>, w: World, t: nat)
      returns (longer: seq<Event>, w': World, c: nat)
    requires Inv(w) && Reached(first, events, w) && t in w.tokens && !Shut(w, t)
    ensures Reached(first, longer, w') && Undisturbed(w, w')
    ensures Known(w', c) && w'.calls[c].token == t && w'.calls[c].phase == Validated && w'.calls[c].secret.Some?
  {
    var on, withSecret;
    longer, on := SwitchOn(first, events, w, t);
    longer, withSecret := GiveSecret(first, longer, on, t);
    c := withSecret.nextCall;
    longer := Then(first, longer, withSecret, Enter(t));
    w' := Step(withSecret, Enter(t));
    StepKeeps(withSecret, Enter(t));
  }

  lemma SwitchOn(first: World, events: seq<Event>, w: World, t: nat) returns (longer: seq<Event>, w': World)
    requires Inv(w) && Reached(first, events, w) && t in w.tokens && !Shut(w, t)
    ensures Reached(first, longer, w') && Undisturbed(w, w') && Inv(w') && Accepted(w', t)
  {
    var e := SetActive(w.tokens[t].admin, true);
    w' := Step(w, e);
    longer := Then(first, events, w, e);
    StepKeeps(w, e);
  }

  /** A setup's two steps, back to back. */
  lemma SetsUp(w: World, t: nat)
    requires Inv(w) && Accepted(w, t) && w.admins[w.tokens[t].admin].secret.None?
    ensures Can(w, EnterSetup(t)) && Can(Step(w, EnterSetup(t)), Do(w.nextCall, Write(0)))
    ensures var admin := w.tokens[t].admin;
            Step(Step(w, EnterSetup(t)), Do(w.nextCall, Write(0)))
            == w.(admins := w.admins[admin := w.admins[admin].(secret := Some(0))], nextCall := w.nextCall + 1)
  {
    var w' := Step(Step(w, EnterSetup(t)), Do(w.nextCall, Write(0)));
    assert w.nextCall !in w.calls;
    assert w'.calls == w.calls;
  }

  lemma GiveSecret(first: World, events: seq<Event>, w: World, t: nat) returns (longer: seq<Event>, w': World)
    requires Inv(w) && Reached(first, events, w) && Accepted(w, t)
    ensures Reached(first, longer, w') && Undisturbed(w, w') && Inv(w')
    ensures Accepted(w', t) && w'.admins[w'.tokens[t].admin].secret.Some?
  {
    longer, w' := events, w;
    if w.admins[w.tokens[t].admin].secret.None? {
      SetsUp(w, t);
      var entered, e := Step(w, EnterSetup(t)), Do(w.nextCall, Write(0));
      StepKeeps(w, EnterSetup(t));
      StepKeeps(entered, e);
      longer := Then(first, events, w, EnterSetup(t));
      longer := Then(first, longer, entered, e);
      w' := Step(entered, e);
    }
  }

  /** An open call that the counter lets pass reads it. */
  lemma ReadLow(first: World, events: seq<Event>, w: World, c: nat) returns (longer: seq<Event>, w': World)
    requires Inv(w) && Reached(first, events, w) && Known(w, c) && w.calls[c].phase == Validated
    requires Counter(w, w.calls[c].token) < S.MAX_WRONG
    ensures Reached(first, longer, w') && Inv(w') && w'.past == w.past
    ensures Known(w', c) && w'.calls[c] == w.calls[c].(phase := Passed)
  {
    w' := Step(w, Do(c, Get));
    StepKeeps(w, Do(c, Get));
    longer := Then(first, events, w, Do(c, Get));
  }

  /** A counter with a deadline runs out. */
  lemma RunOut(first: World, events: seq<Event>, w: World, t: nat) returns (longer: seq<Event>, w': World)
    requires Inv(w) && Reached(first, events, w) && t in w.keys && w.keys[t].deadline.Some?
    ensures Reached(first, longer, w') && Inv(w') && w'.past == w.past && Counter(w', t) == 0
    ensures w'.calls == w.calls && forall d :: Known(w, d) ==> Known(w', d)
  {
    var late := w.keys[t].deadline.value - w.now + 1;
    var e := Wait(if late < 0 then 0 else late);
    w' := Step(w, e);
    StepKeeps(w, e);
    longer := Then(first, events, w, e);
  }

  /** The first wrong call gives the counter its deadline, unless another has deleted it. */
  lemma SetDeadline(first: World, events: seq<Event>, w: World, c: nat, d: nat)
      returns (longer: seq<Event>, w': World)
    requires Inv(w) && Reached(first, events, w) && Known(w, c) && Known(w, d) && c != d
    requires w.calls[d].phase == FirstWrong && w.calls[d].token in w.keys
    ensures Reached(first, longer, w') && Inv(w') && w'.past == w.past
    ensures Known(w', c) && w'.calls[c] == w.calls[c]
    ensures w.calls[d].token in w'.keys && w'.keys[w.calls[d].token].deadline.Some?
  {
    w' := Step(w, Do(d, Expire));
    StepKeeps(w, Do(d, Expire));
    longer := Then(first, events, w, Do(d, Expire));
  }

  /** A right call spends the token and deletes the counter. */
  lemma DeleteCounter(first: World, events: seq<Event>, w: World, c: nat, d: nat)
      returns (longer: seq<Event>, w': World)
    requires Inv(w) && Reached(first, events, w) && Known(w, c) && Known(w, d) && c != d
    requires w.calls[d].phase == Right || w.calls[d].phase == Spent
    ensures Reached(first, longer, w') && Inv(w') && w'.past == w.past
    ensures Known(w', c) && w'.calls[c] == w.calls[c]
    ensures w.calls[d].token !in w'.keys
  {
    longer, w' := events, w;
    if w.calls[d].phase == Right {
      w' := Step(w, Do(d, Mark));
      StepKeeps(w, Do(d, Mark));
      longer := Then(first, events, w, Do(d, Mark));
    }
    var cleared := Step(w', Do(d, Clear));
    StepKeeps(w', Do(d, Clear));
    longer := Then(first, longer, w', Do(d, Clear));
    w' := cleared;
  }

  /** An open call gets past the counter, in one of these ways. */
  lemma {:induction false} GetPast(first: World, events: seq<Event>, w: World, c: nat)
      returns (longer: seq<Event>, w': World)
    requires Inv(w) && Reached(first, events, w) && Known(w, c) && w.calls[c].phase == Validated
    requires MayPass(w, w.calls[c].token)
    ensures Reached(first, longer, w') && Inv(w') && w'.past == w.past
    ensures Known(w', c) && w'.calls[c] == w.calls[c].(phase := Passed)
  {
    var t := w.calls[c].token;
    longer, w' := events, w;
    if Counter(w, t) >= S.MAX_WRONG {
      if w.keys[t].deadline.Some? {
        longer, w' := RunOut(first, events, w, t);
      } else if In(w, t, FirstWrong) {
        var d :| d in w.calls && w.calls[d].token == t && w.calls[d].phase == FirstWrong;
        assert CallOk(w, w.calls[d]);
        longer, w' := SetDeadline(first, events, w, c, d);
        longer, w' := RunOut(first, longer, w', t);
      } else {
        var d :| d in w.calls && w.calls[d].token == t && (w.calls[d].phase == Right || w.calls[d].phase == Spent);
        assert CallOk(w, w.calls[d]);
        longer, w' := DeleteCounter(first, events, w, c, d);
      }
    }
    longer, w' := ReadLow(first, longer, w', c);
  }

  /** What lets a call pass is not disturbed by letting it in. */
  lemma StillMayPass(w: World, w': World, t: nat)
    requires Inv(w) && Undisturbed(w, w') && MayPass(w, t)
    ensures MayPass(w', t)
  {
    if Counter(w, t) >= S.MAX_WRONG && !(w.keys[t].deadline.Some?) {
      var d :| d in w.calls && w.calls[d].token == t
               && (w.calls[d].phase == FirstWrong || w.calls[d].phase == Right || w.calls[d].phase == Spent);
      assert CallOk(w, w.calls[d]) && Known(w', d);
    }
  }

  /** If a code can be compared, there is a run to a call that is about to. */
  lemma {:induction false} AboutToCompare(w: World, t: nat) returns (events: seq<Event>, w': World, c: nat)
    requires Inv(w) && t in w.tokens && CanCheck(w, t)
    ensures Reached(w, events, w') && Inv(w') && w'.past == w.past
    ensures Known(w', c) && w'.calls[c].token == t && w'.calls[c].phase == Passed && w'.calls[c].secret.Some?
  {
    events, w' := [], w;
    if InWithSecret(w, t, Passed) {
      c :| c in w.calls && w.calls[c].token == t && w.calls[c].phase == Passed && w.calls[c].secret.Some?;
      assert CallOk(w, w.calls[c]);
    } else {
      if InWithSecret(w, t, Validated) {
        c :| c in w.calls && w.calls[c].token == t && w.calls[c].phase == Validated && w.calls[c].secret.Some?;
        assert CallOk(w, w.calls[c]);
      } else {
        events, w', c := LetIn(w, events, w, t);
        RunKeeps(w, events);
        StillMayPass(w, w', t);
      }
      events, w' := GetPast(w, events, w', c);
    }
  }

  // ---------------------------------------------------------------- the exact conditions

  /**
   One more wrong code can be checked for a token exactly while some call is past the counter with a secret, or one is
   validated with a secret or can still be, and the counter lets it pass or will.
   */
  lemma {:induction false} ChecksAgainExactlyWhen(w: World, token: nat)
    requires Reachable(w) && token in w.tokens
    ensures (exists events :: ChecksAgain(w, events, token)) <==> CanCheck(w, token)
  {
    ReachableInv(w);
    if CanCheck(w, token) {
      var events, at, c := AboutToCompare(w, token);
      assert CallPast(at.past, c, at.calls[c]);
      var last;
      events, last := Miss(w, events, at, c);
      assert c in CallsOn(last.past.wrong, token) && c !in CallsOn(w.past.wrong, token);
      assert ChecksAgain(w, events, token);
    } else {
      forall events | Possible(w, events) ensures !ChecksAgain(w, events, token) {
        NeverChecks(w, events, token);
      }
    }
  }

  /**
   One more access token can be issued for a token exactly while one more code can be compared, or a right one has been
   and its call is still open.
   */
  lemma {:induction false} IssuesAgainExactlyWhen(w: World, token: nat)
    requires Reachable(w) && token in w.tokens
    ensures (exists events :: IssuesAgain(w, events, token)) <==> CanIssue(w, token)
  {
    ReachableInv(w);
    if CanIssue(w, token) {
      var events := Issuing(w, token);
      assert IssuesAgain(w, events, token);
    } else {
      forall events | Possible(w, events) ensures !IssuesAgain(w, events, token) {
        NeverIssues(w, events, token);
      }
    }
  }

  /** The rest of a call whose code was right. */
  lemma RestOfRight(first: World, events: seq<Event>, w: World, c: nat) returns (longer: seq<Event>, w': World)
    requires Reached(first, events, w) && Known(w, c) && AfterRight(w.calls[c].phase)
    ensures Reached(first, longer, w') && w'.past.issued == w.past.issued[c := w.calls[c].token]
  {
    longer, w' := events, w;
    if w'.calls[c].phase == Right { longer, w' := Consume(first, longer, w', c); }
    if w'.calls[c].phase == Spent { longer, w' := Forget(first, longer, w', c); }
    longer, w' := Issue(first, longer, w', c);
  }

  lemma {:induction false} Issuing(w: World, token: nat) returns (events: seq<Event>)
    requires Inv(w) && token in w.tokens && CanIssue(w, token)
    ensures IssuesAgain(w, events, token)
  {
    var at, last, c;
    if NoneRight(w, token) {
      events, at, c := AboutToCompare(w, token);
      assert CallPast(at.past, c, at.calls[c]);
      events, last := RightToEnd(w, events, at, c);
    } else {
      c :| c in w.calls && w.calls[c].token == token && AfterRight(w.calls[c].phase);
      assert CallOk(w, w.calls[c]) && CallPast(w.past, c, w.calls[c]);
      events, last := RestOfRight(w, [], w, c);
    }
    NewlyIssued(w, events, last, c, token);
  }

  lemma NewlyIssued(w: World, events: seq<Event>, last: World, c: nat, token: nat)
    requires Reached(w, events, last) && c !in w.past.issued && last.past.issued == w.past.issued[c := token]
    ensures IssuesAgain(w, events, token)
  {
    assert c in CallsOn(last.past.issued, token);
  }

  /** Of a token that is spent or has run out: nothing but the calls open on it counts. */
  lemma {:induction false} ShutIssuesAgainExactlyWhen(w: World, token: nat)
    requires Reachable(w) && Shut(w, token)
    ensures (exists events :: IssuesAgain(w, events, token))
            <==> || In(w, token, Right) || In(w, token, Spent) || In(w, token, Cleared)
                 || InWithSecret(w, token, Passed)
                 || (InWithSecret(w, token, Validated)
                     && (|| Counter(w, token) < S.MAX_WRONG
                         || (token in w.keys && w.keys[token].deadline.Some?)
                         || In(w, token, FirstWrong)))
  {
    IssuesAgainExactlyWhen(w, token);
  }
}

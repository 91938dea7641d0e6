/**
 What overlapping calls on one pre-auth token can do: how many codes they get checked, how many access tokens they
 yield, and when the secret of a verified account can change.
 */
module SuperAdminLockout {
  import opened Common
  import S = SuperAdminTotp
  import opened SuperAdminOverlap

  // ---------------------------------------------------------------- codes and access tokens

  /** The codes of a token are, but for two wrong ones, of calls open in `at`, or of calls that broke off. */
  ghost predicate Overlapped(w: World, at: World, token: nat) {
    && (forall c :: c in CallsOn(w.past.wrong, token) ==>
          c in w.past.early || c in OpenOn(at, token)
          || c in w.past.stopped)
    && (forall c :: c in CallsOn(w.past.right, token) ==> c in OpenOn(at, token) || c in w.past.stopped)
  }

  lemma GoodOverlapped(w: World, token: nat)
    requires Inv(w) && token in w.tokens && !Shut(w, token)
    ensures Overlapped(w, w, token)
  {
    assert TokenOk(w, token);
    forall c | c in w.calls && (c in CallsOn(w.past.wrong, token) || c in CallsOn(w.past.right, token))
      ensures AfterWrong(w.calls[c].phase) || AfterRight(w.calls[c].phase) ==> c in OpenOn(w, token)
    {
      assert CallPast(w.past, c, w.calls[c]);
    }
  }

  /** Only waiting and marking shut a token, and they compare no code. */
  lemma ShuttingAddsNothing(w: World, e: Event, token: nat)
    requires Inv(w) && Can(w, e) && Shut(Step(w, e), token) && !Shut(w, token)
    ensures token in w.tokens && Step(w, e).past == w.past && OpenOn(Step(w, e), token) <= OpenOn(w, token)
  {
    if e.Do? {
      DoneLocal(w, e.c, e.act);
      if !e.act.Mark? { OnlyMarkUses(w, e.c, e.act); }
    }
  }

  lemma OnlyMarkUses(w: World, c: nat, act: Act)
    requires Known(w, c) && !act.Mark?
    ensures Done(w, c, act).tokens == w.tokens && Done(w, c, act).now == w.now
  {
  }

  lemma OnlyOwnEntries(before: map<nat, nat>, after: map<nat, nat>, c: nat, token: nat)
    requires forall d :: d != c ==> Same(before, after, d)
    ensures CallsOn(after, token) <= CallsOn(before, token) + {c}
  {
    forall d | d in CallsOn(after, token) ensures d in CallsOn(before, token) + {c} {
      assert d != c ==> Same(before, after, d);
    }
  }

  /** The new codes of a token are its own calls'. */
  lemma ActAddsOnlyOwn(w: World, c: nat, act: Act, token: nat)
    requires Inv(w) && Known(w, c) && Ready(w.calls[c].phase, act)
    ensures CallsOn(Done(w, c, act).past.wrong, token) <= CallsOn(w.past.wrong, token) + OpenOn(w, token)
    ensures CallsOn(Done(w, c, act).past.right, token) <= CallsOn(w.past.right, token) + OpenOn(w, token)
  {
    var past := Done(w, c, act).past;
    DoneLocal(w, c, act);
    OnlyOwnEntries(w.past.wrong, past.wrong, c, token);
    OnlyOwnEntries(w.past.right, past.right, c, token);
    OwnEntriesAfter(w, c, act);
  }

  lemma ActOpens(w: World, c: nat, act: Act, token: nat)
    requires Known(w, c) && Ready(w.calls[c].phase, act)
    ensures OpenOn(Done(w, c, act), token) <= OpenOn(w, token)
    ensures Shut(w, token) ==> Shut(Done(w, c, act), token)
  {
    DoneLocal(w, c, act);
  }

  /** Once the token is shut no call enters on it, and only calls that are open can still compare a code. */
  lemma ShutAddsOnlyOpen(w: World, e: Event, token: nat)
    requires Inv(w) && Can(w, e) && Shut(w, token)
    ensures Shut(Step(w, e), token) && OpenOn(Step(w, e), token) <= OpenOn(w, token)
    ensures CallsOn(Step(w, e).past.wrong, token) <= CallsOn(w.past.wrong, token) + OpenOn(w, token)
    ensures CallsOn(Step(w, e).past.right, token) <= CallsOn(w.past.right, token) + OpenOn(w, token)
    ensures w.past.early.Keys <= Step(w, e).past.early.Keys && w.past.stopped.Keys <= Step(w, e).past.stopped.Keys
  {
    if e.Do? {
      ActOpens(w, e.c, e.act, token);
      ActAddsOnlyOwn(w, e.c, e.act, token);
      HistoryGrows(w, e.c, e.act);
    }
  }

  /** In every run there is an instant at which all calls that compared a code for the token were open, but for two. */
  lemma {:induction false} AllButTwoOverlap(first: World, events: seq<Event>, token: nat) returns (k: nat)
    requires Fresh(first) && Possible(first, events)
    ensures k <= |events| && Possible(first, events[..k])
    ensures Overlapped(Run(first, events), Run(first, events[..k]), token)
    ensures |CallsOn(Run(first, events).past.early, token)| <= 2
    ensures Shut(Run(first, events), token) ==>
            OpenOn(Run(first, events), token) <= OpenOn(Run(first, events[..k]), token)
    decreases |events|
  {
    FreshInv(first);
    RunKeeps(first, events);
    var w := Run(first, events);
    assert TokenOk(w, token);
    k := |events|;
    assert events[..k] == events;
    if token !in w.tokens {
      NewToken(w, token);
    } else if !Shut(w, token) {
      GoodOverlapped(w, token);
    } else {
      var n := |events| - 1;
      var before := Run(first, events[..n]);
      RunKeeps(first, events[..n]);
      if Shut(before, token) {
        k := AllButTwoOverlap(first, events[..n], token);
        assert events[..n][..k] == events[..k];
        ShutAddsOnlyOpen(before, events[n], token);
      } else {
        k := n;
        ShuttingAddsNothing(before, events[n], token);
        GoodOverlapped(before, token);
      }
    }
  }

  /** The calls on the token that had a wrong code and broke off before their end. */
  function BrokenOff(w: World, token: nat): set<nat> {
    CallsOn(w.past.wrong, token) * CallsOn(w.past.stopped, token)
  }

  /**
   Wrong codes checked for a token: at most two more than the calls open on it at some one instant, plus those
   that broke off after a wrong code. Access tokens: at most the calls open at that instant, for a call that breaks off
   yields none.
   */
  lemma {:induction false} CodesBoundedByOverlap(first: World, events: seq<Event>, token: nat) returns (k: nat)
    requires Fresh(first) && Possible(first, events)
    ensures k <= |events| && Possible(first, events[..k])
    ensures var w, open := Run(first, events), |OpenOn(Run(first, events[..k]), token)|;
            && |CallsOn(w.past.wrong, token)| <= 2 + open + |BrokenOff(w, token)|
            && |CallsOn(w.past.issued, token)| <= open
  {
    k := AllButTwoOverlap(first, events, token);
    var w, at := Run(first, events), Run(first, events[..k]);
    FreshInv(first);
    RunKeeps(first, events);
    WrongBounded(w, at, token);
    IssuedBounded(w, at, token);
  }

  lemma WrongBounded(w: World, at: World, token: nat)
    requires Inv(w) && Overlapped(w, at, token)
    ensures |CallsOn(w.past.wrong, token)|
            <= |CallsOn(w.past.early, token)| + |OpenOn(at, token)| + |BrokenOff(w, token)|
  {
    var early, open, stopped := CallsOn(w.past.early, token), OpenOn(at, token), BrokenOff(w, token);
    forall c | c in CallsOn(w.past.wrong, token) ensures c in early + open + stopped { assert Entry(w, c); }
    Within(CallsOn(w.past.wrong, token), early, open, stopped);
  }

  lemma IssuedBounded(w: World, at: World, token: nat)
    requires Inv(w) && Overlapped(w, at, token)
    ensures |CallsOn(w.past.issued, token)| <= |OpenOn(at, token)|
  {
    forall c | c in CallsOn(w.past.issued, token) ensures c in OpenOn(at, token) {
      assert Entry(w, c) && c in CallsOn(w.past.right, token);
    }
    Smaller(CallsOn(w.past.issued, token), OpenOn(at, token));
  }

  lemma Smaller(a: set<nat>, b: set<nat>)
    requires a <= b
    ensures |a| <= |b|
  {
    assert b == a + (b - a);
  }

  lemma Within(a: set<nat>, x: set<nat>, y: set<nat>, z: set<nat>)
    requires a <= x + y + z
    ensures |a| <= |x| + |y| + |z|
  {
    Smaller(a, x + y + z);
    Smaller(y - x, y);
    Smaller(z - (x + y), z);
    assert x + y == x + (y - x) && x + y + z == (x + y) + (z - (x + y));
  }

  ghost predicate OneCallAtATime(first: World, events: seq<Event>, token: nat)
    requires Possible(first, events)
  {
    forall k: nat :: k <= |events| && Possible(first, events[..k]) ==> |OpenOn(Run(first, events[..k]), token)| <= 1
  }

  /** If calls on the token do not overlap: three wrong codes, and one more for each that broke off after it. */
  lemma {:induction false} ThreeWrongWithoutOverlap(first: World, events: seq<Event>, token: nat)
    requires Fresh(first) && Possible(first, events) && OneCallAtATime(first, events, token)
    ensures |CallsOn(Run(first, events).past.wrong, token)| <= 3 + |BrokenOff(Run(first, events), token)|
  {
    var k := CodesBoundedByOverlap(first, events, token);
  }

  /** And one access token, wherever calls break off. */
  lemma {:induction false} OneAccessWithoutOverlap(first: World, events: seq<Event>, token: nat)
    requires Fresh(first) && Possible(first, events) && OneCallAtATime(first, events, token)
    ensures |CallsOn(Run(first, events).past.issued, token)| <= 1
  {
    var k := CodesBoundedByOverlap(first, events, token);
  }

  // ---------------------------------------------------------------- runs that overlap

  ghost predicate Reached(first: World, events: seq<Event>, w: World) {
    Possible(first, events) && Run(first, events) == w
  }

  lemma Then(first: World, events: seq<Event>, w: World, e: Event) returns (longer: seq<Event>)
    requires Reached(first, events, w) && Can(w, e)
    ensures Reached(first, longer, Step(w, e))
  {
    longer := events + [e];
    assert longer[..|events|] == events;
  }

  /** The token is good and its admin's secret set, no call is open, and fewer than three codes are counted. */
  ghost predicate Waiting(w: World, token: nat) {
    && Accepted(w, token) && w.admins[w.tokens[token].admin].secret.Some?
    && w.calls == map[] && Counter(w, token) < S.MAX_WRONG
    && (forall c :: c in w.past.wrong || c in w.past.right || c in w.past.issued ==> c < w.nextCall)
  }

  function CallFor(w: World, token: nat, phase: Phase): Call
    requires Accepted(w, token)
  {
    Call(token, w.tokens[token].admin, w.admins[w.tokens[token].admin].secret, phase)
  }

  /** The world with two more calls on the token, one in either phase. */
  function Two(w: World, token: nat, a: Phase, b: Phase): World
    requires Accepted(w, token)
  {
    w.(calls := map[w.nextCall := CallFor(w, token, a), w.nextCall + 1 := CallFor(w, token, b)],
      nextCall := w.nextCall + 2)
  }

  lemma TwoMore(past: map<nat, nat>, c: nat, token: nat)
    requires c !in past && c + 1 !in past
    ensures CallsOn(past[c := token][c + 1 := token], token) == CallsOn(past, token) + {c, c + 1}
  {
    OneMore(past, c, token);
    OneMore(past[c := token], c + 1, token);
  }

  lemma {:induction false} TwoEnter(first: World, events: seq<Event>, w: World, token: nat) returns (longer: seq<Event>)
    requires Reached(first, events, w) && Waiting(w, token)
    ensures Reached(first, longer, Two(w, token, Validated, Validated))
  {
    var c := w.nextCall;
    var one := w.(calls := map[c := CallFor(w, token, Validated)], nextCall := c + 1);
    assert Step(w, Enter(token)).calls == one.calls;
    longer := Then(first, events, w, Enter(token));
    assert Step(one, Enter(token)).calls == Two(w, token, Validated, Validated).calls;
    longer := Then(first, longer, one, Enter(token));
  }

  /** Both read the counter before either compares its code. */
  lemma {:induction false} TwoRead(first: World, events: seq<Event>, w: World, token: nat) returns (longer: seq<Event>)
    requires Reached(first, events, w) && Waiting(w, token)
    ensures Reached(first, longer, Two(w, token, Passed, Passed))
  {
    var c := w.nextCall;
    var entered, half := Two(w, token, Validated, Validated), Two(w, token, Passed, Validated);
    longer := TwoEnter(first, events, w, token);
    assert Step(entered, Do(c, Get)).calls == half.calls;
    longer := Then(first, longer, entered, Do(c, Get));
    assert Step(half, Do(c + 1, Get)).calls == Two(w, token, Passed, Passed).calls;
    longer := Then(first, longer, half, Do(c + 1, Get));
  }

  /** The call goes on from one phase to the next and the others stay. */
  ghost predicate Moves(w: World, w': World, c: nat, phase: Phase)
    requires c in w.calls
  {
    && Known(w', c) && w'.calls[c] == w.calls[c].(phase := phase)
    && forall d :: d != c && Known(w, d) ==> Known(w', d) && w'.calls[d] == w.calls[d]
  }

  lemma Miss(first: World, events: seq<Event>, w: World, c: nat) returns (longer: seq<Event>, w': World)
    requires Reached(first, events, w) && Known(w, c) && w.calls[c].phase == Passed && w.calls[c].secret.Some?
    ensures Reached(first, longer, w') && Moves(w, w', c, Wrong)
    ensures w'.past.wrong == w.past.wrong[c := w.calls[c].token]
  {
    w' := Step(w, Do(c, Compare(true, false)));
    longer := Then(first, events, w, Do(c, Compare(true, false)));
  }

  /** Then both wrong codes are compared, whatever the counter would have said to the second. */
  lemma {:induction false} TwoWrong(first: World, events: seq<Event>, w: World, token: nat)
      returns (longer: seq<Event>, w': World)
    requires Reached(first, events, w) && Waiting(w, token)
    ensures Reached(first, longer, w')
    ensures CallsOn(w'.past.wrong, token) == CallsOn(w.past.wrong, token) + {w.nextCall, w.nextCall + 1}
  {
    var c := w.nextCall;
    longer := TwoRead(first, events, w, token);
    w' := Two(w, token, Passed, Passed);
    longer, w' := Miss(first, longer, w', c);
    longer, w' := Miss(first, longer, w', c + 1);
    TwoMore(w.past.wrong, c, token);
  }

  lemma Hit(first: World, events: seq<Event>, w: World, c: nat) returns (longer: seq<Event>, w': World)
    requires Reached(first, events, w) && Known(w, c) && w.calls[c].phase == Passed && w.calls[c].secret.Some?
    ensures Reached(first, longer, w') && Moves(w, w', c, Right) && w'.past.issued == w.past.issued
  {
    w' := Step(w, Do(c, Compare(true, true)));
    longer := Then(first, events, w, Do(c, Compare(true, true)));
  }

  lemma Consume(first: World, events: seq<Event>, w: World, c: nat) returns (longer: seq<Event>, w': World)
    requires Reached(first, events, w) && Known(w, c) && w.calls[c].phase == Right
    ensures Reached(first, longer, w') && Moves(w, w', c, Spent) && w'.past == w.past
  {
    w' := Step(w, Do(c, Mark));
    longer := Then(first, events, w, Do(c, Mark));
  }

  lemma Forget(first: World, events: seq<Event>, w: World, c: nat) returns (longer: seq<Event>, w': World)
    requires Reached(first, events, w) && Known(w, c) && w.calls[c].phase == Spent
    ensures Reached(first, longer, w') && Moves(w, w', c, Cleared) && w'.past == w.past
  {
    w' := Step(w, Do(c, Clear));
    longer := Then(first, events, w, Do(c, Clear));
  }

  lemma Issue(first: World, events: seq<Event>, w: World, c: nat) returns (longer: seq<Event>, w': World)
    requires Reached(first, events, w) && Known(w, c) && w.calls[c].phase == Cleared
    ensures Reached(first, longer, w') && w'.past.issued == w.past.issued[c := w.calls[c].token]
    ensures forall d :: d != c && Known(w, d) ==> Known(w', d) && w'.calls[d] == w.calls[d]
  {
    w' := Step(w, Do(c, Finish));
    longer := Then(first, events, w, Do(c, Finish));
  }

  /** A call past the counter whose code is right runs to its end. */
  lemma {:induction false} RightToEnd(first: World, events: seq<Event>, w: World, c: nat)
      returns (longer: seq<Event>, w': World)
    requires Reached(first, events, w) && Known(w, c) && w.calls[c].phase == Passed && w.calls[c].secret.Some?
    ensures Reached(first, longer, w')
    ensures w'.past.issued == w.past.issued[c := w.calls[c].token]
    ensures forall d :: d != c && Known(w, d) ==> Known(w', d) && w'.calls[d] == w.calls[d]
  {
    longer, w' := Hit(first, events, w, c);
    longer, w' := Consume(first, longer, w', c);
    longer, w' := Forget(first, longer, w', c);
    longer, w' := Issue(first, longer, w', c);
  }

  /** And two right codes, compared so, both end in an access token. */
  lemma {:induction false} TwoRight(first: World, events: seq<Event>, w: World, token: nat)
      returns (longer: seq<Event>, w': World)
    requires Reached(first, events, w) && Waiting(w, token)
    ensures Reached(first, longer, w')
    ensures CallsOn(w'.past.issued, token) == CallsOn(w.past.issued, token) + {w.nextCall, w.nextCall + 1}
  {
    var c := w.nextCall;
    longer := TwoRead(first, events, w, token);
    w' := Two(w, token, Passed, Passed);
    longer, w' := RightToEnd(first, longer, w', c);
    longer, w' := RightToEnd(first, longer, w', c + 1);
    TwoMore(w.past.issued, c, token);
  }

  /** One undisturbed wrong code: it is counted, and the next call finds the token as before. */
  lemma {:induction false} OneWrong(first: World, events: seq<Event>, w: World, token: nat)
      returns (longer: seq<Event>, w': World)
    requires Reached(first, events, w) && Waiting(w, token) && Counter(w, token) < 2
    requires token in w.keys ==> w.keys[token].count >= 1
    ensures Reached(first, longer, w') && Waiting(w', token) && token in w'.keys && w'.keys[token].count >= 1
    ensures Counter(w', token) == Counter(w, token) + 1
    ensures CallsOn(w'.past.wrong, token) == CallsOn(w.past.wrong, token) + {w.nextCall}
    ensures w'.nextCall == w.nextCall + 1
  {
    var c := w.nextCall;
    longer, w' := EnterAndMiss(first, events, w, token);
    var w2 := Step(w', Do(c, Incr));
    longer := Then(first, longer, w', Do(c, Incr));
    OneMore(w.past.wrong, c, token);
    if c in w2.calls {
      longer := Then(first, longer, w2, Do(c, Expire));
      w' := Step(w2, Do(c, Expire));
    } else {
      w' := w2;
    }
    assert w'.calls == map[];
  }

  lemma {:induction false} EnterAndMiss(first: World, events: seq<Event>, w: World, token: nat)
      returns (longer: seq<Event>, w': World)
    requires Reached(first, events, w) && Waiting(w, token)
    ensures Reached(first, longer, w')
    ensures w' == w.(calls := map[w.nextCall := CallFor(w, token, Wrong)], nextCall := w.nextCall + 1,
                     past := w.past.(wrong := w.past.wrong[w.nextCall := token]))
  {
    var c := w.nextCall;
    var w1 := Step(w, Enter(token));
    assert w1.calls == map[c := CallFor(w, token, Validated)];
    longer := Then(first, events, w, Enter(token));
    var w2 := Step(w1, Do(c, Get));
    assert w2.calls == map[c := CallFor(w, token, Passed)];
    longer := Then(first, longer, w1, Do(c, Get));
    w' := Step(w2, Do(c, Compare(true, false)));
    assert w'.calls == map[c := CallFor(w, token, Wrong)];
    longer := Then(first, longer, w2, Do(c, Compare(true, false)));
  }

  /** A run from nothing that has a waiting token: a login, and a setup. */
  lemma SetUpOnce() returns (first: World, events: seq<Event>, w: World)
    ensures Fresh(first) && Reached(first, events, w) && Waiting(w, 0) && w.past == NOTHING && w.keys == map[]
  {
    first := World(0, map[0 := S.Admin(true, None, false)], map[], map[], map[], 0, NOTHING);
    var w1 := Step(first, Login(0, 0));
    events := Then(first, [], first, Login(0, 0));
    var w2 := Step(w1, EnterSetup(0));
    events := Then(first, events, w1, EnterSetup(0));
    w := Step(w2, Do(0, Write(7)));
    events := Then(first, events, w2, Do(0, Write(7)));
    assert w.calls == map[];
  }

  /** A run in which four wrong codes are checked for one token: two, one after the other, and then two that overlap. */
  lemma {:induction false} FourWrongCodes() returns (first: World, events: seq<Event>, w: World)
    ensures Fresh(first) && Reached(first, events, w) && |CallsOn(w.past.wrong, 0)| == 4
  {
    first, events, w := SetUpOnce();
    assert CallsOn(w.past.wrong, 0) == {};
    var n := w.nextCall;
    events, w := OneWrong(first, events, w, 0);
    events, w := OneWrong(first, events, w, 0);
    events, w := TwoWrong(first, events, w, 0);
    assert CallsOn(w.past.wrong, 0) == {n, n + 1, n + 2, n + 3};
  }

  /** A run in which one token yields two access tokens. */
  lemma {:induction false} TwoAccessTokens() returns (first: World, events: seq<Event>, w: World)
    ensures Fresh(first) && Reached(first, events, w) && |CallsOn(w.past.issued, 0)| == 2
  {
    first, events, w := SetUpOnce();
    assert CallsOn(w.past.issued, 0) == {};
    var n := w.nextCall;
    events, w := TwoRight(first, events, w, 0);
    assert CallsOn(w.past.issued, 0) == {n, n + 1};
  }

  // ---------------------------------------------------------------- a call alone

  /** The same rows and counters as in the model in which a call is one step. */
  ghost predicate Matches(w: World, s: S.World) {
    && w.now == s.now && w.admins == s.admins && w.tokens == s.tokens && w.keys.Keys == s.keys.Keys
    && forall t :: t in w.keys ==>
         w.keys[t] == Key(s.keys[t].count, Some(s.keys[t].deadline)) && w.keys[t].count >= 1
  }

  /** All steps of one call, back to back. */
  function Lone(w: World, token: nat, readable: bool, right: bool): World
    requires Accepted(w, token)
  {
    var c := w.nextCall;
    var got := Got(Open(w, token, Validated), c);
    if got.calls[c].phase == Locked then Marked(got, c)
    else
      var compared := Compared(got, c, readable, right);
      if c !in compared.calls then compared
      else if right then Finished(Done(Marked(compared, c), c, Clear), c)
      else
        var counted := Counted(compared, c);
        if c !in counted.calls then counted
        else if counted.calls[c].phase == FirstWrong then Expired(counted, c)
        else Marked(counted, c)
  }

  /** A call with no other open does to the rows and counters what the one-step model says. */
  lemma AloneIsTheCall(w: World, s: S.World, token: nat, readable: bool, right: bool)
    requires Matches(w, s) && Accepted(w, token) && w.calls == map[]
    ensures S.Accepted(s, token)
    ensures Matches(Lone(w, token, readable, right), S.Verified(s, token, readable, right).0)
    ensures Lone(w, token, readable, right).calls == map[]
  {
    assert Counter(w, token) == S.Counter(s, token);
    if Counter(w, token) < S.MAX_WRONG && w.admins[w.tokens[token].admin].secret.Some? && readable && !right {
      if Counter(w, token) == 0 { AloneFirst(w, s, token); }
      if Counter(w, token) == 1 { AloneSecond(w, s, token); }
      if Counter(w, token) == 2 { AloneThird(w, s, token); }
    }
  }

  lemma AloneFirst(w: World, s: S.World, token: nat)
    requires Matches(w, s) && Accepted(w, token) && w.calls == map[]
    requires Counter(w, token) == 0 && w.admins[w.tokens[token].admin].secret.Some?
    ensures Matches(Lone(w, token, true, false), S.Verified(s, token, true, false).0)
    ensures Lone(w, token, true, false).calls == map[]
  {
    assert Counter(w, token) == S.Counter(s, token);
  }

  lemma AloneSecond(w: World, s: S.World, token: nat)
    requires Matches(w, s) && Accepted(w, token) && w.calls == map[]
    requires Counter(w, token) == 1 && w.admins[w.tokens[token].admin].secret.Some?
    ensures Matches(Lone(w, token, true, false), S.Verified(s, token, true, false).0)
    ensures Lone(w, token, true, false).calls == map[]
  {
    assert Counter(w, token) == S.Counter(s, token);
  }

  lemma AloneThird(w: World, s: S.World, token: nat)
    requires Matches(w, s) && Accepted(w, token) && w.calls == map[]
    requires Counter(w, token) == 2 && w.admins[w.tokens[token].admin].secret.Some?
    ensures Matches(Lone(w, token, true, false), S.Verified(s, token, true, false).0)
    ensures Lone(w, token, true, false).calls == map[]
  {
    assert Counter(w, token) == S.Counter(s, token);
  }

  // ---------------------------------------------------------------- the secret of a verified account

  /** Some setup of this account has read its row and not yet written it. */
  predicate SetupOpen(w: World, id: nat) {
    exists c :: c in w.calls && w.calls[c].phase == SettingUp && w.calls[c].admin == id
  }

  ghost predicate Settled(w: World, id: nat, secret: Option<nat>) {
    id in w.admins && w.admins[id].verified && w.admins[id].secret == secret && secret.Some? && !SetupOpen(w, id)
  }

  lemma StepSettled(w: World, e: Event, id: nat, secret: Option<nat>)
    requires Inv(w) && Can(w, e) && Settled(w, id, secret)
    ensures Settled(Step(w, e), id, secret)
  {
    var w' := Step(w, e);
    if e.Do? {
      DoSettled(w, e.c, e.act, id, secret);
    } else {
      forall c | c in w'.calls && w'.calls[c].phase == SettingUp ensures w'.calls[c].admin != id {
        assert c in w.calls && c != w.nextCall ==> w'.calls[c] == w.calls[c];
      }
    }
  }

  lemma DoSettled(w: World, c: nat, act: Act, id: nat, secret: Option<nat>)
    requires Inv(w) && Known(w, c) && Ready(w.calls[c].phase, act) && Settled(w, id, secret)
    ensures Settled(Done(w, c, act), id, secret)
  {
    var w' := Done(w, c, act);
    DoneLocal(w, c, act);
    NeverSetsUp(w, c, act);
    forall d | d in w'.calls && w'.calls[d].phase == SettingUp ensures w'.calls[d].admin != id {
      assert d in w.calls && w.calls[d].phase == SettingUp;
    }
    if w.calls[c].admin == id {
      assert w.calls[c].phase != SettingUp;
      OnlyWriteWrites(w, c, act);
    }
  }

  lemma NeverSetsUp(w: World, c: nat, act: Act)
    requires Known(w, c) && Ready(w.calls[c].phase, act)
    ensures var w' := Done(w, c, act); c in w'.calls ==> w'.calls[c].phase != SettingUp
  {
  }

  lemma OnlyWriteWrites(w: World, c: nat, act: Act)
    requires Known(w, c) && !act.Write?
    ensures var admin := w.calls[c].admin;
            && Done(w, c, act).admins[admin].secret == w.admins[admin].secret
            && (w.admins[admin].verified ==> Done(w, c, act).admins[admin].verified)
  {
  }

  lemma {:induction false} RunSettled(w: World, events: seq<Event>, id: nat, secret: Option<nat>)
    requires Inv(w) && Possible(w, events) && Settled(w, id, secret)
    ensures Settled(Run(w, events), id, secret)
    decreases |events|
  {
    if events != [] {
      RunKeeps(w, events[..|events| - 1]);
      RunSettled(w, events[..|events| - 1], id, secret);
      StepSettled(Run(w, events[..|events| - 1]), events[|events| - 1], id, secret);
    }
  }

  /** The account's secret is another one after these steps. */
  ghost predicate Changes(w: World, events: seq<Event>, id: nat) {
    Possible(w, events) && id in w.admins && id in Run(w, events).admins
      && Run(w, events).admins[id].secret != w.admins[id].secret
  }

  /** The secret of a verified account can still change exactly while a setup that read the row before is open. */
  lemma {:induction false} SecretCanChangeExactlyWhen(w: World, id: nat)
    requires Reachable(w) && id in w.admins && w.admins[id].verified
    ensures (exists events :: Changes(w, events, id)) <==> SetupOpen(w, id)
  {
    ReachableInv(w);
    if SetupOpen(w, id) {
      var c :| c in w.calls && w.calls[c].phase == SettingUp && w.calls[c].admin == id;
      assert CallOk(w, w.calls[c]);
      var drawn := w.admins[id].secret.value + 1;
      assert Reached(w, [], w);
      var events := Then(w, [], w, Do(c, Write(drawn)));
      assert Changes(w, events, id);
    } else {
      forall events | Possible(w, events) ensures !Changes(w, events, id) {
        RunSettled(w, events, id, w.admins[id].secret);
      }
    }
  }

  /** However calls overlap, an access token is for the account that its pre-auth token was bought for. */
  lemma IssuedToTheOwner(w: World, c: nat)
    requires Reachable(w) && Can(w, Do(c, Finish))
    ensures var token, w' := w.calls[c].token, Step(w, Do(c, Finish));
            && token in w.tokens && w.calls[c].admin == w.tokens[token].admin
            && w.calls[c].admin in w'.admins && w'.admins[w.calls[c].admin].verified
            && c in w'.past.issued && w'.past.issued[c] == token
            && forall other :: other in w.admins && other != w.calls[c].admin ==>
                 other in w'.admins && w'.admins[other] == w.admins[other]
  {
    ReachableInv(w);
    assert CallOk(w, w.calls[c]);
  }
}

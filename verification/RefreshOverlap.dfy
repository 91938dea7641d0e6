/**
 Rotations of refresh tokens that overlap: a call reads and judges its row, revokes it, and inserts the successor in
 separate statements without a transaction, and may stop after any of them. Signing in and revoking all tokens of a user
 are one statement each.
 */
module RefreshOverlap {
  import R = RefreshTokens

  /** Judged accepted, its token revoked, or judged a reuse and about to revoke the family. */
  datatype Phase = Judged | Revoked | Reusing

  datatype Call = Call(token: nat, family: nat, phase: Phase)

  datatype World = World(table: R.Table, open: map<nat, Call>, nextCall: nat)

  datatype Event =
    | Login(token: nat, user: nat, family: nat, now: int)
    | Read(token: nat, now: int, account: R.Account)
    | RevokeOld(c: nat)
    | Insert(c: nat, successor: nat, now: int)
    | RevokeFamily(c: nat)
    | Stop(c: nat)
    | Anonymize(user: nat)

  const NEW := World(map[], map[], 0)

  /** A call that is refused for another reason than reuse changes nothing and is no step. */
  predicate Can(w: World, e: Event) {
    match e
    case Login(token, _, family, _) => token !in w.table && forall t :: t in w.table ==> w.table[t].family != family
    case Read(token, now, account) => R.Judge(w.table, token, now, account) in {R.Accepted, R.Reuse}
    case RevokeOld(c) => c in w.open && w.open[c].phase == Judged && w.open[c].token in w.table
    case Insert(c, successor, _) =>
      c in w.open && w.open[c].phase == Revoked && w.open[c].token in w.table && successor !in w.table
    case RevokeFamily(c) => c in w.open && w.open[c].phase == Reusing
    case Stop(c) => c in w.open
    case Anonymize(_) => true
  }

  function Opened(w: World, token: nat, phase: Phase): World
    requires token in w.table
  {
    w.(open := w.open[w.nextCall := Call(token, w.table[token].family, phase)], nextCall := w.nextCall + 1)
  }

  function Step(w: World, e: Event): World
    requires Can(w, e)
  {
    match e
    case Login(token, user, family, now) => w.(table := R.Start(w.table, token, user, family, now))
    case Read(token, now, account) =>
      Opened(w, token, if R.Judge(w.table, token, now, account) == R.Accepted then Judged else Reusing)
    case RevokeOld(c) =>
      w.(table := R.Revoke(w.table, w.open[c].token), open := w.open[c := w.open[c].(phase := Revoked)])
    case Insert(c, successor, now) =>
      w.(table := R.Succeed(w.table, w.open[c].token, successor, now), open := w.open - {c})
    case RevokeFamily(c) => w.(table := R.RevokeFamily(w.table, w.open[c].family), open := w.open - {c})
    case Stop(c) => w.(open := w.open - {c})
    case Anonymize(user) => w.(table := R.RevokeUser(w.table, user))
  }

  predicate Possible(w: World, events: seq<Event>)
    decreases |events|, 0
  {
    events == []
    || (Possible(w, events[..|events| - 1]) && Can(Run(w, events[..|events| - 1]), events[|events| - 1]))
  }

  function Run(w: World, events: seq<Event>): World
    requires Possible(w, events)
    decreases |events|, 1
  {
    if events == [] then w else Step(Run(w, events[..|events| - 1]), events[|events| - 1])
  }

  /** The open call is going to insert a successor, unless it stops. */
  predicate Claims(w: World, c: nat, family: nat) {
    c in w.open && w.open[c].family == family && w.open[c].phase != Reusing
  }

  predicate Holds(w: World, c: nat, token: nat) {
    c in w.open && w.open[c].token == token && w.open[c].phase == Judged
  }

  predicate LiveIn(w: World, token: nat, family: nat) {
    R.Live(w.table, token) && w.table[token].family == family
  }

  // ---------------------------------------------------------------- what every run keeps

  ghost predicate Inv(w: World) {
    forall c :: c in w.open ==>
      c < w.nextCall && w.open[c].token in w.table && w.table[w.open[c].token].family == w.open[c].family
  }

  lemma StepKeeps(w: World, e: Event)
    requires Inv(w) && Can(w, e)
    ensures Inv(Step(w, e))
  {
  }

  lemma {:induction false} RunKeeps(w: World, events: seq<Event>)
    requires Inv(w) && Possible(w, events)
    ensures Inv(Run(w, events))
    decreases |events|
  {
    if events != [] {
      RunKeeps(w, events[..|events| - 1]);
      StepKeeps(Run(w, events[..|events| - 1]), events[|events| - 1]);
    }
  }

  // ---------------------------------------------------------------- one live token a family

  /** A family has one live token, or one call that is going to insert one. */
  ghost predicate Single(w: World, family: nat) {
    && (forall a, b :: LiveIn(w, a, family) && LiveIn(w, b, family) ==> a == b)
    && (forall c, d :: Claims(w, c, family) && Claims(w, d, family) ==> c == d)
    && (forall c, a :: Claims(w, c, family) && LiveIn(w, a, family) ==> Holds(w, c, a))
  }

  /** No call is judged accepted while another holds the same token. */
  predicate Exclusive(w: World, e: Event)
    requires Can(w, e)
  {
    e.Read? && R.Live(w.table, e.token) ==> forall c :: c in w.open ==> !Holds(w, c, e.token)
  }

  lemma ReadSingle(w: World, token: nat, now: int, account: R.Account, family: nat)
    requires Inv(w) && Can(w, Read(token, now, account)) && Exclusive(w, Read(token, now, account))
    requires Single(w, family)
    ensures Single(Step(w, Read(token, now, account)), family)
  {
    var w' := Step(w, Read(token, now, account));
    assert forall a :: LiveIn(w', a, family) <==> LiveIn(w, a, family);
    assert forall c :: c in w.open ==> (Claims(w', c, family) <==> Claims(w, c, family));
    if Claims(w', w.nextCall, family) {
      assert LiveIn(w, token, family);
      assert forall c :: Claims(w, c, family) ==> Holds(w, c, token);
    }
  }

  lemma InsertSingle(w: World, c: nat, successor: nat, now: int, family: nat)
    requires Inv(w) && Can(w, Insert(c, successor, now)) && Single(w, family)
    ensures Single(Step(w, Insert(c, successor, now)), family)
  {
    var w' := Step(w, Insert(c, successor, now));
    assert forall a :: a != successor ==> (LiveIn(w', a, family) <==> LiveIn(w, a, family));
    assert forall d :: Claims(w', d, family) ==> Claims(w, d, family) && d != c;
    if w.open[c].family == family {
      assert Claims(w, c, family);
    }
  }

  lemma LoginSingle(w: World, token: nat, user: nat, other: nat, now: int, family: nat)
    requires Inv(w) && Can(w, Login(token, user, other, now)) && Single(w, family)
    ensures Single(Step(w, Login(token, user, other, now)), family)
  {
    var w' := Step(w, Login(token, user, other, now));
    assert forall a :: a != token ==> (LiveIn(w', a, family) <==> LiveIn(w, a, family));
    assert forall c :: Claims(w', c, family) <==> Claims(w, c, family);
    assert forall c, a :: Holds(w', c, a) <==> Holds(w, c, a);
    if other == family {
      assert forall a :: !LiveIn(w, a, family);
      assert forall c :: !Claims(w, c, family);
    }
  }

  lemma FewerSingle(w: World, w': World, family: nat)
    requires Single(w, family)
    requires forall a :: LiveIn(w', a, family) ==> LiveIn(w, a, family)
    requires forall c :: Claims(w', c, family) ==> Claims(w, c, family)
    requires forall c, a :: Claims(w', c, family) && LiveIn(w', a, family) && Holds(w, c, a) ==> Holds(w', c, a)
    ensures Single(w', family)
  {
  }

  lemma ExclusiveStep(w: World, e: Event, family: nat)
    requires Inv(w) && Can(w, e) && Exclusive(w, e) && Single(w, family)
    ensures Single(Step(w, e), family)
  {
    match e
    case Read(token, now, account) => ReadSingle(w, token, now, account, family);
    case Insert(c, successor, now) => InsertSingle(w, c, successor, now, family);
    case RevokeOld(c) =>
      var w' := Step(w, e);
      assert forall a :: LiveIn(w', a, family) ==> LiveIn(w, a, family) && a != w.open[c].token;
      assert forall d :: Claims(w', d, family) ==> Claims(w, d, family);
      FewerSingle(w, w', family);
    case Login(token, user, other, now) => LoginSingle(w, token, user, other, now, family);
    case _ => FewerSingle(w, Step(w, e), family);
  }

  ghost predicate Exclusives(w: World, events: seq<Event>)
    requires Possible(w, events)
  {
    forall k: nat :: k < |events| && Possible(w, events[..k]) && Can(Run(w, events[..k]), events[k]) ==>
      Exclusive(Run(w, events[..k]), events[k])
  }

  lemma ExclusivesBefore(w: World, events: seq<Event>)
    requires Possible(w, events) && Exclusives(w, events) && events != []
    ensures Exclusives(w, events[..|events| - 1])
  {
    var n := |events| - 1;
    forall k: nat | k < n && Possible(w, events[..n][..k]) && Can(Run(w, events[..n][..k]), events[..n][k])
      ensures Exclusive(Run(w, events[..n][..k]), events[..n][k])
    {
      assert events[..n][..k] == events[..k];
    }
  }

  lemma {:induction false} SingleAlong(w: World, events: seq<Event>, family: nat)
    requires Inv(w) && Single(w, family) && Possible(w, events) && Exclusives(w, events)
    ensures Inv(Run(w, events)) && Single(Run(w, events), family)
    decreases |events|
  {
    if events != [] {
      var n := |events| - 1;
      ExclusivesBefore(w, events);
      SingleAlong(w, events[..n], family);
      assert Exclusive(Run(w, events[..n]), events[n]);
      StepKeeps(Run(w, events[..n]), events[n]);
      ExclusiveStep(Run(w, events[..n]), events[n], family);
    }
  }

  /**
   However calls interleave and stop, a family has at most one live token as long as no two calls are judged accepted
   for one token before either has revoked it.
   */
  lemma {:induction false} OneLiveWithoutOverlap(events: seq<Event>)
    requires Possible(NEW, events) && Exclusives(NEW, events)
    ensures R.OneLive(Run(NEW, events).table)
  {
    var w := Run(NEW, events);
    forall a, b | R.Live(w.table, a) && R.Live(w.table, b) && w.table[a].family == w.table[b].family ensures a == b {
      var family := w.table[a].family;
      SingleAlong(NEW, events, family);
      assert LiveIn(w, a, family) && LiveIn(w, b, family);
    }
  }

  ghost predicate Splits(w: World, events: seq<Event>, family: nat) {
    && Possible(w, events) && Exclusives(w, events)
    && exists a, b :: a != b && LiveIn(Run(w, events), a, family) && LiveIn(Run(w, events), b, family)
  }

  /** The four statements that two calls judged on one token still send, and no call is judged among them. */
  function TwoRotations(c: nat, d: nat, s: nat, t: nat): seq<Event> {
    [RevokeOld(c), RevokeOld(d), Insert(c, s, 0), Insert(d, t, 0)]
  }

  lemma RotateBoth(w: World, c: nat, d: nat, s: nat, t: nat) returns (w4: World)
    requires Inv(w) && c != d && c in w.open && d in w.open && w.open[c].token == w.open[d].token
    requires w.open[c].phase == Judged && w.open[d].phase == Judged
    requires s != t && s !in w.table && t !in w.table
    ensures Possible(w, TwoRotations(c, d, s, t)) && Run(w, TwoRotations(c, d, s, t)) == w4
    ensures LiveIn(w4, s, w.open[c].family) && LiveIn(w4, t, w.open[c].family)
  {
    var events := TwoRotations(c, d, s, t);
    assert events[..0] == [];
    var w1 := Step(w, RevokeOld(c));
    Then(w, [], w, RevokeOld(c));
    var w2 := Step(w1, RevokeOld(d));
    Then(w, [RevokeOld(c)], w1, RevokeOld(d));
    var w3 := Step(w2, Insert(c, s, 0));
    assert [RevokeOld(c)] + [RevokeOld(d)] == [RevokeOld(c), RevokeOld(d)];
    Then(w, [RevokeOld(c), RevokeOld(d)], w2, Insert(c, s, 0));
    assert [RevokeOld(c), RevokeOld(d)] + [Insert(c, s, 0)] == [RevokeOld(c), RevokeOld(d), Insert(c, s, 0)];
    w4 := Step(w3, Insert(d, t, 0));
    Then(w, [RevokeOld(c), RevokeOld(d), Insert(c, s, 0)], w3, Insert(d, t, 0));
    assert events == [RevokeOld(c), RevokeOld(d), Insert(c, s, 0)] + [Insert(d, t, 0)];
  }

  lemma Then(first: World, events: seq<Event>, w: World, e: Event)
    requires Possible(first, events) && Run(first, events) == w && Can(w, e)
    ensures Possible(first, events + [e]) && Run(first, events + [e]) == Step(w, e)
  {
    assert (events + [e])[..|events|] == events;
  }

  lemma {:induction false} NewToken(table: R.Table, above: nat, left: set<nat>) returns (token: nat)
    requires left == set t | t in table && t >= above
    ensures token !in table && token >= above
    decreases |left|
  {
    if above !in table {
      token := above;
    } else {
      assert above in left;
      token := NewToken(table, above + 1, left - {above});
    }
  }

  lemma NoReads(w: World, events: seq<Event>)
    requires Possible(w, events) && forall k :: 0 <= k < |events| ==> !events[k].Read?
    ensures Exclusives(w, events)
  {
  }

  /**
   From a state whose calls did not overlap, a call judged accepted can lead to two live tokens, with no further
   overlap, exactly when another call holds its token at that instant.
   */
  lemma {:induction false} SplitsExactlyWhen(before: seq<Event>, token: nat, now: int, account: R.Account)
    requires Possible(NEW, before) && Exclusives(NEW, before)
    requires R.Judge(Run(NEW, before).table, token, now, account) == R.Accepted
    ensures var w := Run(NEW, before);
            && Can(w, Read(token, now, account))
            && ((exists events :: Splits(Step(w, Read(token, now, account)), events, w.table[token].family))
                <==> exists c :: Holds(w, c, token))
  {
    var w := Run(NEW, before);
    var family := w.table[token].family;
    SingleAlong(NEW, before, family);
    var after := Step(w, Read(token, now, account));
    StepKeeps(w, Read(token, now, account));
    if exists c :: Holds(w, c, token) {
      var c :| Holds(w, c, token);
      SplitBy(after, c, w.nextCall);
    } else {
      ReadSingle(w, token, now, account, family);
      forall events | Possible(after, events) && Exclusives(after, events) ensures !Splits(after, events, family) {
        SingleAlong(after, events, family);
      }
    }
  }

  lemma SplitBy(w: World, c: nat, d: nat)
    requires Inv(w) && c != d && c in w.open && d in w.open && w.open[c].token == w.open[d].token
    requires w.open[c].phase == Judged && w.open[d].phase == Judged
    ensures exists events :: Splits(w, events, w.open[c].family)
  {
    var s := NewToken(w.table, 0, set t | t in w.table && t >= 0);
    var t := NewToken(w.table, s + 1, set t | t in w.table && t >= s + 1);
    var last := RotateBoth(w, c, d, s, t);
    NoReads(w, TwoRotations(c, d, s, t));
    assert Splits(w, TwoRotations(c, d, s, t), w.open[c].family);
  }

  // ---------------------------------------------------------------- families that were revoked

  ghost predicate Dead(w: World, family: nat) {
    && (exists t :: t in w.table && w.table[t].family == family)
    && (forall t :: !LiveIn(w, t, family))
  }

  ghost predicate Gone(w: World, family: nat) {
    Dead(w, family) && forall c :: !Claims(w, c, family)
  }

  lemma GoneStep(w: World, e: Event, family: nat)
    requires Inv(w) && Can(w, e) && Gone(w, family)
    ensures Gone(Step(w, e), family)
  {
    var t :| t in w.table && w.table[t].family == family;
    var w' := Step(w, e);
    assert t in w'.table && w'.table[t].family == family;
    assert e.Insert? ==> !Claims(w, e.c, family);
    assert forall a :: LiveIn(w', a, family) ==> LiveIn(w, a, family);
    assert e.Read? && Claims(w', w.nextCall, family) ==> LiveIn(w, e.token, family);
    assert forall c :: c != w.nextCall && Claims(w', c, family) ==> Claims(w, c, family);
    assert Claims(w', w.nextCall, family) && !e.Read? ==> Claims(w, w.nextCall, family);
  }

  lemma {:induction false} GoneForEver(w: World, events: seq<Event>, family: nat)
    requires Inv(w) && Possible(w, events) && Gone(w, family)
    ensures Inv(Run(w, events)) && Gone(Run(w, events), family)
    decreases |events|
  {
    if events != [] {
      GoneForEver(w, events[..|events| - 1], family);
      StepKeeps(Run(w, events[..|events| - 1]), events[|events| - 1]);
      GoneStep(Run(w, events[..|events| - 1]), events[|events| - 1], family);
    }
  }

  ghost predicate Revives(w: World, events: seq<Event>, family: nat) {
    Possible(w, events) && exists t :: LiveIn(Run(w, events), t, family)
  }

  lemma InsertRevives(w: World, c: nat)
    requires Inv(w) && c in w.open && w.open[c].phase == Revoked
    ensures exists events :: Revives(w, events, w.open[c].family)
  {
    var s := NewToken(w.table, 0, set t | t in w.table && t >= 0);
    Then(w, [], w, Insert(c, s, 0));
    assert LiveIn(Step(w, Insert(c, s, 0)), s, w.open[c].family);
    assert Revives(w, [] + [Insert(c, s, 0)], w.open[c].family);
  }

  lemma JudgedRevives(w: World, c: nat)
    requires Inv(w) && c in w.open && w.open[c].phase == Judged
    ensures exists events :: Revives(w, events, w.open[c].family)
  {
    var s := NewToken(w.table, 0, set t | t in w.table && t >= 0);
    var w1 := Step(w, RevokeOld(c));
    Then(w, [], w, RevokeOld(c));
    Then(w, [] + [RevokeOld(c)], w1, Insert(c, s, 0));
    assert LiveIn(Step(w1, Insert(c, s, 0)), s, w.open[c].family);
    assert Revives(w, [] + [RevokeOld(c)] + [Insert(c, s, 0)], w.open[c].family);
  }

  /**
   A family without a live token, as the reuse branch leaves it, can have one again exactly while a rotation of one of
   its tokens is open that was judged accepted before.
   */
  lemma {:induction false} RevivesExactlyWhen(before: seq<Event>, family: nat)
    requires Possible(NEW, before) && Dead(Run(NEW, before), family)
    ensures var w := Run(NEW, before);
            (exists events :: Revives(w, events, family)) <==> exists c :: Claims(w, c, family)
  {
    var w := Run(NEW, before);
    RunKeeps(NEW, before);
    if exists c :: Claims(w, c, family) {
      var c :| Claims(w, c, family);
      if w.open[c].phase == Judged { JudgedRevives(w, c); } else { InsertRevives(w, c); }
    } else {
      forall events | Possible(w, events) ensures !Revives(w, events, family) {
        GoneForEver(w, events, family);
      }
    }
  }

  /** The statement of the reuse branch leaves no live token in the family. */
  lemma ReuseKills(w: World, c: nat)
    requires Inv(w) && Can(w, RevokeFamily(c))
    ensures Dead(Step(w, RevokeFamily(c)), w.open[c].family)
  {
    assert w.open[c].token in Step(w, RevokeFamily(c)).table;
  }

  // ---------------------------------------------------------------- a call alone

  /** The statements of one call, back to back, are the call of the one-call model. */
  lemma AloneIsTheCall(w: World, token: nat, successor: nat, now: int, account: R.Account)
    requires Inv(w) && R.Judge(w.table, token, now, account) == R.Accepted && successor !in w.table
    ensures var op := R.Rotate(token, successor, now, account);
            var read := Read(token, now, account);
            && Can(w, read) && Can(Step(w, read), RevokeOld(w.nextCall))
            && Step(Step(w, read), RevokeOld(w.nextCall)).table == R.Stopped(w.table, op, 1)
            && Can(Step(Step(w, read), RevokeOld(w.nextCall)), Insert(w.nextCall, successor, now))
            && var last := Step(Step(Step(w, read), RevokeOld(w.nextCall)), Insert(w.nextCall, successor, now));
               last.table == R.Stopped(w.table, op, 2) && last.open == w.open
  {
  }

  // ---------------------------------------------------------------- runs that overlap

  lemma Next(events: seq<Event>, w: World, e: Event) returns (longer: seq<Event>, w': World)
    requires Possible(NEW, events) && Run(NEW, events) == w && Can(w, e)
    ensures Possible(NEW, longer) && Run(NEW, longer) == w' && w' == Step(w, e)
  {
    Then(NEW, events, w, e);
    longer, w' := events + [e], Step(w, e);
  }

  /** A run in which a family has two live tokens: two calls read its token before either revokes it. */
  lemma TwoLiveTokens() returns (events: seq<Event>, w: World)
    ensures Possible(NEW, events) && Run(NEW, events) == w && LiveIn(w, 1, 0) && LiveIn(w, 2, 0)
  {
    var account := R.Account(R.Good, true);
    events, w := Next([], NEW, Login(0, 0, 0, 0));
    events, w := Next(events, w, Read(0, 0, account));
    events, w := Next(events, w, Read(0, 0, account));
    events, w := Next(events, w, RevokeOld(0));
    events, w := Next(events, w, RevokeOld(1));
    events, w := Next(events, w, Insert(0, 1, 0));
    events, w := Next(events, w, Insert(1, 2, 0));
  }

  /** A run in which a family that was revoked for reuse gets a live token again. */
  lemma ReusedAndLiveAgain() returns (events: seq<Event>, w: World, last: World)
    ensures Possible(NEW, events) && Run(NEW, events) == w && Dead(w, 0)
    ensures Can(w, Insert(0, 1, 0)) && last == Step(w, Insert(0, 1, 0)) && LiveIn(last, 1, 0)
  {
    var account := R.Account(R.Good, true);
    events, w := Next([], NEW, Login(0, 0, 0, 0));
    events, w := Next(events, w, Read(0, 0, account));
    events, w := Next(events, w, RevokeOld(0));
    events, w := Next(events, w, Read(0, 0, account));
    events, w := Next(events, w, RevokeFamily(1));
    assert 0 in w.table;
    last := Step(w, Insert(0, 1, 0));
  }
}

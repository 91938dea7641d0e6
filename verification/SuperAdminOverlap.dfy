/**
 The two-step login when calls overlap: validating the token, reading the counter, comparing the code, `INCR`, `EXPIRE`
 and each `UPDATE` are steps of their own, setup reads and writes apart, and a call may stop after any of its steps.
 */
module SuperAdminOverlap {
  import opened Common
  import S = SuperAdminTotp

  /** How far a call has come: past validation, past the counter, past the comparison, and so on to its end. */
  datatype Phase =
    | Validated | Passed | Locked
    | Wrong | FirstWrong | Refused
    | Right | Spent | Cleared
    | SettingUp

  /** Past a wrong code, and past a right one. */
  predicate AfterWrong(phase: Phase) {
    phase == Wrong || phase == FirstWrong || phase == Refused
  }

  predicate AfterRight(phase: Phase) {
    phase == Right || phase == Spent || phase == Cleared
  }

  /** An open call with the row its validation read. */
  datatype Call = Call(token: nat, admin: nat, secret: Option<nat>, phase: Phase)

  /** A Redis counter; `INCR` makes it without a deadline, `EXPIRE` sets one. */
  datatype Key = Key(count: nat, deadline: Option<int>)

  /**
   By call, the token of each wrong code, right code, access token and call that broke off; `early` are the wrong codes
   counted as first or second while the token was still good.
   */
  datatype History = History(
    wrong: map<nat, nat>, early: map<nat, nat>, right: map<nat, nat>, issued: map<nat, nat>,
    stopped: map<nat, nat>)

  datatype World = World(
    now: int, admins: map<nat, S.Admin>, tokens: map<nat, S.Token>, keys: map<nat, Key>,
    calls: map<nat, Call>, nextCall: nat, past: History)

  /** What an open call does next. */
  datatype Act =
    | Get
    | Compare(readable: bool, right: bool)
    | Incr
    | Expire
    | Mark
    | Clear
    | Finish
    | Write(drawn: nat)
    | Stop

  datatype Event =
    | Wait(micros: nat)
    | SetActive(admin: nat, on: bool)
    | Login(admin: nat, token: nat)
    | Enter(token: nat)
    | EnterSetup(token: nat)
    | Do(c: nat, act: Act)

  predicate Accepted(w: World, token: nat) {
    && token in w.tokens && w.tokens[token].admin in w.admins
    && !w.tokens[token].used && w.tokens[token].expiresAt >= w.now && w.admins[w.tokens[token].admin].isActive
  }

  function Counter(w: World, token: nat): nat {
    if token in w.keys && (w.keys[token].deadline.None? || w.now <= w.keys[token].deadline.value)
    then w.keys[token].count else 0
  }

  predicate Configured(admin: S.Admin) {
    admin.secret.Some? && admin.verified
  }

  predicate Ready(phase: Phase, act: Act) {
    match act
    case Get => phase == Validated
    case Compare(_, _) => phase == Passed
    case Incr => phase == Wrong
    case Expire => phase == FirstWrong
    case Mark => phase == Locked || phase == Refused || phase == Right
    case Clear => phase == Spent
    case Finish => phase == Cleared
    case Write(_) => phase == SettingUp
    case Stop => true
  }

  /** The rows a call refers to exist: rows are never deleted. */
  predicate Known(w: World, c: nat) {
    c in w.calls && w.calls[c].token in w.tokens && w.calls[c].admin in w.admins
  }

  /** A refused validation is not a step: it changes nothing. Calls are numbered, so `Enter` needs no name. */
  predicate Can(w: World, e: Event) {
    match e
    case Wait(_) => true
    case SetActive(admin, _) => admin in w.admins
    case Login(admin, token) => token !in w.tokens && admin in w.admins && w.admins[admin].isActive
    case Enter(token) => Accepted(w, token)
    case EnterSetup(token) => Accepted(w, token) && !Configured(w.admins[w.tokens[token].admin])
    case Do(c, act) => Known(w, c) && Ready(w.calls[c].phase, act)
  }

  function Open(w: World, token: nat, phase: Phase): World
    requires Accepted(w, token)
  {
    var admin := w.tokens[token].admin;
    w.(calls := w.calls[w.nextCall := Call(token, admin, w.admins[admin].secret, phase)], nextCall := w.nextCall + 1)
  }

  function To(w: World, c: nat, phase: Phase): World
    requires c in w.calls
  {
    w.(calls := w.calls[c := w.calls[c].(phase := phase)])
  }

  function Close(w: World, c: nat): World {
    w.(calls := w.calls - {c})
  }

  function Got(w: World, c: nat): World
    requires Known(w, c)
  {
    To(w, c, if Counter(w, w.calls[c].token) >= S.MAX_WRONG then Locked else Passed)
  }

  /** Compare the code with the secret that validation read; without one, or if it cannot be decrypted, raise. */
  function Compared(w: World, c: nat, readable: bool, right: bool): World
    requires Known(w, c)
  {
    var token := w.calls[c].token;
    if w.calls[c].secret.None? || !readable then Close(w, c)
    else if right then To(w, c, Right).(past := w.past.(right := w.past.right[c := token]))
    else To(w, c, Wrong).(past := w.past.(wrong := w.past.wrong[c := token]))
  }

  /** No validation accepts the token any more. */
  predicate Shut(w: World, token: nat) {
    token in w.tokens && (w.tokens[token].used || w.now > w.tokens[token].expiresAt)
  }

  function Counted(w: World, c: nat): World
    requires Known(w, c)
  {
    var token := w.calls[c].token;
    var n := Counter(w, token) + 1;
    var early := if n <= 2 && !Shut(w, token) then w.past.early[c := token] else w.past.early;
    var next := w.(keys := w.keys[token := Key(n, if n == 1 then None else w.keys[token].deadline)],
                   past := w.past.(early := early));
    if n == 1 then To(next, c, FirstWrong) else if n == 2 then Close(next, c) else To(next, c, Refused)
  }

  function Expired(w: World, c: nat): World
    requires Known(w, c)
  {
    var token := w.calls[c].token;
    var keys := if token in w.keys then w.keys[token := w.keys[token].(deadline := Some(w.now + S.KEY_LIFE))]
                else w.keys;
    Close(w, c).(keys := keys)
  }

  function Marked(w: World, c: nat): World
    requires Known(w, c)
  {
    var token := w.calls[c].token;
    var marked := w.(tokens := w.tokens[token := w.tokens[token].(used := true)]);
    if w.calls[c].phase == Right then To(marked, c, Spent) else Close(marked, c)
  }

  function Finished(w: World, c: nat): World
    requires Known(w, c)
  {
    var admin := w.calls[c].admin;
    Close(w, c).(admins := w.admins[admin := w.admins[admin].(verified := true)],
                 past := w.past.(issued := w.past.issued[c := w.calls[c].token]))
  }

  function Written(w: World, c: nat, drawn: nat): World
    requires Known(w, c)
  {
    var admin := w.calls[c].admin;
    Close(w, c).(admins := w.admins[admin := w.admins[admin].(secret := Some(drawn))])
  }

  function Done(w: World, c: nat, act: Act): World
    requires Known(w, c)
  {
    match act
    case Get => Got(w, c)
    case Compare(readable, right) => Compared(w, c, readable, right)
    case Incr => Counted(w, c)
    case Expire => Expired(w, c)
    case Mark => Marked(w, c)
    case Clear => To(w, c, Cleared).(keys := w.keys - {w.calls[c].token})
    case Finish => Finished(w, c)
    case Write(drawn) => Written(w, c, drawn)
    case Stop => Close(w, c).(past := w.past.(stopped := w.past.stopped[c := w.calls[c].token]))
  }

  function Step(w: World, e: Event): World
    requires Can(w, e)
  {
    match e
    case Wait(micros) => w.(now := w.now + micros)
    case SetActive(admin, on) => w.(admins := w.admins[admin := w.admins[admin].(isActive := on)])
    case Login(admin, token) => w.(tokens := w.tokens[token := S.Token(admin, w.now + S.TOKEN_LIFE, false)])
    case Enter(token) => Open(w, token, Validated)
    case EnterSetup(token) => Open(w, token, SettingUp)
    case Do(c, act) => Done(w, c, act)
  }

  predicate Possible(w: World, events: seq<Event>)
    decreases |events|, 0
  {
    events == []
    || (Possible(w, events[..|events| - 1]) && Can(Run(w, events[..|events| - 1]), events[|events| - 1]))
  }

  function Run(w: World, events: seq<Event>): World
    requires Possible(w, events)
    decreases |events|, 1
  {
    if events == [] then w else Step(Run(w, events[..|events| - 1]), events[|events| - 1])
  }

  const NOTHING := History(map[], map[], map[], map[], map[])

  /** Accounts that have not been set up yet, no tokens and no calls. */
  ghost predicate Fresh(w: World) {
    && w.tokens == map[] && w.keys == map[] && w.calls == map[] && w.past == NOTHING
    && forall id :: id in w.admins ==> w.admins[id].secret.None? && !w.admins[id].verified
  }

  // ---------------------------------------------------------------- what a call's act leaves alone

  predicate Same(before: map<nat, nat>, after: map<nat, nat>, c: nat) {
    (c in after <==> c in before) && (c in before ==> after[c] == before[c])
  }

  /** An act changes its own call, its token's counter and `used` flag, its admin's row and its own history. */
  ghost predicate Local(w: World, w': World, c: nat)
    requires Known(w, c)
  {
    var call := w.calls[c];
    && w'.now == w.now && w'.nextCall == w.nextCall
    && (forall d :: d != c ==> (d in w'.calls <==> d in w.calls) && (d in w.calls ==> w'.calls[d] == w.calls[d]))
    && (c in w'.calls ==> w'.calls[c] == call.(phase := w'.calls[c].phase))
    && w'.tokens.Keys == w.tokens.Keys && w'.admins.Keys == w.admins.Keys
    && (forall t :: t in w.tokens && t != call.token ==> w'.tokens[t] == w.tokens[t])
    && (w'.tokens[call.token] == w.tokens[call.token] || w'.tokens[call.token] == w.tokens[call.token].(used := true))
    && (forall t :: t != call.token ==> (t in w'.keys <==> t in w.keys) && (t in w.keys ==> w'.keys[t] == w.keys[t]))
    && (forall id :: id in w.admins && id != call.admin ==> w'.admins[id] == w.admins[id])
    && (w.admins[call.admin].secret.Some? ==> w'.admins[call.admin].secret.Some?)
    && (w'.admins[call.admin].verified ==> w.admins[call.admin].verified || AfterRight(call.phase))
    && (forall d :: d != c ==>
          && Same(w.past.wrong, w'.past.wrong, d) && Same(w.past.right, w'.past.right, d)
          && Same(w.past.early, w'.past.early, d) && Same(w.past.issued, w'.past.issued, d)
          && Same(w.past.stopped, w'.past.stopped, d))
  }

  lemma CountedLocal(w: World, c: nat)
    requires Known(w, c)
    ensures Local(w, Counted(w, c), c)
  {
  }

  lemma ComparedLocal(w: World, c: nat, readable: bool, right: bool)
    requires Known(w, c)
    ensures Local(w, Compared(w, c, readable, right), c)
  {
  }

  lemma MarkedLocal(w: World, c: nat)
    requires Known(w, c)
    ensures Local(w, Marked(w, c), c)
  {
  }

  lemma FinishedLocal(w: World, c: nat)
    requires Known(w, c) && w.calls[c].phase == Cleared
    ensures Local(w, Finished(w, c), c)
  {
  }

  lemma DoneLocal(w: World, c: nat, act: Act)
    requires Known(w, c) && Ready(w.calls[c].phase, act)
    ensures Local(w, Done(w, c, act), c)
  {
    match act
    case Incr => CountedLocal(w, c);
    case Compare(readable, right) => ComparedLocal(w, c, readable, right);
    case Mark => MarkedLocal(w, c);
    case Finish => FinishedLocal(w, c);
    case _ =>
  }

  // ---------------------------------------------------------------- the invariant

  function CallsOn(past: map<nat, nat>, token: nat): set<nat> {
    set c | c in past && past[c] == token
  }

  function OpenOn(w: World, token: nat): set<nat> {
    set c | c in w.calls && w.calls[c].token == token
  }

  /** A row that validation could have read; a secret that was there is still there in some form. */
  ghost predicate CallOk(w: World, call: Call) {
    && call.token in w.tokens && w.tokens[call.token].admin == call.admin && call.admin in w.admins
    && (call.secret.Some? ==> w.admins[call.admin].secret.Some?)
    && (AfterWrong(call.phase) || AfterRight(call.phase) ==> call.secret.Some?)
  }

  /** An open call is in the history exactly as its phase says. */
  ghost predicate CallPast(past: History, c: nat, call: Call) {
    && (if AfterWrong(call.phase) then c in past.wrong && past.wrong[c] == call.token else c !in past.wrong)
    && (if AfterRight(call.phase) then c in past.right && past.right[c] == call.token else c !in past.right)
    && (call.phase == Wrong ==> c !in past.early) && c !in past.issued && c !in past.stopped
  }

  ghost predicate CallsOk(w: World) {
    forall c :: c in w.calls ==> c < w.nextCall && CallOk(w, w.calls[c]) && CallPast(w.past, c, w.calls[c])
  }

  ghost predicate RowsOk(w: World) {
    && (forall t :: t in w.tokens ==>
          w.tokens[t].admin in w.admins && w.tokens[t].expiresAt <= w.now + S.TOKEN_LIFE)
    && (forall id :: id in w.admins && w.admins[id].verified ==> w.admins[id].secret.Some?)
    && (forall t :: t in w.keys ==> t in w.tokens)
  }

  ghost predicate Entry(w: World, c: nat) {
    && (c in w.past.wrong ==> c < w.nextCall && w.past.wrong[c] in w.tokens)
    && (c in w.past.right ==> c < w.nextCall && w.past.right[c] in w.tokens)
    && (c in w.past.early ==> c in w.past.wrong && w.past.wrong[c] == w.past.early[c])
    && (c in w.past.issued ==> c in w.past.right && w.past.right[c] == w.past.issued[c])
    && (c in w.past.stopped ==>
          && c < w.nextCall && c !in w.past.issued
          && (c in w.past.wrong ==> w.past.wrong[c] == w.past.stopped[c]))
  }

  /** Wrong, and not counted or not yet marked. */
  predicate Uncounted(phase: Phase) {
    phase == Wrong || phase == Refused
  }

  /** While the token is good: the counter is whole, and whoever was wrong or right is early, stopped or still there. */
  ghost predicate Good(w: World, token: nat)
    requires token in w.tokens
  {
    && (token in w.keys ==>
          w.keys[token].count >= 1
          && (w.keys[token].deadline.Some? ==> w.keys[token].deadline.value >= w.tokens[token].expiresAt))
    && |CallsOn(w.past.early, token)| <= (if token in w.keys then w.keys[token].count else 0)
    && (forall c :: c in CallsOn(w.past.wrong, token) ==>
          c in w.past.early || c in w.past.stopped || (c in w.calls && Uncounted(w.calls[c].phase)))
    && (forall c :: c in CallsOn(w.past.right, token) ==>
          c in w.past.stopped || (c in w.calls && w.calls[c].phase == Right))
    && (forall c :: c in OpenOn(w, token) ==> w.calls[c].phase != Spent && w.calls[c].phase != Cleared)
  }

  ghost predicate TokenOk(w: World, token: nat) {
    && |CallsOn(w.past.early, token)| <= 2
    && (token in w.tokens && !Shut(w, token) ==> Good(w, token))
  }

  ghost predicate Inv(w: World) {
    CallsOk(w) && RowsOk(w) && (forall c: nat :: Entry(w, c)) && (forall t: nat :: TokenOk(w, t))
  }

  // ---------------------------------------------------------------- an act keeps it

  lemma OwnCallRow(w: World, c: nat, act: Act)
    requires Known(w, c) && CallOk(w, w.calls[c]) && Ready(w.calls[c].phase, act)
    ensures var w' := Done(w, c, act); c in w'.calls ==> CallOk(w', w'.calls[c])
  {
    DoneLocal(w, c, act);
  }

  lemma OwnCallPast(w: World, c: nat, act: Act)
    requires Known(w, c) && CallPast(w.past, c, w.calls[c]) && Entry(w, c) && Ready(w.calls[c].phase, act)
    ensures var w' := Done(w, c, act); c in w'.calls ==> CallPast(w'.past, c, w'.calls[c])
  {
  }

  lemma OwnCall(w: World, c: nat, act: Act)
    requires Inv(w) && Known(w, c) && Ready(w.calls[c].phase, act)
    ensures var w' := Done(w, c, act);
            c in w'.calls ==> CallOk(w', w'.calls[c]) && CallPast(w'.past, c, w'.calls[c])
  {
    assert CallOk(w, w.calls[c]) && CallPast(w.past, c, w.calls[c]) && Entry(w, c);
    OwnCallRow(w, c, act);
    OwnCallPast(w, c, act);
  }

  lemma ActKeepsCalls(w: World, c: nat, act: Act)
    requires Inv(w) && Known(w, c) && Ready(w.calls[c].phase, act)
    ensures CallsOk(Done(w, c, act))
  {
    DoneLocal(w, c, act);
    OwnCall(w, c, act);
    LocalKeepsCalls(w, Done(w, c, act), c);
  }

  lemma LocalKeepsCalls(w: World, w': World, c: nat)
    requires CallsOk(w) && Known(w, c) && Local(w, w', c)
    requires c in w'.calls ==> CallOk(w', w'.calls[c]) && CallPast(w'.past, c, w'.calls[c])
    ensures CallsOk(w')
  {
    forall d | d in w'.calls && d != c ensures d < w'.nextCall && CallOk(w', w'.calls[d])
        && CallPast(w'.past, d, w'.calls[d]) {
      assert CallOk(w, w.calls[d]) && CallPast(w.past, d, w.calls[d]);
      assert Same(w.past.wrong, w'.past.wrong, d) && Same(w.past.right, w'.past.right, d);
      assert Same(w.past.early, w'.past.early, d) && Same(w.past.issued, w'.past.issued, d);
      assert Same(w.past.stopped, w'.past.stopped, d);
    }
  }

  lemma LocalKeepsRows(w: World, w': World, c: nat)
    requires RowsOk(w) && Known(w, c) && CallOk(w, w.calls[c]) && Local(w, w', c)
    ensures RowsOk(w')
  {
  }

  lemma CountedEntry(w: World, c: nat)
    requires Known(w, c) && Entry(w, c) && CallPast(w.past, c, w.calls[c]) && w.calls[c].phase == Wrong
    ensures Entry(Counted(w, c), c)
  {
  }

  lemma ComparedEntry(w: World, c: nat, readable: bool, right: bool)
    requires Known(w, c) && Entry(w, c) && CallPast(w.past, c, w.calls[c]) && w.calls[c].phase == Passed
             && c < w.nextCall
    ensures Entry(Compared(w, c, readable, right), c)
  {
  }

  lemma FinishedEntry(w: World, c: nat)
    requires Known(w, c) && Entry(w, c) && CallPast(w.past, c, w.calls[c]) && w.calls[c].phase == Cleared
    ensures Entry(Finished(w, c), c)
  {
  }

  lemma OwnEntry(w: World, c: nat, act: Act)
    requires Inv(w) && Known(w, c) && Ready(w.calls[c].phase, act)
    ensures Entry(Done(w, c, act), c)
  {
    assert Entry(w, c) && CallPast(w.past, c, w.calls[c]);
    match act
    case Incr => CountedEntry(w, c);
    case Compare(readable, right) => ComparedEntry(w, c, readable, right);
    case Finish => FinishedEntry(w, c);
    case _ =>
  }

  lemma LocalKeepsEntries(w: World, w': World, c: nat, d: nat)
    requires Entry(w, d) && Known(w, c) && Local(w, w', c) && d != c
    ensures Entry(w', d)
  {
    assert Same(w.past.wrong, w'.past.wrong, d) && Same(w.past.right, w'.past.right, d);
    assert Same(w.past.early, w'.past.early, d) && Same(w.past.issued, w'.past.issued, d);
    assert Same(w.past.stopped, w'.past.stopped, d);
  }

  lemma OneMore(past: map<nat, nat>, c: nat, token: nat)
    requires c !in past
    ensures |CallsOn(past[c := token], token)| == |CallsOn(past, token)| + 1
    ensures CallsOn(past[c := token], token) == CallsOn(past, token) + {c}
  {
    assert CallsOn(past[c := token], token) == CallsOn(past, token) + {c};
  }

  /** Nothing is struck from the history. */
  lemma HistoryGrows(w: World, c: nat, act: Act)
    requires Known(w, c)
    ensures w.past.early.Keys <= Done(w, c, act).past.early.Keys
    ensures w.past.stopped.Keys <= Done(w, c, act).past.stopped.Keys
  {
    if act.Incr? {
      assert Counted(w, c).past.stopped == w.past.stopped;
    }
  }

  /** What an act leaves of another token's calls. */
  lemma SameCallsOn(before: map<nat, nat>, after: map<nat, nat>, c: nat, token: nat)
    requires forall d :: d != c ==> Same(before, after, d)
    requires c in before ==> before[c] != token
    requires c in after ==> after[c] != token
    ensures CallsOn(after, token) == CallsOn(before, token)
  {
    forall d | d != c ensures d in CallsOn(after, token) <==> d in CallsOn(before, token) {
      assert Same(before, after, d);
    }
  }

  /** The entries of a call, if there are any, are its own token's. */
  lemma OwnToken(w: World, c: nat)
    requires Known(w, c) && Entry(w, c) && CallPast(w.past, c, w.calls[c])
    ensures c in w.past.wrong ==> w.past.wrong[c] == w.calls[c].token
    ensures c in w.past.right ==> w.past.right[c] == w.calls[c].token
    ensures c in w.past.early ==> w.past.early[c] == w.calls[c].token
  {
  }

  lemma OwnEntriesAfter(w: World, c: nat, act: Act)
    requires Inv(w) && Known(w, c) && Ready(w.calls[c].phase, act)
    ensures var past, token := Done(w, c, act).past, w.calls[c].token;
            && (c in past.wrong ==> past.wrong[c] == token)
            && (c in past.right ==> past.right[c] == token)
            && (c in past.early ==> past.early[c] == token)
  {
    assert Entry(w, c) && CallPast(w.past, c, w.calls[c]);
    OwnToken(w, c);
  }

  lemma GoodElsewhere(w: World, w': World, token: nat)
    requires token in w.tokens && Good(w, token) && token in w'.tokens && w'.tokens[token] == w.tokens[token]
    requires (token in w'.keys <==> token in w.keys) && (token in w.keys ==> w'.keys[token] == w.keys[token])
    requires CallsOn(w'.past.wrong, token) == CallsOn(w.past.wrong, token)
    requires CallsOn(w'.past.right, token) == CallsOn(w.past.right, token)
    requires CallsOn(w'.past.early, token) == CallsOn(w.past.early, token)
    requires w.past.early.Keys <= w'.past.early.Keys && w.past.stopped.Keys <= w'.past.stopped.Keys
    requires forall c :: c in CallsOn(w.past.wrong, token) + CallsOn(w.past.right, token) ==>
               (c in w.calls ==> c in w'.calls && w'.calls[c] == w.calls[c])
    requires forall c :: c in OpenOn(w', token) ==> c in OpenOn(w, token) && w'.calls[c] == w.calls[c]
    ensures Good(w', token)
  {
  }

  /** What an act leaves of another token. */
  lemma LocalElsewhere(w: World, w': World, c: nat, token: nat)
    requires Known(w, c) && Local(w, w', c) && w.calls[c].token != token && TokenOk(w, token)
    requires CallsOn(w'.past.wrong, token) == CallsOn(w.past.wrong, token) && c !in CallsOn(w.past.wrong, token)
    requires CallsOn(w'.past.right, token) == CallsOn(w.past.right, token) && c !in CallsOn(w.past.right, token)
    requires CallsOn(w'.past.early, token) == CallsOn(w.past.early, token)
    requires w.past.early.Keys <= w'.past.early.Keys && w.past.stopped.Keys <= w'.past.stopped.Keys
    ensures TokenOk(w', token)
  {
    if token in w.tokens && !Shut(w, token) {
      GoodElsewhere(w, w', token);
    }
  }

  lemma OtherToken(w: World, c: nat, act: Act, token: nat)
    requires Inv(w) && Known(w, c) && Ready(w.calls[c].phase, act) && w.calls[c].token != token
    ensures TokenOk(Done(w, c, act), token)
  {
    var past := Done(w, c, act).past;
    DoneLocal(w, c, act);
    HistoryGrows(w, c, act);
    OwnEntriesAfter(w, c, act);
    assert TokenOk(w, token) && Entry(w, c) && CallPast(w.past, c, w.calls[c]);
    OwnToken(w, c);
    SameCallsOn(w.past.wrong, past.wrong, c, token);
    SameCallsOn(w.past.right, past.right, c, token);
    SameCallsOn(w.past.early, past.early, c, token);
    LocalElsewhere(w, Done(w, c, act), c, token);
  }

  lemma CountedKeeps(w: World, c: nat)
    requires Inv(w) && Known(w, c) && w.calls[c].phase == Wrong
    ensures TokenOk(Counted(w, c), w.calls[c].token)
  {
    var token := w.calls[c].token;
    assert TokenOk(w, token) && CallPast(w.past, c, w.calls[c]);
    OneMore(w.past.early, c, token);
    if !Shut(w, token) {
      assert Counter(w, token) == if token in w.keys then w.keys[token].count else 0;
      GoodIfCounted(w, Counted(w, c), token, c);
    }
  }

  /** The counter and the early codes go up together, and the other calls are where they were. */
  lemma GoodIfCounted(w: World, w': World, token: nat, c: nat)
    requires token in w.tokens && Good(w, token) && w'.tokens == w.tokens && w'.now == w.now && c in w.calls
    requires w'.past == w.past.(early := w'.past.early) && w.past.early.Keys <= w'.past.early.Keys
    requires token in w'.keys && w'.keys[token].count >= 1
    requires w'.keys[token].deadline.Some? ==> w'.keys[token].deadline.value >= w.tokens[token].expiresAt
    requires |CallsOn(w'.past.early, token)| <= w'.keys[token].count
    requires forall d :: d != c ==> (d in w'.calls <==> d in w.calls) && (d in w.calls ==> w'.calls[d] == w.calls[d])
    requires c !in w.past.right && (c in w'.past.early || (c in w'.calls && w'.calls[c].phase == Refused))
    requires c in w'.calls ==> w'.calls[c].phase == FirstWrong || w'.calls[c].phase == Refused
    ensures Good(w', token)
  {
    assert forall d :: d in OpenOn(w', token) && d != c ==> d in OpenOn(w, token);
  }

  lemma WrongKeeps(w: World, c: nat)
    requires Inv(w) && Known(w, c) && w.calls[c].phase == Passed && w.calls[c].secret.Some?
    ensures TokenOk(Compared(w, c, true, false), w.calls[c].token)
  {
    assert TokenOk(w, w.calls[c].token) && CallPast(w.past, c, w.calls[c]);
    OneMore(w.past.wrong, c, w.calls[c].token);
  }

  lemma RightKeeps(w: World, c: nat)
    requires Inv(w) && Known(w, c) && w.calls[c].phase == Passed && w.calls[c].secret.Some?
    ensures TokenOk(Compared(w, c, true, true), w.calls[c].token)
  {
    assert TokenOk(w, w.calls[c].token) && CallPast(w.past, c, w.calls[c]);
    OneMore(w.past.right, c, w.calls[c].token);
  }

  lemma ComparedKeeps(w: World, c: nat, readable: bool, right: bool)
    requires Inv(w) && Known(w, c) && w.calls[c].phase == Passed
    ensures TokenOk(Compared(w, c, readable, right), w.calls[c].token)
  {
    if w.calls[c].secret.None? || !readable {
      assert TokenOk(w, w.calls[c].token) && CallPast(w.past, c, w.calls[c]);
    } else if right {
      RightKeeps(w, c);
    } else {
      WrongKeeps(w, c);
    }
  }

  lemma ExpiredKeeps(w: World, c: nat)
    requires Inv(w) && Known(w, c) && w.calls[c].phase == FirstWrong
    ensures TokenOk(Expired(w, c), w.calls[c].token)
  {
    assert TokenOk(w, w.calls[c].token) && CallPast(w.past, c, w.calls[c]);
  }

  /** Marking the token shuts it; a spent or cleared call's token is shut already. */
  lemma MarkedKeeps(w: World, c: nat)
    requires Inv(w) && Known(w, c)
    ensures TokenOk(Marked(w, c), w.calls[c].token)
  {
    assert TokenOk(w, w.calls[c].token);
  }

  lemma LaterKeeps(w: World, c: nat, act: Act)
    requires Inv(w) && Known(w, c) && Ready(w.calls[c].phase, act) && (act.Clear? || act.Finish?)
    ensures TokenOk(Done(w, c, act), w.calls[c].token)
  {
    assert TokenOk(w, w.calls[c].token) && c in OpenOn(w, w.calls[c].token);
  }

  lemma GotKeeps(w: World, c: nat)
    requires Inv(w) && Known(w, c) && w.calls[c].phase == Validated
    ensures TokenOk(Got(w, c), w.calls[c].token)
  {
    assert TokenOk(w, w.calls[c].token) && CallPast(w.past, c, w.calls[c]);
  }

  lemma WrittenKeeps(w: World, c: nat, drawn: nat)
    requires Inv(w) && Known(w, c) && w.calls[c].phase == SettingUp
    ensures TokenOk(Written(w, c, drawn), w.calls[c].token)
  {
    assert TokenOk(w, w.calls[c].token) && CallPast(w.past, c, w.calls[c]);
  }

  lemma StoppedKeeps(w: World, c: nat)
    requires Inv(w) && Known(w, c)
    ensures TokenOk(Done(w, c, Stop), w.calls[c].token)
  {
    assert TokenOk(w, w.calls[c].token);
  }

  lemma OwnTokenKept(w: World, c: nat, act: Act)
    requires Inv(w) && Known(w, c) && Ready(w.calls[c].phase, act)
    ensures TokenOk(Done(w, c, act), w.calls[c].token)
  {
    match act
    case Incr => CountedKeeps(w, c);
    case Compare(readable, right) => ComparedKeeps(w, c, readable, right);
    case Expire => ExpiredKeeps(w, c);
    case Mark => MarkedKeeps(w, c);
    case Clear => LaterKeeps(w, c, act);
    case Finish => LaterKeeps(w, c, act);
    case Get => GotKeeps(w, c);
    case Write(drawn) => WrittenKeeps(w, c, drawn);
    case Stop => StoppedKeeps(w, c);
  }

  lemma ActKeeps(w: World, c: nat, act: Act)
    requires Inv(w) && Known(w, c) && Ready(w.calls[c].phase, act)
    ensures Inv(Done(w, c, act))
  {
    var w' := Done(w, c, act);
    ActKeepsCalls(w, c, act);
    DoneLocal(w, c, act);
    LocalKeepsRows(w, w', c);
    OwnEntry(w, c, act);
    OwnTokenKept(w, c, act);
    OwnEntriesAfter(w, c, act);
    forall d: nat ensures Entry(w', d) {
      if d != c { LocalKeepsEntries(w, w', c, d); }
    }
    forall t: nat ensures TokenOk(w', t) {
      if t != w.calls[c].token { OtherToken(w, c, act, t); }
    }
  }

  // ---------------------------------------------------------------- every other step keeps it

  lemma OpenKeeps(w: World, token: nat, phase: Phase)
    requires Inv(w) && Accepted(w, token) && (phase == Validated || phase == SettingUp)
    ensures Inv(Open(w, token, phase))
  {
    var w' := Open(w, token, phase);
    assert Entry(w, w.nextCall);
    forall c | c in w'.calls ensures c < w'.nextCall && CallOk(w', w'.calls[c]) && CallPast(w'.past, c, w'.calls[c]) {
      assert c in w.calls ==> CallOk(w, w.calls[c]) && CallPast(w.past, c, w.calls[c]);
    }
    forall c: nat ensures Entry(w', c) { assert Entry(w, c); }
    forall t: nat ensures TokenOk(w', t) {
      assert TokenOk(w, t);
      assert forall c :: c in OpenOn(w', t) ==> c == w.nextCall || c in OpenOn(w, t);
    }
  }

  lemma OutsideKeeps(w: World, e: Event)
    requires Inv(w) && Can(w, e) && (e.Wait? || e.SetActive? || e.Login?)
    ensures Inv(Step(w, e))
  {
    var w' := Step(w, e);
    forall c | c in w'.calls ensures c < w'.nextCall && CallOk(w', w'.calls[c]) && CallPast(w'.past, c, w'.calls[c]) {
      assert CallOk(w, w.calls[c]) && CallPast(w.past, c, w.calls[c]);
    }
    forall c: nat ensures Entry(w', c) { assert Entry(w, c); }
    forall t: nat ensures TokenOk(w', t) {
      assert TokenOk(w, t);
      if e.Login? && e.token == t { NewToken(w, t); }
    }
  }

  /** Nothing has happened yet on a token that does not exist. */
  lemma NewToken(w: World, token: nat)
    requires Inv(w) && token !in w.tokens
    ensures CallsOn(w.past.early, token) == {} && CallsOn(w.past.wrong, token) == {}
            && CallsOn(w.past.right, token) == {}
    ensures OpenOn(w, token) == {}
  {
    forall c | c in w.past.wrong ensures w.past.wrong[c] != token { assert Entry(w, c); }
    forall c | c in w.past.right ensures w.past.right[c] != token { assert Entry(w, c); }
    forall c | c in w.past.early ensures w.past.early[c] != token { assert Entry(w, c); }
    forall c | c in w.calls ensures w.calls[c].token != token {
      assert CallOk(w, w.calls[c]);
    }
  }

  lemma StepKeeps(w: World, e: Event)
    requires Inv(w) && Can(w, e)
    ensures Inv(Step(w, e))
  {
    match e
    case Do(c, act) => ActKeeps(w, c, act);
    case Enter(token) => OpenKeeps(w, token, Validated);
    case EnterSetup(token) => OpenKeeps(w, token, SettingUp);
    case _ => OutsideKeeps(w, e);
  }

  lemma {:induction false} RunKeeps(w: World, events: seq<Event>)
    requires Inv(w) && Possible(w, events)
    ensures Inv(Run(w, events))
    decreases |events|
  {
    if events != [] {
      RunKeeps(w, events[..|events| - 1]);
      StepKeeps(Run(w, events[..|events| - 1]), events[|events| - 1]);
    }
  }

  lemma FreshInv(w: World)
    requires Fresh(w)
    ensures Inv(w)
  {
    forall t: nat ensures TokenOk(w, t) {
      assert CallsOn(w.past.early, t) == {};
    }
  }

  ghost predicate Reachable(w: World) {
    exists first: World, events: seq<Event> :: Fresh(first) && Possible(first, events) && w == Run(first, events)
  }

  lemma ReachableInv(w: World)
    requires Reachable(w)
    ensures Inv(w)
  {
    var first: World, events: seq<Event> :| Fresh(first) && Possible(first, events) && w == Run(first, events);
    FreshInv(first);
    RunKeeps(first, events);
  }
}

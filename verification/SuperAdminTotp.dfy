/**
 The super admin's two-step login: a password buys a five-minute pre-auth token, and the token and a TOTP code buy one
 access token. Wrong codes are counted in a Redis key of the token's that lives 300 seconds from the first of them.
 Here every call is one step, so calls do not overlap; `SuperAdminOverlap` and `SuperAdminLockout` let them.
 */
module SuperAdminTotp {
  import opened Common

  /** Microseconds. */
  const SECOND := 1_000_000
  const TOKEN_LIFE := 5 * 60 * SECOND
  const KEY_LIFE := 300 * SECOND
  const MAX_WRONG := 3

  datatype Admin = Admin(isActive: bool, secret: Option<nat>, verified: bool)

  datatype Token = Token(admin: nat, expiresAt: int, used: bool)

  /** A Redis counter; it is gone once its deadline has passed. */
  datatype Key = Key(count: nat, deadline: int)

  /** A code that was compared with the secret. */
  datatype Check = Check(token: nat, right: bool)

  datatype World = World(
    now: int, admins: map<nat, Admin>, tokens: map<nat, Token>, keys: map<nat, Key>, checks: seq<Check>)

  /** Whether a code is right, and whether the stored secret can be decrypted, is decided outside. */
  datatype Event =
    | Wait(micros: nat)
    | SetActive(admin: nat, on: bool)
    | Login(admin: nat, token: nat)
    | Setup(token: nat, secret: nat)
    | Verify(token: nat, readable: bool, right: bool)

  datatype AuthError = Unauthorised | Conflict | Unreadable

  /** What `_validate_pre_auth_token` accepts. */
  predicate Accepted(w: World, token: nat) {
    && token in w.tokens && w.tokens[token].admin in w.admins
    && !w.tokens[token].used && w.tokens[token].expiresAt >= w.now && w.admins[w.tokens[token].admin].isActive
  }

  function Counter(w: World, token: nat): nat {
    if token in w.keys && w.now <= w.keys[token].deadline then w.keys[token].count else 0
  }

  /** Random tokens are new. */
  predicate Can(w: World, e: Event) {
    e.Login? ==> e.token !in w.tokens && e.token !in w.keys && e.admin in w.admins && w.admins[e.admin].isActive
  }

  function Use(w: World, token: nat): World
    requires token in w.tokens
  {
    w.(tokens := w.tokens[token := w.tokens[token].(used := true)])
  }

  /** `INCR`, and `EXPIRE` when the counter was not there. */
  function CountWrong(w: World, token: nat): World {
    var n := Counter(w, token) + 1;
    w.(keys := w.keys[token := Key(n, if n == 1 then w.now + KEY_LIFE else w.keys[token].deadline)])
  }

  function Verified(w: World, token: nat, readable: bool, right: bool): (World, Result<nat, AuthError>) {
    if !Accepted(w, token) then (w, Err(Unauthorised))
    else
      var admin := w.tokens[token].admin;
      if Counter(w, token) >= MAX_WRONG then (Use(w, token), Err(Unauthorised))
      else if w.admins[admin].secret.None? then (w, Err(Unauthorised))
      else if !readable then (w, Err(Unreadable))
      else
        var checked := w.(checks := w.checks + [Check(token, right)]);
        if !right then
          var counted := CountWrong(checked, token);
          (if Counter(counted, token) >= MAX_WRONG then Use(counted, token) else counted, Err(Unauthorised))
        else
          var used := Use(checked, token);
          (used.(keys := used.keys - {token}, admins := used.admins[admin := used.admins[admin].(verified := true)]),
           Ok(admin))
  }

  function SetUp(w: World, token: nat, secret: nat): (World, Result<(), AuthError>) {
    if !Accepted(w, token) then (w, Err(Unauthorised))
    else
      var id := w.tokens[token].admin;
      var admin := w.admins[id];
      if admin.secret.Some? && admin.verified then (w, Err(Conflict))
      else (w.(admins := w.admins[id := admin.(secret := Some(secret))]), Ok(()))
  }

  function Step(w: World, e: Event): World
    requires Can(w, e)
  {
    match e
    case Wait(micros) => w.(now := w.now + micros)
    case SetActive(admin, on) =>
      if admin in w.admins then w.(admins := w.admins[admin := w.admins[admin].(isActive := on)]) else w
    case Login(admin, token) => w.(tokens := w.tokens[token := Token(admin, w.now + TOKEN_LIFE, false)])
    case Setup(token, secret) => SetUp(w, token, secret).0
    case Verify(token, readable, right) => Verified(w, token, readable, right).0
  }

  predicate Possible(w: World, events: seq<Event>)
    decreases |events|, 0
  {
    events == []
    || (Possible(w, events[..|events| - 1]) && Can(Run(w, events[..|events| - 1]), events[|events| - 1]))
  }

  function Run(w: World, events: seq<Event>): World
    requires Possible(w, events)
    decreases |events|, 1
  {
    if events == [] then w else Step(Run(w, events[..|events| - 1]), events[|events| - 1])
  }

  /** Accounts that have not been set up yet, and no tokens. */
  ghost predicate Fresh(w: World) {
    && w.tokens == map[] && w.keys == map[] && w.checks == []
    && forall id :: id in w.admins ==> w.admins[id].secret.None? && !w.admins[id].verified
  }

  // ---------------------------------------------------------------- the invariant

  /** How often a code was compared for the token, with this outcome. */
  function Checks(checks: seq<Check>, token: nat, right: bool): nat {
    if checks == [] then 0
    else
      Checks(checks[..|checks| - 1], token, right)
      + if checks[|checks| - 1] == Check(token, right) then 1 else 0
  }

  lemma ChecksGrow(checks: seq<Check>, c: Check, token: nat, right: bool)
    ensures Checks(checks + [c], token, right) ==
            Checks(checks, token, right) + if c == Check(token, right) then 1 else 0
  {
    assert (checks + [c])[..|checks|] == checks;
  }

  /** A usable token's counter holds all of its wrong codes and outlives the token. */
  predicate Counted(w: World, token: nat) {
    var wrong := Checks(w.checks, token, false);
    var right := Checks(w.checks, token, true);
    if token !in w.tokens then wrong == 0 && right == 0 && token !in w.keys
    else if w.tokens[token].used then wrong <= MAX_WRONG && right <= 1
    else
      && right == 0 && wrong < MAX_WRONG && w.tokens[token].expiresAt <= w.now + TOKEN_LIFE
      && (if wrong == 0 then token !in w.keys
          else token in w.keys && w.keys[token].count == wrong && w.keys[token].deadline >= w.tokens[token].expiresAt)
  }

  ghost predicate Inv(w: World) {
    && (forall token: nat :: Counted(w, token))
    && (forall id :: id in w.admins && w.admins[id].verified ==> w.admins[id].secret.Some?)
  }

  lemma UnlessAccepted(w: World, token: nat, readable: bool, right: bool, other: nat)
    requires Counted(w, other) && Counted(w, token)
    requires !Accepted(w, token) || w.admins[w.tokens[token].admin].secret.None? || !readable
    ensures Counted(Verified(w, token, readable, right).0, other)
  {
  }

  lemma WrongCounted(w: World, token: nat, other: nat)
    requires Counted(w, other) && Counted(w, token) && Accepted(w, token)
    requires w.admins[w.tokens[token].admin].secret.Some?
    ensures Counted(Verified(w, token, true, false).0, other)
  {
    ChecksGrow(w.checks, Check(token, false), other, false);
    ChecksGrow(w.checks, Check(token, false), other, true);
    assert Counter(w, token) == Checks(w.checks, token, false);
  }

  lemma RightCounted(w: World, token: nat, other: nat)
    requires Counted(w, other) && Counted(w, token) && Accepted(w, token)
    requires w.admins[w.tokens[token].admin].secret.Some?
    ensures Counted(Verified(w, token, true, true).0, other)
  {
    ChecksGrow(w.checks, Check(token, true), other, false);
    ChecksGrow(w.checks, Check(token, true), other, true);
    assert Counter(w, token) == Checks(w.checks, token, false);
  }

  lemma VerifyKeeps(w: World, token: nat, readable: bool, right: bool, other: nat)
    requires Inv(w)
    ensures Counted(Verified(w, token, readable, right).0, other)
  {
    assert Counted(w, other) && Counted(w, token);
    if !Accepted(w, token) || w.admins[w.tokens[token].admin].secret.None? || !readable {
      UnlessAccepted(w, token, readable, right, other);
    } else if right {
      RightCounted(w, token, other);
    } else {
      WrongCounted(w, token, other);
    }
  }

  lemma StepKeeps(w: World, e: Event)
    requires Inv(w) && Can(w, e)
    ensures Inv(Step(w, e))
  {
    forall token: nat ensures Counted(Step(w, e), token) {
      assert Counted(w, token);
      if e.Verify? { VerifyKeeps(w, e.token, e.readable, e.right, token); }
    }
  }

  lemma {:induction false} RunKeeps(w: World, events: seq<Event>)
    requires Inv(w) && Possible(w, events)
    ensures Inv(Run(w, events))
    decreases |events|
  {
    if events != [] {
      RunKeeps(w, events[..|events| - 1]);
      StepKeeps(Run(w, events[..|events| - 1]), events[|events| - 1]);
    }
  }

  ghost predicate Reachable(w: World) {
    exists first: World, events: seq<Event> :: Fresh(first) && Possible(first, events) && w == Run(first, events)
  }

  lemma ReachableKeeps(w: World)
    requires Reachable(w)
    ensures Inv(w)
  {
    var first: World, events: seq<Event> :| Fresh(first) && Possible(first, events) && w == Run(first, events);
    forall t: nat ensures Counted(first, t) {}
    RunKeeps(first, events);
  }

  // ---------------------------------------------------------------- what every run keeps

  /**
   While calls do not overlap, however they are timed, a token has at most three wrong codes checked and is right
   at most once.
   */
  lemma ThreeWrongCodesAtMost(w: World, token: nat)
    requires Reachable(w)
    ensures Checks(w.checks, token, false) <= MAX_WRONG
    ensures Checks(w.checks, token, true) <= 1
    ensures Checks(w.checks, token, true) == 1 ==> !Accepted(w, token)
  {
    ReachableKeeps(w);
    assert Counted(w, token);
  }

  /** An access token is issued exactly by a right code for an accepted token, and then the token is spent. */
  lemma IssuedExactlyWhen(w: World, token: nat, readable: bool, right: bool)
    requires Reachable(w)
    ensures Verified(w, token, readable, right).1.Ok?
            <==> Accepted(w, token) && w.admins[w.tokens[token].admin].secret.Some? && readable && right
    ensures Verified(w, token, readable, right).1.Ok? ==>
              var after := Verified(w, token, readable, right).0;
              !Accepted(after, token)
              && Checks(after.checks, token, true) == Checks(w.checks, token, true) + 1
  {
    ReachableKeeps(w);
    assert Counted(w, token);
    ChecksGrow(w.checks, Check(token, right), token, true);
  }

  /** While calls do not overlap: after the third wrong code nothing is accepted for the token any more, ever. */
  lemma {:induction false} LockedForEver(w: World, events: seq<Event>, token: nat)
    requires Reachable(w) && Possible(w, events) && Checks(w.checks, token, false) == MAX_WRONG
    ensures token in Run(w, events).tokens && Run(w, events).tokens[token].used && !Accepted(Run(w, events), token)
    decreases |events|
  {
    ReachableKeeps(w);
    assert Counted(w, token);
    if events != [] {
      LockedForEver(w, events[..|events| - 1], token);
    }
  }

  /** Once an account is verified, no run of calls that do not overlap changes its secret. */
  lemma {:induction false} VerifiedSecretStays(w: World, events: seq<Event>, id: nat)
    requires Reachable(w) && Possible(w, events) && id in w.admins && w.admins[id].verified
    ensures id in Run(w, events).admins && Run(w, events).admins[id].verified
    ensures Run(w, events).admins[id].secret == w.admins[id].secret
    decreases |events|
  {
    if events != [] {
      VerifiedSecretStays(w, events[..|events| - 1], id);
      ReachableKeeps(w);
    }
  }

  /** In every run a pre-auth token belongs to the account whose password bought it, and to no other ever. */
  lemma {:induction false} TokenOfItsBuyer(first: World, events: seq<Event>, token: nat)
    requires Fresh(first) && Possible(first, events) && token in Run(first, events).tokens
    ensures exists k: nat ::
              k < |events| && events[k].Login? && events[k].token == token
              && events[k].admin == Run(first, events).tokens[token].admin
    ensures forall k: nat :: k < |events| && events[k].Login? && events[k].token == token ==>
              events[k].admin == Run(first, events).tokens[token].admin
    decreases |events|
  {
    var n := |events| - 1;
    var before := Run(first, events[..n]);
    if token in before.tokens {
      TokenOfItsBuyer(first, events[..n], token);
      var k: nat :| k < n && events[..n][k].Login? && events[..n][k].token == token
                    && events[..n][k].admin == before.tokens[token].admin;
      assert events[k] == events[..n][k];
    } else {
      NeverBought(first, events[..n], token);
      assert events[n] == Login(Run(first, events).tokens[token].admin, token);
    }
    forall k: nat | k < |events| && events[k].Login? && events[k].token == token
      ensures events[k].admin == Run(first, events).tokens[token].admin
    {
      assert k < n ==> events[..n][k] == events[k];
    }
  }

  lemma {:induction false} NeverBought(first: World, events: seq<Event>, token: nat)
    requires Fresh(first) && Possible(first, events) && token !in Run(first, events).tokens
    ensures forall k: nat :: k < |events| && events[k].Login? ==> events[k].token != token
    decreases |events|
  {
    if events != [] {
      var n := |events| - 1;
      NeverBought(first, events[..n], token);
      forall k: nat | k < |events| && events[k].Login? ensures events[k].token != token {
        assert k < n ==> events[..n][k] == events[k];
      }
    }
  }

  /**
   Whenever a run checks a right code, the account that it verifies, and that the access token is for, is the one whose
   password bought the pre-auth token; every other account stays as it was.
   */
  lemma {:induction false} IssuedToItsBuyer(first: World, events: seq<Event>, token: nat)
    requires Fresh(first) && Possible(first, events)
    requires Verified(Run(first, events), token, true, true).1.Ok?
    ensures var w := Run(first, events);
            var (after, r) := Verified(w, token, true, true);
            && r.value in after.admins && after.admins[r.value].verified
            && (exists k: nat :: k < |events| && events[k] == Login(r.value, token))
            && forall other :: other != r.value ==>
                 (other in w.admins <==> other in after.admins)
                 && (other in w.admins ==> after.admins[other] == w.admins[other])
  {
    TokenOfItsBuyer(first, events, token);
  }

  // ---------------------------------------------------------------- the service

  class Service {
    var now: int
    var admins: map<nat, Admin>
    var tokens: map<nat, Token>
    var keys: map<nat, Key>
    ghost var checks: seq<Check>

    ghost function State(): World
      reads this
    {
      World(now, admins, tokens, keys, checks)
    }

    constructor (at: int, accounts: map<nat, Admin>)
      ensures State() == World(at, accounts, map[], map[], [])
    {
      now, admins, tokens, keys, checks := at, accounts, map[], map[], [];
    }

    /** `known` is the account the e-mail address names, if any; `drawn` the random token. */
    method AuthenticatePassword(known: Option<nat>, passwordOk: bool, drawn: nat) returns (r: Result<bool, AuthError>)
      requires known.Some? ==> known.value in admins
      requires drawn !in tokens && drawn !in keys
      modifies this`tokens
      ensures r.Ok? <==> known.Some? && passwordOk && admins[known.value].isActive
      ensures r.Ok? ==>
                State() == Step(old(State()), Login(known.value, drawn))
                && r.value == !admins[known.value].verified
      ensures r.Ok? ==> tokens == old(tokens)[drawn := Token(known.value, now + 300_000_000, false)]
      ensures r.Err? ==> State() == old(State())
    {
      if known.None? || !passwordOk { return Err(Unauthorised); }
      if !admins[known.value].isActive { return Err(Unauthorised); }
      tokens := tokens[drawn := Token(known.value, now + TOKEN_LIFE, false)];
      r := Ok(!admins[known.value].verified);
    }

    method ValidatePreAuthToken(token: nat) returns (r: Option<nat>)
      ensures r.Some? <==> Accepted(State(), token)
      ensures r.Some? <==>
              && token in tokens && !tokens[token].used && now <= tokens[token].expiresAt
              && tokens[token].admin in admins && admins[tokens[token].admin].isActive
      ensures r.Some? ==> r.value == tokens[token].admin
    {
      if token !in tokens || tokens[token].admin !in admins { return None; }
      if tokens[token].used { return None; }
      if tokens[token].expiresAt < now { return None; }
      if !admins[tokens[token].admin].isActive { return None; }
      r := Some(tokens[token].admin);
    }

    method SetupTotp(token: nat, drawn: nat) returns (r: Result<(), AuthError>)
      modifies this`admins
      ensures (State(), r) == SetUp(old(State()), token, drawn)
      ensures var accepted := token in tokens && !tokens[token].used && now <= tokens[token].expiresAt
                              && tokens[token].admin in old(admins) && old(admins)[tokens[token].admin].isActive;
              if !accepted then r == Err(Unauthorised) && admins == old(admins)
              else
                var id := tokens[token].admin;
                var configured := old(admins)[id].secret.Some? && old(admins)[id].verified;
                && r == (if configured then Err(Conflict) else Ok(()))
                && admins == if configured then old(admins)
                             else old(admins)[id := old(admins)[id].(secret := Some(drawn))]
    {
      var id := ValidatePreAuthToken(token);
      if id.None? { return Err(Unauthorised); }
      var admin := admins[id.value];
      if admin.secret.Some? && admin.verified { return Err(Conflict); }
      admins := admins[id.value := admin.(secret := Some(drawn))];
      r := Ok(());
    }

    method MarkUsed(token: nat)
      requires token in tokens
      modifies this`tokens
      ensures State() == Use(old(State()), token)
    {
      tokens := tokens[token := tokens[token].(used := true)];
    }

    /** `INCR` and, on the first wrong code, `EXPIRE`. */
    method IncrementAttempts(token: nat) returns (attempts: nat)
      modifies this`keys
      ensures State() == CountWrong(old(State()), token)
      ensures attempts == Counter(State(), token)
      ensures var going := token in old(keys) && now <= old(keys)[token].deadline;
              && attempts == (if going then old(keys)[token].count + 1 else 1)
              && ((going ==> old(keys)[token].count >= 1) ==>
                    keys == old(keys)[token := Key(attempts, if going then old(keys)[token].deadline
                                                             else now + 300_000_000)])
    {
      attempts := if token in keys && now <= keys[token].deadline then keys[token].count + 1 else 1;
      keys := keys[token := Key(attempts, if attempts == 1 then now + KEY_LIFE else keys[token].deadline)];
    }

    method VerifyTotp(token: nat, readable: bool, right: bool) returns (r: Result<nat, AuthError>)
      modifies this
      ensures (State(), r) == Verified(old(State()), token, readable, right)
      ensures var going := token in old(keys) && now <= old(keys)[token].deadline;
              var wrong := if going then old(keys)[token].count else 0;
              var accepted := token in old(tokens) && !old(tokens)[token].used && now <= old(tokens)[token].expiresAt
                              && old(tokens)[token].admin in old(admins)
                              && old(admins)[old(tokens)[token].admin].isActive;
              if !accepted then r == Err(Unauthorised) && State() == old(State())
              else
                var row := old(tokens)[token];
                var spent := old(tokens)[token := row.(used := true)];
                if wrong >= 3 then
                  r == Err(Unauthorised) && tokens == spent && admins == old(admins) && keys == old(keys)
                else if old(admins)[row.admin].secret.None? then r == Err(Unauthorised) && State() == old(State())
                else if !readable then r == Err(Unreadable) && State() == old(State())
                else if !right then
                  && r == Err(Unauthorised) && admins == old(admins) && token in keys && keys[token].count == wrong + 1
                  && (!going ==> keys[token].deadline == now + 300_000_000)
                  && (forall other :: other != token ==>
                        (other in keys <==> other in old(keys))
                        && (other in keys ==> keys[other] == old(keys)[other]))
                  && (now <= keys[token].deadline ==> tokens == if wrong + 1 >= 3 then spent else old(tokens))
                else
                  && r == Ok(row.admin) && tokens == spent && keys == old(keys) - {token}
                  && admins == old(admins)[row.admin := old(admins)[row.admin].(verified := true)]
    {
      var id := ValidatePreAuthToken(token);
      if id.None? { return Err(Unauthorised); }
      if token in keys && now <= keys[token].deadline && keys[token].count >= MAX_WRONG {
        MarkUsed(token);
        return Err(Unauthorised);
      }
      if admins[id.value].secret.None? { return Err(Unauthorised); }
      if !readable { return Err(Unreadable); }
      checks := checks + [Check(token, right)];
      if !right {
        var attempts := IncrementAttempts(token);
        if attempts >= MAX_WRONG {
          MarkUsed(token);
        }
        return Err(Unauthorised);
      }
      MarkUsed(token);
      keys := keys - {token};
      admins := admins[id.value := admins[id.value].(verified := true)];
      r := Ok(id.value);
    }
  }
}

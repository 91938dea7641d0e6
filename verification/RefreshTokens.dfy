/**
 Refresh-token families on the server: login starts a family, rotation revokes a token and
 issues its successor, and presenting a revoked token revokes its whole family (compare
 section 5.2.2.3 of RFC 6819). A token stands for its SHA-256 hash, its key in the table.
 */
module RefreshTokens {
  datatype Row = Row(user: nat, family: nat, expiresAt: int, revoked: bool)

  type Table = map<nat, Row>

  datatype TenantStatus = Good | Suspended | Cancelled

  /** The user and tenant columns joined to the token at the time of the call. */
  datatype Account = Account(tenantStatus: TenantStatus, isActive: bool)

  // 30 days, in seconds
  const LIFETIME := 2_592_000

  datatype Verdict = Invalid | Expired | Reuse | Forbidden | Deactivated | Accepted

  /** The checks of `rotate_refresh_token`, in their order. */
  function Judge(table: Table, token: nat, now: int, account: Account): Verdict {
    if token !in table then Invalid
    else if table[token].expiresAt < now then Expired
    else if table[token].revoked then Reuse
    else if account.tenantStatus != Good then Forbidden
    else if !account.isActive then Deactivated
    else Accepted
  }

  function Revoke(table: Table, token: nat): Table
    requires token in table
  {
    table[token := table[token].(revoked := true)]
  }

  function RevokeFamily(table: Table, family: nat): Table {
    map t | t in table :: if table[t].family == family then table[t].(revoked := true) else table[t]
  }

  function RevokeUser(table: Table, user: nat): Table {
    map t | t in table :: if table[t].user == user then table[t].(revoked := true) else table[t]
  }

  function Start(table: Table, token: nat, user: nat, family: nat, now: int): Table {
    table[token := Row(user, family, now + LIFETIME, false)]
  }

  function Succeed(table: Table, previous: nat, token: nat, now: int): Table
    requires previous in table
  {
    table[token := Row(table[previous].user, table[previous].family, now + LIFETIME, false)]
  }

  datatype Op =
    | Login(token: nat, user: nat, family: nat, now: int)
    | Rotate(token: nat, successor: nat, now: int, account: Account)
    | Anonymize(user: nat)

  /** Tokens and family ids are drawn at random: they are new. */
  predicate Enabled(table: Table, op: Op) {
    match op
    case Login(token, _, family, _) => token !in table && forall t :: t in table ==> table[t].family != family
    case Rotate(_, successor, _, _) => successor !in table
    case Anonymize(_) => true
  }

  /** The number of statements the call runs to its end. */
  function Length(table: Table, op: Op): nat {
    match op
    case Login(_, _, _, _) => 1
    case Anonymize(_) => 1
    case Rotate(token, _, now, account) =>
      match Judge(table, token, now, account)
      case Accepted => 2
      case Reuse => 1
      case _ => 0
  }

  /** The table when the call has stopped after `k` statements. */
  function Stopped(table: Table, op: Op, k: nat): Table
    requires Enabled(table, op) && k <= Length(table, op)
  {
    if k == 0 then table
    else
      match op
      case Login(token, user, family, now) => Start(table, token, user, family, now)
      case Anonymize(user) => RevokeUser(table, user)
      case Rotate(token, successor, now, account) =>
        if Judge(table, token, now, account) == Reuse then RevokeFamily(table, table[token].family)
        else if k == 1 then Revoke(table, token)
        else Succeed(Revoke(table, token), token, successor, now)
  }

  datatype Call = Call(op: Op, k: nat)

  ghost predicate Runs(table: Table, calls: seq<Call>, last: Table)
    decreases |calls|
  {
    if calls == [] then table == last
    else
      var n := |calls| - 1;
      exists mid :: Runs(table, calls[..n], mid) && Enabled(mid, calls[n].op) && calls[n].k <= Length(mid, calls[n].op)
                    && Stopped(mid, calls[n].op, calls[n].k) == last
  }

  predicate Live(table: Table, token: nat) {
    token in table && !table[token].revoked
  }

  ghost predicate OneLive(table: Table) {
    forall a, b :: Live(table, a) && Live(table, b) && table[a].family == table[b].family ==> a == b
  }

  lemma OneLiveKept(table: Table, op: Op, k: nat)
    requires OneLive(table) && Enabled(table, op) && k <= Length(table, op)
    ensures OneLive(Stopped(table, op, k))
  {
    var after := Stopped(table, op, k);
    forall a, b | Live(after, a) && Live(after, b) && after[a].family == after[b].family
      ensures a == b
    {
      assert a in table ==> Live(table, a);
      assert b in table ==> Live(table, b);
    }
  }

  /** Whatever calls are made and wherever they stop, a family has at most one unrevoked token. */
  lemma {:induction false} AtMostOneLive(calls: seq<Call>, table: Table)
    requires Runs(map[], calls, table)
    ensures OneLive(table)
    decreases |calls|
  {
    if calls != [] {
      var n := |calls| - 1;
      var mid :| Runs(map[], calls[..n], mid) && Enabled(mid, calls[n].op) && calls[n].k <= Length(mid, calls[n].op)
                 && Stopped(mid, calls[n].op, calls[n].k) == table;
      AtMostOneLive(calls[..n], mid);
      OneLiveKept(mid, calls[n].op, calls[n].k);
    }
  }

  ghost predicate Dead(table: Table, family: nat) {
    (exists t :: t in table && table[t].family == family) && forall t :: Live(table, t) ==> table[t].family != family
  }

  lemma DeadKept(table: Table, op: Op, k: nat, family: nat)
    requires Dead(table, family) && Enabled(table, op) && k <= Length(table, op)
    ensures Dead(Stopped(table, op, k), family)
  {
    var after := Stopped(table, op, k);
    var t :| t in table && table[t].family == family;
    assert t in after && after[t].family == family;
    forall s | Live(after, s) ensures after[s].family != family {
      assert s in table ==> Live(table, s);
    }
  }

  /** After reuse has been answered, no later call accepts any token of that family, old or new. */
  lemma {:induction false} ReuseIsFinal(table: Table, reuse: Op, calls: seq<Call>, last: Table, token: nat, now: int,
      account: Account)
    requires reuse.Rotate? && Enabled(table, reuse) && Judge(table, reuse.token, reuse.now, reuse.account) == Reuse
    requires Runs(Stopped(table, reuse, 1), calls, last)
    requires token in last && last[token].family == table[reuse.token].family
    ensures Judge(last, token, now, account) != Accepted && last[token].revoked
  {
    var family := table[reuse.token].family;
    var killed := Stopped(table, reuse, 1);
    assert killed[reuse.token].family == family;
    DeadAlong(killed, calls, last, family);
  }

  lemma {:induction false} DeadAlong(table: Table, calls: seq<Call>, last: Table, family: nat)
    requires Dead(table, family) && Runs(table, calls, last)
    ensures Dead(last, family)
    decreases |calls|
  {
    if calls != [] {
      var n := |calls| - 1;
      var mid :| Runs(table, calls[..n], mid) && Enabled(mid, calls[n].op) && calls[n].k <= Length(mid, calls[n].op)
                 && Stopped(mid, calls[n].op, calls[n].k) == last;
      DeadAlong(table, calls[..n], mid, family);
      DeadKept(mid, calls[n].op, calls[n].k, family);
    }
  }

  /** An accepted rotation that runs to its end hands the family from the old token to the new one. */
  lemma RotationHandsOver(table: Table, op: Op)
    requires OneLive(table) && op.Rotate? && Enabled(table, op)
             && Judge(table, op.token, op.now, op.account) == Accepted
    ensures var after := Stopped(table, op, 2);
            forall t :: t in after && after[t].family == table[op.token].family ==>
                (Live(after, t) <==> t == op.successor)
  {
    forall t | t in table && table[t].family == table[op.token].family ensures Live(table, t) <==> t == op.token {
      assert Live(table, op.token);
    }
  }

  /**
   In every run, wherever calls stop: a call that adds a token to the table is a sign-in, or it rotates a token that was
   there, unrevoked and not past its expiry, of an active user of a tenant in good standing; the new token is of the
   same user and family and lives for thirty days from then.
   */
  lemma {:induction false} IssuedOnlyForTheLiving(table: Table, calls: seq<Call>, last: Table, i: nat)
      returns (before: Table, after: Table)
    requires Runs(table, calls, last) && i < |calls|
    ensures Runs(table, calls[..i], before) && Runs(table, calls[..i + 1], after)
    ensures !calls[i].op.Anonymize? ==> forall t :: t in after && t !in before ==>
              && after[t].expiresAt == calls[i].op.now + 30 * 24 * 60 * 60 && !after[t].revoked
    ensures calls[i].op.Anonymize? ==> after.Keys == before.Keys
    ensures calls[i].op.Login? ==>
              var op := calls[i].op;
              forall t :: t in after && t !in before ==>
                t == op.token && after[t].user == op.user && after[t].family == op.family
    ensures calls[i].op.Rotate? ==>
              var op := calls[i].op;
              forall t :: t in after && t !in before ==>
                && t == op.successor && op.token in before
                && !before[op.token].revoked && op.now <= before[op.token].expiresAt
                && op.account.tenantStatus == Good && op.account.isActive
                && after[t].user == before[op.token].user && after[t].family == before[op.token].family
    decreases |calls|
  {
    var n := |calls| - 1;
    var mid :| Runs(table, calls[..n], mid) && Enabled(mid, calls[n].op) && calls[n].k <= Length(mid, calls[n].op)
               && Stopped(mid, calls[n].op, calls[n].k) == last;
    if i == n {
      before, after := mid, last;
      assert calls[..n + 1] == calls;
    } else {
      before, after := IssuedOnlyForTheLiving(table, calls[..n], mid, i);
      assert calls[..n][..i] == calls[..i] && calls[..n][..i + 1] == calls[..i + 1];
    }
  }

  /** `auth/service.py`, statement by statement. */
  class AuthService {
    var tokens: Table

    constructor ()
      ensures tokens == map[]
    {
      tokens := map[];
    }

    method GenerateRefreshToken(user: nat, token: nat, family: nat, now: int)
      requires Enabled(tokens, Login(token, user, family, now))
      modifies this
      ensures tokens == Stopped(old(tokens), Login(token, user, family, now), 1)
      ensures tokens == old(tokens)[token := Row(user, family, now + 30 * 24 * 60 * 60, false)]
    {
      tokens := tokens[token := Row(user, family, now + LIFETIME, false)];
    }

    method RotateRefreshToken(token: nat, successor: nat, now: int, account: Account) returns (verdict: Verdict)
      requires successor !in tokens
      modifies this
      ensures verdict == Judge(old(tokens), token, now, account)
      ensures var op := Rotate(token, successor, now, account);
              tokens == Stopped(old(tokens), op, Length(old(tokens), op))
      ensures verdict == Invalid <==> token !in old(tokens)
      ensures verdict == Expired <==> token in old(tokens) && old(tokens)[token].expiresAt < now
      ensures verdict == Reuse <==>
              token in old(tokens) && now <= old(tokens)[token].expiresAt && old(tokens)[token].revoked
      ensures verdict == Forbidden <==>
              && token in old(tokens) && now <= old(tokens)[token].expiresAt && !old(tokens)[token].revoked
              && (account.tenantStatus == Suspended || account.tenantStatus == Cancelled)
      ensures verdict == Deactivated <==>
              && token in old(tokens) && now <= old(tokens)[token].expiresAt && !old(tokens)[token].revoked
              && account.tenantStatus == Good && !account.isActive
      ensures verdict == Accepted <==>
              && token in old(tokens) && now <= old(tokens)[token].expiresAt && !old(tokens)[token].revoked
              && account.tenantStatus == Good && account.isActive
      ensures verdict == Accepted ==>
                var rt := old(tokens)[token];
                tokens == old(tokens)[token := rt.(revoked := true)]
                            [successor := Row(rt.user, rt.family, now + 30 * 24 * 60 * 60, false)]
      ensures verdict == Reuse ==>
                && tokens.Keys == old(tokens).Keys
                && forall t :: t in tokens ==>
                     tokens[t] == if old(tokens)[t].family == old(tokens)[token].family
                                  then old(tokens)[t].(revoked := true) else old(tokens)[t]
      ensures verdict != Accepted && verdict != Reuse ==> tokens == old(tokens)
    {
      if token !in tokens {
        return Invalid;
      }
      var rt := tokens[token];
      if rt.expiresAt < now {
        return Expired;
      }
      if rt.revoked {
        tokens := RevokeFamily(tokens, rt.family);
        return Reuse;
      }
      if account.tenantStatus == Suspended || account.tenantStatus == Cancelled {
        return Forbidden;
      }
      if !account.isActive {
        return Deactivated;
      }
      tokens := Revoke(tokens, token);
      tokens := tokens[successor := Row(rt.user, rt.family, now + LIFETIME, false)];
      verdict := Accepted;
    }

    /** `UPDATE refresh_tokens SET revoked = TRUE WHERE user_id = $1`, row by row. */
    method RevokeAll(user: nat)
      modifies this
      ensures tokens == Stopped(old(tokens), Anonymize(user), 1)
      ensures tokens.Keys == old(tokens).Keys
      ensures forall t :: t in tokens ==>
                && tokens[t].revoked == (old(tokens)[t].revoked || old(tokens)[t].user == user)
                && tokens[t].(revoked := true) == old(tokens)[t].(revoked := true)
    {
      var rest := tokens.Keys;
      while rest != {}
        invariant rest <= tokens.Keys == old(tokens).Keys
        invariant forall t :: t in tokens ==>
                    tokens[t] == if t !in rest && old(tokens)[t].user == user then old(tokens)[t].(revoked := true)
                                 else old(tokens)[t]
      {
        var t :| t in rest;
        if tokens[t].user == user {
          tokens := tokens[t := tokens[t].(revoked := true)];
        }
        rest := rest - {t};
      }
      assert tokens == RevokeUser(old(tokens), user);
    }
  }
}

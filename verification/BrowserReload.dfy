/**
 Why a tab must not reload while it awaits a refresh, and when that does harm. After the reload the script has
 forgotten the request under way, `localStorage` still holds its token, and the next 401 presents it again.
 */
module BrowserReload {
  import opened Common
  import opened RefreshTokens
  import opened BrowserTab
  import opened BrowserSession

  /** The page is loaded afresh; nobody waits for the answer any more. */
  function Reloaded(s: State): State {
    s.(tab := Reload(s.tab), answer := None)
  }

  /** Some later run, with no more such reloads, has a request under way whose token the server answers with reuse. */
  ghost predicate CanReuse(s: State) {
    exists steps: seq<Step>, last: State, token: nat, now: int, account: Account ::
      BrowserSession.Runs(s, steps, last) && token in last.wire && Judge(last.server, token, now, account) == Reuse
  }

  lemma InvNeverReuses(s: State)
    requires Inv(s)
    ensures !CanReuse(s)
  {
    forall steps: seq<Step>, last: State | BrowserSession.Runs(s, steps, last) ensures Inv(last) {
      InvAlong(s, steps, last);
    }
  }

  lemma HarmlessReload(s: State, awaited: nat)
    requires Inv(s) && s.tab.awaiting == Some(awaited) && Live(s.server, awaited) && awaited !in s.wire
    ensures Inv(Reloaded(s))
  {
  }

  lemma RunsOn(first: State, steps: seq<Step>, s: State, step: Step) returns (longer: seq<Step>)
    requires BrowserSession.Runs(first, steps, s) && CanStep(s, step)
    ensures BrowserSession.Runs(first, longer, Apply(s, step))
  {
    longer := steps + [step];
    assert longer[..|steps|] == steps;
  }

  /** A token that the server does not have. */
  lemma {:induction false} NewToken(server: Table, above: nat, left: set<nat>) returns (token: nat)
    requires left == set t | t in server && t >= above
    ensures token !in server
    decreases |left|
  {
    if above !in server {
      token := above;
    } else {
      assert above in left;
      token := NewToken(server, above + 1, left - {above});
    }
  }

  /** The server has rotated the token already: the next 401 presents a revoked one. */
  lemma RevokedReuses(s: State, awaited: nat)
    requires GetRefreshToken(s.tab.store) == Some(awaited) && awaited in s.server && !Live(s.server, awaited)
    ensures CanReuse(Reloaded(s))
  {
    var steps, last := AskAgain(s, awaited);
    assert awaited in last.wire;
    assert Judge(last.server, awaited, last.server[awaited].expiresAt, Account(RefreshTokens.Good, true)) == Reuse;
  }

  lemma AskAgain(s: State, awaited: nat) returns (steps: seq<Step>, asked: State)
    requires GetRefreshToken(s.tab.store) == Some(awaited)
    ensures BrowserSession.Runs(Reloaded(s), steps, asked)
    ensures asked.server == s.server && asked.wire == s.wire + multiset{awaited}
  {
    assert BrowserSession.Runs(Reloaded(s), [], Reloaded(s));
    steps := RunsOn(Reloaded(s), [], Reloaded(s), Got401(false, false));
    asked := Apply(Reloaded(s), Got401(false, false));
  }

  /** Served to its end, a live token is revoked; a second copy of it is still under way. */
  lemma SecondIsReuse(asked: State, awaited: nat, successor: nat)
    requires Live(asked.server, awaited) && asked.wire[awaited] >= 2 && successor !in asked.server
    ensures var now, account := asked.server[awaited].expiresAt, Account(RefreshTokens.Good, true);
            var step := Serve(awaited, successor, now, account, 2);
            && CanStep(asked, step) && awaited in Apply(asked, step).wire
            && Judge(Apply(asked, step).server, awaited, now, account) == Reuse
  {
  }

  /** The first request is still under way: the same token comes to the server twice, and the second time is reuse. */
  lemma TwiceReuses(s: State, awaited: nat)
    requires GetRefreshToken(s.tab.store) == Some(awaited) && Live(s.server, awaited) && awaited in s.wire
    ensures CanReuse(Reloaded(s))
  {
    var now, account := s.server[awaited].expiresAt, Account(RefreshTokens.Good, true);
    var successor := NewToken(s.server, 0, set t | t in s.server && t >= 0);
    var steps, asked := AskAgain(s, awaited);
    SecondIsReuse(asked, awaited, successor);
    steps := RunsOn(Reloaded(s), steps, asked, Serve(awaited, successor, now, account, 2));
  }

  /**
   A reload while the stored token's refresh is awaited can lead to reuse exactly when the server has revoked that
   token, or the request is still on its way; a request that was lost before the server is harmless.
   */
  lemma {:induction false} ReloadReusesExactlyWhen(tenantOf: nat -> nat, steps: seq<Step>, s: State, awaited: nat)
    requires BrowserSession.Runs(Init(tenantOf), steps, s)
    requires s.tab.awaiting == Some(awaited) && GetRefreshToken(s.tab.store) == Some(awaited)
    ensures CanReuse(Reloaded(s)) <==> !Live(s.server, awaited) || awaited in s.wire
  {
    Reachable(tenantOf, steps, s);
    if !Live(s.server, awaited) {
      RevokedReuses(s, awaited);
    } else if awaited in s.wire {
      TwiceReuses(s, awaited);
    } else {
      HarmlessReload(s, awaited);
      InvNeverReuses(Reloaded(s));
    }
  }

  /** Such a run: sign in, refresh, and the server rotates before the tab reloads. */
  lemma ReloadMidRefreshReuses(tenantOf: nat -> nat) returns (steps: seq<Step>, s: State)
    ensures BrowserSession.Runs(Init(tenantOf), steps, s) && s.tab.awaiting == Some(1) && CanReuse(Reloaded(s))
  {
    var s0 := Init(tenantOf);
    assert BrowserSession.Runs(s0, [], s0);
    steps := RunsOn(s0, [], s0, SignIn(0, 1, 0, 0));
    var s1 := Apply(s0, SignIn(0, 1, 0, 0));
    assert GetRefreshToken(s1.tab.store) == Some(1);
    steps := RunsOn(s0, steps, s1, Got401(false, false));
    var s2 := Apply(s1, Got401(false, false));
    assert s2.server == s1.server && 1 in s2.wire && s2.tab.store == s1.tab.store;
    steps, s := RotatesOnce(s0, steps, s2);
    RevokedReuses(s, 1);
  }

  lemma RotatesOnce(first: State, steps: seq<Step>, s: State) returns (longer: seq<Step>, s': State)
    requires BrowserSession.Runs(first, steps, s) && 1 in s.wire && s.server == map[1 := Row(0, 0, LIFETIME, false)]
    ensures BrowserSession.Runs(first, longer, s') && s'.tab == s.tab && 1 in s'.server && !Live(s'.server, 1)
  {
    var step := Serve(1, 2, 0, Account(RefreshTokens.Good, true), 2);
    longer := RunsOn(first, steps, s, step);
    s' := Apply(s, step);
  }

  // ---------------------------------------------------------------- an access token that names no tenant

  /** Its refresh token is not stored: the tab keeps the one it presented, which the server has revoked. */
  lemma WithoutTenantKeepsTheOldToken(s: State, awaited: nat, token: nat)
    requires Inv(s) && s.tab.awaiting == Some(awaited) && GetRefreshToken(s.tab.store) == Some(awaited)
    requires s.answer.Some? && s.answer.value.Tokens? && s.answer.value.token == token
    ensures var tab := Refreshed(s.tab, None, token);
            GetRefreshToken(tab.store) == Some(awaited) && !Live(s.server, awaited)
  {
  }
}

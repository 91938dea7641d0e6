/**
 Deployments over a network that loses answers. A request that adds an entry is sent again when its answer is lost, so
 the router may execute it more than once; setting, patching and purging again changes nothing.
 */
module RouterRetries {
  import opened RouterRequests
  import opened RouterTables
  import opened RouterSetup
  import opened RouterDeployments

  /** The action when an add it makes is executed `extra` times more. */
  function DoAgain(a: Action, r: Router, extra: nat): (after: Router)
    requires Full(r)
    ensures Full(after)
  {
    match a
    case Edit(menu, rule) =>
      if First(r.tables[menu], rule.matcher) < |r.tables[menu]| then Do(a, r)
      else r.(tables := r.tables[menu := r.tables[menu] + Copies(rule.add, 1 + extra)])
    case Add(menu, entry) => r.(tables := r.tables[menu := r.tables[menu] + Copies(entry, 1 + extra)])
    case _ => Do(a, r)
  }

  /** A deployment from `pc` on; `extras[i]` says how often action `i` was executed beyond once. */
  function RestAgain(script: seq<Action>, pc: nat, r: Router, extras: seq<nat>): (last: Router)
    requires pc <= |script| == |extras| && Full(r)
    ensures Full(last)
    decreases |script| - pc
  {
    if pc == |script| then r else RestAgain(script, pc + 1, DoAgain(script[pc], r, extras[pc]), extras)
  }

  /** If no answer is lost it is the deployment. */
  lemma {:induction false} NothingLost(script: seq<Action>, pc: nat, r: Router, extras: seq<nat>)
    requires pc <= |script| == |extras| && Full(r) && forall i :: 0 <= i < |extras| ==> extras[i] == 0
    ensures RestAgain(script, pc, r, extras) == Rest(script, pc, r)
    decreases |script| - pc
  {
    if pc < |script| {
      OnceIsDo(script[pc], r);
      NothingLost(script, pc + 1, Do(script[pc], r), extras);
    }
  }

  lemma OnceIsDo(a: Action, r: Router)
    requires Full(r)
    ensures DoAgain(a, r, 0) == Do(a, r)
  {
    match a
    case Edit(_, rule) => assert Copies(rule.add, 1) == [rule.add];
    case Add(_, entry) => assert Copies(entry, 1) == [entry];
    case _ =>
  }

  lemma DoAgainElsewhere(a: Action, r: Router, extra: nat, menu: Menu)
    requires Full(r) && !Touches(a, menu)
    ensures DoAgain(a, r, extra).tables[menu] == r.tables[menu]
  {
  }

  lemma {:induction false} UntouchedAgain(script: seq<Action>, pc: nat, r: Router, extras: seq<nat>, menu: Menu)
    requires Full(r) && pc <= |script| == |extras| && forall j :: pc <= j < |script| ==> !Touches(script[j], menu)
    ensures RestAgain(script, pc, r, extras).tables[menu] == r.tables[menu]
    decreases |script| - pc
  {
    if pc < |script| {
      DoAgainElsewhere(script[pc], r, extras[pc], menu);
      UntouchedAgain(script, pc + 1, DoAgain(script[pc], r, extras[pc]), extras, menu);
    }
  }

  // ---------------------------------------------------------------- counting

  function Tags(clients: seq<Entry>): nat {
    if clients == [] then 0
    else Tags(clients[..|clients| - 1]) + (if Tagged(clients[|clients| - 1]) then 1 else 0)
  }

  lemma {:induction false} TagsOfCopies(clients: seq<Entry>, entry: Entry, k: nat)
    requires Tagged(entry)
    ensures Tags(clients + Copies(entry, k)) == Tags(clients) + k
  {
    if k == 0 {
      assert clients + [] == clients;
    } else {
      var all := clients + Copies(entry, k);
      assert all[..|all| - 1] == clients + Copies(entry, k - 1);
      TagsOfCopies(clients, entry, k - 1);
    }
  }

  lemma {:induction false} NoTags(clients: seq<Entry>)
    requires !AnyTagged(clients)
    ensures Tags(clients) == 0
  {
    if clients != [] {
      var n := |clients| - 1;
      assert !Tagged(clients[n]);
      assert !AnyTagged(clients[..n]) by {
        assert forall i :: 0 <= i < n ==> clients[..n][i] == clients[i];
      }
      NoTags(clients[..n]);
    }
  }

  lemma {:induction false} UntaggedCopies(entry: Entry, k: nat)
    requires Tagged(entry)
    ensures Untagged(Copies(entry, k)) == []
  {
    if k != 0 {
      UntaggedConcat(Copies(entry, k - 1), [entry]);
      UntaggedOne(entry);
      UntaggedCopies(entry, k - 1);
    }
  }

  lemma {:induction false} CountOfCopies(table: seq<Entry>, m: Matcher, entry: Entry, k: nat)
    requires Matches(m, entry)
    ensures Count(table + Copies(entry, k), m) == Count(table, m) + k
  {
    if k == 0 {
      assert table + [] == table;
    } else {
      var all := table + Copies(entry, k);
      assert all[..|all| - 1] == table + Copies(entry, k - 1);
      CountOfCopies(table, m, entry, k - 1);
    }
  }

  // ---------------------------------------------------------------- what a lossy deployment leaves

  lemma AgainAtRadius(script: seq<Action>, pc: nat, r: Router, extra: nat, purge: nat, client: nat)
    requires Full(r) && pc < |script| && Converging(script, purge, client)
    ensures DoAgain(script[pc], r, extra).tables[Radius] ==
              (if pc == purge then Untagged(r.tables[Radius])
               else if pc == client then r.tables[Radius] + Copies(script[client].entry, 1 + extra)
               else r.tables[Radius])
  {
    OnlyTwoTouchRadius(script, purge, client, pc);
    if pc != purge && pc != client {
      DoAgainElsewhere(script[pc], r, extra, Radius);
    }
  }

  /** Our clients are purged, and then one comes for every execution of the add. */
  lemma {:induction false} RadiusAgain(script: seq<Action>, pc: nat, r: Router, extras: seq<nat>, purge: nat,
      client: nat)
    requires Full(r) && pc <= |script| == |extras| && Converging(script, purge, client)
    ensures RestAgain(script, pc, r, extras).tables[Radius] ==
              (if pc <= purge then Untagged(r.tables[Radius]) + Copies(script[client].entry, 1 + extras[client])
               else if pc <= client then r.tables[Radius] + Copies(script[client].entry, 1 + extras[client])
               else r.tables[Radius])
    decreases |script| - pc
  {
    if pc < |script| {
      AgainAtRadius(script, pc, r, extras[pc], purge, client);
      RadiusAgain(script, pc + 1, DoAgain(script[pc], r, extras[pc]), extras, purge, client);
    }
  }

  lemma FixAgainCount(table: seq<Entry>, rule: Rule, extra: nat)
    requires Sound(rule)
    ensures var i := First(table, rule.matcher);
            Count(if i < |table| then table[i := table[i] + rule.patch] else table + Copies(rule.add, 1 + extra),
              rule.matcher)
            == if Count(table, rule.matcher) == 0 then 1 + extra else Count(table, rule.matcher)
  {
    CountFirst(table, rule.matcher);
    if First(table, rule.matcher) < |table| {
      FixCount(table, rule);
    } else {
      CountOfCopies(table, rule.matcher, rule.add, 1 + extra);
    }
  }

  lemma {:induction false} EditedAgain(script: seq<Action>, pc: nat, r: Router, extras: seq<nat>, i: nat)
    requires Full(r) && pc <= i < |script| == |extras| && script[i].Edit? && Alone(script, i)
    ensures var menu, matcher := script[i].menu, script[i].rule.matcher;
            Count(RestAgain(script, pc, r, extras).tables[menu], matcher)
            == if Count(r.tables[menu], matcher) == 0 then 1 + extras[i] else Count(r.tables[menu], matcher)
    decreases i - pc
  {
    var menu := script[i].menu;
    if pc == i {
      FixAgainCount(r.tables[menu], script[i].rule, extras[i]);
      UntouchedAgain(script, pc + 1, DoAgain(script[i], r, extras[i]), extras, menu);
    } else {
      DoAgainElsewhere(script[pc], r, extras[pc], menu);
      EditedAgain(script, pc + 1, DoAgain(script[pc], r, extras[pc]), extras, i);
    }
  }

  lemma OursAmong(clients: seq<Entry>, client: Entry, k: nat)
    requires Tagged(client)
    ensures var after := Untagged(clients) + Copies(client, k);
            Untagged(after) == Untagged(clients) && Tags(after) == k
  {
    var foreign := Untagged(clients);
    UntaggedClean(clients);
    UntaggedNone(foreign);
    UntaggedConcat(foreign, Copies(client, k));
    UntaggedCopies(client, k);
    NoTags(foreign);
    TagsOfCopies(foreign, client, k);
  }

  lemma ClientsAgain(script: seq<Action>, r: Router, extras: seq<nat>, purge: nat, client: nat)
    requires Full(r) && |extras| == |script| && Converging(script, purge, client)
    ensures var end := RestAgain(script, 0, r, extras);
            && Untagged(end.tables[Radius]) == Untagged(r.tables[Radius])
            && Tags(end.tables[Radius]) == 1 + extras[client]
            && Deploy(script, end).tables[Radius] == Untagged(r.tables[Radius]) + [script[client].entry]
  {
    var end := RestAgain(script, 0, r, extras);
    RadiusAgain(script, 0, r, extras, purge, client);
    CleanDeploy(script, end, purge, client);
    OursAndForeign(r.tables[Radius], end.tables[Radius], Deploy(script, end).tables[Radius], script[client].entry,
                   1 + extras[client]);
  }

  lemma OursAndForeign(before: seq<Entry>, end: seq<Entry>, clean: seq<Entry>, client: Entry, k: nat)
    requires Tagged(client) && end == Untagged(before) + Copies(client, k) && clean == Untagged(end) + [client]
    ensures Untagged(end) == Untagged(before) && Tags(end) == k && clean == Untagged(before) + [client]
  {
    OursAmong(before, client, k);
  }

  /** A deployment without losses leaves the foreign clients and one of ours. */
  lemma CleanDeploy(script: seq<Action>, r: Router, purge: nat, client: nat)
    requires Full(r) && Converging(script, purge, client)
    ensures Deploy(script, r).tables[Radius] == Untagged(r.tables[Radius]) + [script[client].entry]
  {
    DeployIsEnd(script, r);
    RadiusAfter(script, 0, r, purge, client);
  }

  lemma ClientOf(c: Hotspot)
    ensures PurgeAt(c) + 2 < |HotspotScript(c)| && HotspotScript(c)[PurgeAt(c) + 2] == Add(Radius, RadiusClient(c))
  {
  }

  /**
   A finished hotspot deployment leaves one tagged RADIUS client for every execution of its add, so exactly one iff
   that request was executed once; the next deployment without losses restores exactly one.
   */
  lemma OneClientExactlyWhen(c: Hotspot, r: Router, extras: seq<nat>)
    requires Full(r) && |extras| == |HotspotScript(c)|
    ensures PurgeAt(c) + 2 < |extras|
    ensures var end := RestAgain(HotspotScript(c), 0, r, extras);
            && Untagged(end.tables[Radius]) == Untagged(r.tables[Radius])
            && Tags(end.tables[Radius]) == 1 + extras[PurgeAt(c) + 2]
            && (Tags(end.tables[Radius]) == 1 <==> extras[PurgeAt(c) + 2] == 0)
            && Deploy(HotspotScript(c), end).tables[Radius] == Untagged(r.tables[Radius]) + [RadiusClient(c)]
            && Tags(Deploy(HotspotScript(c), end).tables[Radius]) == 1
  {
    HotspotQualifies(c);
    ClientOf(c);
    ClientsAgain(HotspotScript(c), r, extras, PurgeAt(c), PurgeAt(c) + 2);
    OursAmong(r.tables[Radius], RadiusClient(c), 1);
    assert Copies(RadiusClient(c), 1) == [RadiusClient(c)];
  }

  /**
   An entry that an edit found missing is there once for every execution of its add, so exactly once iff that request
   was executed once; unlike the client, its duplicates outlast every later deployment.
   */
  lemma OneEntryExactlyWhen(c: Hotspot, r: Router, extras: seq<nat>, i: nat)
    requires Full(r) && i < |extras| == |HotspotScript(c)| && HotspotScript(c)[i].Edit?
    requires Count(r.tables[HotspotScript(c)[i].menu], HotspotScript(c)[i].rule.matcher) == 0
    ensures var menu, matcher := HotspotScript(c)[i].menu, HotspotScript(c)[i].rule.matcher;
            var end := RestAgain(HotspotScript(c), 0, r, extras);
            && (Count(end.tables[menu], matcher) == 1 <==> extras[i] == 0)
            && Count(end.tables[menu], matcher) == 1 + extras[i]
            && Count(Deploy(HotspotScript(c), end).tables[menu], matcher) == 1 + extras[i]
  {
    var script := HotspotScript(c);
    HotspotQualifies(c);
    assert Alone(script, i);
    EditedAgain(script, 0, r, extras, i);
    HotspotDeployed(c, RestAgain(script, 0, r, extras));
  }

  // ---------------------------------------------------------------- a deployment, request by request

  /** What the requests of each action meet: number 0 reads, the others write. */
  type Net = (nat, nat) -> Tries

  /** The action when the router executes its writing request `n` times. */
  function Acted(a: Action, r: Router, n: nat): (after: Router)
    requires Full(r)
    ensures Full(after)
  {
    if n == 0 then r else DoAgain(a, r, n - 1)
  }

  /** What is there already, and has nothing to be patched, needs no writing request. */
  predicate Silent(a: Action, r: Router)
    requires Full(r)
  {
    a.Edit? && First(r.tables[a.menu], a.rule.matcher) < |r.tables[a.menu]| && a.rule.patch == map[]
  }

  /** A `DELETE` goes through if no answer to it was lost: the next try would find nothing and be refused with 404. */
  predicate Deletes(tries: Tries) {
    Succeeds(tries) && Times(tries) == 1
  }

  /** Walking the fetched clients from `k` on and deleting the tagged ones. */
  function Sweep(fetched: seq<Entry>, k: nat, i: nat, net: Net): (seq<Entry>, bool)
    requires k <= |fetched|
    decreases |fetched| - k
  {
    if k == |fetched| then (Untagged(fetched), true)
    else if !Tagged(fetched[k]) || Deletes(net(i, k + 1)) then Sweep(fetched, k + 1, i, net)
    else
      var gone := Times(net(i, k + 1)) > 0;
      (Untagged(fetched[..k]) + (if gone then [] else [fetched[k]]) + fetched[k + 1..], false)
  }

  /** Action `i`; the flag says whether it went through. */
  function One(a: Action, i: nat, r: Router, net: Net): (result: (Router, bool))
    requires Full(r)
    ensures Full(result.0)
  {
    if (a.Edit? || a.Purge?) && !Succeeds(net(i, 0)) then (r, false)
    else if a.Purge? then
      var (clients, ok) := Sweep(r.tables[Radius], 0, i, net);
      (r.(tables := r.tables[Radius := clients]), ok)
    else if Silent(a, r) then (r, true)
    else (Acted(a, r, Times(net(i, 1))), Succeeds(net(i, 1)))
  }

  /** A deployment from `pc` on: the first request that does not succeed raises and ends it. */
  function Attempt(script: seq<Action>, pc: nat, r: Router, net: Net): (result: (Router, bool))
    requires pc <= |script| && Full(r)
    ensures Full(result.0)
    decreases |script| - pc
  {
    if pc == |script| then (r, true)
    else
      var (after, ok) := One(script[pc], pc, r, net);
      if ok then Attempt(script, pc + 1, after, net) else (after, false)
  }

  /** A whole deployment over this network. */
  function Tried(script: seq<Action>, r: Router, net: Net): (result: (Router, bool))
    requires Full(r)
    ensures Full(result.0)
  {
    Attempt(script, 0, r, net)
  }

  function Extra(net: Net, i: nat): nat {
    if Times(net(i, 1)) == 0 then 0 else Times(net(i, 1)) - 1
  }

  function Extras(n: nat, net: Net): (extras: seq<nat>)
    ensures |extras| == n && forall i :: 0 <= i < n ==> extras[i] == Extra(net, i)
  {
    seq(n, (i: nat) => Extra(net, i))
  }

  lemma {:induction false} SweepSweeps(fetched: seq<Entry>, k: nat, i: nat, net: Net)
    requires k <= |fetched|
    ensures Sweep(fetched, k, i, net).1 ==> Sweep(fetched, k, i, net).0 == Untagged(fetched)
    decreases |fetched| - k
  {
    if k < |fetched| { SweepSweeps(fetched, k + 1, i, net); }
  }

  lemma SilentIsDone(a: Action, r: Router)
    requires Full(r) && Silent(a, r)
    ensures Do(a, r) == r
  {
    var table, k := r.tables[a.menu], First(r.tables[a.menu], a.rule.matcher);
    assert table[k] + a.rule.patch == table[k];
    assert table[k := table[k]] == table;
    assert r.tables[a.menu := table] == r.tables;
  }

  lemma OneIsDoAgain(a: Action, i: nat, r: Router, net: Net)
    requires Full(r) && One(a, i, r, net).1
    ensures One(a, i, r, net).0 == DoAgain(a, r, Extra(net, i))
  {
    if a.Purge? {
      SweepSweeps(r.tables[Radius], 0, i, net);
    } else if Silent(a, r) {
      SilentIsDone(a, r);
    } else {
      SuccessExecuted(net(i, 1));
    }
  }

  /** A deployment that goes through has executed each adding request once and as often again as answers were lost. */
  lemma {:induction false} AttemptCompletes(script: seq<Action>, pc: nat, r: Router, net: Net)
    requires pc <= |script| && Full(r) && Attempt(script, pc, r, net).1
    ensures Attempt(script, pc, r, net).0 == RestAgain(script, pc, r, Extras(|script|, net))
    decreases |script| - pc
  {
    if pc < |script| {
      OneIsDoAgain(script[pc], pc, r, net);
      AttemptCompletes(script, pc + 1, One(script[pc], pc, r, net).0, net);
    }
  }

  /** No try before the answered one was executed. */
  predicate OnceExecuted(tries: Tries) {
    forall k :: 0 <= k < UsedFrom(tries, 0) - 1 ==> !Executed(tries[k])
  }

  lemma ClientsIfAnswered(script: seq<Action>, r: Router, net: Net, purge: nat, client: nat)
    requires Full(r) && Converging(script, purge, client) && Tried(script, r, net).1
    ensures var clients := Tried(script, r, net).0.tables[Radius];
            Untagged(clients) == Untagged(r.tables[Radius]) && Tags(clients) == Times(net(client, 1))
    ensures Times(net(client, 1)) == 1 <==> OnceExecuted(net(client, 1))
  {
    AttemptCompletes(script, 0, r, net);
    ClientsAgain(script, r, Extras(|script|, net), purge, client);
    Reached(script, 0, r, net, client);
    SuccessExecuted(net(client, 1));
  }

  /**
   A hotspot deployment that goes through leaves one tagged client for each time that the router executed the request
   that adds it, so exactly one iff no try of that request was executed without its answer arriving.
   */
  lemma OneClientIfAnswered(c: Hotspot, r: Router, net: Net)
    requires Full(r) && Tried(HotspotScript(c), r, net).1
    ensures var clients, tries := Tried(HotspotScript(c), r, net).0.tables[Radius], net(PurgeAt(c) + 2, 1);
            && Untagged(clients) == Untagged(r.tables[Radius]) && Tags(clients) == Times(tries)
            && (Tags(clients) == 1 <==> OnceExecuted(tries))
  {
    HotspotQualifies(c);
    ClientsIfAnswered(HotspotScript(c), r, net, PurgeAt(c), PurgeAt(c) + 2);
  }

  /** Every adding or setting request of a deployment that goes through has succeeded. */
  lemma {:induction false} Reached(script: seq<Action>, pc: nat, r: Router, net: Net, i: nat)
    requires pc <= i < |script| && Full(r) && Attempt(script, pc, r, net).1 && (script[i].Add? || script[i].Put?)
    ensures Succeeds(net(i, 1))
    decreases i - pc
  {
    if pc < i { Reached(script, pc + 1, One(script[pc], pc, r, net).0, net, i); }
  }

  // ---------------------------------------------------------------- after any number of such attempts

  lemma {:induction false} UntaggedPrefix(clients: seq<Entry>, k: nat)
    requires k <= |clients|
    ensures Untagged(clients) == Untagged(clients[..k]) + Untagged(clients[k..])
  {
    assert clients == clients[..k] + clients[k..];
    UntaggedConcat(clients[..k], clients[k..]);
  }

  /** A sweep that breaks off has deleted no foreign client. */
  lemma {:induction false} SweepSpares(fetched: seq<Entry>, k: nat, i: nat, net: Net)
    requires k <= |fetched|
    ensures Untagged(Sweep(fetched, k, i, net).0) == Untagged(fetched)
    decreases |fetched| - k
  {
    if k == |fetched| {
      UntaggedClean(fetched);
      UntaggedNone(Untagged(fetched));
    } else if !Tagged(fetched[k]) || Deletes(net(i, k + 1)) {
      SweepSpares(fetched, k + 1, i, net);
    } else {
      BrokenOff(fetched, k, Times(net(i, k + 1)) > 0);
    }
  }

  lemma BrokenOff(fetched: seq<Entry>, k: nat, gone: bool)
    requires k < |fetched| && Tagged(fetched[k])
    ensures Untagged(Untagged(fetched[..k]) + (if gone then [] else [fetched[k]]) + fetched[k + 1..])
            == Untagged(fetched)
  {
    SplitAt(fetched, k);
    Around(fetched[..k], fetched[k], fetched[k + 1..], if gone then [] else [fetched[k]]);
  }

  lemma SplitAt(fetched: seq<Entry>, k: nat)
    requires k < |fetched|
    ensures fetched[..k] + [fetched[k]] + fetched[k + 1..] == fetched
  {
  }

  lemma Around(head: seq<Entry>, x: Entry, tail: seq<Entry>, mid: seq<Entry>)
    requires Tagged(x) && (mid == [] || mid == [x])
    ensures Untagged(Untagged(head) + mid + tail) == Untagged(head + [x] + tail)
  {
    UntaggedOne(x);
    UntaggedConcat(head + [x], tail);
    UntaggedConcat(head, [x]);
    UntaggedConcat(Untagged(head) + mid, tail);
    UntaggedConcat(Untagged(head), mid);
    UntaggedClean(head);
    UntaggedNone(Untagged(head));
  }

  lemma OneSpares(script: seq<Action>, i: nat, r: Router, net: Net, purge: nat, client: nat)
    requires Full(r) && i < |script| && Converging(script, purge, client)
    ensures Untagged(One(script[i], i, r, net).0.tables[Radius]) == Untagged(r.tables[Radius])
  {
    OnlyTwoTouchRadius(script, purge, client, i);
    if i == purge {
      SweepSpares(r.tables[Radius], 0, i, net);
    } else if i == client {
      UntaggedConcat(r.tables[Radius], Copies(script[i].entry, Times(net(i, 1))));
      UntaggedCopies(script[i].entry, Times(net(i, 1)));
      assert r.tables[Radius] + Copies(script[i].entry, 0) == r.tables[Radius];
    } else if Times(net(i, 1)) > 0 {
      DoAgainElsewhere(script[i], r, Times(net(i, 1)) - 1, Radius);
    }
  }

  lemma {:induction false} AttemptSpares(script: seq<Action>, pc: nat, r: Router, net: Net, purge: nat, client: nat)
    requires Full(r) && pc <= |script| && Converging(script, purge, client)
    ensures Untagged(Attempt(script, pc, r, net).0.tables[Radius]) == Untagged(r.tables[Radius])
    decreases |script| - pc
  {
    if pc < |script| {
      var (after, ok) := One(script[pc], pc, r, net);
      OneSpares(script, pc, r, net, purge, client);
      if ok { AttemptSpares(script, pc + 1, after, net, purge, client); }
    }
  }

  /** The router after attempts that may lose answers and break off at any request. */
  function Attempts(script: seq<Action>, r: Router, nets: seq<Net>): (last: Router)
    requires Full(r)
    ensures Full(last)
  {
    if nets == [] then r
    else Tried(script, Attempts(script, r, nets[..|nets| - 1]), nets[|nets| - 1]).0
  }

  lemma {:induction false} AttemptsSpare(script: seq<Action>, r: Router, nets: seq<Net>, purge: nat, client: nat)
    requires Full(r) && Converging(script, purge, client)
    ensures Untagged(Attempts(script, r, nets).tables[Radius]) == Untagged(r.tables[Radius])
  {
    if nets != [] {
      var before := nets[..|nets| - 1];
      AttemptsSpare(script, r, before, purge, client);
      AttemptSpares(script, 0, Attempts(script, r, before), nets[|nets| - 1], purge, client);
    }
  }

  /**
   Whatever hotspot deployments have lost, repeated and left half done, the next one in which every answer arrives
   leaves the foreign RADIUS clients of the beginning and exactly one of ours.
   */
  lemma CleanAfterAny(c: Hotspot, r: Router, nets: seq<Net>)
    requires Full(r)
    ensures var end := Deploy(HotspotScript(c), Attempts(HotspotScript(c), r, nets));
            end.tables[Radius] == Untagged(r.tables[Radius]) + [RadiusClient(c)]
  {
    HotspotQualifies(c);
    ClientOf(c);
    AttemptsSpare(HotspotScript(c), r, nets, PurgeAt(c), PurgeAt(c) + 2);
    CleanDeploy(HotspotScript(c), Attempts(HotspotScript(c), r, nets), PurgeAt(c), PurgeAt(c) + 2);
  }

  /** If every request succeeds and is executed once, an attempt is the deployment. */
  lemma {:induction false} AllAnswered(script: seq<Action>, pc: nat, r: Router, net: Net)
    requires pc <= |script| && Full(r) && forall i: nat, j: nat :: Succeeds(net(i, j)) && Times(net(i, j)) == 1
    ensures Attempt(script, pc, r, net) == (Rest(script, pc, r), true)
    decreases |script| - pc
  {
    if pc < |script| {
      OneAnswered(script[pc], pc, r, net);
      AllAnswered(script, pc + 1, Do(script[pc], r), net);
    }
  }

  lemma TriedAnswered(script: seq<Action>, r: Router, net: Net)
    requires Full(r) && forall i: nat, j: nat :: Succeeds(net(i, j)) && Times(net(i, j)) == 1
    ensures Tried(script, r, net) == (Deploy(script, r), true)
  {
    AllAnswered(script, 0, r, net);
    DeployIsEnd(script, r);
  }

  lemma OneAnswered(a: Action, i: nat, r: Router, net: Net)
    requires Full(r) && forall j: nat :: Succeeds(net(i, j)) && Times(net(i, j)) == 1
    ensures One(a, i, r, net) == (Do(a, r), true)
  {
    if a.Purge? {
      SweepAnswered(r.tables[Radius], 0, i, net);
    } else if Silent(a, r) {
      SilentIsDone(a, r);
    } else {
      OnceIsDo(a, r);
    }
  }

  lemma {:induction false} SweepAnswered(fetched: seq<Entry>, k: nat, i: nat, net: Net)
    requires k <= |fetched| && forall j: nat :: Deletes(net(i, j))
    ensures Sweep(fetched, k, i, net) == (Untagged(fetched), true)
    decreases |fetched| - k
  {
    if k < |fetched| { SweepAnswered(fetched, k + 1, i, net); }
  }
}

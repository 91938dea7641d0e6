/**
 Deploying a hotspot or a PPPoE server on a router. A deployment is a list of actions; each step
 sends at most one request that changes the router, and a deployment can break off after any step.
 */
module RouterSetup {
  import opened Common
  import opened RouterTables

  datatype Menu =
    | Addresses | Pools | DhcpServers | DhcpNetworks | WalledGarden | HotspotProfiles | Hotspots
    | Radius | NatRules | PppProfiles | PppoeServers

  datatype Setting = LoginPage | Identity | CoaPort

  datatype Router = Router(tables: map<Menu, seq<Entry>>, settings: map<Setting, string>)

  /** Every menu exists on every router. */
  ghost predicate Full(r: Router) {
    forall m: Menu :: m in r.tables
  }

  /** GET-then-add-or-patch, a plain set, deleting our RADIUS clients one by one, a plain add. */
  datatype Action =
    | Edit(menu: Menu, rule: Rule)
    | Put(setting: Setting, value: string)
    | Purge
    | Add(menu: Menu, entry: Entry)

  /** The action as a whole. */
  function Do(a: Action, r: Router): Router
    requires Full(r)
  {
    match a
    case Edit(menu, rule) => r.(tables := r.tables[menu := Fix(r.tables[menu], rule)])
    case Put(setting, value) => r.(settings := r.settings[setting := value])
    case Purge => r.(tables := r.tables[Radius := Untagged(r.tables[Radius])])
    case Add(menu, entry) => r.(tables := r.tables[menu := r.tables[menu] + [entry]])
  }

  /** The next request of the action; the flag says whether the action is over. */
  function Request(a: Action, r: Router): (bool, Router)
    requires Full(r)
  {
    if a.Purge? then
      if AnyTagged(r.tables[Radius]) then (false, r.(tables := r.tables[Radius := RemoveFirstTagged(r.tables[Radius])]))
      else (true, r)
    else (true, Do(a, r))
  }

  /** A deployment that breaks off after `n` steps, if it has not finished before. */
  function RunFor(script: seq<Action>, pc: nat, r: Router, n: nat): Router
    requires pc <= |script| && Full(r)
    decreases n
  {
    if n == 0 || pc == |script| then r
    else var (over, r') := Request(script[pc], r); RunFor(script, if over then pc + 1 else pc, r', n - 1)
  }

  /** A deployment run to its end. */
  function Finish(script: seq<Action>, pc: nat, r: Router): (last: Router)
    requires pc <= |script| && Full(r)
    ensures Full(last)
    decreases |script| - pc, |r.tables[Radius]|
  {
    if pc == |script| then r
    else
      var (over, r') := Request(script[pc], r);
      assert !over ==> |r'.tables[Radius]| < |r.tables[Radius]| by {
        if !over { RemoveShrinks(r.tables[Radius]); }
      }
      Finish(script, if over then pc + 1 else pc, r')
  }

  function Deploy(script: seq<Action>, r: Router): (last: Router)
    requires Full(r)
    ensures Full(last)
  {
    Finish(script, 0, r)
  }

  // ---------------------------------------------------------------- a finished deployment does every action once

  /** Every action from `pc` on, each as a whole. */
  function Rest(script: seq<Action>, pc: nat, r: Router): (last: Router)
    requires pc <= |script| && Full(r)
    ensures Full(last)
    decreases |script| - pc
  {
    if pc == |script| then r else Rest(script, pc + 1, Do(script[pc], r))
  }

  function End(script: seq<Action>, r: Router): (last: Router)
    requires Full(r)
    ensures Full(last)
  {
    Rest(script, 0, r)
  }

  lemma {:induction false} FinishIsRest(script: seq<Action>, pc: nat, r: Router)
    requires pc <= |script| && Full(r)
    ensures Finish(script, pc, r) == Rest(script, pc, r)
    decreases |script| - pc, |r.tables[Radius]|
  {
    if pc < |script| {
      var (over, r') := Request(script[pc], r);
      if script[pc].Purge? {
        if over {
          UntaggedNone(r.tables[Radius]);
          assert Do(Purge, r) == r;
        } else {
          RemoveShrinks(r.tables[Radius]);
          UntaggedRemoved(r.tables[Radius]);
          assert Do(Purge, r') == Do(Purge, r);
        }
      }
      FinishIsRest(script, if over then pc + 1 else pc, r');
    }
  }

  lemma DeployIsEnd(script: seq<Action>, r: Router)
    requires Full(r)
    ensures Deploy(script, r) == End(script, r)
  {
    FinishIsRest(script, 0, r);
  }

  // ---------------------------------------------------------------- scripts that converge

  /** Where an action writes. */
  predicate Touches(a: Action, menu: Menu) {
    match a
    case Edit(m, _) => m == menu
    case Put(_, _) => false
    case Purge => menu == Radius
    case Add(m, _) => m == menu
  }

  predicate Sets(a: Action, setting: Setting) {
    a.Put? && a.setting == setting
  }

  lemma DoElsewhere(a: Action, r: Router, menu: Menu)
    requires Full(r) && !Touches(a, menu)
    ensures Do(a, r).tables[menu] == r.tables[menu]
  {
  }

  /** No other action interferes with action `i`: an edit is sound and alone on its menu, a put alone on its setting. */
  ghost predicate Alone(script: seq<Action>, i: nat)
    requires i < |script|
  {
    match script[i]
    case Edit(menu, rule) => Sound(rule) && forall j :: 0 <= j < |script| && j != i ==> !Touches(script[j], menu)
    case Put(setting, _) => forall j :: 0 <= j < |script| && j != i ==> !Sets(script[j], setting)
    case _ => true
  }

  /** At `purge` our RADIUS clients go, at `client` a new one of ours comes, and nothing else is added blindly. */
  ghost predicate Converging(script: seq<Action>, purge: nat, client: nat) {
    && (forall i: nat :: i < |script| ==> Alone(script, i))
    && purge < client < |script| && script[purge] == Purge
    && script[client].Add? && script[client].menu == Radius && Tagged(script[client].entry)
    && (forall i :: 0 <= i < |script| && script[i].Purge? ==> i == purge)
    && (forall i :: 0 <= i < |script| && script[i].Add? ==> i == client)
  }

  function Look(settings: map<Setting, string>, setting: Setting): Option<string> {
    if setting in settings then Some(settings[setting]) else None
  }

  lemma DoMenu(x: Action, a: Router, b: Router, menu: Menu)
    requires Full(a) && Full(b) && a.tables[menu] == b.tables[menu]
    ensures Do(x, a).tables[menu] == Do(x, b).tables[menu]
  {
  }

  lemma DoSetting(x: Action, r: Router, setting: Setting)
    requires Full(r)
    ensures Look(Do(x, r).settings, setting) == if Sets(x, setting) then Some(x.value) else Look(r.settings, setting)
  {
  }

  /** What becomes of a menu depends on that menu alone, and of a setting on that setting. */
  lemma {:induction false} MenusApart(script: seq<Action>, pc: nat, a: Router, b: Router, menu: Menu)
    requires Full(a) && Full(b) && pc <= |script| && a.tables[menu] == b.tables[menu]
    ensures Rest(script, pc, a).tables[menu] == Rest(script, pc, b).tables[menu]
    decreases |script| - pc
  {
    if pc < |script| {
      DoMenu(script[pc], a, b, menu);
      MenusApart(script, pc + 1, Do(script[pc], a), Do(script[pc], b), menu);
    }
  }

  lemma {:induction false} SettingsApart(script: seq<Action>, pc: nat, a: Router, b: Router, setting: Setting)
    requires Full(a) && Full(b) && pc <= |script| && Look(a.settings, setting) == Look(b.settings, setting)
    ensures Look(Rest(script, pc, a).settings, setting) == Look(Rest(script, pc, b).settings, setting)
    decreases |script| - pc
  {
    if pc < |script| {
      DoSetting(script[pc], a, setting);
      DoSetting(script[pc], b, setting);
      SettingsApart(script, pc + 1, Do(script[pc], a), Do(script[pc], b), setting);
    }
  }

  lemma {:induction false} Untouched(script: seq<Action>, pc: nat, r: Router, menu: Menu)
    requires Full(r) && pc <= |script| && forall j :: pc <= j < |script| ==> !Touches(script[j], menu)
    ensures Rest(script, pc, r).tables[menu] == r.tables[menu]
    decreases |script| - pc
  {
    if pc < |script| {
      DoElsewhere(script[pc], r, menu);
      Untouched(script, pc + 1, Do(script[pc], r), menu);
    }
  }

  /** A menu that one action edits is fixed exactly once. */
  lemma {:induction false} EditedOnce(script: seq<Action>, pc: nat, r: Router, i: nat)
    requires Full(r) && pc <= i < |script| && script[i].Edit? && Alone(script, i)
    ensures Rest(script, pc, r).tables[script[i].menu] == Fix(r.tables[script[i].menu], script[i].rule)
    decreases i - pc
  {
    var menu := script[i].menu;
    if pc == i {
      assert Do(script[i], r).tables[menu] == Fix(r.tables[menu], script[i].rule);
      Untouched(script, pc + 1, Do(script[i], r), menu);
    } else {
      DoElsewhere(script[pc], r, menu);
      EditedOnce(script, pc + 1, Do(script[pc], r), i);
    }
  }

  lemma {:induction false} Unset(script: seq<Action>, pc: nat, r: Router, setting: Setting)
    requires Full(r) && pc <= |script| && forall j :: pc <= j < |script| ==> !Sets(script[j], setting)
    ensures Look(Rest(script, pc, r).settings, setting) == Look(r.settings, setting)
    decreases |script| - pc
  {
    if pc < |script| {
      DoSetting(script[pc], r, setting);
      Unset(script, pc + 1, Do(script[pc], r), setting);
    }
  }

  /** A setting that one action puts has that value. */
  lemma {:induction false} PutOnce(script: seq<Action>, pc: nat, r: Router, i: nat)
    requires Full(r) && pc <= i < |script| && script[i].Put? && Alone(script, i)
    ensures Look(Rest(script, pc, r).settings, script[i].setting) == Some(script[i].value)
    decreases i - pc
  {
    if pc == i {
      Unset(script, pc + 1, Do(script[pc], r), script[i].setting);
    } else {
      PutOnce(script, pc + 1, Do(script[pc], r), i);
    }
  }

  lemma OnlyTwoTouchRadius(script: seq<Action>, purge: nat, client: nat, i: nat)
    requires Converging(script, purge, client) && i < |script|
    ensures Touches(script[i], Radius) <==> i == purge || i == client
  {
    assert Alone(script, i);
    if script[i].Edit? {
      assert Touches(script[purge], Radius);
    }
  }

  /** What the actions from `pc` on make of a list of RADIUS clients. */
  lemma {:induction false} RadiusAfter(script: seq<Action>, pc: nat, r: Router, purge: nat, client: nat)
    requires Full(r) && pc <= |script| && Converging(script, purge, client)
    ensures Rest(script, pc, r).tables[Radius] ==
              (if pc <= purge then Untagged(r.tables[Radius]) + [script[client].entry]
               else if pc <= client then r.tables[Radius] + [script[client].entry]
               else r.tables[Radius])
    decreases |script| - pc
  {
    if pc < |script| {
      OnlyTwoTouchRadius(script, purge, client, pc);
      if pc != purge && pc != client {
        DoElsewhere(script[pc], r, Radius);
      }
      RadiusAfter(script, pc + 1, Do(script[pc], r), purge, client);
    }
  }

  lemma SameMaps(x: Router, y: Router)
    requires Full(x) && Full(y)
    requires forall menu: Menu :: x.tables[menu] == y.tables[menu]
    requires forall setting: Setting :: Look(x.settings, setting) == Look(y.settings, setting)
    ensures x == y
  {
    forall setting: Setting
      ensures setting in x.settings <==> setting in y.settings
      ensures setting in x.settings ==> x.settings[setting] == y.settings[setting]
    {
      assert Look(x.settings, setting) == Look(y.settings, setting);
    }
    assert x.tables == y.tables;
    assert x.settings == y.settings;
  }

  /** One menu may differ at the start; if it ends up alike, the routers do. */
  lemma SameEnd(script: seq<Action>, a: Router, b: Router, odd: Menu)
    requires Full(a) && Full(b) && a.settings == b.settings
    requires forall menu :: menu != odd ==> a.tables[menu] == b.tables[menu]
    requires End(script, a).tables[odd] == End(script, b).tables[odd]
    ensures End(script, a) == End(script, b)
  {
    forall menu: Menu ensures End(script, a).tables[menu] == End(script, b).tables[menu] {
      if menu != odd { MenusApart(script, 0, a, b, menu); }
    }
    forall setting: Setting ensures Look(End(script, a).settings, setting) == Look(End(script, b).settings, setting) {
      SettingsApart(script, 0, a, b, setting);
    }
    SameMaps(End(script, a), End(script, b));
  }

  /** An edit that no other action interferes with may run early without changing the end. */
  lemma EditKeepsEnd(script: seq<Action>, pc: nat, r: Router)
    requires Full(r) && pc < |script| && script[pc].Edit? && Alone(script, pc)
    ensures End(script, Do(script[pc], r)) == End(script, r)
  {
    var r' := Do(script[pc], r);
    FixIdempotent(r.tables[script[pc].menu], script[pc].rule);
    EditedOnce(script, 0, r, pc);
    EditedOnce(script, 0, r', pc);
    SameEnd(script, r', r, script[pc].menu);
  }

  lemma PutKeepsEnd(script: seq<Action>, pc: nat, r: Router)
    requires Full(r) && pc < |script| && script[pc].Put? && Alone(script, pc)
    ensures End(script, Do(script[pc], r)) == End(script, r)
  {
    var r' := Do(script[pc], r);
    forall menu: Menu ensures End(script, r').tables[menu] == End(script, r).tables[menu] {
      MenusApart(script, 0, r', r, menu);
    }
    forall setting: Setting ensures Look(End(script, r').settings, setting) == Look(End(script, r).settings, setting) {
      if setting == script[pc].setting {
        PutOnce(script, 0, r', pc);
        PutOnce(script, 0, r, pc);
      } else {
        SettingsApart(script, 0, r', r, setting);
      }
    }
    SameMaps(End(script, r'), End(script, r));
  }

  lemma RadiusKeepsEnd(script: seq<Action>, r: Router, clients: seq<Entry>, purge: nat, client: nat)
    requires Full(r) && Converging(script, purge, client) && Untagged(clients) == Untagged(r.tables[Radius])
    ensures End(script, r.(tables := r.tables[Radius := clients])) == End(script, r)
  {
    var r' := r.(tables := r.tables[Radius := clients]);
    RadiusAfter(script, 0, r, purge, client);
    RadiusAfter(script, 0, r', purge, client);
    SameEnd(script, r', r, Radius);
  }

  /** No single request changes where a whole deployment would end. */
  lemma RequestKeepsEnd(script: seq<Action>, pc: nat, r: Router, purge: nat, client: nat)
    requires Full(r) && Converging(script, purge, client) && pc < |script|
    ensures End(script, Request(script[pc], r).1) == End(script, r)
  {
    var clients := r.tables[Radius];
    assert Alone(script, pc);
    match script[pc] {
      case Edit(_, _) => EditKeepsEnd(script, pc, r);
      case Put(_, _) => PutKeepsEnd(script, pc, r);
      case Purge =>
        UntaggedRemoved(clients);
        RadiusKeepsEnd(script, r, RemoveFirstTagged(clients), purge, client);
      case Add(_, entry) =>
        UntaggedConcat(clients, [entry]);
        UntaggedOne(entry);
        RadiusKeepsEnd(script, r, clients + [entry], purge, client);
    }
  }

  lemma {:induction false} RunKeepsEnd(script: seq<Action>, pc: nat, r: Router, n: nat, purge: nat, client: nat)
    requires Full(r) && Converging(script, purge, client) && pc <= |script|
    ensures Full(RunFor(script, pc, r, n)) && End(script, RunFor(script, pc, r, n)) == End(script, r)
    decreases n
  {
    if n != 0 && pc != |script| {
      RequestKeepsEnd(script, pc, r, purge, client);
      var (over, r') := Request(script[pc], r);
      RunKeepsEnd(script, if over then pc + 1 else pc, r', n - 1, purge, client);
    }
  }

  /** The router after several deployments of the same script, each broken off after some number of steps. */
  ghost predicate Attempts(script: seq<Action>, r: Router, stops: seq<nat>, last: Router)
    requires Full(r)
    decreases |stops|
  {
    if stops == [] then last == r
    else
      var n := |stops| - 1;
      exists mid :: Full(mid) && Attempts(script, r, stops[..n], mid) && last == RunFor(script, 0, mid, stops[n])
  }

  lemma {:induction false} AttemptsKeepEnd(script: seq<Action>, r: Router, stops: seq<nat>, last: Router, purge: nat,
      client: nat)
    requires Full(r) && Converging(script, purge, client) && Attempts(script, r, stops, last)
    ensures Full(last) && End(script, last) == End(script, r)
    decreases |stops|
  {
    if stops != [] {
      var n := |stops| - 1;
      var mid :| Full(mid) && Attempts(script, r, stops[..n], mid) && last == RunFor(script, 0, mid, stops[n]);
      AttemptsKeepEnd(script, r, stops[..n], mid, purge, client);
      RunKeepsEnd(script, 0, mid, stops[n], purge, client);
    }
  }

  /** However many attempts broke off wherever, one finished deployment ends as if it were the first. */
  lemma Converges(script: seq<Action>, r: Router, stops: seq<nat>, last: Router, purge: nat, client: nat)
    requires Full(r) && Converging(script, purge, client) && Attempts(script, r, stops, last)
    ensures Full(last) && Deploy(script, last) == Deploy(script, r)
  {
    AttemptsKeepEnd(script, r, stops, last, purge, client);
    DeployIsEnd(script, last);
    DeployIsEnd(script, r);
  }

  // ---------------------------------------------------------------- scripts that end in a blind add

  /** Edits, each alone on its menu, and then one entry added to a menu. */
  ghost predicate Appending(script: seq<Action>) {
    && script != [] && script[|script| - 1].Add?
    && forall i: nat :: i < |script| - 1 ==> script[i].Edit? && Alone(script, i)
  }

  function Copies(entry: Entry, k: nat): seq<Entry> {
    if k == 0 then [] else Copies(entry, k - 1) + [entry]
  }

  function Grown(r: Router, menu: Menu, entry: Entry, k: nat): (grown: Router)
    requires Full(r)
    ensures Full(grown)
  {
    r.(tables := r.tables[menu := r.tables[menu] + Copies(entry, k)])
  }

  /** How many of the deployments got to their last step. */
  function Completed(stops: seq<nat>, steps: nat): nat {
    if stops == [] then 0
    else Completed(stops[..|stops| - 1], steps) + (if stops[|stops| - 1] >= steps then 1 else 0)
  }

  lemma AddIsApart(script: seq<Action>, i: nat)
    requires Appending(script) && i < |script| - 1
    ensures !Touches(script[i], script[|script| - 1].menu)
  {
    assert Alone(script, i) && Touches(script[|script| - 1], script[|script| - 1].menu);
  }

  lemma {:induction false} AppendAfter(script: seq<Action>, pc: nat, r: Router)
    requires Full(r) && Appending(script) && pc < |script|
    ensures var add := script[|script| - 1];
            Rest(script, pc, r).tables[add.menu] == r.tables[add.menu] + [add.entry]
    decreases |script| - pc
  {
    if pc < |script| - 1 {
      AddIsApart(script, pc);
      DoElsewhere(script[pc], r, script[|script| - 1].menu);
      AppendAfter(script, pc + 1, Do(script[pc], r));
    }
  }

  lemma AppendGrowsEnd(script: seq<Action>, r: Router)
    requires Full(r) && Appending(script)
    ensures var add := script[|script| - 1];
            End(script, Do(add, r)) == Grown(End(script, r), add.menu, add.entry, 1)
  {
    var add := script[|script| - 1];
    var x, y := End(script, Do(add, r)), Grown(End(script, r), add.menu, add.entry, 1);
    AppendAfter(script, 0, r);
    AppendAfter(script, 0, Do(add, r));
    assert Copies(add.entry, 1) == [add.entry];
    forall menu: Menu ensures x.tables[menu] == y.tables[menu] {
      if menu != add.menu { MenusApart(script, 0, Do(add, r), r, menu); }
    }
    forall setting: Setting ensures Look(x.settings, setting) == Look(y.settings, setting) {
      SettingsApart(script, 0, Do(add, r), r, setting);
    }
    SameMaps(x, y);
  }

  /** At most `n` actions from `pc` on. */
  function Take(script: seq<Action>, pc: nat, r: Router, n: nat): (last: Router)
    requires pc <= |script| && Full(r)
    ensures Full(last)
    decreases n
  {
    if n == 0 || pc == |script| then r else Take(script, pc + 1, Do(script[pc], r), n - 1)
  }

  /** Without a purge every request is an action. */
  lemma {:induction false} RunIsTake(script: seq<Action>, pc: nat, r: Router, n: nat)
    requires pc <= |script| && Full(r) && forall i :: 0 <= i < |script| ==> !script[i].Purge?
    ensures RunFor(script, pc, r, n) == Take(script, pc, r, n)
    decreases n
  {
    if n != 0 && pc < |script| {
      assert Request(script[pc], r) == (true, Do(script[pc], r));
      RunIsTake(script, pc + 1, Do(script[pc], r), n - 1);
    }
  }

  lemma AppendingEdit(script: seq<Action>, pc: nat, r: Router)
    requires Full(r) && Appending(script) && pc < |script| - 1
    ensures End(script, Do(script[pc], r)) == End(script, r)
  {
    assert script[pc].Edit? && Alone(script, pc);
    EditKeepsEnd(script, pc, r);
  }

  /** Actions that leave a quantity alone leave it alone together; `end` is where a deployment would end. */
  lemma {:induction false} TakeKeeps(script: seq<Action>, pc: nat, r: Router, n: nat, end: Router -> Router)
    requires Full(r) && pc + n <= |script|
    requires forall i: nat, x: Router :: pc <= i < pc + n && Full(x) ==> end(Do(script[i], x)) == end(x)
    ensures end(Take(script, pc, r, n)) == end(r)
    decreases n
  {
    if n != 0 {
      TakeKeeps(script, pc + 1, Do(script[pc], r), n - 1, end);
    }
  }

  lemma TakeStep(script: seq<Action>, pc: nat, r: Router, next: Router, n: nat)
    requires Full(r) && pc < |script| && n > 0 && next == Do(script[pc], r)
    ensures Full(next) && Take(script, pc, r, n) == Take(script, pc + 1, next, n - 1)
  {
  }

  lemma {:induction false} TakeMore(script: seq<Action>, pc: nat, r: Router, n: nat)
    requires Full(r) && pc + n < |script|
    ensures Take(script, pc, r, n + 1) == Do(script[pc + n], Take(script, pc, r, n))
    decreases n
  {
    var next := Do(script[pc], r);
    TakeStep(script, pc, r, next, n + 1);
    if n != 0 {
      TakeStep(script, pc, r, next, n);
      TakeMore(script, pc + 1, next, n - 1);
    }
  }

  lemma {:induction false} TakeAll(script: seq<Action>, pc: nat, r: Router, n: nat)
    requires Full(r) && pc <= |script| <= pc + n
    ensures Take(script, pc, r, n) == Take(script, pc, r, |script| - pc)
    decreases n
  {
    if pc < |script| {
      TakeAll(script, pc + 1, Do(script[pc], r), n - 1);
    }
  }

  /** Before its last action a deployment keeps the end. */
  lemma EditsKeepEnd(script: seq<Action>, r: Router, n: nat)
    requires Full(r) && Appending(script) && n < |script|
    ensures End(script, Take(script, 0, r, n)) == End(script, r)
  {
    var end := (x: Router) => if Full(x) then End(script, x) else x;
    forall i: nat, x: Router | i < n && Full(x) ensures end(Do(script[i], x)) == end(x) {
      AppendingEdit(script, i, x);
    }
    TakeKeeps(script, 0, r, n, end);
  }

  lemma AddGrowsFrom(script: seq<Action>, before: Router, end: Router)
    requires Full(before) && Full(end) && Appending(script) && End(script, before) == end
    ensures var add := script[|script| - 1];
            End(script, Do(add, before)) == Grown(end, add.menu, add.entry, 1)
  {
    AppendGrowsEnd(script, before);
  }

  lemma TakeWhole(script: seq<Action>, r: Router, n: nat)
    requires Full(r) && 0 < |script| <= n
    ensures Take(script, 0, r, n) == Do(script[|script| - 1], Take(script, 0, r, |script| - 1))
  {
    TakeAll(script, 0, r, n);
    TakeMore(script, 0, r, |script| - 1);
  }

  /** Where a broken-off run would end, given where its start would. */
  lemma RunGrowsEnd(script: seq<Action>, r: Router, n: nat)
    requires Full(r) && Appending(script)
    ensures Full(RunFor(script, 0, r, n))
    ensures End(script, RunFor(script, 0, r, n)) ==
            if n < |script| then End(script, r)
            else Grown(End(script, r), script[|script| - 1].menu, script[|script| - 1].entry, 1)
  {
    assert forall i: nat :: i < |script| - 1 ==> script[i].Edit?;
    RunIsTake(script, 0, r, n);
    if n < |script| {
      EditsKeepEnd(script, r, n);
    } else {
      TakeWhole(script, r, n);
      EditsKeepEnd(script, r, |script| - 1);
      AddGrowsFrom(script, Take(script, 0, r, |script| - 1), End(script, r));
    }
  }

  lemma GrownTwice(r: Router, menu: Menu, entry: Entry, k: nat)
    requires Full(r)
    ensures Grown(Grown(r, menu, entry, k), menu, entry, 1) == Grown(r, menu, entry, k + 1)
  {
    assert Copies(entry, 1) == [entry];
    assert r.tables[menu] + Copies(entry, k) + [entry] == r.tables[menu] + Copies(entry, k + 1);
  }

  lemma {:induction false} AttemptsGrowEnd(script: seq<Action>, r: Router, stops: seq<nat>, last: Router, end: Router)
    requires Full(r) && Full(end) && Appending(script) && Attempts(script, r, stops, last) && End(script, r) == end
    ensures Full(last)
    ensures End(script, last) ==
            Grown(end, script[|script| - 1].menu, script[|script| - 1].entry, Completed(stops, |script|))
    decreases |stops|
  {
    var add := script[|script| - 1];
    if stops == [] {
      assert end.tables[add.menu] + [] == end.tables[add.menu];
      SameMaps(end, Grown(end, add.menu, add.entry, 0));
    } else {
      var n := |stops| - 1;
      var mid :| Full(mid) && Attempts(script, r, stops[..n], mid) && last == RunFor(script, 0, mid, stops[n]);
      var k := Completed(stops[..n], |script|);
      AttemptsGrowEnd(script, r, stops[..n], mid, end);
      GrownTwice(end, add.menu, add.entry, k);
      RunGrowsEnd(script, mid, stops[n]);
    }
  }

  /** The edits converge; the blindly added entry is there once more for every deployment that got that far. */
  lemma Accumulates(script: seq<Action>, r: Router, stops: seq<nat>, last: Router)
    requires Full(r) && Appending(script) && Attempts(script, r, stops, last)
    ensures var add := script[|script| - 1];
            && Full(last)
            && Deploy(script, last) == Grown(Deploy(script, r), add.menu, add.entry, Completed(stops, |script|))
            && Deploy(script, r).tables[add.menu] == r.tables[add.menu] + [add.entry]
  {
    DeployIsEnd(script, r);
    AttemptsGrowEnd(script, r, stops, last, Deploy(script, r));
    DeployIsEnd(script, last);
    AppendAfter(script, 0, r);
  }
}

/** The router client: the two deployments as the code runs them, request by request. */
module RouterClient {
  import opened Common
  import opened RouterRequests
  import opened RouterTables
  import opened RouterSetup
  import opened RouterDeployments
  import opened RouterRetries
  import opened RouterResults

  // ---------------------------------------------------------------- a writing request

  /** `POST .../add`, `PATCH` and `DELETE` of one entry, found before by its id, and `POST .../set`. */
  datatype Write =
    | Append(menu: Menu, entry: Entry)
    | PatchAt(menu: Menu, k: nat, patch: Entry)
    | Set(setting: Setting, value: string)
    | DeleteAt(menu: Menu, k: nat)

  predicate Fits(write: Write, r: Router)
    requires Full(r)
  {
    write.PatchAt? || write.DeleteAt? ==> write.k < |r.tables[write.menu]|
  }

  /** The router when it has executed the request `n` times: only an add does more the second time. */
  function Effect(write: Write, r: Router, n: nat): (after: Router)
    requires Full(r) && Fits(write, r)
    ensures Full(after)
  {
    match write
    case Append(menu, entry) => r.(tables := r.tables[menu := r.tables[menu] + Copies(entry, n)])
    case _ => if n == 0 then r else Once(write, r)
  }

  function Once(write: Write, r: Router): (after: Router)
    requires Full(r) && Fits(write, r)
    ensures Full(after)
  {
    match write
    case Append(menu, entry) => r.(tables := r.tables[menu := r.tables[menu] + [entry]])
    case PatchAt(menu, k, patch) =>
      r.(tables := r.tables[menu := r.tables[menu][k := r.tables[menu][k] + patch]])
    case Set(setting, value) => r.(settings := r.settings[setting := value])
    case DeleteAt(menu, k) => r.(tables := r.tables[menu := r.tables[menu][..k] + r.tables[menu][k + 1..]])
  }

  lemma NotYet(write: Write, r: Router)
    requires Full(r) && Fits(write, r)
    ensures Effect(write, r, 0) == r
  {
    if write.Append? {
      assert r.tables[write.menu] + Copies(write.entry, 0) == r.tables[write.menu];
      assert r.tables[write.menu := r.tables[write.menu]] == r.tables;
    }
  }

  /** Patching and setting again change nothing; a second `DELETE` finds no entry of that id. */
  lemma OnceMore(write: Write, r: Router, n: nat)
    requires Full(r) && Fits(write, r)
    ensures write.Append? ==> Effect(write, r, n + 1) == Once(write, Effect(write, r, n))
    ensures write.PatchAt? ==> Fits(write, Effect(write, r, n))
    ensures write.PatchAt? || write.Set? ==> Effect(write, r, n + 1) == Once(write, Effect(write, r, n))
  {
    match write
    case Append(menu, entry) =>
      assert r.tables[menu] + Copies(entry, n) + [entry] == r.tables[menu] + Copies(entry, n + 1);
      assert Once(write, Effect(write, r, n)).tables == Effect(write, r, n + 1).tables;
    case PatchAt(menu, k, patch) => if n > 0 { PatchTwice(r, menu, k, patch); }
    case _ =>
  }

  lemma PatchTwice(r: Router, menu: Menu, k: nat, patch: Entry)
    requires Full(r) && k < |r.tables[menu]|
    ensures Once(PatchAt(menu, k, patch), Once(PatchAt(menu, k, patch), r)) == Once(PatchAt(menu, k, patch), r)
  {
    var table := r.tables[menu];
    assert table[k] + patch + patch == table[k] + patch;
    var patched := table[k := table[k] + patch];
    assert patched[k := patched[k] + patch] == patched;
    assert r.tables[menu := patched][menu := patched] == r.tables[menu := patched];
  }

  // ---------------------------------------------------------------- the deployments

  class Client {
    var tables: map<Menu, seq<Entry>>
    var settings: map<Setting, string>

    ghost function State(): Router
      reads this
    {
      Router(tables, settings)
    }

    constructor (r: Router)
      ensures State() == r
    {
      tables, settings := r.tables, r.settings;
    }

    /** What the router does on an executed try. */
    method Execute(write: Write)
      requires Full(State()) && Fits(write, State())
      modifies this
      ensures State() == Once(write, old(State()))
    {
      match write
      case Append(menu, entry) => tables := tables[menu := tables[menu] + [entry]];
      case PatchAt(menu, k, patch) => tables := tables[menu := tables[menu][k := tables[menu][k] + patch]];
      case Set(setting, value) => settings := settings[setting := value];
      case DeleteAt(menu, k) => tables := tables[menu := tables[menu][..k] + tables[menu][k + 1..]];
    }

    /**
     A writing request as the retry loop sends it, checked by `_check_response`; a `DELETE` of what an earlier try has
     deleted is refused.
     */
    method Send(write: Write, tries: Tries) returns (ok: bool)
      requires Full(State()) && Fits(write, State())
      modifies this
      ensures State() == Effect(write, old(State()), Times(tries))
      ensures ok == if write.DeleteAt? then Deletes(tries) else Succeeds(tries)
    {
      var k := 0;
      var deleted := false;
      NotYet(write, State());
      while k <= MAX_RETRIES
        invariant k <= MAX_RETRIES + 1 && UsedFrom(tries, k) == UsedFrom(tries, 0)
        invariant k > 0 ==> tries[k - 1].NetworkError?
        invariant State() == Effect(write, old(State()), Executions(tries, k))
        invariant deleted == (write.DeleteAt? && Executions(tries, k) > 0)
      {
        var gone := deleted;
        if Executed(tries[k]) && !gone {
          OnceMore(write, old(State()), Executions(tries, k));
          Execute(write);
          deleted := write.DeleteAt?;
        }
        k := k + 1;
        match tries[k - 1] {
          case Answer(status) => return Success(status) && !gone;
          case NetworkError(_) =>
        }
      }
      ok := false;
    }

    method Get(tries: Tries) returns (ok: bool)
      ensures ok == Succeeds(tries)
      ensures ok <==> exists k :: 0 <= k <= 3 && tries[k].Answer? && 200 <= tries[k].status < 300
                                  && forall j :: 0 <= j < k ==> tries[j].NetworkError?
    {
      var r, _, _ := RouterRequests.Request(tries, MAX_RETRIES);
      ok := match r case Ok(status) => Success(status) case Err(_) => false;
    }

    /** The entry found is patched if the request was executed; an empty patch is not sent. */
    ghost predicate EditedAt(menu: Menu, k: nat, patch: Entry, before: map<Menu, seq<Entry>>, tries: Tries, ok: bool)
      requires menu in before && k < |before[menu]|
      reads this
    {
      if patch == map[] then tables == before && ok
      else && tables == (if Times(tries) == 0 then before
                         else before[menu := before[menu][k := before[menu][k] + patch]])
           && ok == Succeeds(tries)
    }

    /** GET the menu; add when nothing matches, patch the first match otherwise, if there is anything to patch. */
    method AddOrPatch(menu: Menu, rule: Rule, i: nat, net: Net) returns (ok: bool)
      requires Full(State())
      modifies this
      ensures (State(), ok) == One(Edit(menu, rule), i, old(State()), net)
      ensures settings == old(settings) && (!Succeeds(net(i, 0)) ==> !ok && tables == old(tables))
      ensures Succeeds(net(i, 0)) && (forall e :: e in old(tables)[menu] ==> !Matches(rule.matcher, e))
              ==> tables == old(tables)[menu := old(tables)[menu] + Copies(rule.add, Times(net(i, 1)))]
                  && ok == Succeeds(net(i, 1))
      ensures forall k ::
                (&& Succeeds(net(i, 0)) && 0 <= k < |old(tables)[menu]| && Matches(rule.matcher, old(tables)[menu][k])
                 && forall j :: 0 <= j < k ==> !Matches(rule.matcher, old(tables)[menu][j]))
                ==> EditedAt(menu, k, rule.patch, old(tables), net(i, 1), ok)
    {
      ok := Get(net(i, 0));
      if !ok { return; }
      var entries := tables[menu];
      var k := 0;
      while k < |entries| && !Matches(rule.matcher, entries[k])
        invariant k <= |entries|
        invariant forall j :: 0 <= j < k ==> !Matches(rule.matcher, entries[j])
      {
        k := k + 1;
      }
      EditIsWrite(State(), menu, rule, k, Times(net(i, 1)));
      if k == |entries| {
        ok := Send(Append(menu, rule.add), net(i, 1));
      } else if rule.patch != map[] {
        ok := Send(PatchAt(menu, k, rule.patch), net(i, 1));
      }
    }

    /** Walk the list of clients as first fetched and delete each tagged one. */
    method RemoveTaggedClients(i: nat, net: Net) returns (ok: bool)
      requires Full(State())
      modifies this
      ensures (State(), ok) == One(Purge, i, old(State()), net)
      ensures tables == old(tables)[Radius := tables[Radius]] && settings == old(settings)
      ensures ForeignSame(old(tables)[Radius], tables[Radius])
      ensures ok ==> forall e :: e in tables[Radius] ==> Foreign(e)
    {
      ok := SweepClients(i, net);
      PurgedClients(i, old(State()), net);
    }

    method SweepClients(i: nat, net: Net) returns (ok: bool)
      requires Full(State())
      modifies this
      ensures (State(), ok) == One(Purge, i, old(State()), net)
    {
      ok := Get(net(i, 0));
      if !ok { return; }
      var fetched := tables[Radius];
      ghost var before := State();
      SameTable(tables, Radius);
      assert Half(fetched, 0) == fetched;
      for k := 0 to |fetched|
        invariant State() == before.(tables := before.tables[Radius := Half(fetched, k)])
        invariant Sweep(fetched, k, i, net) == Sweep(fetched, 0, i, net)
      {
        if !Tagged(fetched[k]) {
          HalfStep(fetched, k);
        } else {
          DeleteFetched(before, fetched, k, Times(net(i, k + 1)));
          ok := Send(DeleteAt(Radius, |Untagged(fetched[..k])|), net(i, k + 1));
          if !ok { return; }
          SuccessExecuted(net(i, k + 1));
        }
      }
      ok := true;
      assert Half(fetched, |fetched|) == Untagged(fetched) by { assert fetched[..|fetched|] == fetched; }
    }

    method AddEntry(menu: Menu, entry: Entry, i: nat, net: Net) returns (ok: bool)
      requires Full(State())
      modifies this
      ensures (State(), ok) == One(Add(menu, entry), i, old(State()), net)
      ensures tables == old(tables)[menu := old(tables)[menu] + Copies(entry, Times(net(i, 1)))]
      ensures settings == old(settings) && ok == Succeeds(net(i, 1))
    {
      AddIsWrite(State(), menu, entry, Times(net(i, 1)));
      ok := Send(Append(menu, entry), net(i, 1));
    }

    method PutSetting(setting: Setting, value: string, i: nat, net: Net) returns (ok: bool)
      requires Full(State())
      modifies this
      ensures (State(), ok) == One(Put(setting, value), i, old(State()), net)
      ensures settings == if Times(net(i, 1)) == 0 then old(settings) else old(settings)[setting := value]
      ensures tables == old(tables) && ok == Succeeds(net(i, 1))
    {
      ok := Send(Set(setting, value), net(i, 1));
    }

    /** The deployment goes on from `pc` as it would have from the start, or has ended as it does. */
    ghost predicate Leads(script: seq<Action>, pc: nat, start: Router, net: Net, ok: bool)
      reads this
    {
      && pc <= |script| && Full(State()) && Full(start)
      && (if ok then Attempt(script, pc, State(), net) else (State(), false)) == Tried(script, start, net)
    }

    method SetAddressing(c: Hotspot, net: Net, ghost start: Router) returns (ok: bool)
      requires Leads(HotspotScript(c), 0, start, net, true)
      modifies this
      ensures Leads(HotspotScript(c), 4, start, net, ok)
    {
      ghost var script := HotspotScript(c);
      AddressingActions(c);
      AttemptStep(script, 0, State(), net);
      ok := AddOrPatch(Addresses, AddressRule(c), 0, net);
      if !ok { return; }
      AttemptStep(script, 1, State(), net);
      ok := AddOrPatch(Pools, HsPoolRule(c), 1, net);
      if !ok { return; }
      AttemptStep(script, 2, State(), net);
      ok := AddOrPatch(DhcpServers, DhcpRule(c), 2, net);
      if !ok { return; }
      AttemptStep(script, 3, State(), net);
      ok := AddOrPatch(DhcpNetworks, NetworkRule(c), 3, net);
    }

    method SetGarden(c: Hotspot, net: Net, ghost start: Router) returns (ok: bool)
      requires Leads(HotspotScript(c), 4, start, net, true)
      modifies this
      ensures Leads(HotspotScript(c), PurgeAt(c) - 3, start, net, ok)
    {
      ok := true;
      match c.portalHost {
        case Some(host) =>
          AttemptStep(HotspotScript(c), 4, State(), net);
          assert HotspotScript(c)[4] == Edit(WalledGarden, GardenRule(host));
          ok := AddOrPatch(WalledGarden, GardenRule(host), 4, net);
        case None =>
      }
    }

    method SetServers(c: Hotspot, net: Net, ghost start: Router) returns (ok: bool)
      requires Leads(HotspotScript(c), PurgeAt(c) - 3, start, net, true)
      modifies this
      ensures Leads(HotspotScript(c), PurgeAt(c) + 1, start, net, ok)
    {
      ghost var script := HotspotScript(c);
      var k := PurgeAt(c) - 3;
      ServersActions(c);
      AttemptStep(script, k, State(), net);
      ok := AddOrPatch(HotspotProfiles, HsProfileRule(c), k, net);
      if !ok { return; }
      AttemptStep(script, k + 1, State(), net);
      ok := AddOrPatch(Hotspots, HotspotRule(c), k + 1, net);
      if !ok { return; }
      AttemptStep(script, k + 2, State(), net);
      ok := PutSetting(LoginPage, c.loginUrl, k + 2, net);
      if !ok { return; }
      AttemptStep(script, k + 3, State(), net);
      ok := RemoveTaggedClients(k + 3, net);
    }

    method SetAccess(c: Hotspot, net: Net, ghost start: Router) returns (ok: bool)
      requires Leads(HotspotScript(c), PurgeAt(c) + 1, start, net, true)
      modifies this
      ensures Leads(HotspotScript(c), |HotspotScript(c)|, start, net, ok)
    {
      ghost var script := HotspotScript(c);
      var k := PurgeAt(c) + 1;
      AccessActions(c);
      AttemptStep(script, k, State(), net);
      ok := PutSetting(Identity, c.identity, k, net);
      if !ok { return; }
      AttemptStep(script, k + 1, State(), net);
      ok := AddEntry(Radius, RadiusClient(c), k + 1, net);
      if !ok { return; }
      AttemptStep(script, k + 2, State(), net);
      ok := PutSetting(CoaPort, "3799", k + 2, net);
      if !ok { return; }
      AttemptStep(script, k + 3, State(), net);
      ok := AddOrPatch(NatRules, MasqueradeRule(c), k + 3, net);
    }

    method SetupHotspotServer(c: Hotspot, net: Net) returns (ok: bool)
      requires Full(State())
      modifies this
      ensures (State(), ok) == Tried(HotspotScript(c), old(State()), net)
      ensures Full(State()) && (ok ==> HotspotReady(c, old(State()), State(), net))
      ensures ForeignSame(old(tables)[Radius], tables[Radius])
    {
      ok := DeployHotspot(c, net);
      if ok { HotspotIsReady(c, old(State()), net); }
      HotspotSpares(c, old(State()), net);
    }

    method DeployHotspot(c: Hotspot, net: Net) returns (ok: bool)
      requires Full(State())
      modifies this
      ensures (State(), ok) == Tried(HotspotScript(c), old(State()), net)
    {
      ghost var start := State();
      ok := SetAddressing(c, net, start);
      if !ok { return; }
      ok := SetGarden(c, net, start);
      if !ok { return; }
      ok := SetServers(c, net, start);
      if !ok { return; }
      ok := SetAccess(c, net, start);
    }

    method SetupPppoeServer(c: Pppoe, net: Net) returns (ok: bool)
      requires Full(State())
      modifies this
      ensures (State(), ok) == Tried(PppoeScript(c), old(State()), net)
      ensures Full(State()) && (ok ==> PppoeReady(c, old(State()), State(), net))
    {
      ok := DeployPppoe(c, net);
      if ok { PppoeIsReady(c, old(State()), net); }
    }

    method DeployPppoe(c: Pppoe, net: Net) returns (ok: bool)
      requires Full(State())
      modifies this
      ensures (State(), ok) == Tried(PppoeScript(c), old(State()), net)
    {
      ghost var script := PppoeScript(c);
      AttemptStep(script, 0, State(), net);
      ok := AddOrPatch(Pools, PppoePoolRule(c), 0, net);
      if !ok { return; }
      AttemptStep(script, 1, State(), net);
      ok := AddOrPatch(PppProfiles, PppProfileRule(c), 1, net);
      if !ok { return; }
      AttemptStep(script, 2, State(), net);
      ok := AddOrPatch(PppoeServers, PppoeServerRule(c), 2, net);
      if !ok { return; }
      AttemptStep(script, 3, State(), net);
      ok := AddEntry(NatRules, PppoeNat(c), 3, net);
    }
  }

  lemma AttemptStep(script: seq<Action>, pc: nat, r: Router, net: Net)
    requires Full(r) && pc < |script|
    ensures var (after, ok) := One(script[pc], pc, r, net);
            Attempt(script, pc, r, net) == if ok then Attempt(script, pc + 1, after, net) else (after, false)
  {
  }

  /** What an edit's writing request does, by whether the entry was found. */
  lemma EditIsWrite(r: Router, menu: Menu, rule: Rule, k: nat, n: nat)
    requires Full(r) && k <= |r.tables[menu]| && (k < |r.tables[menu]| ==> Matches(rule.matcher, r.tables[menu][k]))
    requires forall j :: 0 <= j < k ==> !Matches(rule.matcher, r.tables[menu][j])
    ensures k == First(r.tables[menu], rule.matcher)
    ensures k == |r.tables[menu]| ==> Effect(Append(menu, rule.add), r, n) == Acted(Edit(menu, rule), r, n)
    ensures k < |r.tables[menu]| ==> Effect(PatchAt(menu, k, rule.patch), r, n) == Acted(Edit(menu, rule), r, n)
  {
    if k < |r.tables[menu]| { FirstUnique(r.tables[menu], rule.matcher, k); }
    if n == 0 { NotYet(Append(menu, rule.add), r); }
  }

  lemma AddIsWrite(r: Router, menu: Menu, entry: Entry, n: nat)
    requires Full(r)
    ensures Effect(Append(menu, entry), r, n) == Acted(Add(menu, entry), r, n)
  {
    if n == 0 { NotYet(Append(menu, entry), r); }
  }

  lemma PurgedClients(i: nat, r: Router, net: Net)
    requires Full(r)
    ensures var (end, ok) := One(Purge, i, r, net);
            && end.tables == r.tables[Radius := end.tables[Radius]] && end.settings == r.settings
            && ForeignSame(r.tables[Radius], end.tables[Radius])
            && (ok ==> forall e :: e in end.tables[Radius] ==> Foreign(e))
  {
    SweepSweeps(r.tables[Radius], 0, i, net);
    SweepSpares(r.tables[Radius], 0, i, net);
    SparedAll(r.tables[Radius], One(Purge, i, r, net).0.tables[Radius]);
    UntaggedClean(r.tables[Radius]);
    SameTable(r.tables, Radius);
  }

  /** The next tagged client stands behind the foreign ones before it. */
  lemma DeleteFetched(before: Router, fetched: seq<Entry>, k: nat, n: nat)
    requires Full(before) && k < |fetched| && Tagged(fetched[k])
    ensures var r := before.(tables := before.tables[Radius := Half(fetched, k)]);
            var write := DeleteAt(Radius, |Untagged(fetched[..k])|);
            && Fits(write, r)
            && Effect(write, r, n)
               == before.(tables := before.tables[Radius := Untagged(fetched[..k])
                            + (if n > 0 then [] else [fetched[k]]) + fetched[k + 1..]])
            && (n > 0 ==> Effect(write, r, n)
                          == before.(tables := before.tables[Radius := Half(fetched, k + 1)]))
  {
    var clean := Untagged(fetched[..k]);
    MoveOver(clean, fetched, k);
    UntaggedSnoc(fetched, k);
    var table := clean + fetched[k..];
    assert table[..|clean|] + table[|clean| + 1..] == clean + fetched[k + 1..];
    assert clean + [] + fetched[k + 1..] == clean + fetched[k + 1..];
    assert before.tables[Radius := table][Radius := clean + fetched[k + 1..]]
        == before.tables[Radius := clean + fetched[k + 1..]];
  }

  /** The clients once the first `k` of those fetched have been dealt with. */
  ghost function Half(fetched: seq<Entry>, k: nat): seq<Entry>
    requires k <= |fetched|
  {
    Untagged(fetched[..k]) + fetched[k..]
  }

  lemma HalfStep(fetched: seq<Entry>, k: nat)
    requires k < |fetched| && !Tagged(fetched[k])
    ensures Half(fetched, k + 1) == Half(fetched, k)
  {
    UntaggedSnoc(fetched, k);
    MoveOver(Untagged(fetched[..k]), fetched, k);
  }

  lemma MoveOver(clean: seq<Entry>, fetched: seq<Entry>, k: nat)
    requires k < |fetched|
    ensures clean + [fetched[k]] + fetched[k + 1..] == clean + fetched[k..]
  {
  }

  lemma UntaggedSnoc(fetched: seq<Entry>, k: nat)
    requires k < |fetched|
    ensures Untagged(fetched[..k + 1]) == Untagged(fetched[..k]) + (if Tagged(fetched[k]) then [] else [fetched[k]])
  {
    assert fetched[..k + 1][..k] == fetched[..k];
  }

  lemma SameTable(tables: map<Menu, seq<Entry>>, menu: Menu)
    requires menu in tables
    ensures tables[menu := tables[menu]] == tables
  {
  }
}

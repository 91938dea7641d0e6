/** What a deployment that goes through has written, menu by menu and field by field. */
module RouterResults {
  import opened RouterRequests
  import opened RouterTables
  import opened RouterSetup
  import opened RouterDeployments
  import opened RouterRetries

  /** The entry has these fields. */
  predicate Carries(e: Entry, fields: Entry) {
    forall f :: f in fields ==> f in e && e[f] == fields[f]
  }

  /** What an edit looks for: given fields, and an address with a given beginning. */
  predicate Wanted(e: Entry, fields: Entry, gateway: string) {
    Carries(e, fields) && gateway <= (if Address in e then e[Address] else "")
  }

  /** The first wanted entry has been patched, or the new one has come, once and `extra` times more. */
  ghost predicate Edited(before: seq<Entry>, after: seq<Entry>, fields: Entry, gateway: string, entry: Entry,
                         patch: Entry, extra: nat) {
    && ((forall k :: 0 <= k < |before| ==> !Wanted(before[k], fields, gateway))
        ==> after == before + Copies(entry, 1 + extra))
    && (forall k ::
          (&& 0 <= k < |before| && Wanted(before[k], fields, gateway)
           && forall j :: 0 <= j < k ==> !Wanted(before[j], fields, gateway))
          ==> after == before[k := before[k] + patch])
  }

  // ---------------------------------------------------------------- what each menu shall hold

  ghost predicate AddressReady(c: Hotspot, before: seq<Entry>, after: seq<Entry>, extra: nat) {
    Edited(before, after, map[Interface := c.interface], c.gateway,
           map[Address := c.gateway + "/24", Interface := c.interface, Comment := "Frixel Connect-auto"], map[], extra)
  }

  ghost predicate PoolReady(c: Hotspot, before: seq<Entry>, after: seq<Entry>, extra: nat) {
    Edited(before, after, map[Name := "Frixel Connect-hs-pool"], "",
           map[Name := "Frixel Connect-hs-pool", Ranges := c.poolRange], map[Ranges := c.poolRange], extra)
  }

  ghost predicate DhcpReady(c: Hotspot, before: seq<Entry>, after: seq<Entry>, extra: nat) {
    Edited(before, after, map[Name := "Frixel Connect-dhcp"], "",
           map[Name := "Frixel Connect-dhcp", Interface := c.interface, AddressPool := "Frixel Connect-hs-pool",
               Disabled := "false"],
           map[Interface := c.interface, AddressPool := "Frixel Connect-hs-pool"], extra)
  }

  ghost predicate NetworkReady(c: Hotspot, before: seq<Entry>, after: seq<Entry>, extra: nat) {
    Edited(before, after, map[Address := c.networkBase + "/24"], "",
           map[Address := c.networkBase + "/24", Gateway := c.gateway, DnsServer := "8.8.8.8,1.1.1.1"], map[], extra)
  }

  /** The walled garden lets the portal's host pass, if there is one. */
  ghost predicate GardenReady(c: Hotspot, before: seq<Entry>, after: seq<Entry>, extra: nat) {
    if c.portalHost.Some? then
      Edited(before, after, map[DstAddress := c.portalHost.value, Action := "accept"], "",
             map[DstAddress := c.portalHost.value, Action := "accept", Comment := "Frixel Connect-portal"], map[],
             extra)
    else after == before
  }

  ghost predicate ProfileReady(c: Hotspot, before: seq<Entry>, after: seq<Entry>, extra: nat) {
    Edited(before, after, map[Name := "Frixel Connect-hsprof"], "",
           map[Name := "Frixel Connect-hsprof", HotspotAddress := c.gateway, LoginBy := "cookie,http-chap,http-pap",
               DnsName := "login.Frixel Connect.local", HtmlDirectory := "hotspot", UseRadius := "true"],
           map[HotspotAddress := c.gateway], extra)
  }

  ghost predicate ServerReady(c: Hotspot, before: seq<Entry>, after: seq<Entry>, extra: nat) {
    Edited(before, after, map[Name := "Frixel Connect-hotspot"], "",
           map[Name := "Frixel Connect-hotspot", Interface := c.interface, Profile := "Frixel Connect-hsprof",
               Disabled := "false"],
           map[Interface := c.interface, Profile := "Frixel Connect-hsprof"], extra)
  }

  /** The foreign RADIUS clients, then ours. */
  ghost predicate RadiusReady(c: Hotspot, before: seq<Entry>, after: seq<Entry>, times: nat) {
    && times >= 1
    && after == Untagged(before) + Copies(map[Service := "hotspot", Address := c.radiusIp, Secret := c.radiusSecret,
                                              Comment := "Frixel Connect-radius"], times)
  }

  ghost predicate NatReady(c: Hotspot, before: seq<Entry>, after: seq<Entry>, extra: nat) {
    Edited(before, after, map[Action := "masquerade", Chain := "srcnat", Comment := "Frixel Connect-masquerade"], "",
           map[Action := "masquerade", Chain := "srcnat", Comment := "Frixel Connect-masquerade",
               SrcAddress := c.natSource], map[], extra)
  }

  predicate Holds(settings: map<Setting, string>, setting: Setting, value: string) {
    setting in settings && settings[setting] == value
  }

  ghost predicate SettingsReady(c: Hotspot, settings: map<Setting, string>) {
    && Holds(settings, LoginPage, c.loginUrl)
    && Holds(settings, Identity, c.identity)
    && Holds(settings, CoaPort, "3799")
  }

  /** The whole router; with a portal to let pass, what comes after it is one action later. */
  ghost predicate HotspotReady(c: Hotspot, r: Router, end: Router, net: Net)
    requires Full(r) && Full(end)
  {
    var pc := if c.portalHost.Some? then 5 else 4;
    && AddressReady(c, r.tables[Addresses], end.tables[Addresses], Extra(net, 0))
    && PoolReady(c, r.tables[Pools], end.tables[Pools], Extra(net, 1))
    && DhcpReady(c, r.tables[DhcpServers], end.tables[DhcpServers], Extra(net, 2))
    && NetworkReady(c, r.tables[DhcpNetworks], end.tables[DhcpNetworks], Extra(net, 3))
    && GardenReady(c, r.tables[WalledGarden], end.tables[WalledGarden], Extra(net, 4))
    && ProfileReady(c, r.tables[HotspotProfiles], end.tables[HotspotProfiles], Extra(net, pc))
    && ServerReady(c, r.tables[Hotspots], end.tables[Hotspots], Extra(net, pc + 1))
    && RadiusReady(c, r.tables[Radius], end.tables[Radius], Times(net(pc + 5, 1)))
    && NatReady(c, r.tables[NatRules], end.tables[NatRules], Extra(net, pc + 7))
    && SettingsReady(c, end.settings)
    && end.tables[PppProfiles] == r.tables[PppProfiles] && end.tables[PppoeServers] == r.tables[PppoeServers]
  }

  ghost predicate PppoePoolReady(c: Pppoe, before: seq<Entry>, after: seq<Entry>, extra: nat) {
    Edited(before, after, map[Name := "Frixel Connect-pppoe-pool"], "",
           map[Name := "Frixel Connect-pppoe-pool", Ranges := c.poolRange], map[Ranges := c.poolRange], extra)
  }

  ghost predicate PppProfileReady(c: Pppoe, before: seq<Entry>, after: seq<Entry>, extra: nat) {
    Edited(before, after, map[Name := "Frixel Connect-pppoe-prof"], "",
           map[Name := "Frixel Connect-pppoe-prof", LocalAddress := c.localAddress,
               RemoteAddress := "Frixel Connect-pppoe-pool", UseUpnp := "yes", ChangeTcpMss := "yes"],
           map[LocalAddress := c.localAddress, RemoteAddress := "Frixel Connect-pppoe-pool"], extra)
  }

  ghost predicate PppoeServerReady(c: Pppoe, before: seq<Entry>, after: seq<Entry>, extra: nat) {
    Edited(before, after, map[ServiceName := "Frixel Connect-pppoe"], "",
           map[ServiceName := "Frixel Connect-pppoe", Interface := c.interface,
               DefaultProfile := "Frixel Connect-pppoe-prof", Disabled := "false"],
           map[Interface := c.interface, DefaultProfile := "Frixel Connect-pppoe-prof"], extra)
  }

  /** The rules found, then ours. */
  ghost predicate PppoeNatReady(c: Pppoe, before: seq<Entry>, after: seq<Entry>, times: nat) {
    && times >= 1
    && after == before + Copies(map[Chain := "srcnat", Action := "masquerade", SrcAddress := c.natSource,
                                    Comment := "Frixel Connect-pppoe-masquerade"], times)
  }

  ghost predicate PppoeReady(c: Pppoe, r: Router, end: Router, net: Net)
    requires Full(r) && Full(end)
  {
    && PppoePoolReady(c, r.tables[Pools], end.tables[Pools], Extra(net, 0))
    && PppProfileReady(c, r.tables[PppProfiles], end.tables[PppProfiles], Extra(net, 1))
    && PppoeServerReady(c, r.tables[PppoeServers], end.tables[PppoeServers], Extra(net, 2))
    && PppoeNatReady(c, r.tables[NatRules], end.tables[NatRules], Times(net(3, 1)))
    && end.settings == r.settings
  }

  /** Not tagged as ours. */
  predicate Foreign(e: Entry) {
    !(Comment in e && e[Comment] == "Frixel Connect-radius")
  }

  lemma {:induction false} UntaggedKeeps(clients: seq<Entry>, e: Entry)
    ensures multiset(Untagged(clients))[e] == if Foreign(e) then multiset(clients)[e] else 0
  {
    if clients != [] {
      var n := |clients| - 1;
      assert clients == clients[..n] + [clients[n]];
      UntaggedKeeps(clients[..n], e);
    }
  }

  /** The foreign entries of both tables are the same, each as often. */
  ghost predicate ForeignSame(before: seq<Entry>, after: seq<Entry>) {
    forall e: Entry :: Foreign(e) ==> multiset(after)[e] == multiset(before)[e]
  }

  lemma SparedAll(before: seq<Entry>, after: seq<Entry>)
    requires Untagged(after) == Untagged(before)
    ensures ForeignSame(before, after)
  {
    forall e: Entry { UntaggedKeeps(before, e); }
    forall e: Entry { UntaggedKeeps(after, e); }
  }

  // ---------------------------------------------------------------- one menu, one setting

  lemma AgainStep(script: seq<Action>, pc: nat, r: Router, next: Router, extras: seq<nat>)
    requires Full(r) && pc < |script| == |extras| && next == DoAgain(script[pc], r, extras[pc])
    ensures Full(next) && RestAgain(script, pc, r, extras) == RestAgain(script, pc + 1, next, extras)
  {
  }

  lemma AgainOver(script: seq<Action>, r: Router, extras: seq<nat>)
    requires Full(r) && |extras| == |script|
    ensures RestAgain(script, |script|, r, extras) == r
  {
  }

  lemma {:induction false} EditedTable(script: seq<Action>, pc: nat, r: Router, extras: seq<nat>, i: nat)
    requires Full(r) && pc <= i < |script| == |extras| && script[i].Edit? && Alone(script, i)
    ensures RestAgain(script, pc, r, extras).tables[script[i].menu]
            == DoAgain(script[i], r, extras[i]).tables[script[i].menu]
    decreases i - pc
  {
    var next := DoAgain(script[pc], r, extras[pc]);
    AgainStep(script, pc, r, next, extras);
    if pc == i {
      UntouchedAgain(script, pc + 1, next, extras, script[i].menu);
    } else {
      DoAgainElsewhere(script[pc], r, extras[pc], script[i].menu);
      EditedTable(script, pc + 1, next, extras, i);
    }
  }

  lemma {:induction false} SettingAgain(script: seq<Action>, pc: nat, r: Router, extras: seq<nat>, setting: Setting)
    requires Full(r) && pc <= |script| == |extras| && forall j :: pc <= j < |script| ==> !Sets(script[j], setting)
    ensures Look(RestAgain(script, pc, r, extras).settings, setting) == Look(r.settings, setting)
    decreases |script| - pc
  {
    if pc < |script| {
      var next := DoAgain(script[pc], r, extras[pc]);
      AgainStep(script, pc, r, next, extras);
      assert !Sets(script[pc], setting);
      SettingAgain(script, pc + 1, next, extras, setting);
    } else {
      AgainOver(script, r, extras);
    }
  }

  lemma {:induction false} PutAgain(script: seq<Action>, pc: nat, r: Router, extras: seq<nat>, i: nat)
    requires Full(r) && pc <= i < |script| == |extras| && script[i].Put? && Alone(script, i)
    ensures Holds(RestAgain(script, pc, r, extras).settings, script[i].setting, script[i].value)
    decreases i - pc
  {
    if pc == i {
      SettingAgain(script, pc + 1, DoAgain(script[i], r, extras[i]), extras, script[i].setting);
    } else {
      PutAgain(script, pc + 1, DoAgain(script[pc], r, extras[pc]), extras, i);
    }
  }

  /** A matcher, in the words of `Wanted`. */
  ghost predicate Seeks(m: Matcher, fields: Entry, gateway: string) {
    m.equal == fields && m.prefix == gateway && (gateway == "" || m.prefixField == Address)
  }

  lemma SeeksWanted(m: Matcher, fields: Entry, gateway: string, e: Entry)
    requires Seeks(m, fields, gateway)
    ensures Matches(m, e) <==> Wanted(e, fields, gateway)
  {
  }

  lemma ByRuleEdited(before: seq<Entry>, after: seq<Entry>, rule: Rule, fields: Entry, gateway: string, extra: nat)
    requires ByRule(before, after, rule, extra) && Seeks(rule.matcher, fields, gateway)
    ensures Edited(before, after, fields, gateway, rule.add, rule.patch, extra)
  {
    forall e: Entry ensures Matches(rule.matcher, e) <==> Wanted(e, fields, gateway) {
      SeeksWanted(rule.matcher, fields, gateway, e);
    }
  }

  // ---------------------------------------------------------------- the deployments

  lemma AddressingActions(c: Hotspot)
    ensures var script := HotspotScript(c);
            && |script| >= 12
            && script[0] == Edit(Addresses, AddressRule(c)) && script[1] == Edit(Pools, HsPoolRule(c))
            && script[2] == Edit(DhcpServers, DhcpRule(c)) && script[3] == Edit(DhcpNetworks, NetworkRule(c))
  {
  }

  lemma ServersActions(c: Hotspot)
    ensures var script, k := HotspotScript(c), PurgeAt(c) - 3;
            && |script| == k + 8
            && script[k] == Edit(HotspotProfiles, HsProfileRule(c)) && script[k + 1] == Edit(Hotspots, HotspotRule(c))
            && script[k + 2] == Put(LoginPage, c.loginUrl) && script[k + 3] == Purge
  {
  }

  lemma AccessActions(c: Hotspot)
    ensures var script, k := HotspotScript(c), PurgeAt(c) + 1;
            && |script| == k + 4
            && script[k] == Put(Identity, c.identity) && script[k + 1] == Add(Radius, RadiusClient(c))
            && script[k + 2] == Put(CoaPort, "3799") && script[k + 3] == Edit(NatRules, MasqueradeRule(c))
  {
  }

  /** A deployment that went through, as its last router and how often each action was repeated. */
  ghost predicate Through(script: seq<Action>, r: Router, net: Net, end: Router, extras: seq<nat>) {
    && Full(r) && Full(end) && |extras| == |script| && end == RestAgain(script, 0, r, extras)
    && forall i :: 0 <= i < |script| ==> extras[i] == Extra(net, i)
  }

  /** The edit's rule, applied. */
  ghost predicate ByRule(before: seq<Entry>, after: seq<Entry>, rule: Rule, extra: nat) {
    after == if First(before, rule.matcher) < |before| then Fix(before, rule)
             else before + Copies(rule.add, 1 + extra)
  }

  /** The menu of an edit that nothing else interferes with. */
  lemma EditedMenu(script: seq<Action>, r: Router, net: Net, end: Router, extras: seq<nat>, i: nat)
    requires Through(script, r, net, end, extras) && i < |script| && Alone(script, i) && script[i].Edit?
    ensures ByRule(r.tables[script[i].menu], end.tables[script[i].menu], script[i].rule, Extra(net, i))
  {
    EditedTable(script, 0, r, extras, i);
  }

  lemma HotspotMenu(c: Hotspot, r: Router, net: Net, end: Router, extras: seq<nat>, i: nat, menu: Menu, rule: Rule)
    requires Through(HotspotScript(c), r, net, end, extras)
    requires i < |HotspotScript(c)| && HotspotScript(c)[i] == Edit(menu, rule)
    ensures ByRule(r.tables[menu], end.tables[menu], rule, Extra(net, i))
  {
    HotspotQualifies(c);
    EditedMenu(HotspotScript(c), r, net, end, extras, i);
  }

  lemma AddressIsReady(c: Hotspot, before: seq<Entry>, after: seq<Entry>, extra: nat)
    requires ByRule(before, after, AddressRule(c), extra)
    ensures AddressReady(c, before, after, extra)
  {
    ByRuleEdited(before, after, AddressRule(c), map[Interface := c.interface], c.gateway, extra);
  }

  lemma PoolIsReady(c: Hotspot, before: seq<Entry>, after: seq<Entry>, extra: nat)
    requires ByRule(before, after, HsPoolRule(c), extra)
    ensures PoolReady(c, before, after, extra)
  {
    ByRuleEdited(before, after, HsPoolRule(c), map[Name := "Frixel Connect-hs-pool"], "", extra);
  }

  lemma DhcpIsReady(c: Hotspot, before: seq<Entry>, after: seq<Entry>, extra: nat)
    requires ByRule(before, after, DhcpRule(c), extra)
    ensures DhcpReady(c, before, after, extra)
  {
    ByRuleEdited(before, after, DhcpRule(c), map[Name := "Frixel Connect-dhcp"], "", extra);
  }

  lemma NetworkIsReady(c: Hotspot, before: seq<Entry>, after: seq<Entry>, extra: nat)
    requires ByRule(before, after, NetworkRule(c), extra)
    ensures NetworkReady(c, before, after, extra)
  {
    ByRuleEdited(before, after, NetworkRule(c), map[Address := c.networkBase + "/24"], "", extra);
  }

  lemma ProfileIsReady(c: Hotspot, before: seq<Entry>, after: seq<Entry>, extra: nat)
    requires ByRule(before, after, HsProfileRule(c), extra)
    ensures ProfileReady(c, before, after, extra)
  {
    ByRuleEdited(before, after, HsProfileRule(c), map[Name := "Frixel Connect-hsprof"], "", extra);
  }

  lemma ServerIsReady(c: Hotspot, before: seq<Entry>, after: seq<Entry>, extra: nat)
    requires ByRule(before, after, HotspotRule(c), extra)
    ensures ServerReady(c, before, after, extra)
  {
    ByRuleEdited(before, after, HotspotRule(c), map[Name := "Frixel Connect-hotspot"], "", extra);
  }

  lemma NatIsReady(c: Hotspot, before: seq<Entry>, after: seq<Entry>, extra: nat)
    requires ByRule(before, after, MasqueradeRule(c), extra)
    ensures NatReady(c, before, after, extra)
  {
    ByRuleEdited(before, after, MasqueradeRule(c), MasqueradeRule(c).matcher.equal, "", extra);
  }

  lemma AddressingIsReady(c: Hotspot, r: Router, net: Net, end: Router, extras: seq<nat>)
    requires Through(HotspotScript(c), r, net, end, extras)
    ensures AddressReady(c, r.tables[Addresses], end.tables[Addresses], Extra(net, 0))
    ensures PoolReady(c, r.tables[Pools], end.tables[Pools], Extra(net, 1))
    ensures DhcpReady(c, r.tables[DhcpServers], end.tables[DhcpServers], Extra(net, 2))
    ensures NetworkReady(c, r.tables[DhcpNetworks], end.tables[DhcpNetworks], Extra(net, 3))
  {
    AddressingActions(c);
    HotspotMenu(c, r, net, end, extras, 0, Addresses, AddressRule(c));
    AddressIsReady(c, r.tables[Addresses], end.tables[Addresses], Extra(net, 0));
    HotspotMenu(c, r, net, end, extras, 1, Pools, HsPoolRule(c));
    PoolIsReady(c, r.tables[Pools], end.tables[Pools], Extra(net, 1));
    HotspotMenu(c, r, net, end, extras, 2, DhcpServers, DhcpRule(c));
    DhcpIsReady(c, r.tables[DhcpServers], end.tables[DhcpServers], Extra(net, 2));
    HotspotMenu(c, r, net, end, extras, 3, DhcpNetworks, NetworkRule(c));
    NetworkIsReady(c, r.tables[DhcpNetworks], end.tables[DhcpNetworks], Extra(net, 3));
  }

  lemma GardenIsReady(c: Hotspot, r: Router, net: Net, end: Router, extras: seq<nat>)
    requires Through(HotspotScript(c), r, net, end, extras)
    ensures GardenReady(c, r.tables[WalledGarden], end.tables[WalledGarden], Extra(net, 4))
  {
    if c.portalHost.Some? {
      GardenAction(c);
      HotspotMenu(c, r, net, end, extras, 4, WalledGarden, GardenRule(c.portalHost.value));
      ByRuleEdited(r.tables[WalledGarden], end.tables[WalledGarden], GardenRule(c.portalHost.value),
                   map[DstAddress := c.portalHost.value, Action := "accept"], "", Extra(net, 4));
    } else {
      NoneTouches(c, WalledGarden);
      UntouchedAgain(HotspotScript(c), 0, r, extras, WalledGarden);
    }
  }

  lemma GardenAction(c: Hotspot)
    requires c.portalHost.Some?
    ensures |HotspotScript(c)| > 4 && HotspotScript(c)[4] == Edit(WalledGarden, GardenRule(c.portalHost.value))
  {
  }

  lemma NoneTouches(c: Hotspot, menu: Menu)
    requires menu == PppProfiles || menu == PppoeServers || (menu == WalledGarden && c.portalHost.None?)
    ensures forall j :: 0 <= j < |HotspotScript(c)| ==> !Touches(HotspotScript(c)[j], menu)
  {
  }

  lemma ServersAreReady(c: Hotspot, r: Router, net: Net, end: Router, extras: seq<nat>)
    requires Through(HotspotScript(c), r, net, end, extras)
    ensures ProfileReady(c, r.tables[HotspotProfiles], end.tables[HotspotProfiles], Extra(net, PurgeAt(c) - 3))
    ensures ServerReady(c, r.tables[Hotspots], end.tables[Hotspots], Extra(net, PurgeAt(c) - 2))
    ensures NatReady(c, r.tables[NatRules], end.tables[NatRules], Extra(net, PurgeAt(c) + 4))
  {
    var pc := PurgeAt(c) - 3;
    ServersActions(c);
    AccessActions(c);
    HotspotMenu(c, r, net, end, extras, pc, HotspotProfiles, HsProfileRule(c));
    ProfileIsReady(c, r.tables[HotspotProfiles], end.tables[HotspotProfiles], Extra(net, pc));
    HotspotMenu(c, r, net, end, extras, pc + 1, Hotspots, HotspotRule(c));
    ServerIsReady(c, r.tables[Hotspots], end.tables[Hotspots], Extra(net, pc + 1));
    HotspotMenu(c, r, net, end, extras, pc + 7, NatRules, MasqueradeRule(c));
    NatIsReady(c, r.tables[NatRules], end.tables[NatRules], Extra(net, pc + 7));
  }

  lemma RadiusIsReady(c: Hotspot, r: Router, net: Net, end: Router, extras: seq<nat>)
    requires Through(HotspotScript(c), r, net, end, extras) && Tried(HotspotScript(c), r, net).1
    ensures RadiusReady(c, r.tables[Radius], end.tables[Radius], Times(net(PurgeAt(c) + 2, 1)))
  {
    HotspotQualifies(c);
    ClientOf(c);
    ClientCopies(HotspotScript(c), r, net, end, extras, PurgeAt(c), PurgeAt(c) + 2, RadiusClient(c));
  }

  lemma ClientCopies(script: seq<Action>, r: Router, net: Net, end: Router, extras: seq<nat>, purge: nat, client: nat,
      entry: Entry)
    requires Through(script, r, net, end, extras) && Converging(script, purge, client) && Tried(script, r, net).1
    requires script[client] == Add(Radius, entry)
    ensures Times(net(client, 1)) >= 1
    ensures end.tables[Radius] == Untagged(r.tables[Radius]) + Copies(entry, Times(net(client, 1)))
  {
    RadiusAgain(script, 0, r, extras, purge, client);
    Reached(script, 0, r, net, client);
    SuccessExecuted(net(client, 1));
  }

  lemma SettingsAreReady(c: Hotspot, r: Router, net: Net, end: Router, extras: seq<nat>)
    requires Through(HotspotScript(c), r, net, end, extras)
    ensures SettingsReady(c, end.settings)
  {
    var script, purge := HotspotScript(c), PurgeAt(c);
    HotspotQualifies(c);
    ServersActions(c);
    AccessActions(c);
    PutAgain(script, 0, r, extras, purge - 1);
    PutAgain(script, 0, r, extras, purge + 1);
    PutAgain(script, 0, r, extras, purge + 3);
  }

  lemma OthersAlone(c: Hotspot, r: Router, net: Net, end: Router, extras: seq<nat>)
    requires Through(HotspotScript(c), r, net, end, extras)
    ensures end.tables[PppProfiles] == r.tables[PppProfiles] && end.tables[PppoeServers] == r.tables[PppoeServers]
  {
    NoneTouches(c, PppProfiles);
    NoneTouches(c, PppoeServers);
    UntouchedAgain(HotspotScript(c), 0, r, extras, PppProfiles);
    UntouchedAgain(HotspotScript(c), 0, r, extras, PppoeServers);
  }

  lemma TriedThrough(script: seq<Action>, r: Router, net: Net)
    requires Full(r) && Tried(script, r, net).1
    ensures Through(script, r, net, Tried(script, r, net).0, Extras(|script|, net))
  {
    AttemptCompletes(script, 0, r, net);
  }

  lemma HotspotIsReadyThen(c: Hotspot, r: Router, net: Net, end: Router, extras: seq<nat>)
    requires Through(HotspotScript(c), r, net, end, extras) && Tried(HotspotScript(c), r, net).1
    ensures HotspotReady(c, r, end, net)
  {
    AddressingIsReady(c, r, net, end, extras);
    GardenIsReady(c, r, net, end, extras);
    ServersAreReady(c, r, net, end, extras);
    RadiusIsReady(c, r, net, end, extras);
    SettingsAreReady(c, r, net, end, extras);
    OthersAlone(c, r, net, end, extras);
  }

  /**
   A hotspot deployment that goes through leaves in every menu and setting what was asked for, whatever was there
   before, and the two PPPoE menus alone.
   */
  lemma HotspotIsReady(c: Hotspot, r: Router, net: Net)
    requires Full(r) && Tried(HotspotScript(c), r, net).1
    ensures HotspotReady(c, r, Tried(HotspotScript(c), r, net).0, net)
  {
    TriedThrough(HotspotScript(c), r, net);
    HotspotIsReadyThen(c, r, net, Tried(HotspotScript(c), r, net).0, Extras(|HotspotScript(c)|, net));
  }

  /** Whether it goes through or not, it spares the foreign RADIUS clients. */
  lemma HotspotSpares(c: Hotspot, r: Router, net: Net)
    requires Full(r)
    ensures ForeignSame(r.tables[Radius], Tried(HotspotScript(c), r, net).0.tables[Radius])
  {
    HotspotQualifies(c);
    AttemptSpares(HotspotScript(c), 0, r, net, PurgeAt(c), PurgeAt(c) + 2);
    SparedAll(r.tables[Radius], Tried(HotspotScript(c), r, net).0.tables[Radius]);
  }

  lemma {:induction false} AppendAgain(script: seq<Action>, pc: nat, r: Router, extras: seq<nat>)
    requires Full(r) && Appending(script) && pc < |script| == |extras|
    ensures var add := script[|script| - 1];
            && RestAgain(script, pc, r, extras).tables[add.menu]
               == r.tables[add.menu] + Copies(add.entry, 1 + extras[|script| - 1])
            && RestAgain(script, pc, r, extras).settings == r.settings
    decreases |script| - pc
  {
    var next := DoAgain(script[pc], r, extras[pc]);
    AgainStep(script, pc, r, next, extras);
    if pc < |script| - 1 {
      AddIsApart(script, pc);
      DoAgainElsewhere(script[pc], r, extras[pc], script[|script| - 1].menu);
      AppendAgain(script, pc + 1, next, extras);
    } else {
      AgainOver(script, next, extras);
    }
  }

  lemma PppoeMenus(c: Pppoe, r: Router, net: Net, end: Router, extras: seq<nat>)
    requires Through(PppoeScript(c), r, net, end, extras)
    ensures ByRule(r.tables[Pools], end.tables[Pools], PppoePoolRule(c), Extra(net, 0))
    ensures ByRule(r.tables[PppProfiles], end.tables[PppProfiles], PppProfileRule(c), Extra(net, 1))
    ensures ByRule(r.tables[PppoeServers], end.tables[PppoeServers], PppoeServerRule(c), Extra(net, 2))
  {
    var script := PppoeScript(c);
    PppoeQualifies(c);
    assert Alone(script, 0) && Alone(script, 1) && Alone(script, 2);
    EditedMenu(script, r, net, end, extras, 0);
    EditedMenu(script, r, net, end, extras, 1);
    EditedMenu(script, r, net, end, extras, 2);
  }

  lemma PppoePoolIsReady(c: Pppoe, before: seq<Entry>, after: seq<Entry>, extra: nat)
    requires ByRule(before, after, PppoePoolRule(c), extra)
    ensures PppoePoolReady(c, before, after, extra)
  {
    ByRuleEdited(before, after, PppoePoolRule(c), map[Name := "Frixel Connect-pppoe-pool"], "", extra);
  }

  lemma PppProfileIsReady(c: Pppoe, before: seq<Entry>, after: seq<Entry>, extra: nat)
    requires ByRule(before, after, PppProfileRule(c), extra)
    ensures PppProfileReady(c, before, after, extra)
  {
    ByRuleEdited(before, after, PppProfileRule(c), map[Name := "Frixel Connect-pppoe-prof"], "", extra);
  }

  lemma PppoeServerIsReady(c: Pppoe, before: seq<Entry>, after: seq<Entry>, extra: nat)
    requires ByRule(before, after, PppoeServerRule(c), extra)
    ensures PppoeServerReady(c, before, after, extra)
  {
    ByRuleEdited(before, after, PppoeServerRule(c), map[ServiceName := "Frixel Connect-pppoe"], "", extra);
  }

  lemma AppendedCopies(script: seq<Action>, r: Router, net: Net, end: Router, extras: seq<nat>, last: nat, entry: Entry)
    requires Through(script, r, net, end, extras) && Appending(script) && Tried(script, r, net).1
    requires |script| == last + 1 && script[last] == Add(NatRules, entry)
    ensures Times(net(last, 1)) >= 1 && end.settings == r.settings
    ensures end.tables[NatRules] == r.tables[NatRules] + Copies(entry, Times(net(last, 1)))
  {
    AppendAgain(script, 0, r, extras);
    Reached(script, 0, r, net, last);
    SuccessExecuted(net(last, 1));
  }

  lemma NatAction(c: Pppoe)
    ensures |PppoeScript(c)| == 4 && PppoeScript(c)[3] == Add(NatRules, PppoeNat(c))
  {
  }

  lemma PppoeNatIsReady(c: Pppoe, r: Router, net: Net, end: Router, extras: seq<nat>)
    requires Through(PppoeScript(c), r, net, end, extras) && Tried(PppoeScript(c), r, net).1
    ensures PppoeNatReady(c, r.tables[NatRules], end.tables[NatRules], Times(net(3, 1))) && end.settings == r.settings
  {
    PppoeQualifies(c);
    NatAction(c);
    AppendedCopies(PppoeScript(c), r, net, end, extras, 3, PppoeNat(c));
  }

  lemma PppoeIsReadyThen(c: Pppoe, r: Router, net: Net, end: Router, extras: seq<nat>)
    requires Through(PppoeScript(c), r, net, end, extras) && Tried(PppoeScript(c), r, net).1
    ensures PppoeReady(c, r, end, net)
  {
    PppoeMenus(c, r, net, end, extras);
    PppoePoolIsReady(c, r.tables[Pools], end.tables[Pools], Extra(net, 0));
    PppProfileIsReady(c, r.tables[PppProfiles], end.tables[PppProfiles], Extra(net, 1));
    PppoeServerIsReady(c, r.tables[PppoeServers], end.tables[PppoeServers], Extra(net, 2));
    PppoeNatIsReady(c, r, net, end, extras);
  }

  /** The same of a PPPoE deployment, whose NAT rule is added once more for every execution. */
  lemma PppoeIsReady(c: Pppoe, r: Router, net: Net)
    requires Full(r) && Tried(PppoeScript(c), r, net).1
    ensures PppoeReady(c, r, Tried(PppoeScript(c), r, net).0, net)
  {
    TriedThrough(PppoeScript(c), r, net);
    PppoeIsReadyThen(c, r, net, Tried(PppoeScript(c), r, net).0, Extras(|PppoeScript(c)|, net));
  }
}

/** The hotspot and PPPoE deployments, action by action, and what repeating them does. */
module RouterDeployments {
  import opened Common
  import opened RouterTables
  import opened RouterSetup

  datatype Hotspot = Hotspot(
    interface: string, gateway: string, networkBase: string, poolRange: string, portalHost: Option<string>,
    loginUrl: string, identity: string, radiusIp: string, radiusSecret: string, natSource: string)

  datatype Pppoe = Pppoe(interface: string, localAddress: string, poolRange: string, natSource: string)

  const HS_POOL := "Frixel Connect-hs-pool"
  const DHCP := "Frixel Connect-dhcp"
  const HS_PROFILE := "Frixel Connect-hsprof"
  const HOTSPOT := "Frixel Connect-hotspot"
  const MASQUERADE := "Frixel Connect-masquerade"
  const PPPOE_POOL := "Frixel Connect-pppoe-pool"
  const PPPOE_PROFILE := "Frixel Connect-pppoe-prof"
  const PPPOE_SERVICE := "Frixel Connect-pppoe"
  const PPPOE_MASQUERADE := "Frixel Connect-pppoe-masquerade"

  /** Matching on given fields only. */
  function Exactly(equal: Entry): Matcher {
    Matcher(equal, Name, "")
  }

  /** An address counts as present when it starts with the gateway, so another prefix length is accepted. */
  function AddressRule(c: Hotspot): Rule {
    Rule(Matcher(map[Interface := c.interface], Address, c.gateway),
         map[Address := c.gateway + "/24", Interface := c.interface, Comment := "Frixel Connect-auto"], map[])
  }

  function HsPoolRule(c: Hotspot): Rule {
    Rule(Exactly(map[Name := HS_POOL]), map[Name := HS_POOL, Ranges := c.poolRange], map[Ranges := c.poolRange])
  }

  function DhcpRule(c: Hotspot): Rule {
    Rule(Exactly(map[Name := DHCP]),
         map[Name := DHCP, Interface := c.interface, AddressPool := HS_POOL, Disabled := "false"],
         map[Interface := c.interface, AddressPool := HS_POOL])
  }

  function NetworkRule(c: Hotspot): Rule {
    Rule(Exactly(map[Address := c.networkBase + "/24"]),
         map[Address := c.networkBase + "/24", Gateway := c.gateway, DnsServer := "8.8.8.8,1.1.1.1"], map[])
  }

  function GardenRule(host: string): Rule {
    Rule(Exactly(map[DstAddress := host, Action := "accept"]),
         map[DstAddress := host, Action := "accept", Comment := "Frixel Connect-portal"], map[])
  }

  function HsProfileRule(c: Hotspot): Rule {
    Rule(Exactly(map[Name := HS_PROFILE]),
         map[Name := HS_PROFILE, HotspotAddress := c.gateway, LoginBy := "cookie,http-chap,http-pap",
             DnsName := "login.Frixel Connect.local", HtmlDirectory := "hotspot", UseRadius := "true"],
         map[HotspotAddress := c.gateway])
  }

  function HotspotRule(c: Hotspot): Rule {
    Rule(Exactly(map[Name := HOTSPOT]),
         map[Name := HOTSPOT, Interface := c.interface, Profile := HS_PROFILE, Disabled := "false"],
         map[Interface := c.interface, Profile := HS_PROFILE])
  }

  function MasqueradeRule(c: Hotspot): Rule {
    Rule(Exactly(map[Action := "masquerade", Chain := "srcnat", Comment := MASQUERADE]),
         map[Action := "masquerade", Chain := "srcnat", Comment := MASQUERADE, SrcAddress := c.natSource], map[])
  }

  function RadiusClient(c: Hotspot): Entry {
    map[Service := "hotspot", Address := c.radiusIp, Secret := c.radiusSecret, Comment := TAG]
  }

  function Addressing(c: Hotspot): seq<Action> {
    [Edit(Addresses, AddressRule(c)), Edit(Pools, HsPoolRule(c)), Edit(DhcpServers, DhcpRule(c)),
     Edit(DhcpNetworks, NetworkRule(c))]
  }

  function Garden(c: Hotspot): seq<Action> {
    match c.portalHost
    case Some(host) => [Edit(WalledGarden, GardenRule(host))]
    case None => []
  }

  function Servers(c: Hotspot): seq<Action> {
    [Edit(HotspotProfiles, HsProfileRule(c)), Edit(Hotspots, HotspotRule(c)), Put(LoginPage, c.loginUrl), Purge]
  }

  function Access(c: Hotspot): seq<Action> {
    [Put(Identity, c.identity), Add(Radius, RadiusClient(c)), Put(CoaPort, "3799"), Edit(NatRules, MasqueradeRule(c))]
  }

  function HotspotScript(c: Hotspot): seq<Action> {
    Addressing(c) + Garden(c) + Servers(c) + Access(c)
  }

  function PppoePoolRule(c: Pppoe): Rule {
    Rule(Exactly(map[Name := PPPOE_POOL]), map[Name := PPPOE_POOL, Ranges := c.poolRange], map[Ranges := c.poolRange])
  }

  function PppProfileRule(c: Pppoe): Rule {
    Rule(Exactly(map[Name := PPPOE_PROFILE]),
         map[Name := PPPOE_PROFILE, LocalAddress := c.localAddress, RemoteAddress := PPPOE_POOL,
             UseUpnp := "yes", ChangeTcpMss := "yes"],
         map[LocalAddress := c.localAddress, RemoteAddress := PPPOE_POOL])
  }

  function PppoeServerRule(c: Pppoe): Rule {
    Rule(Exactly(map[ServiceName := PPPOE_SERVICE]),
         map[ServiceName := PPPOE_SERVICE, Interface := c.interface, DefaultProfile := PPPOE_PROFILE,
             Disabled := "false"],
         map[Interface := c.interface, DefaultProfile := PPPOE_PROFILE])
  }

  function PppoeNat(c: Pppoe): Entry {
    map[Chain := "srcnat", Action := "masquerade", SrcAddress := c.natSource, Comment := PPPOE_MASQUERADE]
  }

  function PppoeScript(c: Pppoe): seq<Action> {
    [Edit(Pools, PppoePoolRule(c)), Edit(PppProfiles, PppProfileRule(c)), Edit(PppoeServers, PppoeServerRule(c)),
     Add(NatRules, PppoeNat(c))]
  }

  // ---------------------------------------------------------------- the scripts qualify

  lemma AddressSound(c: Hotspot)
    ensures Sound(AddressRule(c))
  {
    var rule := AddressRule(c);
    assert rule.add + rule.patch == rule.add;
    assert c.gateway <= rule.add[Address];
  }

  lemma NamedSound(matcher: Entry, add: Entry, patch: Entry)
    requires forall f :: f in matcher ==> f in add && add[f] == matcher[f] && f !in patch
    requires forall f :: f in patch ==> f in add && add[f] == patch[f]
    requires Name !in patch
    ensures Sound(Rule(Exactly(matcher), add, patch))
  {
    assert add + patch == add;
  }

  lemma HsPoolSound(c: Hotspot)
    ensures Sound(HsPoolRule(c))
  {
    var rule := HsPoolRule(c);
    NamedSound(rule.matcher.equal, rule.add, rule.patch);
  }

  lemma DhcpSound(c: Hotspot)
    ensures Sound(DhcpRule(c))
  {
    var rule := DhcpRule(c);
    NamedSound(rule.matcher.equal, rule.add, rule.patch);
  }

  lemma NetworkSound(c: Hotspot)
    ensures Sound(NetworkRule(c))
  {
    var rule := NetworkRule(c);
    NamedSound(rule.matcher.equal, rule.add, rule.patch);
  }

  lemma HsProfileSound(c: Hotspot)
    ensures Sound(HsProfileRule(c))
  {
    var rule := HsProfileRule(c);
    NamedSound(rule.matcher.equal, rule.add, rule.patch);
  }

  lemma HotspotSound(c: Hotspot)
    ensures Sound(HotspotRule(c))
  {
    var rule := HotspotRule(c);
    NamedSound(rule.matcher.equal, rule.add, rule.patch);
  }

  lemma MasqueradeSound(c: Hotspot)
    ensures Sound(MasqueradeRule(c))
  {
    var rule := MasqueradeRule(c);
    NamedSound(rule.matcher.equal, rule.add, rule.patch);
  }

  lemma PppoePoolSound(c: Pppoe)
    ensures Sound(PppoePoolRule(c))
  {
    var rule := PppoePoolRule(c);
    NamedSound(rule.matcher.equal, rule.add, rule.patch);
  }

  lemma PppProfileSound(c: Pppoe)
    ensures Sound(PppProfileRule(c))
  {
    var rule := PppProfileRule(c);
    NamedSound(rule.matcher.equal, rule.add, rule.patch);
  }

  lemma PppoeServerSound(c: Pppoe)
    ensures Sound(PppoeServerRule(c))
  {
    var rule := PppoeServerRule(c);
    NamedSound(rule.matcher.equal, rule.add, rule.patch);
  }

  lemma GardenSound(host: string)
    ensures Sound(GardenRule(host))
  {
    var rule := GardenRule(host);
    NamedSound(rule.matcher.equal, rule.add, rule.patch);
  }

  /** Where the purge stands; the new client comes two actions later. */
  function PurgeAt(c: Hotspot): nat {
    if c.portalHost.Some? then 8 else 7
  }

  /** The step of the full deployment at which an action belongs. */
  function Place(a: Action): int {
    match a
    case Edit(Addresses, _) => 0
    case Edit(Pools, _) => 1
    case Edit(DhcpServers, _) => 2
    case Edit(DhcpNetworks, _) => 3
    case Edit(WalledGarden, _) => 4
    case Edit(HotspotProfiles, _) => 5
    case Edit(Hotspots, _) => 6
    case Put(LoginPage, _) => 7
    case Purge => 8
    case Put(Identity, _) => 9
    case Add(_, _) => 10
    case Put(CoaPort, _) => 11
    case Edit(NatRules, _) => 12
    case Edit(_, _) => -1
  }

  ghost predicate At(a: Action, place: nat) {
    Place(a) == place && (a.Edit? ==> Sound(a.rule))
  }

  lemma AddressingAt(c: Hotspot)
    ensures forall i :: 0 <= i < |Addressing(c)| ==> At(Addressing(c)[i], i)
  {
    AddressSound(c);
    HsPoolSound(c);
    DhcpSound(c);
    NetworkSound(c);
  }

  lemma ServersAt(c: Hotspot)
    ensures forall i :: 0 <= i < |Servers(c)| ==> At(Servers(c)[i], i + 5)
  {
    HsProfileSound(c);
    HotspotSound(c);
  }

  lemma AccessAt(c: Hotspot)
    ensures forall i :: 0 <= i < |Access(c)| ==> At(Access(c)[i], i + 9)
  {
    MasqueradeSound(c);
  }

  lemma ActionAt(c: Hotspot, i: nat)
    requires i < |HotspotScript(c)|
    ensures At(HotspotScript(c)[i], if i < 4 || c.portalHost.Some? then i else i + 1)
  {
    AddressingAt(c);
    ServersAt(c);
    AccessAt(c);
    if c.portalHost.Some? { GardenSound(c.portalHost.value); }
  }

  lemma {:induction false} HotspotQualifies(c: Hotspot)
    ensures Converging(HotspotScript(c), PurgeAt(c), PurgeAt(c) + 2)
  {
    var script := HotspotScript(c);
    forall i | 0 <= i < |script|
      ensures Place(script[i]) == if i < 4 || c.portalHost.Some? then i else i + 1
      ensures script[i].Edit? ==> Sound(script[i].rule)
    {
      ActionAt(c, i);
    }
    ByPlace(script, if c.portalHost.Some? then |script| else 4, PurgeAt(c), PurgeAt(c) + 2);
  }

  /** Actions with distinct places are as distinct as the convergence argument needs. */
  lemma ByPlace(script: seq<Action>, shift: nat, purge: nat, client: nat)
    requires forall i :: 0 <= i < |script| ==> Place(script[i]) == if i < shift then i else i + 1
    requires forall i :: 0 <= i < |script| && script[i].Edit? ==> Sound(script[i].rule)
    requires purge < client < |script| && script[purge] == Purge
    requires script[client].Add? && script[client].menu == Radius && Tagged(script[client].entry)
    ensures Converging(script, purge, client)
  {
    assert forall i :: 0 <= i < |script| && script[i].Purge? ==> Place(script[i]) == Place(script[purge]);
    assert forall i :: 0 <= i < |script| && script[i].Add? ==> Place(script[i]) == Place(script[client]);
    forall i: nat | i < |script| ensures Alone(script, i) {
      forall j | 0 <= j < |script| && j != i ensures Apart(script[i], script[j]) {
        DifferentPlaces(script[i], script[j]);
      }
    }
  }

  /** The actions write to different menus or settings. */
  predicate Apart(a: Action, b: Action) {
    match a
    case Edit(menu, _) => !Touches(b, menu)
    case Put(setting, _) => b.Put? ==> b.setting != setting
    case _ => true
  }

  lemma DifferentPlaces(a: Action, b: Action)
    requires Place(a) != Place(b) && 0 <= Place(a) && 0 <= Place(b)
    requires b.Add? ==> b.menu == Radius
    ensures Apart(a, b)
  {
  }

  lemma EditsThenNat(pool: Rule, profile: Rule, server: Rule, masquerade: Entry)
    requires Sound(pool) && Sound(profile) && Sound(server)
    ensures Appending([Edit(Pools, pool), Edit(PppProfiles, profile), Edit(PppoeServers, server),
            Add(NatRules, masquerade)])
  {
    var script := [Edit(Pools, pool), Edit(PppProfiles, profile), Edit(PppoeServers, server),
      Add(NatRules, masquerade)];
    assert Alone(script, 0) && Alone(script, 1) && Alone(script, 2);
  }

  lemma PppoeQualifies(c: Pppoe)
    ensures Appending(PppoeScript(c))
  {
    PppoePoolSound(c);
    PppProfileSound(c);
    PppoeServerSound(c);
    EditsThenNat(PppoePoolRule(c), PppProfileRule(c), PppoeServerRule(c), PppoeNat(c));
  }

  // ---------------------------------------------------------------- repeating a deployment

  /** Any number of broken-off hotspot deployments, then a finished one, end as one finished deployment does. */
  lemma {:induction false} HotspotConverges(c: Hotspot, r: Router, stops: seq<nat>, last: Router)
    requires Full(r) && Attempts(HotspotScript(c), r, stops, last)
    ensures Full(last) && Deploy(HotspotScript(c), last) == Deploy(HotspotScript(c), r)
  {
    HotspotQualifies(c);
    Converges(HotspotScript(c), r, stops, last, PurgeAt(c), PurgeAt(c) + 2);
  }

  /**
   Whatever was there, a finished hotspot deployment leaves one tagged RADIUS client, the foreign clients as they
   were, and no menu with more matching entries than the one added, or those found.
   */
  lemma HotspotDeployed(c: Hotspot, r: Router)
    requires Full(r)
    ensures var end := Deploy(HotspotScript(c), r);
            && end.tables[Radius] == Untagged(r.tables[Radius]) + [RadiusClient(c)]
            && Tagged(RadiusClient(c)) && !AnyTagged(Untagged(r.tables[Radius]))
    ensures forall i :: 0 <= i < |HotspotScript(c)| && HotspotScript(c)[i].Edit? ==>
              var menu, matcher := HotspotScript(c)[i].menu, HotspotScript(c)[i].rule.matcher;
              Count(Deploy(HotspotScript(c), r).tables[menu], matcher)
              == if Count(r.tables[menu], matcher) == 0 then 1 else Count(r.tables[menu], matcher)
  {
    var script := HotspotScript(c);
    HotspotQualifies(c);
    DeployIsEnd(script, r);
    RadiusAfter(script, 0, r, PurgeAt(c), PurgeAt(c) + 2);
    UntaggedClean(r.tables[Radius]);
    forall i | 0 <= i < |script| && script[i].Edit?
      ensures Count(Deploy(script, r).tables[script[i].menu], script[i].rule.matcher)
              == if Count(r.tables[script[i].menu], script[i].rule.matcher) == 0 then 1
                 else Count(r.tables[script[i].menu], script[i].rule.matcher)
    {
      assert Alone(script, i);
      EditedOnce(script, 0, r, i);
      FixCount(r.tables[script[i].menu], script[i].rule);
    }
  }

  /** PPPoE deployments converge but for their NAT rule: one more for every deployment that ran to its end. */
  lemma PppoeAccumulates(c: Pppoe, r: Router, stops: seq<nat>, last: Router)
    requires Full(r) && Attempts(PppoeScript(c), r, stops, last)
    ensures Full(last)
    ensures Deploy(PppoeScript(c), last)
            == Grown(Deploy(PppoeScript(c), r), NatRules, PppoeNat(c), Completed(stops, 4))
    ensures Deploy(PppoeScript(c), r).tables[NatRules] == r.tables[NatRules] + [PppoeNat(c)]
  {
    PppoeQualifies(c);
    Accumulates(PppoeScript(c), r, stops, last);
  }
}

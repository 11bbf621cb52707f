/**
  The outbound graph handed to mihomo: proxies, provider pools, groups and the
  rules that pick one, with the friend mesh wired in. For an accepted
  configuration every reference resolves, no group leads back to itself, and
  traffic let in for friends leaves by this router's own tunnels and nodes.
*/
module Mihomo {
  import opened Text

  datatype Section = Section(name: string, enabled: bool, proxied: bool, group: string, vpns: seq<string>)

  datatype VPN = VPN(name: string, enabled: bool, interface: string)

  datatype Provider = Provider(name: string, enabled: bool)

  /** A mesh peer; salted means that its credentials derive. */
  datatype Friend = Friend(hwid: string, enabled: bool, exitOffered: bool, overlayIP: string, salted: bool)

  datatype Mesh = Mesh(active: bool, psk: bool, exitEnabled: bool, listenPort: int, salted: bool, peers: seq<Friend>)

  datatype Setup = Setup(
    sections: seq<Section>,
    dnsVpns: seq<string>,
    vpns: seq<VPN>,
    providers: seq<Provider>,
    proxyWans: bool,
    wans: seq<string>,
    mesh: Mesh)

  datatype Group = Group(name: string, uses: seq<string>, members: seq<string>)

  datatype Match = DnsHost | InName(listener: string) | Anything

  datatype Rule = Rule(on: Match, target: string)

  // ----- providers -----

  function VariantName(provider: string, wan: string): string {
    "PureWRTWAN_" + Itoa(|provider|) + "_" + provider + "_" + wan
  }

  function EnabledNames(ps: seq<Provider>): seq<string> {
    if ps == [] then []
    else EnabledNames(ps[..|ps| - 1]) + if ps[|ps| - 1].enabled then [ps[|ps| - 1].name] else []
  }

  function VariantsOf(name: string, wans: seq<string>): seq<string> {
    if wans == [] then [] else VariantsOf(name, wans[..|wans| - 1]) + [VariantName(name, wans[|wans| - 1])]
  }

  function Variants(names: seq<string>, wans: seq<string>): seq<string> {
    if names == [] then [] else Variants(names[..|names| - 1], wans) + VariantsOf(names[|names| - 1], wans)
  }

  /** The provider pools that are rendered. */
  function Pools(c: Setup): seq<string> {
    if c.proxyWans then Variants(EnabledNames(c.providers), c.wans) else EnabledNames(c.providers)
  }

  method ExpandProviders(c: Setup) returns (pools: seq<string>)
    ensures pools == Pools(c)
  {
    hide VariantName;
    pools := [];
    for i := 0 to |c.providers|
      invariant pools == EnabledNames(c.providers[..i])
    {
      assert c.providers[..i + 1][..i] == c.providers[..i];
      if c.providers[i].enabled {
        pools := pools + [c.providers[i].name];
      }
    }
    assert c.providers[..|c.providers|] == c.providers;
    if c.proxyWans {
      var expanded: seq<string> := [];
      for i := 0 to |pools|
        invariant expanded == Variants(pools[..i], c.wans)
      {
        ghost var before := expanded;
        for j := 0 to |c.wans|
          invariant expanded == before + VariantsOf(pools[i], c.wans[..j])
        {
          assert c.wans[..j + 1][..j] == c.wans[..j];
          expanded := expanded + [VariantName(pools[i], c.wans[j])];
        }
        assert c.wans[..|c.wans|] == c.wans && pools[..i + 1][..i] == pools[..i];
      }
      assert pools[..|pools|] == pools;
      pools := expanded;
    }
  }

  /** The decimal length ends at the first underscore behind it. */
  lemma {:induction false} SameNumber(x: string, s: string, y: string, t: string)
    requires AllDigits(x) && AllDigits(y) && x + "_" + s == y + "_" + t
    ensures x == y && s == t
  {
    NotShorter(x, s, y, t);
    NotShorter(y, t, x, s);
    var all := x + "_" + s;
    assert x == all[..|x|] && y == all[..|y|];
    assert s == all[|x| + 1..] && t == all[|y| + 1..];
  }

  lemma {:induction false} NotShorter(x: string, s: string, y: string, t: string)
    requires AllDigits(y) && x + "_" + s == y + "_" + t
    ensures |y| <= |x|
  {
    assert (y + "_" + t)[|x|] == (x + "_" + s)[|x|] == '_';
    assert |x| < |y| ==> IsDigit((y + "_" + t)[|x|]);
  }

  /** A variant name gives back its provider and its WAN. */
  lemma {:induction false} VariantsDiffer(p: string, w: string, q: string, v: string)
    requires VariantName(p, w) == VariantName(q, v)
    ensures p == q && w == v
  {
    var prefix := "PureWRTWAN_";
    var s, t := p + "_" + w, q + "_" + v;
    assert VariantName(p, w) == prefix + (Itoa(|p|) + "_" + s);
    assert VariantName(q, v) == prefix + (Itoa(|q|) + "_" + t);
    assert Itoa(|p|) + "_" + s == VariantName(p, w)[|prefix|..];
    assert Itoa(|q|) + "_" + t == VariantName(q, v)[|prefix|..];
    SameNumber(Itoa(|p|), s, Itoa(|q|), t);
    DecItoa(|p|);
    DecItoa(|q|);
    assert p == s[..|p|] && q == t[..|q|] && w == s[|p| + 1..] && v == t[|q| + 1..];
  }

  ghost predicate Distinct<T>(xs: seq<T>) {
    forall i, j :: 0 <= i < j < |xs| ==> xs[i] != xs[j]
  }

  lemma {:induction false} VariantsOfShape(name: string, wans: seq<string>, s: string)
    requires s in VariantsOf(name, wans)
    ensures exists w :: w in wans && s == VariantName(name, w)
  {
    hide VariantName;
    if s in VariantsOf(name, wans[..|wans| - 1]) {
      VariantsOfShape(name, wans[..|wans| - 1], s);
    }
  }

  lemma {:induction false} VariantsShape(names: seq<string>, wans: seq<string>, s: string)
    requires s in Variants(names, wans)
    ensures exists n, w :: n in names && w in wans && s == VariantName(n, w)
  {
    hide VariantName;
    if s in Variants(names[..|names| - 1], wans) {
      VariantsShape(names[..|names| - 1], wans, s);
    } else {
      VariantsOfShape(names[|names| - 1], wans, s);
    }
  }

  lemma {:induction false} DistinctConcat<T>(a: seq<T>, b: seq<T>)
    requires Distinct(a) && Distinct(b) && forall x :: x in a ==> x !in b
    ensures Distinct(a + b)
  {
    var all := a + b;
    forall i, j | 0 <= i < j < |all| ensures all[i] != all[j] {
      if i < |a| <= j {
        assert all[i] in a && all[j] == b[j - |a|];
      }
    }
  }

  lemma {:induction false} DistinctFront<T>(a: seq<T>)
    requires Distinct(a) && a != []
    ensures Distinct(a[..|a| - 1]) && a[|a| - 1] !in a[..|a| - 1]
  {
  }

  lemma {:induction false} VariantsOfDistinct(name: string, wans: seq<string>)
    requires Distinct(wans)
    ensures Distinct(VariantsOf(name, wans))
  {
    hide VariantName;
    if wans != [] {
      var front, last := wans[..|wans| - 1], wans[|wans| - 1];
      DistinctFront(wans);
      VariantsOfDistinct(name, front);
      forall s | s in VariantsOf(name, front) ensures s != VariantName(name, last) {
        VariantsOfShape(name, front, s);
        var w :| w in front && s == VariantName(name, w);
        if s == VariantName(name, last) { VariantsDiffer(name, w, name, last); }
      }
      DistinctConcat(VariantsOf(name, front), [VariantName(name, last)]);
    }
  }

  /** Pools for each WAN have names of their own, whatever the provider and WAN names are. */
  lemma {:induction false} VariantsDistinct(names: seq<string>, wans: seq<string>)
    requires Distinct(names) && Distinct(wans)
    ensures Distinct(Variants(names, wans))
  {
    hide VariantName;
    if names != [] {
      var front, last := names[..|names| - 1], names[|names| - 1];
      DistinctFront(names);
      VariantsDistinct(front, wans);
      VariantsOfDistinct(last, wans);
      forall s | s in Variants(front, wans) ensures s !in VariantsOf(last, wans) {
        VariantsShape(front, wans, s);
        var n, w :| n in front && w in wans && s == VariantName(n, w);
        if s in VariantsOf(last, wans) {
          VariantsOfShape(last, wans, s);
          var v :| v in wans && s == VariantName(last, v);
          VariantsDiffer(n, w, last, v);
        }
      }
      DistinctConcat(Variants(front, wans), VariantsOf(last, wans));
    }
  }

  // ----- tunnels and friends -----

  /** VPNForName: the first of that name, if it is enabled and bound. */
  predicate Eligible(vpns: seq<VPN>, name: string) {
    name != "" && EligibleIn(vpns, name)
  }

  predicate EligibleIn(vpns: seq<VPN>, name: string) {
    && vpns != []
    && if vpns[0].name == name then vpns[0].enabled && vpns[0].interface != "" else EligibleIn(vpns[1..], name)
  }

  function VpnProxy(name: string): string { "vpn_" + name }

  /** resolveVPNMembers. */
  function VpnMembers(c: Setup, names: seq<string>): seq<string> {
    if names == [] then []
    else
      var n := names[|names| - 1];
      VpnMembers(c, names[..|names| - 1]) + if Eligible(c.vpns, n) then [VpnProxy(n)] else []
  }

  function AddVpns(c: Setup, out: seq<string>, names: seq<string>): seq<string> {
    if names == [] then out
    else
      var was, n := AddVpns(c, out, names[..|names| - 1]), names[|names| - 1];
      if n !in was && Eligible(c.vpns, n) then was + [n] else was
  }

  function AddSectionVpns(c: Setup, out: seq<string>, ss: seq<Section>): seq<string> {
    if ss == [] then out
    else
      var was, s := AddSectionVpns(c, out, ss[..|ss| - 1]), ss[|ss| - 1];
      if s.enabled then AddVpns(c, was, s.vpns) else was
  }

  /** referencedVPNs, by name. */
  function ReferencedVpns(c: Setup): seq<string> { AddSectionVpns(c, AddVpns(c, [], c.dnsVpns), c.sections) }

  method AddEach(c: Setup, out: seq<string>, seen: set<string>, names: seq<string>) returns (more: seq<string>,
      after: set<string>)
    requires forall n :: n in seen <==> n in out
    ensures more == AddVpns(c, out, names) && forall n :: n in after <==> n in more
  {
    hide Eligible;
    more, after := out, seen;
    for i := 0 to |names|
      invariant more == AddVpns(c, out, names[..i]) && forall n :: n in after <==> n in more
    {
      assert names[..i + 1][..i] == names[..i];
      if names[i] in after {
        continue;
      }
      if Eligible(c.vpns, names[i]) {
        after := after + {names[i]};
        more := more + [names[i]];
      }
    }
    assert names[..|names|] == names;
  }

  method ReferencedVPNs(c: Setup) returns (out: seq<string>)
    ensures out == ReferencedVpns(c)
  {
    hide AddVpns;
    var seen;
    out, seen := AddEach(c, [], {}, c.dnsVpns);
    for i := 0 to |c.sections|
      invariant out == AddSectionVpns(c, AddVpns(c, [], c.dnsVpns), c.sections[..i])
      invariant forall n :: n in seen <==> n in out
    {
      assert c.sections[..i + 1][..i] == c.sections[..i];
      if c.sections[i].enabled {
        out, seen := AddEach(c, out, seen, c.sections[i].vpns);
      }
    }
    assert c.sections[..|c.sections|] == c.sections;
  }

  predicate IsHex(c: char) { '0' <= c <= '9' || 'a' <= c <= 'f' }

  predicate FriendId(s: string) {
    |s| == 32 && s[..8] == "purewrt-" && forall i :: 8 <= i < 32 ==> IsHex(s[i])
  }

  predicate Consumable(p: Friend) {
    p.enabled && p.exitOffered && p.overlayIP != "" && FriendId(p.hwid) && p.salted
  }

  function FriendIds(peers: seq<Friend>): (ids: seq<string>)
    ensures forall id :: id in ids ==> FriendId(id)
  {
    if peers == [] then []
    else
      var was, p := FriendIds(peers[..|peers| - 1]), peers[|peers| - 1];
      if Consumable(p) && p.hwid !in was then was + [p.hwid] else was
  }

  function FriendProxy(id: string): string
    requires FriendId(id)
  {
    "friend_" + id[8..]
  }

  function FriendProxies(ids: seq<string>): (r: seq<string>)
    requires forall id :: id in ids ==> FriendId(id)
    ensures |r| == |ids| && forall i :: 0 <= i < |r| ==> r[i] == FriendProxy(ids[i])
  {
    seq(|ids|, i requires 0 <= i < |ids| => FriendProxy(ids[i]))
  }

  /** meshFriends, by proxy name. */
  function Friends(c: Setup): seq<string> {
    if c.mesh.active && c.mesh.psk then FriendProxies(FriendIds(c.mesh.peers)) else []
  }

  method MeshFriends(c: Setup) returns (out: seq<string>)
    ensures out == Friends(c)
  {
    hide FriendId;
    out := [];
    if !c.mesh.active || !c.mesh.psk {
      return;
    }
    var seen: set<string> := {};
    for i := 0 to |c.mesh.peers|
      invariant forall id :: id in seen <==> id in FriendIds(c.mesh.peers[..i])
      invariant out == FriendProxies(FriendIds(c.mesh.peers[..i]))
    {
      var p := c.mesh.peers[i];
      assert c.mesh.peers[..i + 1][..i] == c.mesh.peers[..i];
      if !p.enabled || !p.exitOffered || p.overlayIP == "" || !FriendId(p.hwid) || p.hwid in seen {
        continue;
      }
      if !p.salted {
        continue;
      }
      seen := seen + {p.hwid};
      out := out + [FriendProxy(p.hwid)];
    }
    assert c.mesh.peers[..|c.mesh.peers|] == c.mesh.peers;
  }

  /** One proxy for each friend. */
  lemma {:induction false} FriendsDistinct(c: Setup)
    ensures Distinct(Friends(c))
  {
    if c.mesh.active && c.mesh.psk {
      var ids := FriendIds(c.mesh.peers);
      IdsDistinct(c.mesh.peers);
      forall i, j | 0 <= i < j < |ids| ensures FriendProxy(ids[i]) != FriendProxy(ids[j]) {
        assert FriendId(ids[i]) && FriendId(ids[j]);
        if FriendProxy(ids[i]) == FriendProxy(ids[j]) { SameFriend(ids[i], ids[j]); }
      }
    }
  }

  lemma {:induction false} SameFriend(a: string, b: string)
    requires FriendId(a) && FriendId(b) && FriendProxy(a) == FriendProxy(b)
    ensures a == b
  {
    assert a[8..] == FriendProxy(a)[7..] && b[8..] == FriendProxy(b)[7..];
    assert a == a[..8] + a[8..] && b == b[..8] + b[8..];
  }

  lemma {:induction false} IdsDistinct(peers: seq<Friend>)
    ensures Distinct(FriendIds(peers))
  {
    hide FriendId;
    if peers != [] {
      IdsDistinct(peers[..|peers| - 1]);
      var was, p := FriendIds(peers[..|peers| - 1]), peers[|peers| - 1];
      if Consumable(p) && p.hwid !in was {
        DistinctConcat(was, [p.hwid]);
      }
    }
  }

  predicate MeshExitViable(c: Setup) {
    && c.mesh.active && c.mesh.exitEnabled && c.mesh.listenPort > 0
    && c.mesh.psk && c.mesh.salted
    && (Pools(c) != [] || ReferencedVpns(c) != [])
  }

  // ----- the groups -----

  function VpnProxies(names: seq<string>): (r: seq<string>)
    ensures |r| == |names| && forall i :: 0 <= i < |r| ==> r[i] == VpnProxy(names[i])
  {
    seq(|names|, i requires 0 <= i < |names| => VpnProxy(names[i]))
  }

  /** writeProxyGroup: the pools and the tunnels, or the empty main pool when there are neither. */
  function PoolGroup(name: string, pools: seq<string>, members: seq<string>): Group {
    if pools == [] && members == [] then Group(name, ["main"], []) else Group(name, pools, members)
  }

  predicate Proxied(s: Section) { s.enabled && s.proxied }

  function LocalName(group: string): string { group + "_local" }

  /** A section's group; with friends it becomes a fallback in front of its own pool. */
  function SectionGroups(c: Setup, s: Section): seq<Group> {
    if Friends(c) == [] then [PoolGroup(s.group, Pools(c), VpnMembers(c, s.vpns))]
    else
      [PoolGroup(LocalName(s.group), Pools(c), VpnMembers(c, s.vpns)),
       Group(s.group, [], [LocalName(s.group), "Friends"])]
  }

  function AllSectionGroups(c: Setup, ss: seq<Section>): seq<Group> {
    if ss == [] then []
    else AllSectionGroups(c, ss[..|ss| - 1]) + if Proxied(ss[|ss| - 1]) then SectionGroups(c, ss[|ss| - 1]) else []
  }

  /** The section groups the probe can pin, each once. */
  function ProbeGroups(ss: seq<Section>): seq<string> {
    if ss == [] then []
    else
      var was, s := ProbeGroups(ss[..|ss| - 1]), ss[|ss| - 1];
      if Proxied(s) && s.group != "" && s.group !in was then was + [s.group] else was
  }

  predicate AnyProxied(ss: seq<Section>) { exists i :: 0 <= i < |ss| && Proxied(ss[i]) }

  function Probe(c: Setup): Group {
    Group("NetCheckProbe", Pools(c), ["DIRECT"] + ProbeGroups(c.sections) + VpnProxies(ReferencedVpns(c)) + Friends(c))
  }

  /** The groups behind the sections'. */
  function Tail(c: Setup): seq<Group> {
    (if Friends(c) != [] then [Group("Friends", [], Friends(c))] else [])
    + (if MeshExitViable(c) then [PoolGroup("MeshExit", Pools(c), VpnProxies(ReferencedVpns(c)))] else [])
    + (if AnyProxied(c.sections) then [Probe(c)] else [])
  }

  /** proxy-groups, in order. */
  function Groups(c: Setup): seq<Group> {
    [PoolGroup("DNSProxy", Pools(c), VpnMembers(c, c.dnsVpns))] + AllSectionGroups(c, c.sections) + Tail(c)
  }

  function SectionRules(ss: seq<Section>): seq<Rule> {
    if ss == [] then []
    else
      var s := ss[|ss| - 1];
      SectionRules(ss[..|ss| - 1]) + if Proxied(s) then [Rule(InName("tproxy-" + s.name), s.group)] else []
  }

  predicate HasCommon(ss: seq<Section>) { exists i :: 0 <= i < |ss| && Proxied(ss[i]) && ss[i].group == "Common" }

  /** rules, in order: the DNS hosts, each listener, the catch-all. */
  function Rules(c: Setup): seq<Rule> {
    [Rule(DnsHost, "DNSProxy")]
    + SectionRules(c.sections)
    + (if AnyProxied(c.sections) then [Rule(InName("netcheck-probe"), "NetCheckProbe")] else [])
    + (if MeshExitViable(c) then [Rule(InName("mesh-in"), "MeshExit")] else [])
    + [Rule(Anything, if HasCommon(c.sections) then "Common" else "DIRECT")]
  }

  function Names(gs: seq<Group>): (r: seq<string>)
    ensures |r| == |gs| && forall i :: 0 <= i < |r| ==> r[i] == gs[i].name
  {
    seq(|gs|, i requires 0 <= i < |gs| => gs[i].name)
  }

  /** The outbounds listed under proxies. */
  function Proxies(c: Setup): seq<string> { VpnProxies(ReferencedVpns(c)) + Friends(c) }

  /** The pools that exist: the expanded ones, or main. */
  function PoolNames(c: Setup): seq<string> { if Pools(c) == [] then ["main"] else Pools(c) }

  method WriteNetCheckProbeGroup(c: Setup, pools: seq<string>, friends: seq<string>) returns (g: Group)
    requires pools == Pools(c) && friends == Friends(c)
    ensures g == Probe(c)
  {
    hide ReferencedVpns, Friends, Pools;
    var groups: seq<string> := [];
    var seen: set<string> := {};
    for i := 0 to |c.sections|
      invariant groups == ProbeGroups(c.sections[..i]) && forall n :: n in seen <==> n in groups
    {
      var sec := c.sections[i];
      assert c.sections[..i + 1][..i] == c.sections[..i];
      if Proxied(sec) && sec.group != "" && sec.group !in seen {
        seen := seen + {sec.group};
        groups := groups + [sec.group];
      }
    }
    assert c.sections[..|c.sections|] == c.sections;
    var vpns := ReferencedVPNs(c);
    g := Group("NetCheckProbe", pools, ["DIRECT"] + groups + VpnProxies(vpns) + friends);
  }

  /** The groups and rules of renderMihomoBase. */
  method RenderMihomoBase(c: Setup) returns (groups: seq<Group>, rules: seq<Rule>)
    ensures groups == Groups(c) && rules == Rules(c)
  {
    hide Pools, Friends, ReferencedVpns, SectionGroups, PoolGroup, Probe, Proxied, AnyProxied, HasCommon,
        VpnMembers, MeshExitViable, VpnProxies;
    ScanNone();
    var pools := ExpandProviders(c);
    var friends := MeshFriends(c);
    var vpns := ReferencedVPNs(c);
    var exit := MeshExitViable(c);
    groups := [PoolGroup("DNSProxy", pools, VpnMembers(c, c.dnsVpns))];
    rules := [Rule(DnsHost, "DNSProxy")];
    var first, any, common := [], false, false;
    var inNames := [];
    for i := 0 to |c.sections|
      invariant first == AllSectionGroups(c, c.sections[..i]) && inNames == SectionRules(c.sections[..i])
      invariant any == AnyProxied(c.sections[..i]) && common == HasCommon(c.sections[..i])
    {
      var sec := c.sections[i];
      assert c.sections[..i + 1][..i] == c.sections[..i];
      ScanSnoc(c.sections, i);
      if Proxied(sec) {
        any := true;
        if sec.group == "Common" { common := true; }
        first := first + SectionGroups(c, sec);
        inNames := inNames + [Rule(InName("tproxy-" + sec.name), sec.group)];
      }
    }
    assert c.sections[..|c.sections|] == c.sections;
    groups := groups + first;
    rules := rules + inNames;
    if friends != [] {
      groups := groups + [Group("Friends", [], friends)];
    }
    if exit {
      groups := groups + [PoolGroup("MeshExit", pools, VpnProxies(vpns))];
    }
    if any {
      var probe := WriteNetCheckProbeGroup(c, pools, friends);
      groups := groups + [probe];
      rules := rules + [Rule(InName("netcheck-probe"), "NetCheckProbe")];
    }
    if exit {
      rules := rules + [Rule(InName("mesh-in"), "MeshExit")];
    }
    rules := rules + [Rule(Anything, if common then "Common" else "DIRECT")];
  }

  lemma {:induction false} ScanNone()
    ensures !AnyProxied([]) && !HasCommon([])
  {
  }

  lemma {:induction false} ScanSnoc(ss: seq<Section>, i: nat)
    requires i < |ss|
    ensures AnyProxied(ss[..i + 1]) <==> AnyProxied(ss[..i]) || Proxied(ss[i])
    ensures HasCommon(ss[..i + 1]) <==> HasCommon(ss[..i]) || (Proxied(ss[i]) && ss[i].group == "Common")
  {
    hide Proxied;
    var was, all := ss[..i], ss[..i + 1];
    assert all == was + [ss[i]];
    assert forall k :: 0 <= k < i ==> all[k] == was[k];
    assert all[i] == ss[i];
  }

  // ----- what is assumed -----

  const RESERVED: set<string> :=
    {"GLOBAL", "DIRECT", "REJECT", "REJECT-DROP", "PASS", "COMPATIBLE",
     "DNSProxy", "NetCheckProbe", "MeshExit", "Friends"}

  /** The group checks of validateConfigHardening. */
  ghost predicate Validated(c: Setup) {
    && (forall i :: 0 <= i < |c.sections| && Proxied(c.sections[i]) ==> c.sections[i].group !in RESERVED)
    && (forall i, j :: 0 <= i < j < |c.sections| && Proxied(c.sections[i]) && Proxied(c.sections[j]) ==>
          c.sections[i].group != c.sections[j].group)
  }

  /** What the validator leaves open: no group is another's local pool, and none has an outbound's name. */
  ghost predicate Apart(c: Setup) {
    forall i :: 0 <= i < |c.sections| && Proxied(c.sections[i]) ==> GroupApart(c, c.sections[i].group)
  }

  /** Local pools exist only with friends. */
  ghost predicate GroupApart(c: Setup, group: string) {
    && group !in Proxies(c)
    && (Friends(c) != [] ==> LocalName(group) !in Proxies(c) && !IsSectionGroup(c, LocalName(group)))
  }

  /** Less than that: no group of a section bears an outbound's name. */
  ghost predicate OutboundsSpared(c: Setup) {
    forall i :: 0 <= i < |c.sections| && Proxied(c.sections[i]) ==>
      && c.sections[i].group !in Proxies(c)
      && (Friends(c) != [] ==> LocalName(c.sections[i].group) !in Proxies(c))
  }

  /** Less still: with friends, no section's own group bears a tunnel's. */
  ghost predicate TunnelsSpared(c: Setup) {
    forall i :: 0 <= i < |c.sections| && Proxied(c.sections[i]) && Friends(c) != [] ==>
      c.sections[i].group !in VpnProxies(ReferencedVpns(c))
  }

  ghost predicate IsSectionGroup(c: Setup, name: string) {
    exists i :: 0 <= i < |c.sections| && Proxied(c.sections[i]) && c.sections[i].group == name
  }

  ghost predicate IsLocalGroup(c: Setup, name: string) {
    && Friends(c) != []
    && exists i :: 0 <= i < |c.sections| && Proxied(c.sections[i]) && LocalName(c.sections[i].group) == name
  }

  // ----- every reference resolves -----

  lemma {:induction false} MembersAreReferenced(c: Setup, names: seq<string>, out: seq<string>)
    ensures forall n :: n in out ==> n in AddVpns(c, out, names)
    ensures forall n :: n in names && Eligible(c.vpns, n) ==> n in AddVpns(c, out, names)
  {
    hide Eligible;
    if names != [] {
      var front, last := names[..|names| - 1], names[|names| - 1];
      MembersAreReferenced(c, front, out);
      assert forall n :: n in names ==> n in front || n == last;
    }
  }

  lemma {:induction false} SectionsAreReferenced(c: Setup, out: seq<string>, ss: seq<Section>)
    ensures forall n :: n in out ==> n in AddSectionVpns(c, out, ss)
    ensures forall i, n :: 0 <= i < |ss| && ss[i].enabled && n in ss[i].vpns && Eligible(c.vpns, n) ==>
              n in AddSectionVpns(c, out, ss)
  {
    hide Eligible, AddVpns;
    if ss != [] {
      var front, s := ss[..|ss| - 1], ss[|ss| - 1];
      SectionsAreReferenced(c, out, front);
      MembersAreReferenced(c, s.vpns, AddSectionVpns(c, out, front));
      assert forall i :: 0 <= i < |front| ==> front[i] == ss[i];
    }
  }

  lemma {:induction false} VpnMembersShape(c: Setup, names: seq<string>, m: string)
    requires m in VpnMembers(c, names)
    ensures exists n :: n in names && Eligible(c.vpns, n) && m == VpnProxy(n)
  {
    hide Eligible, VpnProxy;
    var front, last := names[..|names| - 1], names[|names| - 1];
    if m in VpnMembers(c, front) {
      VpnMembersShape(c, front, m);
    }
  }

  lemma {:induction false} ProxyOf(c: Setup, n: string)
    requires n in ReferencedVpns(c)
    ensures VpnProxy(n) in VpnProxies(ReferencedVpns(c)) && VpnProxy(n) in Proxies(c)
  {
    hide ReferencedVpns, VpnProxy, Friends;
    var names := ReferencedVpns(c);
    var i :| 0 <= i < |names| && names[i] == n;
    assert VpnProxies(names)[i] == VpnProxy(n);
  }

  /** The tunnels of DNS and of every enabled section have their outbound. */
  lemma {:induction false} MembersResolve(c: Setup, names: seq<string>, m: string)
    requires names == c.dnsVpns
          || exists i :: 0 <= i < |c.sections| && c.sections[i].enabled && names == c.sections[i].vpns
    requires m in VpnMembers(c, names)
    ensures m in VpnProxies(ReferencedVpns(c))
  {
    hide Eligible, VpnProxy, AddVpns, AddSectionVpns;
    VpnMembersShape(c, names, m);
    var n :| n in names && Eligible(c.vpns, n) && m == VpnProxy(n);
    MembersAreReferenced(c, c.dnsVpns, []);
    SectionsAreReferenced(c, AddVpns(c, [], c.dnsVpns), c.sections);
    ProxyOf(c, n);
  }

  /** What a group can be, and what its members then are. */
  ghost predicate Kind(c: Setup, g: Group) {
    || (g.name == "DNSProxy" && Leaves(c, g))
    || (IsLocalGroup(c, g.name) && Leaves(c, g))
    || (Friends(c) == [] && IsSectionGroup(c, g.name) && Leaves(c, g))
    || (Friends(c) != [] && IsSectionGroup(c, g.name) && g == Group(g.name, [], [LocalName(g.name), "Friends"]))
    || (Friends(c) != [] && g == Group("Friends", [], Friends(c)))
    || (MeshExitViable(c) && g.name == "MeshExit" && Leaves(c, g))
    || (AnyProxied(c.sections) && g == Probe(c))
  }

  /** Only own tunnels and existing pools. */
  ghost predicate Leaves(c: Setup, g: Group) {
    && (forall m :: m in g.members ==> m in VpnProxies(ReferencedVpns(c)))
    && (forall u :: u in g.uses ==> u in PoolNames(c))
  }

  lemma {:induction false} PoolGroupLeaves(c: Setup, name: string, members: seq<string>)
    requires forall m :: m in members ==> m in VpnProxies(ReferencedVpns(c))
    ensures PoolGroup(name, Pools(c), members).name == name && Leaves(c, PoolGroup(name, Pools(c), members))
  {
    hide Pools, ReferencedVpns;
  }

  lemma {:induction false} SectionGroupKinds(c: Setup, ss: seq<Section>, g: Group)
    requires g in AllSectionGroups(c, ss) && forall i :: 0 <= i < |ss| ==> ss[i] in c.sections
    ensures Kind(c, g)
  {
    hide Pools, Friends, ReferencedVpns, VpnMembers, PoolGroup, Leaves, Probe, MeshExitViable, LocalName;
    var front, s := ss[..|ss| - 1], ss[|ss| - 1];
    if g in AllSectionGroups(c, front) {
      SectionGroupKinds(c, front, g);
    } else {
      var i :| 0 <= i < |c.sections| && c.sections[i] == s;
      forall m | m in VpnMembers(c, s.vpns) ensures m in VpnProxies(ReferencedVpns(c)) { MembersResolve(c, s.vpns, m); }
      PoolGroupLeaves(c, s.group, VpnMembers(c, s.vpns));
      PoolGroupLeaves(c, LocalName(s.group), VpnMembers(c, s.vpns));
      assert IsSectionGroup(c, s.group);
      assert Friends(c) != [] ==> IsLocalGroup(c, LocalName(s.group));
    }
  }

  lemma {:induction false} GroupKinds(c: Setup, g: Group)
    requires g in Groups(c)
    ensures Kind(c, g)
  {
    hide Pools, Friends, ReferencedVpns, VpnMembers, AllSectionGroups, PoolGroup, Leaves, Probe, MeshExitViable,
        IsSectionGroup, IsLocalGroup, AnyProxied;
    if g in AllSectionGroups(c, c.sections) {
      SectionGroupKinds(c, c.sections, g);
    } else {
      forall m | m in VpnMembers(c, c.dnsVpns) ensures m in VpnProxies(ReferencedVpns(c)) {
        MembersResolve(c, c.dnsVpns, m);
      }
      PoolGroupLeaves(c, "DNSProxy", VpnMembers(c, c.dnsVpns));
      PoolGroupLeaves(c, "MeshExit", VpnProxies(ReferencedVpns(c)));
    }
  }

  lemma {:induction false} NameListed(gs: seq<Group>, name: string)
    ensures name in Names(gs) <==> exists g :: g in gs && g.name == name
  {
    if g :| g in gs && g.name == name {
      var i :| 0 <= i < |gs| && gs[i] == g;
      assert Names(gs)[i] == name;
    }
    if name in Names(gs) {
      var i :| 0 <= i < |gs| && Names(gs)[i] == name;
      assert gs[i] in gs;
    }
  }

  /** The groups of a proxied section are there. */
  lemma {:induction false} SectionListed(c: Setup, ss: seq<Section>, i: nat)
    requires i < |ss| && Proxied(ss[i])
    ensures forall g :: g in SectionGroups(c, ss[i]) ==> g in AllSectionGroups(c, ss)
  {
    hide SectionGroups, Proxied;
    if i < |ss| - 1 {
      SectionListed(c, ss[..|ss| - 1], i);
    }
  }

  lemma {:induction false} SectionNamesListed(c: Setup, name: string)
    ensures IsSectionGroup(c, name) || IsLocalGroup(c, name) ==> name in Names(Groups(c))
  {
    hide Pools, Friends, VpnMembers, ReferencedVpns, Probe, MeshExitViable, AllSectionGroups, AnyProxied, LocalName;
    NameListed(Groups(c), name);
    if IsSectionGroup(c, name) {
      var i :| 0 <= i < |c.sections| && Proxied(c.sections[i]) && c.sections[i].group == name;
      SectionListed(c, c.sections, i);
      var own := SectionGroups(c, c.sections[i]);
      assert own[|own| - 1] in own && own[|own| - 1].name == name;
    }
    if IsLocalGroup(c, name) {
      var i :| 0 <= i < |c.sections| && Proxied(c.sections[i]) && LocalName(c.sections[i].group) == name;
      SectionListed(c, c.sections, i);
      var own := SectionGroups(c, c.sections[i]);
      assert own[0] in own && own[0].name == name;
    }
  }

  lemma {:induction false} ProbeGroupsAreSections(c: Setup, ss: seq<Section>, name: string)
    requires name in ProbeGroups(ss) && forall i :: 0 <= i < |ss| ==> ss[i] in c.sections
    ensures IsSectionGroup(c, name)
  {
    hide Proxied;
    var front, s := ss[..|ss| - 1], ss[|ss| - 1];
    if name in ProbeGroups(front) {
      ProbeGroupsAreSections(c, front, name);
    } else {
      var i :| 0 <= i < |c.sections| && c.sections[i] == s;
    }
  }

  lemma {:induction false} FriendsListed(c: Setup)
    requires Friends(c) != []
    ensures "Friends" in Names(Groups(c))
  {
    hide Pools, Friends, VpnMembers, ReferencedVpns, Probe, MeshExitViable, AllSectionGroups, AnyProxied, PoolGroup;
    NameListed(Groups(c), "Friends");
    assert Group("Friends", [], Friends(c)) in Groups(c);
  }

  ghost predicate Resolves(c: Setup, name: string) {
    name in Names(Groups(c)) || name in Proxies(c) || name == "DIRECT"
  }

  /** Every member of every group is a group, an outbound or DIRECT, and every pool it uses exists. */
  lemma {:induction false} ReferencesResolve(c: Setup, g: Group)
    requires g in Groups(c)
    ensures forall m :: m in g.members ==> Resolves(c, m)
    ensures forall u :: u in g.uses ==> u in PoolNames(c)
  {
    hide Pools, Friends, ReferencedVpns, Groups, VpnProxies, Names, MeshExitViable, AnyProxied, ProbeGroups,
        LocalName;
    GroupKinds(c, g);
    if Friends(c) != [] { FriendsListed(c); }
    forall m | m in g.members ensures Resolves(c, m) {
      SectionNamesListed(c, m);
      if IsSectionGroup(c, g.name) && m == LocalName(g.name) && Friends(c) != [] {
        var i :| 0 <= i < |c.sections| && Proxied(c.sections[i]) && c.sections[i].group == g.name;
        assert IsLocalGroup(c, m);
      }
      if m in ProbeGroups(c.sections) {
        ProbeGroupsAreSections(c, c.sections, m);
      }
    }
  }

  lemma {:induction false} SectionRuleTargets(c: Setup, ss: seq<Section>, r: Rule)
    requires r in SectionRules(ss) && forall i :: 0 <= i < |ss| ==> ss[i] in c.sections
    ensures IsSectionGroup(c, r.target)
  {
    hide Proxied;
    var front, s := ss[..|ss| - 1], ss[|ss| - 1];
    if r in SectionRules(front) {
      SectionRuleTargets(c, front, r);
    } else {
      var i :| 0 <= i < |c.sections| && c.sections[i] == s;
    }
  }

  /** So does the target of every rule. */
  lemma {:induction false} RulesResolve(c: Setup, r: Rule)
    requires r in Rules(c)
    ensures Resolves(c, r.target)
  {
    hide Pools, Friends, ReferencedVpns, VpnMembers, VpnProxies, AllSectionGroups, MeshExitViable, SectionRules,
        Probe, Names, Proxies;
    NameListed(Groups(c), r.target);
    SectionNamesListed(c, r.target);
    if r in SectionRules(c.sections) {
      SectionRuleTargets(c, c.sections, r);
    } else if r.target == "DNSProxy" {
      assert Groups(c)[0].name == "DNSProxy";
    } else if r.target == "MeshExit" && MeshExitViable(c) {
      assert PoolGroup("MeshExit", Pools(c), VpnProxies(ReferencedVpns(c))) in Groups(c);
    } else if r.target == "NetCheckProbe" && AnyProxied(c.sections) {
      assert Probe(c) in Groups(c);
      assert Probe(c).name == "NetCheckProbe" by { ProbeName(c); }
    } else if r.target == "Common" && HasCommon(c.sections) {
      assert IsSectionGroup(c, "Common");
    }
  }

  lemma {:induction false} ProbeName(c: Setup)
    ensures Probe(c).name == "NetCheckProbe"
  {
  }

  // ----- no group leads back to itself -----

  predicate Fixed(name: string) {
    name == "DNSProxy" || name == "Friends" || name == "MeshExit" || name == "NetCheckProbe" || name == "DIRECT"
  }

  lemma {:induction false} ProxyShape(c: Setup, m: string)
    requires m in Proxies(c)
    ensures m != "" && (m[0] == 'v' <==> m in VpnProxies(ReferencedVpns(c))) && (m[0] == 'f' <==> m in Friends(c))
    ensures !Fixed(m)
  {
    hide ReferencedVpns, FriendIds;
    var v, f := VpnProxies(ReferencedVpns(c)), Friends(c);
    forall i | 0 <= i < |v| ensures v[i] != "" && v[i][0] == 'v' {}
    forall i | 0 <= i < |f| ensures f[i] != "" && f[i][0] == 'f' {}
    assert m[0] == 'v' || m[0] == 'f';
  }

  lemma {:induction false} LocalShape(group: string)
    ensures LocalName(group) !in RESERVED && !Fixed(LocalName(group))
  {
    var s := LocalName(group);
    assert s[|s| - 1] == 'l' && s[|s| - 2] == 'a' && s[|s| - 6] == '_';
    assert forall r :: r in RESERVED ==> |r| < 6 || r[|r| - 6] != '_';
  }

  /** An outbound's name is never a group's. */
  lemma {:induction false} ProxyIsNoGroup(c: Setup, m: string)
    requires Validated(c) && OutboundsSpared(c) && m in Proxies(c)
    ensures m !in Names(Groups(c)) && !IsSectionGroup(c, m)
  {
    hide Proxied, Groups, Names, Proxies, LocalName, Leaves, MeshExitViable, AnyProxied;
    ProxyShape(c, m);
    ProbeName(c);
    NameListed(Groups(c), m);
    forall g | g in Groups(c) ensures g.name != m { GroupKinds(c, g); }
  }

  /** The length of the longest group name of a section. */
  function Longest(ss: seq<Section>): nat {
    if ss == [] then 0
    else
      var was, s := Longest(ss[..|ss| - 1]), ss[|ss| - 1];
      if |s.group| > was then |s.group| else was
  }

  lemma {:induction false} NoLonger(ss: seq<Section>, i: nat)
    requires i < |ss|
    ensures |ss[i].group| <= Longest(ss)
  {
    if i < |ss| - 1 { NoLonger(ss[..|ss| - 1], i); }
  }

  /** How far a name is from the outbounds; a local pool that is a section's group too has a longer name. */
  ghost function Rank(c: Setup, name: string): nat {
    if name == "NetCheckProbe" then 3 + Longest(c.sections)
    else if Friends(c) != [] && IsSectionGroup(c, name) && |name| <= Longest(c.sections) then
      2 + Longest(c.sections) - |name|
    else if name in Names(Groups(c)) then 1
    else 0
  }

  lemma {:induction false} SectionGroupLength(c: Setup, name: string)
    ensures IsSectionGroup(c, name) ==> |name| <= Longest(c.sections)
  {
    if IsSectionGroup(c, name) {
      var i :| 0 <= i < |c.sections| && Proxied(c.sections[i]) && c.sections[i].group == name;
      NoLonger(c.sections, i);
    }
  }

  /** Members rank below their group: no chain of groups comes back. */
  lemma {:induction false} MembersRankLower(c: Setup, g: Group, m: string)
    requires Validated(c) && OutboundsSpared(c) && g in Groups(c) && m in g.members
    ensures Rank(c, m) < Rank(c, g.name)
  {
    hide Groups, Names, Proxies, LocalName, MeshExitViable, AnyProxied, Friends, ReferencedVpns, VpnProxies,
        ProbeGroups, Pools, Longest;
    GroupKinds(c, g);
    NameListed(Groups(c), g.name);
    InProxies(c, m);
    SectionGroupLength(c, m);
    SectionGroupLength(c, g.name);
    if m in Proxies(c) {
      ProxyIsNoGroup(c, m);
      ProxyShape(c, m);
    } else if g == Probe(c) {
      if m in ProbeGroups(c.sections) {
        ProbeGroupsAreSections(c, c.sections, m);
      }
    } else {
      LocalShape(g.name);
      LocalIsLonger(g.name);
    }
  }

  lemma {:induction false} LocalIsLonger(group: string)
    ensures |LocalName(group)| == |group| + 6
  {
  }

  /** Without that a group can be its own member: it bears the name of a tunnel that its section uses. */
  lemma {:induction false} GroupInItself(c: Setup, i: nat, n: string)
    requires i < |c.sections| && Proxied(c.sections[i]) && n in c.sections[i].vpns && Eligible(c.vpns, n)
    requires VpnProxy(n) == if Friends(c) == [] then c.sections[i].group else LocalName(c.sections[i].group)
    ensures Edge(c, VpnProxy(n), VpnProxy(n)) && !OutboundsSpared(c)
  {
    hide Groups, Eligible, VpnProxy, Friends, LocalName, Pools, ReferencedVpns;
    var s := c.sections[i];
    SectionListed(c, c.sections, i);
    MemberListed(c, s.vpns, n);
    var g := PoolGroup(VpnProxy(n), Pools(c), VpnMembers(c, s.vpns));
    assert g == SectionGroups(c, s)[0];
    InGroups(c, g);
    PoolName(VpnProxy(n), Pools(c), VpnMembers(c, s.vpns));
    ReferencedSection(c, i, n);
    ProxyOf(c, n);
  }

  lemma {:induction false} MemberListed(c: Setup, names: seq<string>, n: string)
    requires n in names && Eligible(c.vpns, n)
    ensures VpnProxy(n) in VpnMembers(c, names)
  {
    hide Eligible, VpnProxy;
    if n != names[|names| - 1] { MemberListed(c, names[..|names| - 1], n); }
  }

  lemma {:induction false} ReferencedSection(c: Setup, i: nat, n: string)
    requires i < |c.sections| && Proxied(c.sections[i]) && n in c.sections[i].vpns && Eligible(c.vpns, n)
    ensures n in ReferencedVpns(c)
  {
    hide Eligible, AddVpns, AddSectionVpns;
    SectionsAreReferenced(c, AddVpns(c, [], c.dnsVpns), c.sections);
  }

  lemma {:induction false} InGroups(c: Setup, g: Group)
    requires g in AllSectionGroups(c, c.sections)
    ensures g in Groups(c)
  {
    hide AllSectionGroups, Tail, PoolGroup;
  }

  lemma {:induction false} InProxies(c: Setup, m: string)
    ensures m in Proxies(c) <==> m in VpnProxies(ReferencedVpns(c)) || m in Friends(c)
  {
  }

  // ----- no two groups share a name -----

  lemma {:induction false} NamesConcat(a: seq<Group>, b: seq<Group>)
    ensures Names(a + b) == Names(a) + Names(b)
  {
  }

  /** The section's group, or with friends its local pool, has that name. */
  predicate NamesGroup(c: Setup, s: Section, name: string) {
    Proxied(s) && (s.group == name || (Friends(c) != [] && LocalName(s.group) == name))
  }

  lemma {:induction false} SectionNamesFrom(c: Setup, ss: seq<Section>, name: string)
    requires name in Names(AllSectionGroups(c, ss))
    ensures exists i :: 0 <= i < |ss| && NamesGroup(c, ss[i], name)
  {
    hide Pools, Friends, VpnMembers, LocalName, Proxied, Names;
    NameListed(AllSectionGroups(c, ss), name);
    var g :| g in AllSectionGroups(c, ss) && g.name == name;
    var front, s := ss[..|ss| - 1], ss[|ss| - 1];
    if g in AllSectionGroups(c, front) {
      NameListed(AllSectionGroups(c, front), name);
      SectionNamesFrom(c, front, name);
      var i :| 0 <= i < |front| && NamesGroup(c, front[i], name);
      assert ss[i] == front[i];
    }
  }

  lemma {:induction false} LocalNamesDiffer(a: string, b: string)
    requires LocalName(a) == LocalName(b)
    ensures a == b
  {
    assert a == LocalName(a)[..|LocalName(a)| - 6] && b == LocalName(b)[..|LocalName(b)| - 6];
  }

  lemma {:induction false} NotOwnLocal(a: string)
    ensures a != LocalName(a)
  {
    assert |LocalName(a)| == |a| + 6;
  }

  lemma {:induction false} SectionNamesDistinct(c: Setup, ss: seq<Section>)
    requires Validated(c) && Apart(c) && ss <= c.sections
    ensures Distinct(Names(AllSectionGroups(c, ss)))
  {
    hide Pools, Friends, VpnMembers, LocalName, Proxied, Proxies;
    if ss != [] {
      var n := |ss| - 1;
      var front, s := ss[..n], ss[n];
      SectionNamesDistinct(c, front);
      if Proxied(s) {
        var own := SectionGroups(c, s);
        NamesConcat(AllSectionGroups(c, front), own);
        NotOwnLocal(s.group);
        forall name | name in Names(AllSectionGroups(c, front)) ensures name !in Names(own) {
          SectionNamesFrom(c, front, name);
          var i :| 0 <= i < n && NamesGroup(c, front[i], name);
          assert c.sections[i] == front[i] && c.sections[n] == s;
          if LocalName(front[i].group) == LocalName(s.group) { LocalNamesDiffer(front[i].group, s.group); }
        }
        DistinctConcat(Names(AllSectionGroups(c, front)), Names(own));
      }
    }
  }

  lemma {:induction false} SectionNameNotFixed(c: Setup, n: string)
    requires Validated(c) && n in Names(AllSectionGroups(c, c.sections))
    ensures !Fixed(n)
  {
    hide Pools, Friends, AllSectionGroups, LocalName, Proxied, Names;
    SectionNamesFrom(c, c.sections, n);
    var i :| 0 <= i < |c.sections| && NamesGroup(c, c.sections[i], n);
    LocalShape(c.sections[i].group);
  }

  /** One name for each group, and none that an outbound has. */
  ghost predicate NamesTellApart(c: Setup) {
    Distinct(Names(Groups(c))) && forall n :: n in Names(Groups(c)) ==> n !in Proxies(c)
  }

  /** Every group has a name of its own that no outbound has, exactly when the sections' groups stay apart. */
  lemma {:induction false} GroupNamesDistinct(c: Setup)
    requires Validated(c)
    ensures NamesTellApart(c) <==> Apart(c)
    ensures "DIRECT" !in Names(Groups(c))
  {
    hide NamesTellApart, Apart, Groups, Names, Validated;
    NoGroupIsDirect(c);
    if Apart(c) { ApartNamesDiffer(c); }
    if NamesTellApart(c) { NamesAreApart(c); }
  }

  lemma {:induction false} NoGroupIsDirect(c: Setup)
    requires Validated(c)
    ensures "DIRECT" !in Names(Groups(c))
  {
    hide Groups, Names, Leaves, MeshExitViable, AnyProxied, Friends, LocalName;
    NameListed(Groups(c), "DIRECT");
    ProbeName(c);
    forall g | g in Groups(c) ensures g.name != "DIRECT" {
      GroupKinds(c, g);
      if IsLocalGroup(c, g.name) {
        var i :| 0 <= i < |c.sections| && Proxied(c.sections[i]) && LocalName(c.sections[i].group) == g.name;
        LocalShape(c.sections[i].group);
      }
    }
  }

  lemma {:induction false} ApartNamesDiffer(c: Setup)
    requires Validated(c) && Apart(c)
    ensures NamesTellApart(c)
  {
    hide Pools, Friends, VpnMembers, ReferencedVpns, VpnProxies, AllSectionGroups, LocalName, Proxied,
        MeshExitViable, AnyProxied, Proxies, Probe, Names, Distinct, PoolGroup, Validated, Apart;
    PoolName("DNSProxy", Pools(c), VpnMembers(c, c.dnsVpns));
    var dns := [PoolGroup("DNSProxy", Pools(c), VpnMembers(c, c.dnsVpns))];
    var own := AllSectionGroups(c, c.sections);
    SectionNamesDistinct(c, c.sections);
    forall n | n in Names(own) ensures !Fixed(n) { SectionNameNotFixed(c, n); }
    TailNames(c);
    ChainDistinct(dns, own, Tail(c));
    SplitGroups(c);
    forall n | n in Names(Groups(c)) ensures n !in Proxies(c) {
      if n in Proxies(c) {
        assert OutboundsSpared(c) by { ApartSpares(c); }
        ProxyIsNoGroup(c, n);
      }
    }
  }

  lemma {:induction false} ApartSpares(c: Setup)
    requires Apart(c)
    ensures OutboundsSpared(c)
  {
    hide Friends, Proxies, LocalName;
    assert forall i :: 0 <= i < |c.sections| && Proxied(c.sections[i]) ==> GroupApart(c, c.sections[i].group);
  }

  lemma {:induction false} DistinctParts<T>(a: seq<T>, b: seq<T>)
    requires Distinct(a + b)
    ensures Distinct(a) && Distinct(b) && forall x :: x in a ==> x !in b
  {
    var all := a + b;
    assert forall i :: 0 <= i < |a| ==> a[i] == all[i];
    assert forall i :: 0 <= i < |b| ==> b[i] == all[|a| + i];
  }

  lemma {:induction false} SectionNamed(c: Setup, ss: seq<Section>, i: nat)
    requires i < |ss| && Proxied(ss[i]) && Friends(c) != []
    ensures ss[i].group in Names(AllSectionGroups(c, ss)) && LocalName(ss[i].group) in Names(AllSectionGroups(c, ss))
  {
    hide Pools, Friends, VpnMembers, LocalName, Proxied, AllSectionGroups;
    SectionListed(c, ss, i);
    NameListed(AllSectionGroups(c, ss), ss[i].group);
    NameListed(AllSectionGroups(c, ss), LocalName(ss[i].group));
    var own := SectionGroups(c, ss[i]);
    assert own[0] in own && own[1] in own;
    PoolName(LocalName(ss[i].group), Pools(c), VpnMembers(c, ss[i].vpns));
  }

  /** With friends, two section groups of which one is the other's local pool give one name twice. */
  lemma {:induction false} LocalPoolsApart(c: Setup, ss: seq<Section>, i: nat, j: nat)
    requires Friends(c) != [] && Distinct(Names(AllSectionGroups(c, ss)))
    requires i < |ss| && j < |ss| && Proxied(ss[i]) && Proxied(ss[j])
    ensures ss[i].group != LocalName(ss[j].group)
  {
    hide Pools, Friends, VpnMembers, LocalName, Proxied, SectionGroups, Names, Distinct;
    var n := |ss| - 1;
    var front := AllSectionGroups(c, ss[..n]);
    if i == j {
      NotOwnLocal(ss[i].group);
    } else if Proxied(ss[n]) {
      NamesConcat(front, SectionGroups(c, ss[n]));
      DistinctParts(Names(front), Names(SectionGroups(c, ss[n])));
      OwnNames(c, ss[n]);
      if i < n { SectionNamed(c, ss[..n], i); }
      if j < n { SectionNamed(c, ss[..n], j); }
      if i < n && j < n { LocalPoolsApart(c, ss[..n], i, j); }
    } else {
      assert AllSectionGroups(c, ss) == front;
      LocalPoolsApart(c, ss[..n], i, j);
    }
  }

  lemma {:induction false} OwnNames(c: Setup, s: Section)
    requires Friends(c) != []
    ensures Names(SectionGroups(c, s)) == [LocalName(s.group), s.group]
  {
    PoolName(LocalName(s.group), Pools(c), VpnMembers(c, s.vpns));
  }

  lemma {:induction false} NamesAreApart(c: Setup)
    requires NamesTellApart(c)
    ensures Apart(c)
  {
    hide Pools, Friends, VpnMembers, AllSectionGroups, LocalName, Proxied, Proxies, Names, Distinct, PoolGroup;
    var dns := [PoolGroup("DNSProxy", Pools(c), VpnMembers(c, c.dnsVpns))];
    var own := AllSectionGroups(c, c.sections);
    SplitGroups(c);
    NamesConcat(dns, own + Tail(c));
    DistinctParts(Names(dns), Names(own + Tail(c)));
    NamesConcat(own, Tail(c));
    DistinctParts(Names(own), Names(Tail(c)));
    forall i | 0 <= i < |c.sections| && Proxied(c.sections[i]) ensures GroupApart(c, c.sections[i].group) {
      var group := c.sections[i].group;
      assert IsSectionGroup(c, group);
      SectionNamesListed(c, group);
      if Friends(c) != [] {
        assert IsLocalGroup(c, LocalName(group));
        SectionNamesListed(c, LocalName(group));
        if IsSectionGroup(c, LocalName(group)) {
          var j :| 0 <= j < |c.sections| && Proxied(c.sections[j]) && c.sections[j].group == LocalName(group);
          LocalPoolsApart(c, c.sections, j, i);
        }
      }
    }
  }

  lemma {:induction false} SplitGroups(c: Setup)
    ensures Groups(c)
      == [PoolGroup("DNSProxy", Pools(c), VpnMembers(c, c.dnsVpns))] + (AllSectionGroups(c, c.sections) + Tail(c))
  {
    hide Pools, Friends, VpnMembers, VpnProxies, ReferencedVpns, AllSectionGroups, MeshExitViable, AnyProxied, Probe,
        PoolGroup;
  }

  lemma {:induction false} PoolName(name: string, pools: seq<string>, members: seq<string>)
    ensures PoolGroup(name, pools, members).name == name
  {
  }

  lemma {:induction false} ChainDistinct(dns: seq<Group>, own: seq<Group>, tail: seq<Group>)
    requires |dns| == 1 && dns[0].name == "DNSProxy"
    requires Distinct(Names(own)) && forall n :: n in Names(own) ==> !Fixed(n)
    requires Distinct(Names(tail))
    requires forall n :: n in Names(tail) ==> n == "Friends" || n == "MeshExit" || n == "NetCheckProbe"
    ensures Distinct(Names(dns + (own + tail)))
  {
    DistinctConcat(Names(own), Names(tail));
    NamesConcat(own, tail);
    assert forall n :: n in Names(dns) ==> n == "DNSProxy";
    assert "DNSProxy" !in Names(tail);
    DistinctConcat(Names(dns), Names(own + tail));
    NamesConcat(dns, own + tail);
  }

  lemma {:induction false} TailNames(c: Setup)
    ensures Distinct(Names(Tail(c)))
    ensures forall n :: n in Names(Tail(c)) ==> n == "Friends" || n == "MeshExit" || n == "NetCheckProbe"
  {
    hide Pools, Friends, VpnProxies, ReferencedVpns, MeshExitViable, AnyProxied, Probe, PoolGroup;
    PoolName("MeshExit", Pools(c), VpnProxies(ReferencedVpns(c)));
    ProbeName(c);
    assert "Friends"[0] == 'F' && "MeshExit"[0] == 'M' && "NetCheckProbe"[0] == 'N';
  }

  // ----- what friends can reach -----

  ghost predicate Edge(c: Setup, from: string, to: string) {
    exists g :: g in Groups(c) && g.name == from && to in g.members
  }

  ghost predicate Path(c: Setup, path: seq<string>) {
    path != [] && forall i :: 0 < i < |path| ==> Edge(c, path[i - 1], path[i])
  }

  /** The first rule that takes traffic from a listener. */
  function Target(rules: seq<Rule>, listener: string, dnsHost: bool): string {
    if rules == [] then ""
    else
      var r := rules[0];
      if r.on.Anything? || (r.on.DnsHost? && dnsHost) || r.on == InName(listener) then r.target
      else Target(rules[1..], listener, dnsHost)
  }

  lemma {:induction false} TargetSkips(a: seq<Rule>, b: seq<Rule>, listener: string, dnsHost: bool)
    requires forall i :: 0 <= i < |a| ==> a[i].on.InName? && a[i].on.listener != listener
    ensures Target(a + b, listener, dnsHost) == Target(b, listener, dnsHost)
  {
    if a == [] {
      assert a + b == b;
    } else {
      assert (a + b)[1..] == a[1..] + b;
      TargetSkips(a[1..], b, listener, dnsHost);
    }
  }

  lemma {:induction false} SectionListeners(ss: seq<Section>)
    ensures forall i :: 0 <= i < |SectionRules(ss)| ==>
              SectionRules(ss)[i].on.InName? && SectionRules(ss)[i].on.listener != "mesh-in"
  {
    hide Proxied;
    if ss != [] {
      SectionListeners(ss[..|ss| - 1]);
      var l := "tproxy-" + ss[|ss| - 1].name;
      assert l[0] == 't';
    }
  }

  /** Friend traffic is sent to the friends' exit, or to the DNS group for the DNS hosts. */
  lemma {:induction false} MeshInTarget(c: Setup, dnsHost: bool)
    requires MeshExitViable(c)
    ensures Target(Rules(c), "mesh-in", dnsHost) == if dnsHost then "DNSProxy" else "MeshExit"
  {
    hide MeshExitViable, AnyProxied, HasCommon, SectionRules;
    SectionListeners(c.sections);
    var probe := if AnyProxied(c.sections) then [Rule(InName("netcheck-probe"), "NetCheckProbe")] else [];
    var exit := [Rule(InName("mesh-in"), "MeshExit")];
    var last := [Rule(Anything, if HasCommon(c.sections) then "Common" else "DIRECT")];
    var skipped := SectionRules(c.sections) + probe;
    assert "netcheck-probe"[0] != "mesh-in"[0];
    assert Rules(c) == [Rule(DnsHost, "DNSProxy")] + (skipped + (exit + last));
    assert Rules(c)[1..] == skipped + (exit + last);
    TargetSkips(skipped, exit + last, "mesh-in", dnsHost);
  }

  /** From the exit, the DNS group and any tunnel's name, members are tunnels. */
  lemma {:induction false} EdgeStaysInside(c: Setup, from: string, to: string)
    requires Validated(c) && TunnelsSpared(c) && Edge(c, from, to)
    requires from == "MeshExit" || from == "DNSProxy" || from in VpnProxies(ReferencedVpns(c))
    ensures to in VpnProxies(ReferencedVpns(c))
  {
    hide Groups, LocalName, MeshExitViable, AnyProxied, Friends, VpnProxies, ReferencedVpns, ProbeGroups;
    var g :| g in Groups(c) && g.name == from && to in g.members;
    GroupKinds(c, g);
    ProbeName(c);
    InProxies(c, from);
    if from in Proxies(c) { ProxyShape(c, from); }
    if IsLocalGroup(c, from) {
      var i :| 0 <= i < |c.sections| && Proxied(c.sections[i]) && LocalName(c.sections[i].group) == from;
      LocalShape(c.sections[i].group);
    }
  }

  lemma {:induction false} PathStaysInside(c: Setup, path: seq<string>, i: nat)
    requires Validated(c) && TunnelsSpared(c) && Path(c, path) && 0 < i < |path|
    requires path[0] == "MeshExit" || path[0] == "DNSProxy"
    ensures path[i] in VpnProxies(ReferencedVpns(c))
  {
    hide Edge, Validated, TunnelsSpared, VpnProxies, ReferencedVpns;
    if i > 1 { PathStaysInside(c, path, i - 1); }
    EdgeStaysInside(c, path[i - 1], path[i]);
  }

  /** Wherever friend traffic goes it ends in this router's own tunnels or pools: never with a friend, never direct. */
  lemma {:induction false} FriendsNeverPassThrough(c: Setup, dnsHost: bool, path: seq<string>)
    requires Validated(c) && TunnelsSpared(c) && MeshExitViable(c)
    requires Path(c, path) && path[0] == Target(Rules(c), "mesh-in", dnsHost)
    ensures path[|path| - 1] !in Friends(c) && path[|path| - 1] != "DIRECT"
    ensures forall i :: 0 < i < |path| ==> path[i] in VpnProxies(ReferencedVpns(c))
  {
    hide Path, Rules, TunnelsSpared, Validated, MeshExitViable, Friends, VpnProxies, ReferencedVpns, Proxies, Target;
    MeshInTarget(c, dnsHost);
    assert path != [] by { PathNotEmpty(c, path); }
    forall i | 0 < i < |path| ensures path[i] in VpnProxies(ReferencedVpns(c)) { PathStaysInside(c, path, i); }
    var last := path[|path| - 1];
    InProxies(c, last);
    if last in Proxies(c) { ProxyShape(c, last); }
  }

  lemma {:induction false} PathNotEmpty(c: Setup, path: seq<string>)
    requires Path(c, path)
    ensures path != []
  {
  }

  /** No path that friend traffic can take ends with a friend or direct. */
  ghost predicate FriendsKeptOut(c: Setup) {
    forall dnsHost: bool, path: seq<string> ::
      Path(c, path) && path[0] == Target(Rules(c), "mesh-in", dnsHost)
      ==> path[|path| - 1] !in Friends(c) && path[|path| - 1] != "DIRECT"
  }

  /** That holds exactly when, with friends, no section's group bears the name of a tunnel. */
  lemma {:induction false} FriendsKeptOutExactly(c: Setup)
    requires Validated(c) && MeshExitViable(c)
    ensures FriendsKeptOut(c) <==> TunnelsSpared(c)
  {
    hide Edge, Rules, MeshExitViable, Friends, VpnProxies, ReferencedVpns, Target, Validated;
    if TunnelsSpared(c) {
      forall dnsHost: bool, path: seq<string> | Path(c, path) && path[0] == Target(Rules(c), "mesh-in", dnsHost)
        ensures path[|path| - 1] !in Friends(c) && path[|path| - 1] != "DIRECT"
      {
        FriendsNeverPassThrough(c, dnsHost, path);
      }
    } else {
      var i :| 0 <= i < |c.sections| && Proxied(c.sections[i]) && Friends(c) != []
               && c.sections[i].group in VpnProxies(ReferencedVpns(c));
      var path := PathToFriend(c, i);
      MeshInTarget(c, false);
      assert path[0] == Target(Rules(c), "mesh-in", false) && path[|path| - 1] in Friends(c);
    }
  }

  /** The path that such a name opens: exit, the tunnel's name, Friends, a friend. */
  lemma {:induction false} PathToFriend(c: Setup, i: nat) returns (path: seq<string>)
    requires MeshExitViable(c) && Friends(c) != [] && i < |c.sections| && Proxied(c.sections[i])
    requires c.sections[i].group in VpnProxies(ReferencedVpns(c))
    ensures Path(c, path) && path[0] == "MeshExit" && path[|path| - 1] in Friends(c)
  {
    hide Groups, Friends, VpnProxies, ReferencedVpns, Pools, LocalName, MeshExitViable;
    var s := c.sections[i];
    path := ["MeshExit", s.group, "Friends", Friends(c)[0]];
    var exit := PoolGroup("MeshExit", Pools(c), VpnProxies(ReferencedVpns(c)));
    InTail(c);
    SectionListed(c, c.sections, i);
    var own := Group(s.group, [], [LocalName(s.group), "Friends"]);
    assert own == SectionGroups(c, s)[1];
    InGroups(c, own);
    assert exit in Groups(c) && exit.name == path[0] && path[1] in exit.members;
    assert own.name == path[1] && path[2] in own.members;
    var friends := Group("Friends", [], Friends(c));
    assert friends in Groups(c) && friends.name == path[2] && path[3] in friends.members;
    assert Edge(c, path[0], path[1]) && Edge(c, path[1], path[2]) && Edge(c, path[2], path[3]);
  }

  lemma {:induction false} InTail(c: Setup)
    ensures MeshExitViable(c) ==> PoolGroup("MeshExit", Pools(c), VpnProxies(ReferencedVpns(c))) in Groups(c)
    ensures Friends(c) != [] ==> Group("Friends", [], Friends(c)) in Groups(c)
  {
    hide AllSectionGroups, PoolGroup, Friends, MeshExitViable, VpnProxies, ReferencedVpns, Pools, AnyProxied, Probe;
    var tail := Tail(c);
    assert Groups(c)
        == [PoolGroup("DNSProxy", Pools(c), VpnMembers(c, c.dnsVpns))] + AllSectionGroups(c, c.sections) + tail;
    assert forall g :: g in tail ==> g in Groups(c);
  }

  /** Why names must stay apart: with friends, a group called vpn takes the name of the tunnel called local. */
  lemma {:induction false} LocalPoolShadowsTunnel(c: Setup, i: nat)
    requires i < |c.sections| && Proxied(c.sections[i]) && c.sections[i].group == "vpn" && Friends(c) != []
    requires "local" in ReferencedVpns(c)
    ensures "vpn_local" in Names(Groups(c)) && "vpn_local" in Proxies(c)
  {
    hide Friends, ReferencedVpns, Groups;
    assert LocalName("vpn") == "vpn_local" == VpnProxy("local");
    SectionNamesListed(c, "vpn_local");
    assert IsLocalGroup(c, "vpn_local");
    ProxyOf(c, "local");
  }

  // ----- where section traffic goes -----

  predicate HasListener(rules: seq<Rule>, listener: string) {
    exists k :: 0 <= k < |rules| && rules[k].on == InName(listener)
  }

  predicate OnListeners(rules: seq<Rule>) { forall k :: 0 <= k < |rules| ==> rules[k].on.InName? }

  lemma {:induction false} ListenerConcat(a: seq<Rule>, b: seq<Rule>, listener: string)
    ensures HasListener(a + b, listener) <==> HasListener(a, listener) || HasListener(b, listener)
  {
    if HasListener(a, listener) {
      var k :| 0 <= k < |a| && a[k].on == InName(listener);
      assert (a + b)[k] == a[k];
    }
    if HasListener(b, listener) {
      var k :| 0 <= k < |b| && b[k].on == InName(listener);
      assert (a + b)[|a| + k] == b[k];
    }
  }

  /** The first rules decide for a listener they name. */
  lemma {:induction false} TargetConcat(a: seq<Rule>, b: seq<Rule>, listener: string)
    requires OnListeners(a)
    ensures Target(a + b, listener, false) == Target(if HasListener(a, listener) then a else b, listener, false)
  {
    if a == [] {
      assert a + b == b;
    } else {
      assert (a + b)[1..] == a[1..] + b;
      TargetConcat(a[1..], b, listener);
      ListenerConcat([a[0]], a[1..], listener);
      assert [a[0]] + a[1..] == a;
      assert HasListener([a[0]], listener) <==> [a[0]][0].on == InName(listener);
    }
  }

  /** Some proxied section has that listener. */
  predicate Listens(ss: seq<Section>, listener: string) {
    exists i :: 0 <= i < |ss| && Proxied(ss[i]) && "tproxy-" + ss[i].name == listener
  }

  lemma {:induction false} SectionRulesListen(ss: seq<Section>, listener: string)
    ensures OnListeners(SectionRules(ss)) && (HasListener(SectionRules(ss), listener) <==> Listens(ss, listener))
  {
    hide Proxied;
    if ss != [] {
      var front, s := ss[..|ss| - 1], ss[|ss| - 1];
      SectionRulesListen(front, listener);
      assert forall k :: 0 <= k < |front| ==> front[k] == ss[k];
      var own := if Proxied(s) then [Rule(InName("tproxy-" + s.name), s.group)] else [];
      ListenerConcat(SectionRules(front), own, listener);
      assert own != [] ==> own[0].on == InName("tproxy-" + s.name);
    }
  }

  /** Section i is the first proxied one of its name. */
  predicate FirstNamed(ss: seq<Section>, i: nat) {
    && i < |ss| && Proxied(ss[i])
    && forall k :: 0 <= k < i && Proxied(ss[k]) ==> ss[k].name != ss[i].name
  }

  lemma {:induction false} ListenersApart(a: string, b: string)
    ensures "tproxy-" + a == "tproxy-" + b <==> a == b
    ensures "tproxy-" + a != "netcheck-probe" && "tproxy-" + a != "mesh-in"
  {
    assert a == ("tproxy-" + a)[7..] && b == ("tproxy-" + b)[7..];
    assert ("tproxy-" + a)[0] == 't' && "netcheck-probe"[0] == 'n' && "mesh-in"[0] == 'm';
  }

  lemma {:induction false} NobodyListensBefore(ss: seq<Section>, i: nat)
    requires FirstNamed(ss, i)
    ensures !Listens(ss[..i], "tproxy-" + ss[i].name)
  {
    hide Proxied;
    forall k | 0 <= k < i && Proxied(ss[k]) ensures "tproxy-" + ss[k].name != "tproxy-" + ss[i].name {
      ListenersApart(ss[k].name, ss[i].name);
    }
  }

  /** Among the section rules a listener finds the group of the first section it is named after. */
  lemma {:induction false} FirstNamedDecides(ss: seq<Section>, i: nat)
    requires FirstNamed(ss, i)
    ensures Target(SectionRules(ss), "tproxy-" + ss[i].name, false) == ss[i].group
    decreases |ss|
  {
    hide Proxied, Target;
    var n := |ss| - 1;
    var listener := "tproxy-" + ss[i].name;
    var front := ss[..n];
    SectionRulesListen(front, listener);
    var own := if Proxied(ss[n]) then [Rule(InName("tproxy-" + ss[n].name), ss[n].group)] else [];
    TargetConcat(SectionRules(front), own, listener);
    if i < n {
      assert FirstNamed(front, i);
      assert front[i] == ss[i];
      FirstNamedDecides(front, i);
    } else {
      NobodyListensBefore(ss, i);
      OneRule(own[0], listener);
    }
  }

  lemma {:induction false} OneRule(r: Rule, listener: string)
    ensures Target([r], listener, false) == if r.on.Anything? || r.on == InName(listener) then r.target else ""
  {
    assert [r][1..] == [];
  }

  /** The rules behind the DNS hosts', in their three stretches. */
  lemma {:induction false} RulesSplit(c: Setup)
    ensures var probe := if AnyProxied(c.sections) then [Rule(InName("netcheck-probe"), "NetCheckProbe")] else [];
            var exit := if MeshExitViable(c) then [Rule(InName("mesh-in"), "MeshExit")] else [];
            var last := Rule(Anything, if HasCommon(c.sections) then "Common" else "DIRECT");
            && |Rules(c)| > 0 && Rules(c)[0] == Rule(DnsHost, "DNSProxy")
            && Rules(c)[1..] == SectionRules(c.sections) + (probe + (exit + [last]))
  {
    hide MeshExitViable, AnyProxied, HasCommon, SectionRules;
  }

  /** The DNS hosts go to the DNS group whatever the listener. */
  lemma {:induction false} DnsHostsFirst(c: Setup, listener: string)
    ensures Target(Rules(c), listener, true) == "DNSProxy"
    ensures |Rules(c)| > 0 && Target(Rules(c), listener, false) == Target(Rules(c)[1..], listener, false)
  {
    hide MeshExitViable, AnyProxied, HasCommon, SectionRules;
    RulesSplit(c);
  }

  /** The traffic of a section's listener goes to the section's group. */
  lemma {:induction false} SectionTarget(c: Setup, i: nat)
    requires FirstNamed(c.sections, i)
    ensures Target(Rules(c), "tproxy-" + c.sections[i].name, false) == c.sections[i].group
  {
    hide MeshExitViable, AnyProxied, HasCommon, SectionRules, Rules, Target, Proxied;
    var listener := "tproxy-" + c.sections[i].name;
    RulesSplit(c);
    DnsHostsFirst(c, listener);
    SectionRulesListen(c.sections, listener);
    FirstNamedDecides(c.sections, i);
    var tail := Rules(c)[1..];
    var own := SectionRules(c.sections);
    assert tail == own + tail[|own|..];
    TargetConcat(own, tail[|own|..], listener);
  }

  /** The probe's and the friends' listeners go to their groups, any other to Common if a section has it, else out. */
  lemma {:induction false} OtherTargets(c: Setup, listener: string)
    requires !Listens(c.sections, listener)
    ensures Target(Rules(c), listener, false) ==
              if listener == "netcheck-probe" && AnyProxied(c.sections) then "NetCheckProbe"
              else if listener == "mesh-in" && MeshExitViable(c) then "MeshExit"
              else if exists k :: 0 <= k < |c.sections| && Proxied(c.sections[k]) && c.sections[k].group == "Common"
              then "Common"
              else "DIRECT"
  {
    hide MeshExitViable, AnyProxied, SectionRules, Rules, Target, Proxied;
    var probe := if AnyProxied(c.sections) then [Rule(InName("netcheck-probe"), "NetCheckProbe")] else [];
    var exit := if MeshExitViable(c) then [Rule(InName("mesh-in"), "MeshExit")] else [];
    var last := Rule(Anything, if HasCommon(c.sections) then "Common" else "DIRECT");
    RulesSplit(c);
    DnsHostsFirst(c, listener);
    SectionRulesListen(c.sections, listener);
    TargetConcat(SectionRules(c.sections), probe + (exit + [last]), listener);
    TargetConcat(probe, exit + [last], listener);
    TargetConcat(exit, [last], listener);
    OneRule(last, listener);
    if probe != [] { OneRule(probe[0], listener); }
    if exit != [] { OneRule(exit[0], listener); }
    assert "netcheck-probe"[0] != "mesh-in"[0];
    assert HasListener(probe, listener) <==> probe != [] && probe[0].on == InName(listener);
    assert HasListener(exit, listener) <==> exit != [] && exit[0].on == InName(listener);
  }

  lemma {:induction false} ProbeTarget(c: Setup)
    requires AnyProxied(c.sections)
    ensures Target(Rules(c), "netcheck-probe", false) == "NetCheckProbe"
  {
    hide Rules, Target, AnyProxied, MeshExitViable;
    forall i | 0 <= i < |c.sections| && Proxied(c.sections[i])
      ensures "tproxy-" + c.sections[i].name != "netcheck-probe"
    {
      ListenersApart(c.sections[i].name, "");
    }
    OtherTargets(c, "netcheck-probe");
  }

  // ----- what a group offers -----

  /** The tunnel's outbound: the first tunnel of that name is enabled and bound. */
  ghost predicate TunnelFor(c: Setup, names: seq<string>, m: string) {
    exists n, i: nat :: n in names && n != "" && m == "vpn_" + n && IsTunnel(c, n, i)
  }

  predicate IsTunnel(c: Setup, n: string, i: nat) {
    && i < |c.vpns| && c.vpns[i].name == n && c.vpns[i].enabled && c.vpns[i].interface != ""
    && forall k :: 0 <= k < i ==> c.vpns[k].name != n
  }

  lemma {:induction false} EligibleIsTunnel(vpns: seq<VPN>, n: string) returns (i: nat)
    ensures EligibleIn(vpns, n) ==>
              && i < |vpns| && vpns[i].name == n && vpns[i].enabled && vpns[i].interface != ""
              && forall k :: 0 <= k < i ==> vpns[k].name != n
    ensures !EligibleIn(vpns, n) ==>
              forall m :: 0 <= m < |vpns| && vpns[m].name == n && (forall k :: 0 <= k < m ==> vpns[k].name != n) ==>
                !vpns[m].enabled || vpns[m].interface == ""
  {
    i := 0;
    if vpns != [] && vpns[0].name != n {
      i := EligibleIsTunnel(vpns[1..], n);
      assert forall k :: 1 <= k < |vpns| ==> vpns[k] == vpns[1..][k - 1];
      i := i + 1;
    }
  }

  lemma {:induction false} MembersAreTunnels(c: Setup, names: seq<string>, m: string)
    ensures m in VpnMembers(c, names) <==> TunnelFor(c, names, m)
  {
    if m in VpnMembers(c, names) {
      VpnMembersShape(c, names, m);
      var n :| n in names && Eligible(c.vpns, n) && m == VpnProxy(n);
      var i := EligibleIsTunnel(c.vpns, n);
      assert IsTunnel(c, n, i);
    }
    if TunnelFor(c, names, m) {
      var n, i: nat :| n in names && n != "" && m == "vpn_" + n && IsTunnel(c, n, i);
      var k := EligibleIsTunnel(c.vpns, n);
      MemberListed(c, names, n);
    }
  }

  /** The provider pools that exist: one for each enabled provider, or for each of them and each WAN. */
  predicate PoolExists(c: Setup, u: string) {
    exists p :: p in c.providers && p.enabled
      && if c.proxyWans then exists w :: w in c.wans && u == VariantName(p.name, w) else u == p.name
  }

  lemma {:induction false} PoolsExist(c: Setup, u: string)
    ensures u in Pools(c) <==> PoolExists(c, u)
  {
    hide VariantName;
    EnabledNamesAre(c.providers);
    var names := EnabledNames(c.providers);
    if c.proxyWans {
      if u in Variants(names, c.wans) {
        VariantsShape(names, c.wans, u);
        var n, w :| n in names && w in c.wans && u == VariantName(n, w);
        var p :| p in c.providers && p.enabled && p.name == n;
      }
      if PoolExists(c, u) {
        var p :| p in c.providers && p.enabled && exists w :: w in c.wans && u == VariantName(p.name, w);
        var w :| w in c.wans && u == VariantName(p.name, w);
        VariantListed(names, c.wans, p.name, w);
      }
    }
  }

  lemma {:induction false} EnabledNamesAre(ps: seq<Provider>)
    ensures forall n :: n in EnabledNames(ps) <==> exists p :: p in ps && p.enabled && p.name == n
  {
    if ps != [] {
      EnabledNamesAre(ps[..|ps| - 1]);
      assert ps == ps[..|ps| - 1] + [ps[|ps| - 1]];
    }
  }

  lemma {:induction false} VariantListed(names: seq<string>, wans: seq<string>, n: string, w: string)
    requires n in names && w in wans
    ensures VariantName(n, w) in Variants(names, wans)
  {
    hide VariantName;
    if n == names[|names| - 1] {
      VariantOfListed(n, wans, w);
    } else {
      VariantListed(names[..|names| - 1], wans, n, w);
    }
  }

  lemma {:induction false} VariantOfListed(n: string, wans: seq<string>, w: string)
    requires w in wans
    ensures VariantName(n, w) in VariantsOf(n, wans)
  {
    hide VariantName;
    if w != wans[|wans| - 1] { VariantOfListed(n, wans[..|wans| - 1], w); }
  }

  /** The group offers exactly the existing pools and these tunnels, or the empty main pool when there are neither. */
  ghost predicate Offers(c: Setup, names: seq<string>, g: Group) {
    && (forall m :: m in g.members <==> TunnelFor(c, names, m))
    && (forall u :: u in g.uses <==>
          PoolExists(c, u) || (u == "main" && (forall p :: !PoolExists(c, p)) && forall m :: !TunnelFor(c, names, m)))
  }

  lemma {:induction false} PoolGroupOffers(c: Setup, name: string, names: seq<string>)
    ensures Offers(c, names, PoolGroup(name, Pools(c), VpnMembers(c, names)))
  {
    hide Pools, VpnMembers, PoolExists, TunnelFor;
    forall m ensures m in VpnMembers(c, names) <==> TunnelFor(c, names, m) { MembersAreTunnels(c, names, m); }
    forall u ensures u in Pools(c) <==> PoolExists(c, u) { PoolsExist(c, u); }
    var pools, members := Pools(c), VpnMembers(c, names);
    assert pools != [] ==> pools[0] in pools;
    assert members != [] ==> members[0] in members;
  }

  /** Where a section's traffic can go from its group: without friends straight to what the section offers. */
  ghost predicate SectionReaches(c: Setup, s: Section) {
    if Friends(c) == [] then exists g :: g in Groups(c) && g.name == s.group && Offers(c, s.vpns, g)
    else
      && Group(s.group, [], [s.group + "_local", "Friends"]) in Groups(c)
      && exists g :: g in Groups(c) && g.name == s.group + "_local" && Offers(c, s.vpns, g)
  }

  lemma {:induction false} SectionGroupReaches(c: Setup, i: nat)
    requires i < |c.sections| && Proxied(c.sections[i])
    ensures SectionReaches(c, c.sections[i])
  {
    hide Pools, VpnMembers, Groups, Friends, Offers, AllSectionGroups, Proxied;
    var s := c.sections[i];
    SectionListed(c, c.sections, i);
    var own := SectionGroups(c, s);
    PoolGroupOffers(c, s.group, s.vpns);
    PoolGroupOffers(c, LocalName(s.group), s.vpns);
    PoolName(s.group, Pools(c), VpnMembers(c, s.vpns));
    PoolName(LocalName(s.group), Pools(c), VpnMembers(c, s.vpns));
    assert own[0] in own;
    InGroups(c, own[0]);
    if Friends(c) != [] {
      assert own[1] in own;
      InGroups(c, own[1]);
    }
  }

  /** With one name for each group, whatever is called like a section's group is what the section reaches. */
  lemma {:induction false} SectionOffers(c: Setup, i: nat, g: Group)
    requires Validated(c) && Apart(c) && i < |c.sections| && Proxied(c.sections[i]) && g in Groups(c)
    ensures g.name == c.sections[i].group ==>
              if Friends(c) == [] then Offers(c, c.sections[i].vpns, g)
              else g == Group(g.name, [], [g.name + "_local", "Friends"])
    ensures Friends(c) != [] && g.name == c.sections[i].group + "_local" ==> Offers(c, c.sections[i].vpns, g)
  {
    hide Groups, Friends, Offers, Validated, Apart, Proxied, Names;
    SectionGroupReaches(c, i);
    GroupNamesDistinct(c);
    forall h | h in Groups(c) && h.name == g.name ensures h == g { OneName(Groups(c), g, h); }
  }

  lemma {:induction false} OneName(gs: seq<Group>, g: Group, h: Group)
    requires Distinct(Names(gs)) && g in gs && h in gs && g.name == h.name
    ensures g == h
  {
    var i :| 0 <= i < |gs| && gs[i] == g;
    var k :| 0 <= k < |gs| && gs[k] == h;
    assert Names(gs)[i] == Names(gs)[k];
  }

  /** A tunnel of DNS or of some enabled section. */
  ghost predicate TunnelInUse(c: Setup, m: string) {
    || TunnelFor(c, c.dnsVpns, m)
    || exists i :: 0 <= i < |c.sections| && c.sections[i].enabled && TunnelFor(c, c.sections[i].vpns, m)
  }

  lemma {:induction false} AddedFrom(c: Setup, out: seq<string>, names: seq<string>, n: string)
    requires n in AddVpns(c, out, names)
    ensures n in out || (n in names && Eligible(c.vpns, n))
  {
    hide Eligible;
    if names != [] {
      var front, last := names[..|names| - 1], names[|names| - 1];
      if n in AddVpns(c, out, front) { AddedFrom(c, out, front, n); }
    }
  }

  lemma {:induction false} ReferencedFrom(c: Setup, out: seq<string>, ss: seq<Section>, n: string)
    requires n in AddSectionVpns(c, out, ss)
    ensures n in out
            || exists i :: 0 <= i < |ss| && ss[i].enabled && n in ss[i].vpns && Eligible(c.vpns, n)
  {
    hide Eligible, AddVpns;
    if ss != [] {
      var front, s := ss[..|ss| - 1], ss[|ss| - 1];
      var was := AddSectionVpns(c, out, front);
      if n !in was && s.enabled { AddedFrom(c, was, s.vpns, n); }
      if n in was {
        ReferencedFrom(c, out, front, n);
        assert forall i :: 0 <= i < |front| ==> front[i] == ss[i];
      }
    }
  }

  lemma {:induction false} TunnelOf(c: Setup, names: seq<string>, n: string)
    ensures n in names && Eligible(c.vpns, n) ==> TunnelFor(c, names, VpnProxy(n))
  {
    if n in names && Eligible(c.vpns, n) {
      var i := EligibleIsTunnel(c.vpns, n);
      assert IsTunnel(c, n, i);
    }
  }

  /** The tunnels listed as outbounds are those in use. */
  lemma {:induction false} ProxiesAreInUse(c: Setup, m: string)
    ensures m in VpnProxies(ReferencedVpns(c)) <==> TunnelInUse(c, m)
  {
    hide Eligible, VpnProxy, AddVpns, AddSectionVpns, TunnelFor;
    if m in VpnProxies(ReferencedVpns(c)) {
      var names := ReferencedVpns(c);
      var i :| 0 <= i < |names| && VpnProxies(names)[i] == m;
      UsedName(c, names[i]);
    }
    if TunnelFor(c, c.dnsVpns, m) {
      MembersAreTunnels(c, c.dnsVpns, m);
      MembersResolve(c, c.dnsVpns, m);
    } else if TunnelInUse(c, m) {
      var i :| 0 <= i < |c.sections| && c.sections[i].enabled && TunnelFor(c, c.sections[i].vpns, m);
      MembersAreTunnels(c, c.sections[i].vpns, m);
      MembersResolve(c, c.sections[i].vpns, m);
    }
  }

  lemma {:induction false} UsedName(c: Setup, n: string)
    requires n in ReferencedVpns(c)
    ensures TunnelInUse(c, VpnProxy(n))
  {
    hide Eligible, VpnProxy, AddVpns, AddSectionVpns, TunnelFor;
    var dns := AddVpns(c, [], c.dnsVpns);
    ReferencedFrom(c, dns, c.sections, n);
    TunnelOf(c, c.dnsVpns, n);
    if n in dns {
      AddedFrom(c, [], c.dnsVpns, n);
    } else {
      var i :| 0 <= i < |c.sections| && c.sections[i].enabled && n in c.sections[i].vpns && Eligible(c.vpns, n);
      TunnelOf(c, c.sections[i].vpns, n);
    }
  }

  /** Some peer can be used as an exit: switched on, offering one, reachable, well named, its credentials at hand. */
  predicate ExitPeer(c: Setup, m: string) {
    && c.mesh.active && c.mesh.psk
    && exists p :: p in c.mesh.peers && p.enabled && p.exitOffered && p.overlayIP != "" && p.salted
                   && FriendId(p.hwid) && m == "friend_" + p.hwid[8..]
  }

  lemma {:induction false} FriendIdsAre(peers: seq<Friend>)
    ensures forall id :: id in FriendIds(peers) <==> exists p :: p in peers && Consumable(p) && p.hwid == id
  {
    hide FriendId;
    if peers != [] {
      FriendIdsAre(peers[..|peers| - 1]);
      assert peers == peers[..|peers| - 1] + [peers[|peers| - 1]];
    }
  }

  lemma {:induction false} FriendsAreExits(c: Setup, m: string)
    ensures m in Friends(c) <==> ExitPeer(c, m)
  {
    FriendIdsAre(c.mesh.peers);
    if c.mesh.active && c.mesh.psk {
      var ids := FriendIds(c.mesh.peers);
      if m in Friends(c) {
        var i :| 0 <= i < |ids| && FriendProxies(ids)[i] == m;
        assert ids[i] in ids;
      }
      if ExitPeer(c, m) {
        var p :| p in c.mesh.peers && Consumable(p) && m == "friend_" + p.hwid[8..];
        assert p.hwid in ids;
        var i :| 0 <= i < |ids| && ids[i] == p.hwid;
        assert FriendProxies(ids)[i] == m;
      }
    }
  }

  lemma {:induction false} ProbedGroups(ss: seq<Section>, name: string)
    ensures name in ProbeGroups(ss) <==>
              name != "" && exists i :: 0 <= i < |ss| && Proxied(ss[i]) && ss[i].group == name
  {
    hide Proxied;
    if ss != [] {
      var front, s := ss[..|ss| - 1], ss[|ss| - 1];
      ProbedGroups(front, name);
      assert forall i :: 0 <= i < |front| ==> front[i] == ss[i];
    }
  }

  /** What the groups beside the sections' offer. */
  ghost predicate FixedGroupsOffer(c: Setup) {
    && (exists g :: g in Groups(c) && g.name == "DNSProxy" && Offers(c, c.dnsVpns, g))
    && (Friends(c) != [] ==>
          exists g :: g in Groups(c) && g.name == "Friends" && g.uses == []
                      && forall m :: m in g.members <==> ExitPeer(c, m))
    && (MeshExitViable(c) ==>
          exists g :: g in Groups(c) && g.name == "MeshExit" && ExitOffers(c, g))
    && (AnyProxied(c.sections) ==>
          exists g :: g in Groups(c) && g.name == "NetCheckProbe" && ProbeOffers(c, g))
  }

  /** The friends' exit offers every tunnel in use and every pool. */
  ghost predicate ExitOffers(c: Setup, g: Group) {
    && (forall m :: m in g.members <==> TunnelInUse(c, m))
    && (forall u :: u in g.uses <==> PoolExists(c, u))
  }

  /** The probe can pin anything: out directly, a section's group, a tunnel, a friend, a pool. */
  ghost predicate ProbeOffers(c: Setup, g: Group) {
    && (forall m :: m in g.members <==>
          m == "DIRECT" || (m != "" && IsSectionGroup(c, m)) || TunnelInUse(c, m) || ExitPeer(c, m))
    && (forall u :: u in g.uses <==> PoolExists(c, u))
  }

  lemma {:induction false} ExitGroupOffers(c: Setup)
    requires MeshExitViable(c)
    ensures ExitOffers(c, PoolGroup("MeshExit", Pools(c), VpnProxies(ReferencedVpns(c))))
  {
    hide Pools, ReferencedVpns, TunnelInUse, PoolExists;
    forall m ensures m in VpnProxies(ReferencedVpns(c)) <==> TunnelInUse(c, m) { ProxiesAreInUse(c, m); }
    forall u ensures u in Pools(c) <==> PoolExists(c, u) { PoolsExist(c, u); }
    assert VpnProxies(ReferencedVpns(c)) == [] ==> ReferencedVpns(c) == [];
  }

  lemma {:induction false} ProbeGroupOffers(c: Setup)
    ensures ProbeOffers(c, Probe(c))
  {
    hide Pools, ReferencedVpns, TunnelInUse, PoolExists, Friends, ExitPeer, ProbeGroups, VpnProxies;
    forall m
      ensures m in VpnProxies(ReferencedVpns(c)) <==> TunnelInUse(c, m)
      ensures m in Friends(c) <==> ExitPeer(c, m)
      ensures m in ProbeGroups(c.sections) <==> m != "" && IsSectionGroup(c, m)
    {
      ProxiesAreInUse(c, m);
      FriendsAreExits(c, m);
      ProbedGroups(c.sections, m);
    }
    forall u ensures u in Pools(c) <==> PoolExists(c, u) { PoolsExist(c, u); }
  }

  lemma {:induction false} FixedOffers(c: Setup)
    ensures FixedGroupsOffer(c)
  {
    hide Pools, VpnMembers, VpnProxies, ReferencedVpns, Friends, Offers, ExitOffers, ProbeOffers, AllSectionGroups,
        MeshExitViable, AnyProxied, Probe, PoolGroup, ExitPeer;
    var dns := PoolGroup("DNSProxy", Pools(c), VpnMembers(c, c.dnsVpns));
    PoolName("DNSProxy", Pools(c), VpnMembers(c, c.dnsVpns));
    PoolName("MeshExit", Pools(c), VpnProxies(ReferencedVpns(c)));
    PoolGroupOffers(c, "DNSProxy", c.dnsVpns);
    ProbeName(c);
    ProbeGroupOffers(c);
    if MeshExitViable(c) { ExitGroupOffers(c); }
    forall m ensures m in Friends(c) <==> ExitPeer(c, m) { FriendsAreExits(c, m); }
    var gs := Groups(c);
    assert gs[0] == dns;
    assert Friends(c) != [] ==> Group("Friends", [], Friends(c)) in gs;
    assert MeshExitViable(c) ==> PoolGroup("MeshExit", Pools(c), VpnProxies(ReferencedVpns(c))) in gs;
    assert AnyProxied(c.sections) ==> Probe(c) in gs;
  }

  /** Friends are let in to the exit exactly when it is offered and there is something to leave by. */
  lemma {:induction false} ExitExactly(c: Setup)
    ensures Target(Rules(c), "mesh-in", false) == "MeshExit" <==>
              && c.mesh.active && c.mesh.exitEnabled && c.mesh.listenPort > 0 && c.mesh.psk && c.mesh.salted
              && ((exists u :: PoolExists(c, u)) || exists m :: TunnelInUse(c, m))
  {
    hide Rules, Target, Pools, ReferencedVpns, PoolExists, TunnelInUse, VpnProxies, Proxied;
    forall i | 0 <= i < |c.sections| && Proxied(c.sections[i]) ensures "tproxy-" + c.sections[i].name != "mesh-in" {
      ListenersApart(c.sections[i].name, "");
    }
    OtherTargets(c, "mesh-in");
    assert "mesh-in"[0] != "netcheck-probe"[0] && "MeshExit"[0] != "Common"[0] && "MeshExit"[0] != "DIRECT"[0];
    forall u ensures u in Pools(c) <==> PoolExists(c, u) { PoolsExist(c, u); }
    forall m ensures m in VpnProxies(ReferencedVpns(c)) <==> TunnelInUse(c, m) { ProxiesAreInUse(c, m); }
    assert Pools(c) != [] ==> Pools(c)[0] in Pools(c);
    var tunnels := VpnProxies(ReferencedVpns(c));
    assert |tunnels| == |ReferencedVpns(c)| by { ProxyCount(ReferencedVpns(c)); }
    assert tunnels != [] ==> tunnels[0] in tunnels;
  }

  lemma {:induction false} ProxyCount(names: seq<string>)
    ensures |VpnProxies(names)| == |names|
  {
  }
}

/**
  Reconciling the persisted mesh peers with the live overlay: peers are keyed by
  hardware id, stamped with the day they were present, and dropped after an
  absence. One round is a function of the table and of what the overlay said.
*/
module MeshSync {
  import opened Text

  /** Nanoseconds, as Go durations are counted. */
  const DAY := 86_400_000_000_000
  const MAX_DURATION := 0x7fff_ffff_ffff_ffff

  /** A last_seen text: empty, a day (older builds wrote a full timestamp), or something else. */
  datatype Stamp = Never | On(day: int, long: bool) | Unreadable(text: string)

  datatype Peer = Peer(hwid: string, name: string, enabled: bool, overlayIP: string, listenPort: int,
                       exitOffered: bool, lastSeen: Stamp)

  datatype Info = Info(hwid: string, nodeName: string, listenPort: int, exitOffered: bool)

  /** One overlay entry and what probing it gave. */
  datatype Heard = Heard(ip: string, probe: Option<Info>)

  datatype Table = Table(hwid: string, peers: seq<Peer>)

  datatype Round = Round(now: int, identity: Option<string>, heard: seq<Heard>)

  predicate IsHex(c: char) { '0' <= c <= '9' || 'a' <= c <= 'f' }

  predicate HwidOk(s: string) {
    |s| == 32 && s[..8] == "purewrt-" && forall i :: 8 <= i < 32 ==> IsHex(s[i])
  }

  predicate NameOk(s: string) {
    1 <= |s| <= 64 && forall i :: 0 <= i < |s| ==>
      'A' <= s[i] <= 'Z' || 'a' <= s[i] <= 'z' || '0' <= s[i] <= '9' || s[i] == '_' || s[i] == '-'
  }

  // ----- hearing -----

  datatype Gathered = Gathered(peers: seq<Peer>, alive: set<string>, seen: set<string>, added: nat, updated: nat)

  predicate Usable(own: string, h: Heard): (b: bool)
    ensures b ==> h.ip != "" && h.probe.Some?
  {
    h.ip != "" && h.probe.Some? && h.probe.value.hwid != own && HwidOk(h.probe.value.hwid)
  }

  function Label(info: Info): string { if NameOk(info.nodeName) then info.nodeName else info.hwid }

  /** The peer as the probe describes it; identity, switch and stamp stay. */
  function Refreshed(p: Peer, h: Heard): Peer
    requires h.probe.Some?
  {
    var info := h.probe.value;
    p.(name := Label(info), overlayIP := h.ip, listenPort := info.listenPort, exitOffered := info.exitOffered)
  }

  function Newcomer(h: Heard): Peer
    requires h.probe.Some?
  {
    Peer(h.probe.value.hwid, Label(h.probe.value), true, h.ip,
        h.probe.value.listenPort, h.probe.value.exitOffered, Never)
  }

  /** The index map: later duplicates win. */
  function Find(peers: seq<Peer>, hwid: string): (r: Option<nat>)
    ensures r.Some? ==> r.value < |peers| && peers[r.value].hwid == hwid
  {
    if peers == [] then None
    else if peers[|peers| - 1].hwid == hwid then Some(|peers| - 1)
    else Find(peers[..|peers| - 1], hwid)
  }

  function Hear(own: string, h: Heard, g: Gathered): Gathered {
    if h.ip == "" then g
    else if !Usable(own, h) then g.(alive := g.alive + {h.ip})
    else
      var id := h.probe.value.hwid;
      var next := g.(alive := g.alive + {h.ip}, seen := g.seen + {id});
      match Find(g.peers, id)
      case None => next.(peers := g.peers + [Newcomer(h)], added := g.added + 1)
      case Some(i) =>
        var current := Refreshed(g.peers[i], h);
        if g.peers[i] == current then next else next.(peers := g.peers[i := current], updated := g.updated + 1)
  }

  function HearAll(own: string, hs: seq<Heard>, peers: seq<Peer>): Gathered {
    if hs == [] then Gathered(peers, {}, {}, 0, 0)
    else Hear(own, hs[|hs| - 1], HearAll(own, hs[..|hs| - 1], peers))
  }

  // ----- aging -----

  function DayOf(now: int): int { now / DAY }

  /** time.Sub saturates. */
  function Elapsed(now: int, since: int): int {
    var d := now - since;
    if d > MAX_DURATION then MAX_DURATION else if d < -MAX_DURATION - 1 then -MAX_DURATION - 1 else d
  }

  /** A 64-bit product wraps. */
  function Wrap64(n: int): int { (n + MAX_DURATION + 1) % (2 * (MAX_DURATION + 1)) - MAX_DURATION - 1 }

  predicate Expired(p: Peer, now: int, ttl: int) {
    ttl > 0 && p.lastSeen.On? && Elapsed(now, p.lastSeen.day * DAY) > Wrap64(ttl * DAY)
  }

  predicate Present(p: Peer, alive: set<string>, seen: set<string>) {
    p.hwid in seen || (p.overlayIP != "" && p.overlayIP in alive)
  }

  predicate StampedToday(p: Peer, now: int) { p.lastSeen.On? && p.lastSeen.day == DayOf(now) }

  /** What becomes of one peer. */
  function Aged(p: Peer, alive: set<string>, seen: set<string>, now: int, ttl: int): seq<Peer> {
    if Present(p, alive, seen) || p.lastSeen.Never? then
      [if StampedToday(p, now) then p else p.(lastSeen := On(DayOf(now), false))]
    else if Expired(p, now, ttl) then []
    else [p]
  }

  function AgeAll(peers: seq<Peer>, alive: set<string>, seen: set<string>, now: int, ttl: int): (r: seq<Peer>)
    ensures |r| <= |peers|
  {
    if peers == [] then []
    else AgeAll(peers[..|peers| - 1], alive, seen, now, ttl) + Aged(peers[|peers| - 1], alive, seen, now, ttl)
  }

  // ----- one round -----

  function Identity(t: Table, r: Round): string {
    if t.hwid == "" && r.identity.Some? then r.identity.value else t.hwid
  }

  function Gather(t: Table, r: Round): Gathered { HearAll(Identity(t, r), r.heard, t.peers) }

  function After(t: Table, r: Round, ttl: int): Table {
    var g := Gather(t, r);
    Table(Identity(t, r), AgeAll(g.peers, g.alive, g.seen, r.now, ttl))
  }

  /** What a round reports, and so whether it saves and applies. */
  predicate Changed(t: Table, r: Round, ttl: int) {
    var g := Gather(t, r);
    (t.hwid == "" && r.identity.Some?) || g.added > 0 || g.updated > 0
    || AgeAll(g.peers, g.alive, g.seen, r.now, ttl) != g.peers
  }

  function Run(t: Table, rounds: seq<Round>, ttl: int): Table {
    if rounds == [] then t else After(Run(t, rounds[..|rounds| - 1], ttl), rounds[|rounds| - 1], ttl)
  }

  // ----- the router -----

  ghost predicate Indexes(byHwid: map<string, nat>, peers: seq<Peer>) {
    forall h :: (h in byHwid <==> Find(peers, h).Some?) && (h in byHwid ==> Some(byHwid[h]) == Find(peers, h))
  }

  lemma {:induction false} IndexesUpdate(byHwid: map<string, nat>, peers: seq<Peer>, i: nat, p: Peer)
    requires Indexes(byHwid, peers) && i < |peers| && p.hwid == peers[i].hwid
    ensures Indexes(byHwid, peers[i := p])
  {
    forall h ensures Find(peers[i := p], h) == Find(peers, h) { FindUpdate(peers, i, p, h); }
  }

  lemma {:induction false} FindUpdate(peers: seq<Peer>, i: nat, p: Peer, h: string)
    requires i < |peers| && p.hwid == peers[i].hwid
    ensures Find(peers[i := p], h) == Find(peers, h)
  {
    var n := |peers| - 1;
    if i < n {
      assert peers[i := p][..n] == peers[..n][i := p];
      FindUpdate(peers[..n], i, p, h);
    } else {
      assert peers[i := p][..n] == peers[..n];
    }
  }

  lemma {:induction false} FindSnoc(peers: seq<Peer>, p: Peer, h: string)
    ensures Find(peers + [p], h) == if p.hwid == h then Some(|peers|) else Find(peers, h)
  {
    assert (peers + [p])[..|peers|] == peers;
  }

  lemma {:induction false} IndexesSnoc(byHwid: map<string, nat>, peers: seq<Peer>, p: Peer)
    requires Indexes(byHwid, peers)
    ensures Indexes(byHwid[p.hwid := |peers|], peers + [p])
  {
    forall h ensures Find(peers + [p], h) == if p.hwid == h then Some(|peers|) else Find(peers, h) {
      FindSnoc(peers, p, h);
    }
  }

  method IndexPeers(peers: seq<Peer>) returns (byHwid: map<string, nat>)
    ensures Indexes(byHwid, peers)
  {
    byHwid := map[];
    assert peers[..0] == [];
    for i := 0 to |peers|
      invariant Indexes(byHwid, peers[..i])
    {
      IndexesSnoc(byHwid, peers[..i], peers[i]);
      assert peers[..i] + [peers[i]] == peers[..i + 1];
      byHwid := byHwid[peers[i].hwid := i];
    }
    assert peers[..|peers|] == peers;
  }

  class Router {
    const ttl: int
    var hwid: string
    var peers: seq<Peer>

    constructor (ttl: int, hwid: string, peers: seq<Peer>)
      ensures this.ttl == ttl && this.hwid == hwid && this.peers == peers
    {
      this.ttl, this.hwid, this.peers := ttl, hwid, peers;
    }

    /** The reconciliation of MeshSync: the table and the report are those of the round. */
    method MeshSync(r: Round) returns (changed: bool, added: nat, updated: nat, removed: nat)
      modifies this
      ensures Table(hwid, peers) == After(old(Table(hwid, peers)), r, ttl)
      ensures changed == Changed(old(Table(hwid, peers)), r, ttl)
      ensures added == Gather(old(Table(hwid, peers)), r).added && updated == Gather(old(Table(hwid, peers)), r).updated
      ensures removed == |Gather(old(Table(hwid, peers)), r).peers| - |peers|
    {
      hide Usable, AgeAll;
      changed := false;
      if hwid == "" && r.identity.Some? {
        hwid := r.identity.value;
        changed := true;
      }
      var alive, seen;
      alive, seen, added, updated := HearPeers(r.heard);
      if added > 0 || updated > 0 {
        changed := true;
      }
      var a := new Peer[|peers|](i requires 0 <= i < |peers| reads this => peers[i]);
      assert a[..] == peers;
      var kept, aged := MeshGCPeers(a, alive, seen, r.now, ttl);
      removed := a.Length - kept;
      peers := a[..kept];
      changed := changed || aged;
    }

    method HearPeers(heard: seq<Heard>) returns (alive: set<string>, seen: set<string>, added: nat, updated: nat)
      modifies `peers
      ensures Gathered(peers, alive, seen, added, updated) == HearAll(hwid, heard, old(peers))
    {
      hide Usable, Label;
      var byHwid: map<string, nat> := IndexPeers(peers);
      alive, seen, added, updated := {}, {}, 0, 0;
      for i := 0 to |heard|
        invariant Gathered(peers, alive, seen, added, updated) == HearAll(hwid, heard[..i], old(peers))
        invariant Indexes(byHwid, peers)
      {
        var op := heard[i];
        assert heard[..i + 1][..i] == heard[..i];
        if op.ip == "" {
          continue;
        }
        alive := alive + {op.ip};
        if !Usable(hwid, op) {
          continue;
        }
        var id := op.probe.value.hwid;
        seen := seen + {id};
        if id in byHwid {
          var k := byHwid[id];
          var p := Refreshed(peers[k], op);
          if peers[k] != p {
            IndexesUpdate(byHwid, peers, k, p);
            peers := peers[k := p];
            updated := updated + 1;
          }
          continue;
        }
        IndexesSnoc(byHwid, peers, Newcomer(op));
        byHwid := byHwid[id := |peers|];
        peers := peers + [Newcomer(op)];
        added := added + 1;
      }
      assert heard[..|heard|] == heard;
    }
  }

  lemma {:induction false} AgeNone(alive: set<string>, seen: set<string>, now: int, ttl: int)
    ensures AgeAll([], alive, seen, now, ttl) == []
  {
  }

  lemma {:induction false} AgeStep(peers: seq<Peer>, i: nat, alive: set<string>, seen: set<string>, now: int,
      ttl: int)
    requires i < |peers|
    ensures AgeAll(peers[..i + 1], alive, seen, now, ttl) ==
            AgeAll(peers[..i], alive, seen, now, ttl) + Aged(peers[i], alive, seen, now, ttl)
  {
    hide Aged;
    assert peers[..i + 1][..i] == peers[..i];
  }

  /** meshGCPeers: filters over the slice's own backing array. */
  method MeshGCPeers(a: array<Peer>, alive: set<string>, seen: set<string>, now: int, ttl: int) returns (kept: nat,
      changed: bool)
    modifies a
    ensures kept <= a.Length && a[..kept] == AgeAll(old(a[..]), alive, seen, now, ttl)
    ensures changed <==> AgeAll(old(a[..]), alive, seen, now, ttl) != old(a[..])
  {
    hide Present, Expired, StampedToday, AgeAll;
    kept, changed := 0, false;
    assert a[..0] == AgeAll(a[..0], alive, seen, now, ttl) by { AgeNone(alive, seen, now, ttl); }
    ghost var was := a[..];
    for i := 0 to a.Length
      invariant kept <= i
      invariant a[..kept] == AgeAll(was[..i], alive, seen, now, ttl)
      invariant forall k :: i <= k < a.Length ==> a[k] == was[k]
      invariant !changed <==> a[..kept] == was[..i]
    {
      var p := a[i];
      ghost var done := a[..kept];
      AgeStep(was, i, alive, seen, now, ttl);
      assert was[i] == p && was[..i + 1] == was[..i] + [p];
      var present := Present(p, alive, seen);
      if present || p.lastSeen.Never? {
        if !StampedToday(p, now) {
          p := p.(lastSeen := On(DayOf(now), false));
          changed := true;
          StampDiffers(was[i], now);
        }
        a[kept] := p;
        kept := kept + 1;
        assert a[..kept] == done + [p];
        continue;
      }
      if Expired(p, now, ttl) {
        changed := true;
        assert a[..kept] == done + [];
        continue;
      }
      a[kept] := p;
      kept := kept + 1;
      assert a[..kept] == done + [p];
    }
    assert was[..a.Length] == was;
  }

  lemma {:induction false} StampDiffers(p: Peer, now: int)
    requires !StampedToday(p, now)
    ensures p.(lastSeen := On(DayOf(now), false)) != p
  {
  }

  // ----- identities over any run -----

  ghost predicate Distinct(peers: seq<Peer>) {
    forall i, j :: 0 <= i < j < |peers| ==> peers[i].hwid != peers[j].hwid
  }

  predicate Holds(peers: seq<Peer>, hwid: string) { exists i :: 0 <= i < |peers| && peers[i].hwid == hwid }

  ghost predicate Sound(t: Table) { t.hwid != "" && Distinct(t.peers) && !Holds(t.peers, t.hwid) }

  lemma {:induction false} FindHolds(peers: seq<Peer>, hwid: string)
    ensures Find(peers, hwid).Some? <==> Holds(peers, hwid)
  {
    if peers != [] {
      var front := peers[..|peers| - 1];
      FindHolds(front, hwid);
      if Holds(front, hwid) {
        var i :| 0 <= i < |front| && front[i].hwid == hwid;
        assert peers[i].hwid == hwid;
      }
      if Holds(peers, hwid) && peers[|peers| - 1].hwid != hwid {
        var i :| 0 <= i < |peers| && peers[i].hwid == hwid;
        assert front[i].hwid == hwid;
      }
    }
  }

  lemma {:induction false} HearKeepsSound(own: string, h: Heard, g: Gathered)
    requires Sound(Table(own, g.peers))
    ensures Sound(Table(own, Hear(own, h, g).peers))
  {
    hide HwidOk, Label;
    if Usable(own, h) {
      FindHolds(g.peers, h.probe.value.hwid);
    }
  }

  lemma {:induction false} HearAllKeepsSound(own: string, hs: seq<Heard>, peers: seq<Peer>)
    requires Sound(Table(own, peers))
    ensures Sound(Table(own, HearAll(own, hs, peers).peers))
  {
    hide Sound, Hear;
    if hs != [] {
      HearAllKeepsSound(own, hs[..|hs| - 1], peers);
      HearKeepsSound(own, hs[|hs| - 1], HearAll(own, hs[..|hs| - 1], peers));
    }
  }

  /** Every peer after aging was there before, under the same id. */
  lemma {:induction false} AgedFrom(peers: seq<Peer>, alive: set<string>, seen: set<string>, now: int, ttl: int,
      hwid: string)
    ensures Holds(AgeAll(peers, alive, seen, now, ttl), hwid) ==> Holds(peers, hwid)
  {
    hide Present, Expired, StampedToday;
    if peers != [] {
      var front, last := peers[..|peers| - 1], peers[|peers| - 1];
      AgedFrom(front, alive, seen, now, ttl, hwid);
      var a, b := AgeAll(front, alive, seen, now, ttl), Aged(last, alive, seen, now, ttl);
      var all := a + b;
      if Holds(all, hwid) {
        var i :| 0 <= i < |all| && all[i].hwid == hwid;
        if i < |a| {
          assert a[i].hwid == hwid;
          var k :| 0 <= k < |front| && front[k].hwid == hwid;
          assert peers[k].hwid == hwid;
        } else {
          assert last.hwid == hwid;
        }
      }
    }
  }

  lemma {:induction false} AgingKeepsDistinct(peers: seq<Peer>, alive: set<string>, seen: set<string>, now: int,
      ttl: int)
    requires Distinct(peers)
    ensures Distinct(AgeAll(peers, alive, seen, now, ttl))
  {
    hide Present, Expired, StampedToday;
    if peers != [] {
      var front, last := peers[..|peers| - 1], peers[|peers| - 1];
      AgingKeepsDistinct(front, alive, seen, now, ttl);
      AgedFrom(front, alive, seen, now, ttl, last.hwid);
      var a := AgeAll(front, alive, seen, now, ttl);
      assert forall i :: 0 <= i < |a| ==> a[i].hwid != last.hwid;
    }
  }

  lemma {:induction false} RoundKeepsSound(t: Table, r: Round, ttl: int)
    requires Sound(t)
    ensures Sound(After(t, r, ttl)) && After(t, r, ttl).hwid == t.hwid
  {
    hide HearAll, AgeAll;
    HearAllKeepsSound(t.hwid, r.heard, t.peers);
    var g := Gather(t, r);
    AgingKeepsDistinct(g.peers, g.alive, g.seen, r.now, ttl);
    AgedFrom(g.peers, g.alive, g.seen, r.now, ttl, t.hwid);
  }

  /** Over any run peer ids stay distinct, never this router's own, and the router keeps its id. */
  lemma {:induction false} IdentitiesHold(t: Table, rounds: seq<Round>, ttl: int)
    requires Sound(t)
    ensures Sound(Run(t, rounds, ttl)) && Run(t, rounds, ttl).hwid == t.hwid
  {
    hide Sound, After;
    if rounds != [] {
      IdentitiesHold(t, rounds[..|rounds| - 1], ttl);
      RoundKeepsSound(Run(t, rounds[..|rounds| - 1], ttl), rounds[|rounds| - 1], ttl);
    }
  }

  /** A peer of that id at that address. */
  predicate At(peers: seq<Peer>, hwid: string, ip: string) {
    exists i :: 0 <= i < |peers| && peers[i].hwid == hwid && peers[i].overlayIP == ip
  }

  lemma {:induction false} HeardIsAt(h: Heard, peers: seq<Peer>)
    requires Usable("", h)
    ensures At(Hear("", h, Gathered(peers, {}, {}, 0, 0)).peers, h.probe.value.hwid, h.ip)
  {
    hide Usable, Label;
    var now := Hear("", h, Gathered(peers, {}, {}, 0, 0)).peers;
    var f := Find(peers, h.probe.value.hwid);
    var k := if f.Some? then f.value else |peers|;
    assert now[k].hwid == h.probe.value.hwid && now[k].overlayIP == h.ip;
  }

  lemma {:induction false} PresentStaysAt(peers: seq<Peer>, alive: set<string>, seen: set<string>, now: int, ttl: int,
      hwid: string, ip: string)
    requires At(peers, hwid, ip) && (hwid in seen || (ip != "" && ip in alive))
    ensures At(AgeAll(peers, alive, seen, now, ttl), hwid, ip)
  {
    hide StampedToday, Expired, AgeAll;
    var i :| 0 <= i < |peers| && peers[i].hwid == hwid && peers[i].overlayIP == ip;
    PresentIsStamped(peers, alive, seen, now, ttl, i);
    var aged := AgeAll(peers, alive, seen, now, ttl);
    var p :| Member(aged, p) && p.hwid == hwid && p.overlayIP == ip;
    var k :| 0 <= k < |aged| && aged[k] == p;
  }

  /** Whatever its table holds, a router that learns its id late can hold itself as a peer by then, and keeps it. */
  lemma {:induction false} LateIdentityMeetsItself(peers: seq<Peer>, id: string, ip: string, now: int, ttl: int)
    requires HwidOk(id) && ip != ""
    ensures var heard := [Heard(ip, Some(Info(id, id, 1, true)))];
            var t := Run(Table("", peers), [Round(now, None, heard), Round(now, Some(id), heard)], ttl);
            t.hwid == id && Holds(t.peers, id)
  {
    hide HwidOk, Run, AgeAll, Label, Hear;
    var h := Heard(ip, Some(Info(id, id, 1, true)));
    var r0, r1 := Round(now, None, [h]), Round(now, Some(id), [h]);
    var t0 := Table("", peers);
    var t1 := After(t0, r0, ttl);
    assert id != "" by { HwidIsThere(id); }
    assert At(t1.peers, id, ip) by {
      OneHeard("", h, peers);
      OneEar("", h, Gathered(peers, {}, {}, 0, 0));
      HeardIsAt(h, peers);
      PresentStaysAt(Gather(t0, r0).peers, Gather(t0, r0).alive, Gather(t0, r0).seen, now, ttl, id, ip);
    }
    var t2 := After(t1, r1, ttl);
    assert At(t2.peers, id, ip) by {
      OneHeard(id, h, t1.peers);
      OneEar(id, h, Gathered(t1.peers, {}, {}, 0, 0));
      OwnIsIgnored(id, h, t1.peers);
      PresentStaysAt(Gather(t1, r1).peers, Gather(t1, r1).alive, Gather(t1, r1).seen, now, ttl, id, ip);
    }
    TwoRounds(t0, r0, r1, ttl);
  }

  lemma {:induction false} HwidIsThere(id: string)
    requires HwidOk(id)
    ensures id != ""
  {
  }

  lemma {:induction false} OwnIsIgnored(own: string, h: Heard, peers: seq<Peer>)
    requires h.probe.Some? && h.probe.value.hwid == own
    ensures Hear(own, h, Gathered(peers, {}, {}, 0, 0)).peers == peers
  {
  }

  /** Whatever is heard, in no run does the router hold its own id. */
  ghost predicate NeverItself(t: Table, ttl: int) {
    forall rounds: seq<Round> :: !Holds(Run(t, rounds, ttl).peers, Run(t, rounds, ttl).hwid)
  }

  lemma {:induction false} HearKeepsOut(own: string, hs: seq<Heard>, peers: seq<Peer>)
    requires !Holds(peers, own)
    ensures !Holds(HearAll(own, hs, peers).peers, own)
  {
    hide Label;
    if hs != [] {
      HearKeepsOut(own, hs[..|hs| - 1], peers);
    }
  }

  lemma {:induction false} RunKeepsOut(t: Table, rounds: seq<Round>, ttl: int)
    requires t.hwid != "" && !Holds(t.peers, t.hwid)
    ensures Run(t, rounds, ttl).hwid == t.hwid && !Holds(Run(t, rounds, ttl).peers, t.hwid)
  {
    hide HearAll, AgeAll, Holds;
    if rounds != [] {
      var front, r := rounds[..|rounds| - 1], rounds[|rounds| - 1];
      RunKeepsOut(t, front, ttl);
      var mid := Run(t, front, ttl);
      HearKeepsOut(mid.hwid, r.heard, mid.peers);
      var g := Gather(mid, r);
      AgedFrom(g.peers, g.alive, g.seen, r.now, ttl, t.hwid);
    }
  }

  lemma {:induction false} AnId() returns (id: string)
    ensures HwidOk(id)
  {
    id := "purewrt-000000000000000000000000";
  }

  /** The router never holds itself, over every run, exactly when it knows its id and does not hold it to begin with. */
  lemma {:induction false} NeverItselfExactly(t: Table, ttl: int)
    ensures NeverItself(t, ttl) <==> t.hwid != "" && !Holds(t.peers, t.hwid)
  {
    hide Run, Holds, HwidOk;
    if t.hwid == "" {
      var id := AnId();
      var heard := [Heard("a", Some(Info(id, id, 1, true)))];
      LateIdentityMeetsItself(t.peers, id, "a", 0, ttl);
      var rounds := [Round(0, None, heard), Round(0, Some(id), heard)];
      assert t == Table("", t.peers);
      assert Holds(Run(t, rounds, ttl).peers, Run(t, rounds, ttl).hwid);
    } else if Holds(t.peers, t.hwid) {
      NoRounds(t, ttl);
    } else {
      forall rounds: seq<Round> ensures !Holds(Run(t, rounds, ttl).peers, Run(t, rounds, ttl).hwid) {
        RunKeepsOut(t, rounds, ttl);
      }
    }
  }

  lemma {:induction false} NoRounds(t: Table, ttl: int)
    ensures Run(t, [], ttl) == t
  {
  }

  lemma {:induction false} TwoRounds(t: Table, a: Round, b: Round, ttl: int)
    ensures Run(t, [a, b], ttl) == After(After(t, a, ttl), b, ttl)
  {
    hide After;
    assert [a, b][..1] == [a] && [a][..0] == [];
    assert Run(t, [a], ttl) == After(Run(t, [], ttl), a, ttl);
  }

  lemma {:induction false} OneHeard(own: string, h: Heard, peers: seq<Peer>)
    ensures HearAll(own, [h], peers) == Hear(own, h, Gathered(peers, {}, {}, 0, 0))
  {
    assert [h][..0] == [];
  }

  // ----- how long an absent peer stays -----

  /** Nothing in the round shows the peer. */
  predicate AbsentFrom(own: string, hs: seq<Heard>, p: Peer) {
    forall i :: 0 <= i < |hs| ==>
      && (hs[i].ip == "" || hs[i].ip != p.overlayIP)
      && (Usable(own, hs[i]) ==> hs[i].probe.value.hwid != p.hwid)
  }

  predicate Member(peers: seq<Peer>, p: Peer) { exists i :: 0 <= i < |peers| && peers[i] == p }

  /** Hearing about another peer leaves this one as it is, unseen, and does not bring it in. */
  lemma {:induction false} HearingAnother(own: string, h: Heard, g: Gathered, p: Peer)
    requires h.ip == "" || h.ip != p.overlayIP
    requires Usable(own, h) ==> h.probe.value.hwid != p.hwid
    ensures Member(g.peers, p) ==> Member(Hear(own, h, g).peers, p)
    ensures !Holds(g.peers, p.hwid) ==> !Holds(Hear(own, h, g).peers, p.hwid)
  {
    hide Usable, Label, Find;
    var now := Hear(own, h, g).peers;
    if Member(g.peers, p) {
      var i :| 0 <= i < |g.peers| && g.peers[i] == p;
      assert now[i] == p;
    }
  }

  /** Nobody shown is the peer. */
  lemma {:induction false} OthersAreShown(own: string, hs: seq<Heard>, peers: seq<Peer>, p: Peer)
    requires AbsentFrom(own, hs, p)
    ensures var g := HearAll(own, hs, peers); p.hwid !in g.seen && (p.overlayIP == "" || p.overlayIP !in g.alive)
  {
    hide Usable, Hear;
    if hs != [] {
      var front, h := hs[..|hs| - 1], hs[|hs| - 1];
      OthersAreShown(own, front, peers, p);
      OneEar(own, h, HearAll(own, front, peers));
    }
  }

  /** Hearing about others leaves the peer as it is, and does not bring it in. */
  lemma {:induction false} HearingOthers(own: string, hs: seq<Heard>, peers: seq<Peer>, p: Peer)
    requires AbsentFrom(own, hs, p)
    ensures Member(peers, p) ==> Member(HearAll(own, hs, peers).peers, p)
    ensures !Holds(peers, p.hwid) ==> !Holds(HearAll(own, hs, peers).peers, p.hwid)
  {
    hide Usable, Hear, Member, Holds;
    if hs != [] {
      var front, h := hs[..|hs| - 1], hs[|hs| - 1];
      HearingOthers(own, front, peers, p);
      HearingAnother(own, h, HearAll(own, front, peers), p);
    }
  }

  lemma {:induction false} AgingOne(peers: seq<Peer>, alive: set<string>, seen: set<string>, now: int, ttl: int,
      p: Peer)
    requires Distinct(peers) && Member(peers, p) && !Present(p, alive, seen) && p.lastSeen.On?
    ensures Expired(p, now, ttl) ==> !Holds(AgeAll(peers, alive, seen, now, ttl), p.hwid)
    ensures !Expired(p, now, ttl) ==> Member(AgeAll(peers, alive, seen, now, ttl), p)
  {
    hide Present, Expired, StampedToday;
    var front, last := peers[..|peers| - 1], peers[|peers| - 1];
    var a, b := AgeAll(front, alive, seen, now, ttl), Aged(last, alive, seen, now, ttl);
    if last == p {
      AgedFrom(front, alive, seen, now, ttl, p.hwid);
      if Expired(p, now, ttl) {
        assert a + b == a;
      } else {
        assert (a + b)[|a|] == p;
      }
    } else {
      var i :| 0 <= i < |peers| && peers[i] == p;
      assert front[i] == p;
      AgingOne(front, alive, seen, now, ttl, p);
      if Expired(p, now, ttl) {
        forall k | 0 <= k < |a + b| ensures (a + b)[k].hwid != p.hwid {
          if k < |a| { assert a[k].hwid != p.hwid; }
        }
      } else {
        var k :| 0 <= k < |a| && a[k] == p;
        assert (a + b)[k] == p;
      }
    }
  }

  /** One round without the peer: kept as it is, or gone. */
  lemma {:induction false} AbsentRound(t: Table, r: Round, ttl: int, p: Peer)
    requires Sound(t) && AbsentFrom(t.hwid, r.heard, p) && p.lastSeen.On?
    ensures Member(t.peers, p) && !Expired(p, r.now, ttl) ==> Member(After(t, r, ttl).peers, p)
    ensures Member(t.peers, p) && Expired(p, r.now, ttl) ==> !Holds(After(t, r, ttl).peers, p.hwid)
    ensures !Holds(t.peers, p.hwid) ==> !Holds(After(t, r, ttl).peers, p.hwid)
  {
    hide HearAll, AgeAll, Expired, AbsentFrom;
    var g := Gather(t, r);
    OthersAreShown(t.hwid, r.heard, t.peers, p);
    HearingOthers(t.hwid, r.heard, t.peers, p);
    HearAllKeepsSound(t.hwid, r.heard, t.peers);
    if Member(t.peers, p) {
      AgingOne(g.peers, g.alive, g.seen, r.now, ttl, p);
    } else if !Holds(t.peers, p.hwid) {
      AgedFrom(g.peers, g.alive, g.seen, r.now, ttl, p.hwid);
    }
  }

  ghost predicate AbsentThroughout(own: string, rounds: seq<Round>, p: Peer) {
    forall i :: 0 <= i < |rounds| ==> AbsentFrom(own, rounds[i].heard, p)
  }

  ghost predicate NeverExpires(rounds: seq<Round>, p: Peer, ttl: int) {
    forall i :: 0 <= i < |rounds| ==> !Expired(p, rounds[i].now, ttl)
  }

  /** Through a run of absence a peer stays untouched until the first round past its age, and is gone from then on. */
  lemma {:induction false} AbsentRun(t: Table, rounds: seq<Round>, ttl: int, p: Peer)
    requires Sound(t) && Member(t.peers, p) && p.lastSeen.On? && AbsentThroughout(t.hwid, rounds, p)
    ensures if NeverExpires(rounds, p, ttl) then Member(Run(t, rounds, ttl).peers, p)
            else !Holds(Run(t, rounds, ttl).peers, p.hwid)
  {
    hide Sound, After, Expired, AbsentFrom;
    if rounds != [] {
      var front, r := rounds[..|rounds| - 1], rounds[|rounds| - 1];
      assert AbsentFrom(t.hwid, r.heard, p);
      assert forall i :: 0 <= i < |front| ==> front[i] == rounds[i];
      AbsentRun(t, front, ttl, p);
      IdentitiesHold(t, front, ttl);
      AbsentRound(Run(t, front, ttl), r, ttl, p);
    }
  }

  /** With a lifetime that fits the clock, expiry is the instant after midnight of the last day. */
  lemma {:induction false} ExpiryIsMidnight(p: Peer, now: int, ttl: int)
    requires p.lastSeen.On? && 0 < ttl <= 106_751
    ensures Expired(p, now, ttl) <==> now > (p.lastSeen.day + ttl) * DAY
  {
    assert ttl * DAY <= MAX_DURATION;
    assert Wrap64(ttl * DAY) == ttl * DAY;
    assert (p.lastSeen.day + ttl) * DAY == p.lastSeen.day * DAY + ttl * DAY;
  }

  /** A longer one wraps: every stamped peer has an instant since its stamp at which it is dropped or kept wrongly. */
  lemma {:induction false} HugeLifetimeWraps(p: Peer, ttl: int) returns (now: int)
    requires p.lastSeen.On? && ttl > 106_751
    ensures now >= p.lastSeen.day * DAY
    ensures Expired(p, now, ttl) <==> now <= (p.lastSeen.day + ttl) * DAY
  {
    var since, life := p.lastSeen.day * DAY, ttl * DAY;
    assert (p.lastSeen.day + ttl) * DAY == since + life;
    assert life >= 106_752 * DAY > MAX_DURATION;
    var wrapped := Wrap64(life);
    assert wrapped <= MAX_DURATION;
    now := if wrapped < 0 then since else if wrapped < MAX_DURATION then since + wrapped + 1 else since + life + 1;
  }

  /** The shortest of them drops the peer the moment it is absent. */
  lemma {:induction false} DroppedAtOnce(p: Peer, now: int)
    requires p.lastSeen.On? && now >= p.lastSeen.day * DAY
    ensures Expired(p, now, 106_752)
  {
    assert 106_752 * DAY == 9_223_372_800_000_000_000;
    assert Wrap64(106_752 * DAY) < 0;
  }

  /** Whatever the stamp and the clock say, a peer expires past the midnight that ends its lifetime. */
  ghost predicate ExpiresOnTime(ttl: int) {
    forall p: Peer, now: int :: p.lastSeen.On? ==> (Expired(p, now, ttl) <==> now > (p.lastSeen.day + ttl) * DAY)
  }

  /** Lifetimes hold exactly up to 106751 days. */
  lemma {:induction false} LifetimesThatHold(ttl: int)
    requires ttl > 0
    ensures ExpiresOnTime(ttl) <==> ttl <= 106_751
  {
    hide Expired;
    if ttl <= 106_751 {
      forall p: Peer, now: int | p.lastSeen.On?
        ensures Expired(p, now, ttl) <==> now > (p.lastSeen.day + ttl) * DAY
      {
        ExpiryIsMidnight(p, now, ttl);
      }
    } else {
      var p := Peer("", "", true, "", 0, false, On(0, false));
      var now := HugeLifetimeWraps(p, ttl);
      assert !(Expired(p, now, ttl) <==> now > (p.lastSeen.day + ttl) * DAY);
    }
  }

  /** A peer that a round shows is in the table afterwards, stamped with that day. */
  lemma {:induction false} PresentIsStamped(peers: seq<Peer>, alive: set<string>, seen: set<string>, now: int,
      ttl: int, i: nat)
    requires i < |peers| && Present(peers[i], alive, seen)
    ensures exists p :: Member(AgeAll(peers, alive, seen, now, ttl), p) && p.hwid == peers[i].hwid
                        && p.overlayIP == peers[i].overlayIP && StampedToday(p, now)
  {
    hide Present, Expired;
    var front, last := peers[..|peers| - 1], peers[|peers| - 1];
    var a, b := AgeAll(front, alive, seen, now, ttl), Aged(last, alive, seen, now, ttl);
    if i == |front| {
      assert (a + b)[|a|] == b[0];
      assert Member(a + b, b[0]);
    } else {
      PresentIsStamped(front, alive, seen, now, ttl, i);
      var p :| Member(a, p) && p.hwid == peers[i].hwid && p.overlayIP == peers[i].overlayIP && StampedToday(p, now);
      var k :| 0 <= k < |a| && a[k] == p;
      assert (a + b)[k] == p;
      assert Member(a + b, p);
    }
  }

  /**
    A peer present in a round and absent in all that follow is still there exactly
    as long as every later round comes no later than midnight, that day plus the
    lifetime; one later round and it is gone for good.
  */
  lemma {:induction false} PeerLifetime(t: Table, r: Round, rounds: seq<Round>, ttl: int, i: nat) returns (p: Peer)
    requires Sound(t) && 0 < ttl <= 106_751
    requires i < |Gather(t, r).peers| && Present(Gather(t, r).peers[i], Gather(t, r).alive, Gather(t, r).seen)
    ensures p.hwid == Gather(t, r).peers[i].hwid && Member(After(t, r, ttl).peers, p) && StampedToday(p, r.now)
    ensures AbsentThroughout(t.hwid, rounds, p) ==>
              (Holds(Run(After(t, r, ttl), rounds, ttl).peers, p.hwid) <==>
               forall k :: 0 <= k < |rounds| ==> rounds[k].now <= (DayOf(r.now) + ttl) * DAY)
  {
    hide HearAll, AgeAll, AbsentThroughout, Run, Expired, Present;
    var g := Gather(t, r);
    PresentIsStamped(g.peers, g.alive, g.seen, r.now, ttl, i);
    p :| Member(After(t, r, ttl).peers, p) && p.hwid == g.peers[i].hwid && StampedToday(p, r.now);
    RoundKeepsSound(t, r, ttl);
    if AbsentThroughout(t.hwid, rounds, p) {
      AbsentRun(After(t, r, ttl), rounds, ttl, p);
      forall k | 0 <= k < |rounds|
        ensures Expired(p, rounds[k].now, ttl) <==> rounds[k].now > (DayOf(r.now) + ttl) * DAY
      {
        ExpiryIsMidnight(p, rounds[k].now, ttl);
      }
    }
  }

  // ----- repeating a round -----

  /** The table already says what this entry says. */
  predicate Told(peers: seq<Peer>, h: Heard)
    requires h.probe.Some?
  {
    exists k :: 0 <= k < |peers| && peers[k].hwid == h.probe.value.hwid && Refreshed(peers[k], h) == peers[k]
  }

  ghost predicate Settled(own: string, hs: seq<Heard>, peers: seq<Peer>) {
    forall i :: 0 <= i < |hs| && Usable(own, hs[i]) ==> Told(peers, hs[i])
  }

  /** Same id, same address and same description. */
  predicate SameStory(a: Heard, b: Heard)
    requires a.probe.Some? && b.probe.Some?
  {
    && a.ip == b.ip && Label(a.probe.value) == Label(b.probe.value)
    && a.probe.value.listenPort == b.probe.value.listenPort && a.probe.value.exitOffered == b.probe.value.exitOffered
  }

  /** Whatever was heard of one id agrees: one overlay address for each. */
  ghost predicate Consistent(own: string, hs: seq<Heard>) {
    forall i, j ::
      (0 <= i < |hs| && 0 <= j < |hs| && Usable(own, hs[i]) && Usable(own, hs[j])
       && hs[i].probe.value.hwid == hs[j].probe.value.hwid)
      ==> SameStory(hs[i], hs[j])
  }

  lemma {:induction false} FindTold(peers: seq<Peer>, h: Heard)
    requires Distinct(peers) && h.probe.Some?
    ensures Told(peers, h) <==> Find(peers, h.probe.value.hwid).Some?
                                && var k := Find(peers, h.probe.value.hwid).value; Refreshed(peers[k], h) == peers[k]
  {
    FindHolds(peers, h.probe.value.hwid);
  }

  /** The new entry is told, and so is every earlier one that agrees with it. */
  lemma {:induction false} HearTells(own: string, h: Heard, g: Gathered, e: Heard)
    requires Distinct(g.peers) && Usable(own, e) && (e == h || Told(g.peers, e))
    requires Usable(own, h) && h.probe.value.hwid == e.probe.value.hwid ==> SameStory(h, e)
    ensures Told(Hear(own, h, g).peers, e)
  {
    hide Usable, Label;
    var now := Hear(own, h, g).peers;
    if !Usable(own, h) {
      assert now == g.peers;
    } else {
      FindHolds(g.peers, h.probe.value.hwid);
      var f := Find(g.peers, h.probe.value.hwid);
      if h.probe.value.hwid == e.probe.value.hwid {
        var k := if f.Some? then f.value else |g.peers|;
        assert now[k].hwid == e.probe.value.hwid && Refreshed(now[k], e) == now[k];
      } else {
        var k :| 0 <= k < |g.peers| && g.peers[k].hwid == e.probe.value.hwid && Refreshed(g.peers[k], e) == g.peers[k];
        assert now[k] == g.peers[k];
      }
    }
  }

  lemma {:induction false} HearAllSettles(own: string, hs: seq<Heard>, peers: seq<Peer>)
    requires Sound(Table(own, peers)) && Consistent(own, hs)
    ensures Settled(own, hs, HearAll(own, hs, peers).peers)
  {
    hide Usable, Told, Hear, SameStory;
    if hs != [] {
      var front, h := hs[..|hs| - 1], hs[|hs| - 1];
      assert forall i :: 0 <= i < |front| ==> front[i] == hs[i];
      HearAllSettles(own, front, peers);
      HearAllKeepsSound(own, front, peers);
      var g := HearAll(own, front, peers);
      forall i | 0 <= i < |hs| && Usable(own, hs[i]) ensures Told(HearAll(own, hs, peers).peers, hs[i]) {
        if i < |front| { assert Told(g.peers, front[i]); }
        HearTells(own, h, g, hs[i]);
      }
    }
  }

  /** Hearing counts nothing exactly when all of it was told already. */
  lemma {:induction false} QuietHearing(own: string, hs: seq<Heard>, peers: seq<Peer>)
    requires Distinct(peers)
    ensures var g := HearAll(own, hs, peers);
            && (g.added == 0 && g.updated == 0 <==> Settled(own, hs, peers))
            && (g.added == 0 && g.updated == 0 ==> g.peers == peers)
  {
    hide Usable, Told;
    if hs != [] {
      var front, h := hs[..|hs| - 1], hs[|hs| - 1];
      assert forall i :: 0 <= i < |front| ==> front[i] == hs[i];
      QuietHearing(own, front, peers);
      if Usable(own, h) {
        FindTold(peers, h);
      }
      assert Settled(own, hs, peers) <==> Settled(own, front, peers) && (Usable(own, h) ==> Told(peers, h));
    }
  }

  lemma {:induction false} OneEar(own: string, h: Heard, g: Gathered)
    ensures Hear(own, h, g).alive == g.alive + (if h.ip == "" then {} else {h.ip})
    ensures Hear(own, h, g).seen == g.seen + (if Usable(own, h) then {h.probe.value.hwid} else {})
  {
    hide Usable, Label;
  }

  /** Who is alive and seen depends on what was heard alone. */
  lemma {:induction false} SameEars(own: string, hs: seq<Heard>, a: seq<Peer>, b: seq<Peer>)
    ensures HearAll(own, hs, a).alive == HearAll(own, hs, b).alive
    ensures HearAll(own, hs, a).seen == HearAll(own, hs, b).seen
    ensures forall i :: 0 <= i < |hs| && Usable(own, hs[i]) ==> hs[i].probe.value.hwid in HearAll(own, hs, a).seen
  {
    hide Usable, Hear;
    if hs != [] {
      var front, h := hs[..|hs| - 1], hs[|hs| - 1];
      assert forall i :: 0 <= i < |front| ==> front[i] == hs[i];
      SameEars(own, front, a, b);
      OneEar(own, h, HearAll(own, front, a));
      OneEar(own, h, HearAll(own, front, b));
    }
  }

  /** Aging keeps what was told of the ids that were seen. */
  lemma {:induction false} AgingKeepsTold(peers: seq<Peer>, alive: set<string>, seen: set<string>, now: int,
      ttl: int, h: Heard)
    requires h.probe.Some? && h.probe.value.hwid in seen && Told(peers, h)
    ensures Told(AgeAll(peers, alive, seen, now, ttl), h)
  {
    hide Expired, StampedToday, Label;
    var k :| 0 <= k < |peers| && peers[k].hwid == h.probe.value.hwid && Refreshed(peers[k], h) == peers[k];
    var front, last := peers[..|peers| - 1], peers[|peers| - 1];
    var a, b := AgeAll(front, alive, seen, now, ttl), Aged(last, alive, seen, now, ttl);
    if k == |front| {
      assert (a + b)[|a|] == b[0];
    } else {
      assert front[k] == peers[k];
      AgingKeepsTold(front, alive, seen, now, ttl, h);
      var m :| 0 <= m < |a| && a[m].hwid == h.probe.value.hwid && Refreshed(a[m], h) == a[m];
      assert (a + b)[m] == a[m];
    }
  }

  /** Aging at that time drops the peer. */
  predicate Lapses(p: Peer, alive: set<string>, seen: set<string>, now: int, ttl: int) {
    !Present(p, alive, seen) && Expired(p, now, ttl)
  }

  /** What one aging leaves, a second one on that day keeps or drops. */
  lemma {:induction false} AgedTwice(p: Peer, alive: set<string>, seen: set<string>, first: int, second: int, ttl: int)
    requires DayOf(first) == DayOf(second)
    ensures var once := Aged(p, alive, seen, first, ttl);
            |once| <= 1 && forall i :: 0 <= i < |once| ==>
              Aged(once[i], alive, seen, second, ttl)
              == if Lapses(once[i], alive, seen, second, ttl) then [] else [once[i]]
  {
    hide Expired, DayOf;
    if !p.lastSeen.On? { NoStamp(p, first, ttl); }
  }

  lemma {:induction false} NoStamp(p: Peer, now: int, ttl: int)
    requires !p.lastSeen.On?
    ensures !Expired(p, now, ttl)
  {
  }

  lemma {:induction false} AgeSnoc(peers: seq<Peer>, p: Peer, alive: set<string>, seen: set<string>, now: int, ttl: int)
    ensures AgeAll(peers + [p], alive, seen, now, ttl)
            == AgeAll(peers, alive, seen, now, ttl) + Aged(p, alive, seen, now, ttl)
  {
    hide Aged;
    assert (peers + [p])[..|peers|] == peers;
  }

  ghost predicate NoneLapses(peers: seq<Peer>, alive: set<string>, seen: set<string>, now: int, ttl: int) {
    forall i :: 0 <= i < |peers| ==> !Lapses(peers[i], alive, seen, now, ttl)
  }

  lemma {:induction false} NoneLapsesSnoc(peers: seq<Peer>, p: Peer, alive: set<string>, seen: set<string>, now: int,
      ttl: int)
    ensures NoneLapses(peers + [p], alive, seen, now, ttl)
            <==> NoneLapses(peers, alive, seen, now, ttl) && !Lapses(p, alive, seen, now, ttl)
  {
    hide Lapses;
    var all := peers + [p];
    assert all[|peers|] == p && forall i :: 0 <= i < |peers| ==> peers[i] == all[i];
  }

  lemma {:induction false} AgeAllTwice(peers: seq<Peer>, alive: set<string>, seen: set<string>, first: int,
      second: int, ttl: int)
    requires DayOf(first) == DayOf(second)
    ensures var once := AgeAll(peers, alive, seen, first, ttl);
            AgeAll(once, alive, seen, second, ttl) == once <==> NoneLapses(once, alive, seen, second, ttl)
  {
    hide Aged, DayOf, Lapses;
    if peers != [] {
      hide NoneLapses, AgeAll;
      var front, last := peers[..|peers| - 1], peers[|peers| - 1];
      var a, b := AgeAll(front, alive, seen, first, ttl), Aged(last, alive, seen, first, ttl);
      assert peers == front + [last];
      AgeSnoc(front, last, alive, seen, first, ttl);
      AgeAllTwice(front, alive, seen, first, second, ttl);
      AgedTwice(last, alive, seen, first, second, ttl);
      if b == [] {
        assert a + b == a;
      } else {
        assert b == [b[0]];
        AgeSnoc(a, b[0], alive, seen, second, ttl);
        NoneLapsesSnoc(a, b[0], alive, seen, second, ttl);
        SameWithLast(AgeAll(a, alive, seen, second, ttl), a, b[0]);
      }
    }
  }

  lemma {:induction false} SameWithLast(x: seq<Peer>, a: seq<Peer>, p: Peer)
    requires |x| <= |a|
    ensures x + [p] == a + [p] <==> x == a
    ensures x != a + [p]
  {
    if x + [p] == a + [p] {
      assert |x| == |x + [p]| - 1 == |a|;
      assert x == (x + [p])[..|x|];
    }
  }

  /** A settled table leaves no room for two stories about one id. */
  lemma {:induction false} SettledIsConsistent(own: string, hs: seq<Heard>, peers: seq<Peer>)
    requires Distinct(peers) && Settled(own, hs, peers)
    ensures Consistent(own, hs)
  {
    hide Usable, Label;
    forall i, j | 0 <= i < |hs| && 0 <= j < |hs| && Usable(own, hs[i]) && Usable(own, hs[j])
                  && hs[i].probe.value.hwid == hs[j].probe.value.hwid
      ensures SameStory(hs[i], hs[j])
    {
      assert Told(peers, hs[i]) && Told(peers, hs[j]);
      var k :| 0 <= k < |peers| && peers[k].hwid == hs[i].probe.value.hwid && Refreshed(peers[k], hs[i]) == peers[k];
      var m :| 0 <= m < |peers| && peers[m].hwid == hs[j].probe.value.hwid && Refreshed(peers[m], hs[j]) == peers[m];
      assert k == m;
    }
  }

  /**
    Hearing the same again on the same day reports no change exactly when each
    id was heard with one story and no absent peer has expired by then; the
    table then stays.
  */
  lemma {:induction false} RepeatingIsQuiet(t: Table, first: Round, second: Round, ttl: int)
    requires Sound(t) && second.heard == first.heard && DayOf(first.now) == DayOf(second.now)
    ensures var g, next := Gather(t, first), After(t, first, ttl);
            && (!Changed(next, second, ttl) <==>
                  Consistent(t.hwid, first.heard) && NoneLapses(next.peers, g.alive, g.seen, second.now, ttl))
            && (!Changed(next, second, ttl) ==> After(next, second, ttl) == next)
  {
    hide HearAll, AgeAll, Usable, Told, Consistent, DayOf, NoneLapses;
    var own, hs := t.hwid, first.heard;
    var g, next := Gather(t, first), After(t, first, ttl);
    RoundKeepsSound(t, first, ttl);
    SameEars(own, hs, t.peers, next.peers);
    QuietHearing(own, hs, next.peers);
    if Consistent(own, hs) {
      HearAllSettles(own, hs, t.peers);
      forall i | 0 <= i < |hs| && Usable(own, hs[i]) ensures Told(next.peers, hs[i]) {
        AgingKeepsTold(g.peers, g.alive, g.seen, first.now, ttl, hs[i]);
      }
      AgeAllTwice(g.peers, g.alive, g.seen, first.now, second.now, ttl);
    } else if Settled(own, hs, next.peers) {
      SettledIsConsistent(own, hs, next.peers);
    }
  }

  predicate Fresh(p: Peer, now: int, ttl: int) { StampedToday(p, now) || !Expired(p, now, ttl) }

  ghost predicate AllFresh(peers: seq<Peer>, now: int, ttl: int) {
    forall i :: 0 <= i < |peers| ==> Fresh(peers[i], now, ttl)
  }

  lemma {:induction false} OneIsFresh(p: Peer, alive: set<string>, seen: set<string>, now: int, ttl: int)
    ensures AllFresh(Aged(p, alive, seen, now, ttl), now, ttl)
  {
    hide Present, Expired, DayOf;
  }

  /** What an aging leaves was stamped that day, or had not expired. */
  lemma {:induction false} AgedIsFresh(peers: seq<Peer>, alive: set<string>, seen: set<string>, now: int, ttl: int)
    ensures AllFresh(AgeAll(peers, alive, seen, now, ttl), now, ttl)
  {
    hide Aged, Fresh;
    if peers != [] {
      AgedIsFresh(peers[..|peers| - 1], alive, seen, now, ttl);
      OneIsFresh(peers[|peers| - 1], alive, seen, now, ttl);
    }
  }

  lemma {:induction false} DayEnds(now: int)
    ensures DayOf(now) * DAY <= now < (DayOf(now) + 1) * DAY
  {
  }

  /**
    Later that day an absent peer lapses exactly when the midnight that ends
    its lifetime is the instant of the first round.
  */
  lemma {:induction false} LapseIsMidnight(t: Table, first: Round, second: Round, ttl: int, i: nat)
    requires first.now <= second.now && DayOf(first.now) == DayOf(second.now) && 0 < ttl <= 106_751
    requires i < |After(t, first, ttl).peers| && After(t, first, ttl).peers[i].lastSeen.On?
    requires !Present(After(t, first, ttl).peers[i], Gather(t, first).alive, Gather(t, first).seen)
    ensures var p := After(t, first, ttl).peers[i];
            Lapses(p, Gather(t, first).alive, Gather(t, first).seen, second.now, ttl)
            <==> first.now == (p.lastSeen.day + ttl) * DAY < second.now
  {
    hide HearAll, AgeAll, Present, Expired;
    var g, p := Gather(t, first), After(t, first, ttl).peers[i];
    AgedIsFresh(g.peers, g.alive, g.seen, first.now, ttl);
    assert After(t, first, ttl).peers == AgeAll(g.peers, g.alive, g.seen, first.now, ttl);
    assert Fresh(p, first.now, ttl);
    ExpiryIsMidnight(p, first.now, ttl);
    ExpiryIsMidnight(p, second.now, ttl);
    OneDay(first.now, second.now, p.lastSeen.day, ttl);
  }

  lemma {:induction false} OneDay(first: int, second: int, day: int, ttl: int)
    requires first <= second && DayOf(first) == DayOf(second) && ttl > 0
    ensures day == DayOf(first) ==> second <= (day + ttl) * DAY
    ensures first <= (day + ttl) * DAY < second ==> first == (day + ttl) * DAY
  {
    hide DayOf;
    DayEnds(first);
    DayEnds(second);
    if day + ttl <= DayOf(first) {
      assert (day + ttl) * DAY <= DayOf(first) * DAY;
    } else {
      assert (day + ttl) * DAY >= (DayOf(first) + 1) * DAY;
    }
  }

  lemma {:induction false} SilentRound(id: string, p: Peer, now: int, ttl: int)
    requires id != ""
    ensures var t, r := Table(id, [p]), Round(now, None, []);
            && After(t, r, ttl) == Table(id, Aged(p, {}, {}, now, ttl))
            && (Changed(t, r, ttl) <==> Aged(p, {}, {}, now, ttl) != [p])
  {
    hide Aged;
    assert [p][..0] == [];
  }

  /** A lifetime that ends with the midnight of the first round: kept by that round, dropped by a repetition. */
  lemma {:induction false} MidnightRoundRepeats() returns (t: Table, first: Round, second: Round)
    ensures Sound(t) && second.heard == first.heard && DayOf(first.now) == DayOf(second.now)
    ensures Consistent(t.hwid, first.heard) && After(t, first, 1) == t && Changed(t, second, 1)
  {
    hide After, Changed, Expired;
    var p := Peer("b", "b", true, "", 1, false, On(0, false));
    t, first, second := Table("a", [p]), Round(DAY, None, []), Round(DAY + 1, None, []);
    SilentRound("a", p, DAY, 1);
    SilentRound("a", p, DAY + 1, 1);
    ExpiryIsMidnight(p, DAY, 1);
    ExpiryIsMidnight(p, DAY + 1, 1);
  }

  /** A round that reports no change leaves the table as it was, so not saving it loses nothing. */
  lemma {:induction false} UnchangedIsUnsaved(t: Table, r: Round, ttl: int)
    requires Distinct(t.peers) && !Changed(t, r, ttl)
    ensures After(t, r, ttl) == t
  {
    hide HearAll, AgeAll;
    QuietHearing(Identity(t, r), r.heard, t.peers);
  }

  // ----- the switch -----

  /** Under that id the peers hold one switch position. */
  ghost predicate Switched(peers: seq<Peer>, hwid: string, on: bool) {
    forall i :: 0 <= i < |peers| && peers[i].hwid == hwid ==> peers[i].enabled == on
  }

  lemma {:induction false} HearKeepsSwitch(own: string, h: Heard, g: Gathered, hwid: string, on: bool)
    requires Switched(g.peers, hwid, on) && (on || Holds(g.peers, hwid))
    ensures Switched(Hear(own, h, g).peers, hwid, on) && (Holds(g.peers, hwid) ==> Holds(Hear(own, h, g).peers, hwid))
  {
    hide Usable, Label, Find;
    var now := Hear(own, h, g).peers;
    if Holds(g.peers, hwid) {
      var i :| 0 <= i < |g.peers| && g.peers[i].hwid == hwid;
      assert now[i].hwid == hwid;
    }
    if Usable(own, h) { FindHolds(g.peers, h.probe.value.hwid); }
  }

  lemma {:induction false} HearAllKeepsSwitch(own: string, hs: seq<Heard>, peers: seq<Peer>, hwid: string, on: bool)
    requires Switched(peers, hwid, on) && (on || Holds(peers, hwid))
    ensures Switched(HearAll(own, hs, peers).peers, hwid, on)
    ensures Holds(peers, hwid) ==> Holds(HearAll(own, hs, peers).peers, hwid)
  {
    hide Switched, Holds, Hear;
    if hs != [] {
      HearAllKeepsSwitch(own, hs[..|hs| - 1], peers, hwid, on);
      HearKeepsSwitch(own, hs[|hs| - 1], HearAll(own, hs[..|hs| - 1], peers), hwid, on);
    }
  }

  lemma {:induction false} AgingKeepsSwitch(peers: seq<Peer>, alive: set<string>, seen: set<string>, now: int, ttl: int,
      hwid: string, on: bool)
    requires Switched(peers, hwid, on)
    ensures Switched(AgeAll(peers, alive, seen, now, ttl), hwid, on)
  {
    hide Present, Expired, StampedToday;
    if peers != [] {
      var front := peers[..|peers| - 1];
      assert forall i :: 0 <= i < |front| ==> front[i] == peers[i];
      AgingKeepsSwitch(front, alive, seen, now, ttl, hwid, on);
    }
  }

  /** A peer that a round brings in is switched on; one that was there keeps its switch. */
  lemma {:induction false} RoundKeepsSwitch(t: Table, r: Round, ttl: int, hwid: string, on: bool)
    ensures !Holds(t.peers, hwid) ==> Switched(After(t, r, ttl).peers, hwid, true)
    ensures Holds(t.peers, hwid) && Switched(t.peers, hwid, on) ==> Switched(After(t, r, ttl).peers, hwid, on)
  {
    hide HearAll, AgeAll;
    var g := Gather(t, r);
    if !Holds(t.peers, hwid) {
      HearAllKeepsSwitch(Identity(t, r), r.heard, t.peers, hwid, true);
      AgingKeepsSwitch(g.peers, g.alive, g.seen, r.now, ttl, hwid, true);
    } else if Switched(t.peers, hwid, on) {
      HearAllKeepsSwitch(Identity(t, r), r.heard, t.peers, hwid, on);
      AgingKeepsSwitch(g.peers, g.alive, g.seen, r.now, ttl, hwid, on);
    }
  }

  /** The id is in the table after every round. */
  ghost predicate HeldThroughout(t: Table, rounds: seq<Round>, ttl: int, hwid: string) {
    forall k :: 0 <= k <= |rounds| ==> Holds(Run(t, rounds[..k], ttl).peers, hwid)
  }

  /** Over any run a peer keeps its switch as long as it is in the table. */
  lemma {:induction false} SwitchSurvives(t: Table, rounds: seq<Round>, ttl: int, hwid: string, on: bool)
    requires Switched(t.peers, hwid, on) && HeldThroughout(t, rounds, ttl, hwid)
    ensures Switched(Run(t, rounds, ttl).peers, hwid, on)
  {
    hide Switched, Holds, After;
    if rounds != [] {
      var front, r := rounds[..|rounds| - 1], rounds[|rounds| - 1];
      forall k | 0 <= k <= |front| ensures Holds(Run(t, front[..k], ttl).peers, hwid) {
        assert front[..k] == rounds[..k];
      }
      SwitchSurvives(t, front, ttl, hwid, on);
      assert Holds(Run(t, front, ttl).peers, hwid);
      RoundKeepsSwitch(Run(t, front, ttl), r, ttl, hwid, on);
    }
  }

  // ----- what a round records -----

  /** The peer is as the probe described it and was present that day. */
  predicate Records(p: Peer, h: Heard, now: int)
    requires h.probe.Some?
  {
    var info := h.probe.value;
    && p.hwid == info.hwid && p.overlayIP == h.ip
    && p.listenPort == info.listenPort && p.exitOffered == info.exitOffered
    && p.name == (if NameOk(info.nodeName) then info.nodeName else info.hwid)
    && p.lastSeen.On? && p.lastSeen.day == DayOf(now)
  }

  /** The fixed prefix and twenty-four hexadecimal digits in small letters. */
  predicate HardwareId(s: string) {
    && |s| == 32 && s[..8] == "purewrt-"
    && forall i :: 8 <= i < 32 ==>
         s[i] in {'0', '1', '2', '3', '4', '5', '6', '7', '8', '9', 'a', 'b', 'c', 'd', 'e', 'f'}
  }

  lemma {:induction false} HardwareIds(s: string)
    ensures HwidOk(s) <==> HardwareId(s)
  {
    if |s| == 32 {
      forall i | 8 <= i < 32
        ensures IsHex(s[i]) <==>
                  s[i] in {'0', '1', '2', '3', '4', '5', '6', '7', '8', '9', 'a', 'b', 'c', 'd', 'e', 'f'}
      {
        HexDigit(s[i]);
      }
    }
  }

  lemma {:induction false} HexDigit(c: char)
    ensures IsHex(c) <==> c in {'0', '1', '2', '3', '4', '5', '6', '7', '8', '9', 'a', 'b', 'c', 'd', 'e', 'f'}
  {
  }

  /** A probe that answered for another router, under a well-formed id. */
  predicate Answered(own: string, h: Heard) {
    h.ip != "" && h.probe.Some? && h.probe.value.hwid != own && HardwareId(h.probe.value.hwid)
  }

  /** When the stories agree, the table holds every router that answered, just as it described itself. */
  lemma {:induction false} RoundRecords(t: Table, r: Round, ttl: int, i: nat)
    requires Sound(t) && Consistent(t.hwid, r.heard) && i < |r.heard| && Answered(t.hwid, r.heard[i])
    ensures exists k :: 0 <= k < |After(t, r, ttl).peers| && Records(After(t, r, ttl).peers[k], r.heard[i], r.now)
  {
    hide HearAll, AgeAll, Consistent, HwidOk, Present, HardwareId;
    var g, h := Gather(t, r), r.heard[i];
    HardwareIds(h.probe.value.hwid);
    SameEars(t.hwid, r.heard, t.peers, t.peers);
    HearAllSettles(t.hwid, r.heard, t.peers);
    assert Told(g.peers, h);
    var m :| 0 <= m < |g.peers| && g.peers[m].hwid == h.probe.value.hwid && Refreshed(g.peers[m], h) == g.peers[m];
    AgingKeepsTold(g.peers, g.alive, g.seen, r.now, ttl, h);
    var peers := After(t, r, ttl).peers;
    assert peers == AgeAll(g.peers, g.alive, g.seen, r.now, ttl);
    assert Present(g.peers[m], g.alive, g.seen) by { SeenIsPresent(g.peers[m], g.alive, g.seen); }
    PresentIsStamped(g.peers, g.alive, g.seen, r.now, ttl, m);
    var p :| Member(peers, p) && p.hwid == g.peers[m].hwid && StampedToday(p, r.now);
    var k :| 0 <= k < |peers| && peers[k] == p;
    var q :| 0 <= q < |peers| && peers[q].hwid == h.probe.value.hwid && Refreshed(peers[q], h) == peers[q];
    RoundKeepsSound(t, r, ttl);
    assert q == k;
  }

  lemma {:induction false} SeenIsPresent(p: Peer, alive: set<string>, seen: set<string>)
    requires p.hwid in seen
    ensures Present(p, alive, seen)
  {
  }

  lemma {:induction false} HearBringsWellFormed(own: string, hs: seq<Heard>, peers: seq<Peer>, hwid: string)
    requires !Holds(peers, hwid) && !HwidOk(hwid)
    ensures !Holds(HearAll(own, hs, peers).peers, hwid)
  {
    hide Label, HwidOk;
    if hs != [] { HearBringsWellFormed(own, hs[..|hs| - 1], peers, hwid); }
  }

  /** Over any run nothing but well-formed ids comes in. */
  lemma {:induction false} OnlyWellFormed(t: Table, rounds: seq<Round>, ttl: int, hwid: string)
    requires !Holds(t.peers, hwid) && !HardwareId(hwid)
    ensures !Holds(Run(t, rounds, ttl).peers, hwid)
  {
    hide HearAll, AgeAll, Holds, HardwareId, HwidOk;
    HardwareIds(hwid);
    if rounds != [] {
      var front, r := rounds[..|rounds| - 1], rounds[|rounds| - 1];
      OnlyWellFormed(t, front, ttl, hwid);
      var mid := Run(t, front, ttl);
      HearBringsWellFormed(Identity(mid, r), r.heard, mid.peers, hwid);
      var g := Gather(mid, r);
      AgedFrom(g.peers, g.alive, g.seen, r.now, ttl, hwid);
    }
  }

  // ----- the report -----

  /** Added is how many peers came in, and no more is counted than was heard. */
  lemma {:induction false} HearingCounts(own: string, hs: seq<Heard>, peers: seq<Peer>)
    ensures var g := HearAll(own, hs, peers);
            |g.peers| == |peers| + g.added && g.added + g.updated <= |hs|
  {
    hide Usable, Label, Find;
    if hs != [] { HearingCounts(own, hs[..|hs| - 1], peers); }
  }

  /** The table grows by what was added and shrinks by what was removed. */
  lemma {:induction false} ReportBalances(t: Table, r: Round, ttl: int)
    ensures var g := Gather(t, r);
            |After(t, r, ttl).peers| == |t.peers| + g.added - (|g.peers| - |After(t, r, ttl).peers|)
    ensures Gather(t, r).added + Gather(t, r).updated <= |r.heard|
  {
    hide HearAll, AgeAll;
    HearingCounts(Identity(t, r), r.heard, t.peers);
  }
}

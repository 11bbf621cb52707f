/**
  The 32-bit packet mark and its owners: the routing mark, the zapret selector
  byte, the marks of zapret's own packets, and the marks of the selected WANs.
  Whatever the accepted layout and the order of writes, each field reads as if
  the other owners were not there.
*/
module Marks {
  import opened Bits
  import opened Text

  const SELECTOR_MASK: bv32 := 0x00ff_0000

  datatype Wan = Wan(mark: bv32, mask: bv32)

  datatype Layout = Layout(routingMark: bv32, routingMask: bv32, profiles: seq<bv32>, wans: seq<Wan>)

  // ----- the validators -----

  ghost predicate ProfilesApart(l: Layout) {
    forall i :: 0 <= i < |l.profiles| ==>
      l.profiles[i] != 0 && Apart(l.profiles[i], SELECTOR_MASK) && Apart(l.profiles[i], l.routingMask)
  }

  /** The selector byte is in use exactly when there are profiles. */
  ghost predicate SelectorApart(l: Layout) {
    l.profiles != [] ==>
      && Apart(l.routingMask, SELECTOR_MASK)
      && forall i :: 0 <= i < |l.wans| ==> Apart(l.wans[i].mask, SELECTOR_MASK)
  }

  ghost predicate WanApart(l: Layout, w: Wan) {
    && Apart(w.mask, l.routingMask)
    && forall i :: 0 <= i < |l.profiles| ==> l.profiles[i] != 0 && Apart(w.mask, l.profiles[i])
  }

  ghost predicate WansApart(l: Layout) {
    && (forall i :: 0 <= i < |l.wans| ==> WanApart(l, l.wans[i]))
    && (forall i, j :: 0 <= i < j < |l.wans| ==> l.wans[i].mark != l.wans[j].mark)
  }

  /** Marked rules are only read when the mark fits its mask. */
  ghost predicate WansFit(wans: seq<Wan>) {
    forall i :: 0 <= i < |wans| ==> wans[i].mark != 0 && wans[i].mask != 0 && Fits(wans[i].mark, wans[i].mask)
  }

  ghost predicate Accepted(l: Layout) {
    ProfilesApart(l) && SelectorApart(l) && WansApart(l) && WansFit(l.wans)
  }

  /** What no validator looks at: the routing mark inside its own mask, ... */
  predicate RoutingFits(l: Layout) { Fits(l.routingMark, l.routingMask) }

  /** ... or at least apart from every other owner's field. */
  ghost predicate RoutingApart(l: Layout) {
    && (l.profiles != [] ==> Apart(l.routingMark, SELECTOR_MASK))
    && (forall i :: 0 <= i < |l.profiles| ==> Apart(l.routingMark, l.profiles[i]))
    && (forall i :: 0 <= i < |l.wans| ==> Apart(l.routingMark, l.wans[i].mask))
  }

  /** validateZapretProfileMarks. */
  method ValidateZapretProfileMarks(l: Layout) returns (ok: bool)
    ensures ok <==> ProfilesApart(l) && SelectorApart(l)
  {
    hide And, Apart;
    if |l.profiles| > 0 && !Apart(l.routingMask, SELECTOR_MASK) {
      return false;
    }
    for i := 0 to |l.wans|
      invariant l.profiles != [] ==> forall k :: 0 <= k < i ==> Apart(l.wans[k].mask, SELECTOR_MASK)
    {
      if |l.profiles| > 0 && !Apart(l.wans[i].mask, SELECTOR_MASK) {
        return false;
      }
    }
    for i := 0 to |l.profiles|
      invariant forall k :: 0 <= k < i ==>
        l.profiles[k] != 0 && Apart(l.profiles[k], SELECTOR_MASK) && Apart(l.profiles[k], l.routingMask)
    {
      if l.profiles[i] == 0 || !Apart(l.profiles[i], SELECTOR_MASK) {
        return false;
      }
      if !Apart(l.profiles[i], l.routingMask) {
        return false;
      }
    }
    return true;
  }

  /** The checks of resolveProxyWANs on the marks it has found, in order. */
  method ResolveProxyWANs(l: Layout) returns (ok: bool)
    ensures ok <==> WansApart(l)
  {
    hide And, Apart;
    var used: set<bv32> := {};
    for i := 0 to |l.wans|
      invariant forall k :: 0 <= k < i ==> WanApart(l, l.wans[k])
      invariant forall k, m :: 0 <= k < m < i ==> l.wans[k].mark != l.wans[m].mark
      invariant used == set k | 0 <= k < i :: l.wans[k].mark
    {
      var w := l.wans[i];
      if !Apart(w.mask, l.routingMask) {
        assert !WanApart(l, w);
        return false;
      }
      for j := 0 to |l.profiles|
        invariant forall k :: 0 <= k < j ==> l.profiles[k] != 0 && Apart(w.mask, l.profiles[k])
      {
        if l.profiles[j] == 0 || !Apart(w.mask, l.profiles[j]) {
          assert !WanApart(l, w);
          return false;
        }
      }
      if w.mark in used {
        return false;
      }
      used := used + {w.mark};
    }
    return true;
  }

  // ----- writes -----

  /** Packet and connection mark. */
  datatype State = State(packet: bv32, conn: bv32)

  datatype Write =
    | Route                       // mark | routing mark
    | Select(selector: bv32)      // both marks: selector byte replaced
    | SelectReply(selector: bv32) // packet mark only
    | Clear                       // selector byte cleared
    | Desync(profile: nat)        // a packet zapret sends itself
    | Egress(wan: nat)            // WAN field replaced

  datatype Owner = Routing | Selector | Profiles | Wans

  function OwnerOf(w: Write): Owner {
    match w
    case Route => Routing
    case Select(_) => Selector
    case SelectReply(_) => Selector
    case Clear => Selector
    case Desync(_) => Profiles
    case Egress(_) => Wans
  }

  /** A write the generated rules can make under this layout. */
  predicate Generated(l: Layout, w: Write) {
    match w
    case Route => true
    case Select(s) => l.profiles != [] && Fits(s, SELECTOR_MASK)
    case SelectReply(s) => l.profiles != [] && Fits(s, SELECTOR_MASK)
    case Clear => l.profiles != []
    case Desync(i) => i < |l.profiles|
    case Egress(i) => i < |l.wans|
  }

  const KEEP_MASK: bv32 := 0xff00_ffff

  function Apply(l: Layout, w: Write, m: State): State
    requires Generated(l, w)
  {
    match w
    case Route => m.(packet := Or(m.packet, l.routingMark))
    case Select(s) => State(Or(And(m.packet, KEEP_MASK), s), Or(And(m.conn, KEEP_MASK), s))
    case SelectReply(s) => m.(packet := Or(And(m.packet, KEEP_MASK), s))
    case Clear => m.(packet := And(m.packet, KEEP_MASK))
    case Desync(i) => m.(packet := Or(m.packet, l.profiles[i]))
    case Egress(i) => m.(packet := Or(Drop(m.packet, l.wans[i].mask), l.wans[i].mark))
  }

  ghost predicate AllGenerated(l: Layout, ws: seq<Write>) {
    forall i :: 0 <= i < |ws| ==> Generated(l, ws[i])
  }

  function Run(l: Layout, ws: seq<Write>, m: State): State
    requires AllGenerated(l, ws)
  {
    if ws == [] then m else Apply(l, ws[|ws| - 1], Run(l, ws[..|ws| - 1], m))
  }

  /** A field: whose it is and the bits it takes. */
  predicate FieldOf(l: Layout, owner: Owner, mask: bv32) {
    match owner
    case Routing => mask == l.routingMask
    case Selector => l.profiles != [] && mask == SELECTOR_MASK
    case Profiles => mask in l.profiles
    case Wans => exists i :: 0 <= i < |l.wans| && mask == l.wans[i].mask
  }

  // ----- non-interference -----

  /** A write of another owner does not touch the field. */
  lemma {:induction false} ForeignWrite(l: Layout, w: Write, owner: Owner, mask: bv32, m: State)
    requires Accepted(l) && Generated(l, w) && FieldOf(l, owner, mask) && OwnerOf(w) != owner
    requires w.Route? ==> Apart(l.routingMark, mask)
    ensures And(Apply(l, w, m).packet, mask) == And(m.packet, mask)
  {
    hide And, Or, Drop, Fits, Apart, ProfilesApart, SelectorApart, WansApart;
    match w {
      case Route =>
        OrApart(m.packet, l.routingMark, mask);
      case Select(s) =>
        Disjoint(l, owner, mask, Selector, SELECTOR_MASK);
        SelectApart(m.packet, s, mask);
      case SelectReply(s) =>
        Disjoint(l, owner, mask, Selector, SELECTOR_MASK);
        SelectApart(m.packet, s, mask);
      case Clear =>
        Disjoint(l, owner, mask, Selector, SELECTOR_MASK);
        ClearApart(m.packet, mask);
      case Desync(i) =>
        Disjoint(l, owner, mask, Profiles, l.profiles[i]);
        FitsItself(l.profiles[i]);
        SetApart(m.packet, l.profiles[i], l.profiles[i], mask);
      case Egress(i) =>
        Disjoint(l, owner, mask, Wans, l.wans[i].mask);
        DropApart(m.packet, l.wans[i].mask, mask);
        SetApart(Drop(m.packet, l.wans[i].mask), l.wans[i].mark, l.wans[i].mask, mask);
    }
  }

  lemma {:induction false} RouteDisjoint(l: Layout, owner: Owner, mask: bv32)
    requires RoutingApart(l) && FieldOf(l, owner, mask) && owner != Routing
    ensures Apart(l.routingMark, mask)
  {
    hide And;
  }

  /** Or-ing bits in leaves a field alone exactly when they are outside it. */
  lemma {:induction false} OrApart(p: bv32, mark: bv32, mask: bv32)
    ensures Apart(mark, mask) ==> And(Or(p, mark), mask) == And(p, mask)
    ensures !Apart(mark, mask) ==> And(Or(0, mark), mask) != And(0, mask)
  {
    hide And, Or;
    Distribute(p, mark, mask);
    OrUnits(And(p, mask));
    OrUnits(mark);
    NothingMasked(mask);
  }

  /** Fields of different owners share no bit. */
  lemma {:induction false} Disjoint(l: Layout, a: Owner, x: bv32, b: Owner, y: bv32)
    requires Accepted(l) && FieldOf(l, a, x) && FieldOf(l, b, y) && a != b
    ensures Apart(x, y)
  {
    hide And, Or, Drop, Fits, Apart;
    ApartCommutes(x, y);
  }

  lemma {:induction false} ClearApart(p: bv32, mask: bv32)
    requires Apart(mask, SELECTOR_MASK)
    ensures And(And(p, KEEP_MASK), mask) == And(p, mask)
  {
    hide And, Or, Drop, Fits, Apart;
    KeepMask(p);
    DropApart(p, SELECTOR_MASK, mask);
  }

  lemma {:induction false} SelectApart(p: bv32, s: bv32, mask: bv32)
    requires Fits(s, SELECTOR_MASK) && Apart(mask, SELECTOR_MASK)
    ensures And(Or(And(p, KEEP_MASK), s), mask) == And(p, mask)
  {
    hide And, Or, Drop, Fits, Apart;
    ClearApart(p, mask);
    SetApart(And(p, KEEP_MASK), s, SELECTOR_MASK, mask);
  }

  /** What an owner's own write leaves in its field depends on nothing but the field. */
  lemma {:induction false} OwnWrite(l: Layout, w: Write, mask: bv32, m: State, n: State)
    requires Generated(l, w) && And(m.packet, mask) == And(n.packet, mask)
    ensures And(Apply(l, w, m).packet, mask) == And(Apply(l, w, n).packet, mask)
  {
    hide And, Or, Drop, Fits;
    KeepMask(m.packet);
    KeepMask(n.packet);
    match w {
      case Route => OrSame(m.packet, n.packet, l.routingMark, mask);
      case Select(s) => DropOrSame(m.packet, n.packet, SELECTOR_MASK, s, mask);
      case SelectReply(s) => DropOrSame(m.packet, n.packet, SELECTOR_MASK, s, mask);
      case Clear => DropOrSame(m.packet, n.packet, SELECTOR_MASK, 0, mask);
      case Desync(i) => OrSame(m.packet, n.packet, l.profiles[i], mask);
      case Egress(i) => DropOrSame(m.packet, n.packet, l.wans[i].mask, l.wans[i].mark, mask);
    }
  }

  lemma {:induction false} OrSame(p: bv32, q: bv32, mark: bv32, mask: bv32)
    requires And(p, mask) == And(q, mask)
    ensures And(Or(p, mark), mask) == And(Or(q, mark), mask)
  {
    hide And, Or;
    Distribute(p, mark, mask);
    Distribute(q, mark, mask);
  }

  lemma {:induction false} DropOrSame(p: bv32, q: bv32, own: bv32, mark: bv32, mask: bv32)
    requires And(p, mask) == And(q, mask)
    ensures And(Drop(p, own), mask) == And(Drop(q, own), mask)
    ensures And(Or(Drop(p, own), mark), mask) == And(Or(Drop(q, own), mark), mask)
  {
    hide And, Or, Drop;
    DropInside(p, own, mask);
    DropInside(q, own, mask);
    OrSame(Drop(p, own), Drop(q, own), mark, mask);
  }

  /** The writes of one owner, in order. */
  function Own(ws: seq<Write>, owner: Owner): seq<Write> {
    if ws == [] then []
    else Own(ws[..|ws| - 1], owner) + if OwnerOf(ws[|ws| - 1]) == owner then [ws[|ws| - 1]] else []
  }

  lemma {:induction false} OwnGenerated(l: Layout, ws: seq<Write>, owner: Owner)
    requires AllGenerated(l, ws)
    ensures AllGenerated(l, Own(ws, owner))
  {
    hide Generated;
    if ws != [] {
      OwnGenerated(l, ws[..|ws| - 1], owner);
    }
  }

  /** After the run the field reads as if the other owners had written nothing. */
  predicate Undisturbed(l: Layout, ws: seq<Write>, owner: Owner, mask: bv32, m: State)
    requires AllGenerated(l, ws)
  {
    OwnGenerated(l, ws, owner);
    And(Run(l, ws, m).packet, mask) == And(Run(l, Own(ws, owner), m).packet, mask)
  }

  /** So it is after any run, for every owner and field. */
  lemma {:induction false} NonInterference(l: Layout, ws: seq<Write>, owner: Owner, mask: bv32, m: State)
    requires Accepted(l) && RoutingApart(l) && AllGenerated(l, ws) && FieldOf(l, owner, mask)
    ensures Undisturbed(l, ws, owner, mask, m)
  {
    hide Apply, FieldOf, Accepted, Generated, And, RoutingApart;
    OwnGenerated(l, ws, owner);
    if ws != [] {
      var front, w := ws[..|ws| - 1], ws[|ws| - 1];
      OwnGenerated(l, front, owner);
      NonInterference(l, front, owner, mask, m);
      var r := Run(l, front, m);
      if OwnerOf(w) == owner {
        var mine := Own(front, owner);
        assert (mine + [w])[..|mine|] == mine;
        OwnWrite(l, w, mask, r, Run(l, mine, m));
      } else {
        assert Own(ws, owner) == Own(front, owner);
        if w.Route? { RouteDisjoint(l, owner, mask); }
        ForeignWrite(l, w, owner, mask, r);
      }
    }
  }

  /** No write of another owner is ever seen in any field. */
  ghost predicate AlwaysUndisturbed(l: Layout) {
    forall ws: seq<Write>, owner: Owner, mask: bv32, m: State ::
      AllGenerated(l, ws) && FieldOf(l, owner, mask) ==> Undisturbed(l, ws, owner, mask, m)
  }

  /** Of an accepted layout that holds exactly when the routing mark is apart from every other owner's field. */
  lemma {:induction false} UndisturbedExactly(l: Layout)
    requires Accepted(l)
    ensures AlwaysUndisturbed(l) <==> RoutingApart(l)
    ensures RoutingFits(l) ==> RoutingApart(l)
  {
    hide Undisturbed, Accepted, And, Generated;
    if RoutingApart(l) {
      forall ws: seq<Write>, owner: Owner, mask: bv32, m: State | AllGenerated(l, ws) && FieldOf(l, owner, mask)
        ensures Undisturbed(l, ws, owner, mask, m)
      {
        NonInterference(l, ws, owner, mask, m);
      }
    } else {
      var owner, mask := RouteMeets(l);
      RouteGenerated(l);
      RouteDisturbs(l, owner, mask);
      assert !Undisturbed(l, [Route], owner, mask, State(0, 0));
    }
    if RoutingFits(l) { FittingIsApart(l); }
  }

  /** A field of another owner that the routing mark meets. */
  lemma {:induction false} RouteMeets(l: Layout) returns (owner: Owner, mask: bv32)
    requires !RoutingApart(l)
    ensures owner != Routing && FieldOf(l, owner, mask) && !Apart(l.routingMark, mask)
  {
    hide And;
    if l.profiles != [] && !Apart(l.routingMark, SELECTOR_MASK) {
      owner, mask := Selector, SELECTOR_MASK;
    } else if i :| 0 <= i < |l.profiles| && !Apart(l.routingMark, l.profiles[i]) {
      owner, mask := Profiles, l.profiles[i];
    } else {
      var i :| 0 <= i < |l.wans| && !Apart(l.routingMark, l.wans[i].mask);
      owner, mask := Wans, l.wans[i].mask;
    }
  }

  lemma {:induction false} RouteGenerated(l: Layout)
    ensures AllGenerated(l, [Route])
  {
  }

  lemma {:induction false} RouteDisturbs(l: Layout, owner: Owner, mask: bv32)
    requires owner != Routing && !Apart(l.routingMark, mask) && AllGenerated(l, [Route])
    ensures !Undisturbed(l, [Route], owner, mask, State(0, 0))
  {
    hide And, Or;
    assert [Route][..0] == [];
    OwnGenerated(l, [Route], owner);
    OrApart(0, l.routingMark, mask);
  }

  /** A routing mark inside its own mask is apart from every other field. */
  lemma {:induction false} FittingIsApart(l: Layout)
    requires Accepted(l) && RoutingFits(l)
    ensures RoutingApart(l)
  {
    hide And, Drop;
    if l.profiles != [] { InsideApart(l.routingMark, l.routingMask, SELECTOR_MASK); }
    forall i | 0 <= i < |l.profiles| ensures Apart(l.routingMark, l.profiles[i]) {
      ApartCommutes(l.profiles[i], l.routingMask);
      InsideApart(l.routingMark, l.routingMask, l.profiles[i]);
    }
    forall i | 0 <= i < |l.wans| ensures Apart(l.routingMark, l.wans[i].mask) {
      assert WanApart(l, l.wans[i]);
      ApartCommutes(l.wans[i].mask, l.routingMask);
      InsideApart(l.routingMark, l.routingMask, l.wans[i].mask);
    }
  }

  // ----- reading back -----

  /** What each write leaves in its own field. */
  predicate ReadsBack(l: Layout, w: Write, packet: bv32)
    requires Generated(l, w)
  {
    match w
    case Route => And(packet, l.routingMask) == l.routingMark
    case Select(s) => And(packet, SELECTOR_MASK) == s
    case SelectReply(s) => And(packet, SELECTOR_MASK) == s
    case Clear => And(packet, SELECTOR_MASK) == 0
    case Desync(i) => And(packet, l.profiles[i]) == l.profiles[i]
    case Egress(i) => And(packet, l.wans[i].mask) == l.wans[i].mark
  }

  /** The routing field holds nothing but bits of the routing mark. */
  predicate RoutingClean(l: Layout, m: State) { Fits(And(m.packet, l.routingMask), l.routingMark) }

  lemma {:induction false} WriteReadsBack(l: Layout, w: Write, m: State)
    requires WansFit(l.wans) && Generated(l, w)
    ensures ReadsBack(l, w, Apply(l, w, m).packet) <==> w.Route? ==> RoutingFits(l) && RoutingClean(l, m)
  {
    hide And, Or, Drop, Fits;
    var p := m.packet;
    KeepMask(p);
    match w {
      case Route =>
        SetReads(p, l.routingMark, l.routingMask);
      case Select(s) => ReplaceReads(p, s, SELECTOR_MASK);
      case SelectReply(s) => ReplaceReads(p, s, SELECTOR_MASK);
      case Clear => DropAll(p, SELECTOR_MASK);
      case Desync(i) => OrAbsorbs(p, l.profiles[i]);
      case Egress(i) => ReplaceReads(p, l.wans[i].mark, l.wans[i].mask);
    }
  }

  lemma {:induction false} ReplaceReads(p: bv32, mark: bv32, mask: bv32)
    requires Fits(mark, mask)
    ensures And(Or(Drop(p, mask), mark), mask) == mark
  {
    hide And, Or, Drop, Fits;
    Distribute(Drop(p, mask), mark, mask);
    DropAll(p, mask);
    FitsWhenKept(mark, mask);
    OrUnits(mark);
  }

  /** A run leaves the routing field clean exactly when it was. */
  lemma {:induction false} RoutingStaysClean(l: Layout, ws: seq<Write>, m: State)
    requires Accepted(l) && AllGenerated(l, ws)
    ensures RoutingClean(l, Run(l, ws, m)) <==> RoutingClean(l, m)
  {
    hide Apply, Generated, And, Fits, ProfilesApart, SelectorApart, WansApart, WansFit;
    if ws != [] {
      var front, w := ws[..|ws| - 1], ws[|ws| - 1];
      RoutingStaysClean(l, front, m);
      var r := Run(l, front, m);
      if w.Route? {
        RouteKeepsClean(l, r);
      } else {
        ForeignWrite(l, w, Routing, l.routingMask, r);
      }
    }
  }

  lemma {:induction false} RouteKeepsClean(l: Layout, m: State)
    requires Generated(l, Route)
    ensures RoutingClean(l, Apply(l, Route, m)) <==> RoutingClean(l, m)
  {
    hide And, Or, Drop, Fits;
    SetFits(m.packet, l.routingMark, l.routingMask);
  }

  /** The bits a write is read back from. */
  function MaskOf(l: Layout, w: Write): bv32
    requires Generated(l, w)
  {
    match w
    case Route => l.routingMask
    case Select(_) => SELECTOR_MASK
    case SelectReply(_) => SELECTOR_MASK
    case Clear => SELECTOR_MASK
    case Desync(i) => l.profiles[i]
    case Egress(i) => l.wans[i].mask
  }

  lemma {:induction false} MaskIsAField(l: Layout, w: Write)
    requires Generated(l, w)
    ensures FieldOf(l, OwnerOf(w), MaskOf(l, w))
  {
  }

  lemma {:induction false} ReadsFromItsMask(l: Layout, w: Write, p: bv32, q: bv32)
    requires Generated(l, w) && And(p, MaskOf(l, w)) == And(q, MaskOf(l, w))
    ensures ReadsBack(l, w, p) <==> ReadsBack(l, w, q)
  {
    hide And;
  }

  /** The routing mark, if it is among the writes, is apart from the mask. */
  predicate RouteSpares(l: Layout, ws: seq<Write>, mask: bv32) {
    forall i :: 0 <= i < |ws| && ws[i].Route? ==> Apart(l.routingMark, mask)
  }

  /** A write still reads back after any further writes of other owners; a routing mark, as exactly as it ever does. */
  lemma {:induction false} LastWriteReadsBack(l: Layout, before: seq<Write>, w: Write, after: seq<Write>, m: State)
    requires Accepted(l) && Generated(l, w) && AllGenerated(l, before + [w] + after)
    requires forall i :: 0 <= i < |after| ==> OwnerOf(after[i]) != OwnerOf(w)
    requires RouteSpares(l, after, MaskOf(l, w))
    ensures ReadsBack(l, w, Run(l, before + [w] + after, m).packet)
            <==> w.Route? ==> RoutingFits(l) && RoutingClean(l, m)
    decreases |after|
  {
    hide Apply, Generated, ReadsBack, And, MaskOf, FieldOf, RoutingFits, Apart, RoutingClean, ProfilesApart,
        SelectorApart, WansApart, WansFit;
    var ws := before + [w] + after;
    assert ws[|before|] == w;
    if after == [] {
      assert ws[..|ws| - 1] == before;
      RoutingStaysClean(l, before, m);
      WriteReadsBack(l, w, Run(l, before, m));
    } else {
      var last, rest := after[|after| - 1], after[..|after| - 1];
      assert ws[..|ws| - 1] == before + [w] + rest && ws[|ws| - 1] == last;
      LastWriteReadsBack(l, before, w, rest, m);
      var r := Run(l, ws[..|ws| - 1], m);
      MaskIsAField(l, w);
      ForeignWrite(l, last, OwnerOf(w), MaskOf(l, w), r);
      ReadsFromItsMask(l, w, r.packet, Apply(l, last, r).packet);
    }
  }

  // ----- the assumption that no validator checks -----

  /** The routing mark reads back exactly when it fits its mask and the field held nothing else. */
  lemma {:induction false} RoutingReadsBackExactly(l: Layout, m: State)
    ensures ReadsBack(l, Route, Apply(l, Route, m).packet) <==> RoutingFits(l) && RoutingClean(l, m)
  {
    hide And, Or, Fits;
    SetReads(m.packet, l.routingMark, l.routingMask);
  }

  /** An accepted layout whose routing mark spills into the selector byte. */
  lemma {:induction false} SpillingMarkInterferes()
    ensures var l := Layout(0x0001_0001, 0x0000_00ff, [0x4000_0000], []);
            && Accepted(l) && !RoutingApart(l)
            && And(Apply(l, Route, State(0, 0)).packet, SELECTOR_MASK) != 0
  {
  }

  /** An accepted layout and a packet with another bit in the routing field: the mark does not read back. */
  lemma {:induction false} ForeignBitMisreads()
    ensures var l, m := Layout(0x1, 0xff, [], []), State(0x2, 0);
            && Accepted(l) && RoutingFits(l) && !RoutingClean(l, m) && !ReadsBack(l, Route, Apply(l, Route, m).packet)
  {
  }

  // ----- the connection mark -----

  /** The selector of the last write that sets the connection mark. */
  function LastSelect(ws: seq<Write>): Option<bv32> {
    if ws == [] then None
    else
      var w := ws[|ws| - 1];
      if w.Select? then Some(w.selector) else LastSelect(ws[..|ws| - 1])
  }

  /** Over any run the connection mark changes in the selector byte alone, and there it holds the last selector. */
  lemma {:induction false} ConnHoldsLastSelect(l: Layout, ws: seq<Write>, m: State)
    requires AllGenerated(l, ws)
    ensures And(Run(l, ws, m).conn, KEEP_MASK) == And(m.conn, KEEP_MASK)
    ensures And(Run(l, ws, m).conn, SELECTOR_MASK)
            == match LastSelect(ws) case Some(s) => s case None => And(m.conn, SELECTOR_MASK)
  {
    hide And, Or, Drop, Fits;
    if ws != [] {
      var front, w := ws[..|ws| - 1], ws[|ws| - 1];
      ConnHoldsLastSelect(l, front, m);
      if w.Select? {
        var c := Run(l, front, m).conn;
        KeepMask(c);
        ReplaceReads(c, w.selector, SELECTOR_MASK);
        KeepReads(c, w.selector);
      }
    }
  }

  lemma {:induction false} KeepReads(c: bv32, s: bv32)
    requires Fits(s, SELECTOR_MASK)
    ensures And(Or(And(c, KEEP_MASK), s), KEEP_MASK) == And(c, KEEP_MASK)
  {
  }

  // ----- selectors are numbers -----

  /** A byte as a word. */
  function Word(n: nat): (k: bv32)
    requires n <= 255
    ensures k <= 255 && k as nat == n
  {
    if n == 0 then 0 else NextWord(Word(n - 1))
  }

  function NextWord(k: bv32): (r: bv32)
    requires k < 255
    ensures r <= 255 && r as nat == k as nat + 1
  {
    k + 1
  }

  /** The n-th selector: n in the selector byte. */
  function SelectorMark(n: nat): bv32
    requires n <= 255
  {
    Word(n) << 16
  }

  /** The compiled selector n * 0x10000 as a mark lies inside the selector byte. */
  lemma {:induction false} SelectorsFit(n: nat)
    requires n <= 255
    ensures Fits(SelectorMark(n), SELECTOR_MASK) && SelectorMark(n) as nat == n * 0x1_0000
  {
    ShiftedByte(Word(n));
  }

  lemma {:induction false} ShiftedByte(k: bv32)
    requires k <= 255
    ensures Fits(k << 16, SELECTOR_MASK) && (k << 16) as nat == (k as nat) * 0x1_0000
  {
  }

  /** A selected packet carries exactly its own selector, whatever other owners write after it. */
  lemma {:induction false} SelectorTellsStrategy(l: Layout, before: seq<Write>, n: nat, after: seq<Write>, m: State,
      k: nat)
    requires Accepted(l) && RouteSpares(l, after, SELECTOR_MASK) && n <= 255 && k <= 255
    requires AllGenerated(l, before + [Select(SelectorMark(n))] + after)
    requires forall i :: 0 <= i < |after| ==> OwnerOf(after[i]) != Selector
    ensures var end := Run(l, before + [Select(SelectorMark(n))] + after, m);
      && (And(end.packet, SELECTOR_MASK) == SelectorMark(k) <==> k == n)
      && (And(end.conn, SELECTOR_MASK) == SelectorMark(k) <==> k == n)
  {
    hide And, Or, Drop, Fits, Accepted, RouteSpares, Run, SelectorMark, Word;
    var w := Select(SelectorMark(n));
    var ws := before + [w] + after;
    assert ws[|before|] == w;
    LastWriteReadsBack(l, before, w, after, m);
    ConnHoldsLastSelect(l, ws, m);
    LastSelectIs(before, w, after);
    SelectorsFit(n);
    SelectorsFit(k);
  }

  lemma {:induction false} LastSelectIs(before: seq<Write>, w: Write, after: seq<Write>)
    requires w.Select? && forall i :: 0 <= i < |after| ==> OwnerOf(after[i]) != Selector
    ensures LastSelect(before + [w] + after) == Some(w.selector)
    decreases |after|
  {
    var ws := before + [w] + after;
    if after != [] {
      assert ws[..|ws| - 1] == before + [w] + after[..|after| - 1];
      LastSelectIs(before, w, after[..|after| - 1]);
    }
  }
}

/** The packet part of the animation trace parser: transmissions by reference, and what expanding
    the references into full records changes. */
module TraceParser {
  /** A packet record as it stands in the trace. */
  datatype Packet = Packet(fromId: nat, toId: nat, fbTx: real, lbTx: real, fbRx: real, lbRx: real, meta: string)

  /** pr, wpr, wp and p elements; everything else does not touch packets. */
  datatype Element =
    | TxRef(uid: nat, fromId: nat, fbTx: real, lbTx: real, meta: string)
    | WRxRef(uid: nat, toId: nat, fbRx: real, lbRx: real)
    | WRx(packet: Packet)
    | Rx(packet: Packet)
    | Other

  datatype Event = PacketEvent(packet: Packet, isWpacket: bool, slots: nat) | WiredPacketUpdate

  datatype Timed = Timed(time: real, event: Event)

  datatype Ref = Ref(fromId: nat, fbTx: real, lbTx: real, meta: string)

  datatype State = State(
    refs: map<nat, Ref>, events: seq<Timed>, count: nat,
    maxTime: real, firstTime: real, lastTime: real, thousandthTime: real)

  const WIRELESS_SLOTS: nat := 3
  const WIRED_SLOTS: nat := 4

  const INITIAL := State(map[], [], 0, 0.0, 65535.0, -1.0, -1.0)

  function Max(a: real, b: real): real {
    if a < b then b else a
  }

  function Min(a: real, b: real): real {
    if b < a then b else a
  }

  function OrNull(meta: string): string {
    if meta == "" then "null" else meta
  }

  /** What the attribute parser makes of a full record. */
  function ParseGeneric(p: Packet): Packet {
    p.(lbRx := if p.lbRx == 0.0 && p.fbRx != 0.0 then p.fbRx else p.lbRx, meta := OrNull(p.meta))
  }

  /** Update number i of a wired packet: the packet's flight in equal steps. */
  function UpdateTime(p: Packet, i: nat): real {
    p.fbTx + i as real * ((p.fbRx - p.fbTx) / WIRED_SLOTS as real)
  }

  function Updates(p: Packet, n: nat): seq<Timed> {
    if n == 0 then [] else Updates(p, n - 1) + [Timed(UpdateTime(p, n), WiredPacketUpdate)]
  }

  function Emissions(p: Packet, isWpacket: bool): seq<Timed> {
    if p.fromId == p.toId then []
    else [Timed(p.fbTx, PacketEvent(p, isWpacket, WIRELESS_SLOTS))]
         + if isWpacket then [] else Updates(p, WIRED_SLOTS)
  }

  function Receive(s: State, p: Packet, isWpacket: bool): State {
    var seen := s.(firstTime := Min(s.firstTime, p.fbTx));
    if p.fromId == p.toId then seen
    else seen.(
      events := s.events + Emissions(p, isWpacket), count := s.count + 1, lastTime := p.fbRx,
      thousandthTime := if s.count + 1 == 50 then p.fbRx else s.thousandthTime)
  }

  function Resolved(r: Ref, toId: nat, fbRx: real, lbRx: real): Packet {
    Packet(r.fromId, toId, r.fbTx, r.lbTx, fbRx, lbRx, r.meta)
  }

  predicate Resolvable(s: State, e: Element) {
    e.WRxRef? ==> e.uid in s.refs
  }

  /** Parsing and handling one element. A reference to an unknown uid reads uninitialised fields in
      the source and is not given a meaning here. */
  function Handle(s: State, e: Element): State
    requires Resolvable(s, e)
  {
    match e
    case Other => s
    case TxRef(uid, fromId, fbTx, lbTx, meta) =>
      s.(maxTime := Max(s.maxTime, lbTx), refs := s.refs[uid := Ref(fromId, fbTx, lbTx, OrNull(meta))])
    case WRxRef(uid, toId, fbRx, lbRx) =>
      Receive(s.(maxTime := Max(s.maxTime, lbRx)), Resolved(s.refs[uid], toId, fbRx, lbRx), true)
    case WRx(p) =>
      var q := ParseGeneric(p);
      Receive(s.(maxTime := Max(Max(s.maxTime, q.lbTx), q.lbRx)), q, true)
    case Rx(p) =>
      var q := ParseGeneric(p);
      Receive(s.(maxTime := Max(Max(s.maxTime, q.lbTx), q.lbRx)), q, false)
  }

  /** The latest pr element with a given uid. */
  function LatestRef(es: seq<Element>, uid: nat): (r: int)
    ensures -1 <= r < |es|
    ensures r >= 0 ==> es[r].TxRef? && es[r].uid == uid
    ensures forall k :: r < k < |es| ==> !(es[k].TxRef? && es[k].uid == uid)
  {
    if es == [] then -1
    else if es[|es| - 1].TxRef? && es[|es| - 1].uid == uid then |es| - 1
    else LatestRef(es[..|es| - 1], uid)
  }

  /** Each wpr follows a pr with its uid. */
  predicate Referenced(es: seq<Element>) {
    es == [] ||
    (Referenced(es[..|es| - 1]) &&
     (es[|es| - 1].WRxRef? ==> LatestRef(es[..|es| - 1], es[|es| - 1].uid) >= 0))
  }

  /** What the parser stores for a uid is the latest pr with that uid. */
  ghost predicate StoresLatest(s: State, es: seq<Element>) {
    forall uid: nat ::
      var r := LatestRef(es, uid);
      (uid in s.refs <==> r >= 0)
      && (r >= 0 ==> s.refs[uid] == Ref(es[r].fromId, es[r].fbTx, es[r].lbTx, OrNull(es[r].meta))
                     && es[r].lbTx <= s.maxTime)
  }

  function Parse(es: seq<Element>): State {
    if es == [] then INITIAL
    else
      var s, e := Parse(es[..|es| - 1]), es[|es| - 1];
      if Resolvable(s, e) then Handle(s, e) else s
  }

  lemma LatestSnoc(es: seq<Element>, e: Element, uid: nat)
    ensures LatestRef(es + [e], uid) == if e.TxRef? && e.uid == uid then |es| else LatestRef(es, uid)
  {
    assert (es + [e])[..|es + [e]| - 1] == es;
  }

  lemma HandleStores(s: State, es: seq<Element>, e: Element)
    requires StoresLatest(s, es) && Resolvable(s, e)
    ensures StoresLatest(Handle(s, e), es + [e])
  {
    var t, more := Handle(s, e), es + [e];
    forall uid: nat
      ensures var r := LatestRef(more, uid);
        (uid in t.refs <==> r >= 0)
        && (r >= 0 ==> t.refs[uid] == Ref(more[r].fromId, more[r].fbTx, more[r].lbTx, OrNull(more[r].meta))
                       && more[r].lbTx <= t.maxTime)
    {
      LatestSnoc(es, e, uid);
    }
  }

  lemma {:induction false} ParseStores(es: seq<Element>)
    requires Referenced(es)
    ensures StoresLatest(Parse(es), es)
    ensures es != [] ==> Resolvable(Parse(es[..|es| - 1]), es[|es| - 1])
  {
    if es == [] {
    } else {
      var init := es[..|es| - 1];
      ParseStores(init);
      HandleStores(Parse(init), init, es[|es| - 1]);
      assert es == init + [es[|es| - 1]];
    }
  }

  // ------------------------------------------------------------ expansion

  /** The wp element that carries the fields of the pr a wpr refers to. */
  function ExpandOne(es: seq<Element>, e: Element): Element
    requires e.WRxRef? ==> LatestRef(es, e.uid) >= 0
  {
    if e.WRxRef? then
      var r := es[LatestRef(es, e.uid)];
      WRx(Packet(r.fromId, e.toId, r.fbTx, r.lbTx, e.fbRx, e.lbRx, r.meta))
    else e
  }

  function Expand(es: seq<Element>): (r: seq<Element>)
    requires Referenced(es)
    ensures |r| == |es|
  {
    if es == [] then [] else Expand(es[..|es| - 1]) + [ExpandOne(es[..|es| - 1], es[|es| - 1])]
  }

  /** A wpr without a last-bit time but with a first-bit time: the full form would repair it. */
  predicate NeedsRepair(e: Element) {
    e.WRxRef? && e.lbRx == 0.0 && e.fbRx != 0.0
  }

  lemma {:induction false} ExpandKeepsRefs(es: seq<Element>, uid: nat)
    requires Referenced(es)
    ensures LatestRef(Expand(es), uid) == LatestRef(es, uid)
    ensures LatestRef(es, uid) >= 0 ==> Expand(es)[LatestRef(es, uid)] == es[LatestRef(es, uid)]
  {
    if es == [] {
    } else {
      ExpandKeepsRefs(es[..|es| - 1], uid);
      assert Expand(es)[..|es| - 1] == Expand(es[..|es| - 1]);
    }
  }

  lemma {:induction false} ExpandIsReferenced(es: seq<Element>)
    requires Referenced(es)
    ensures Referenced(Expand(es))
  {
    if es == [] {
    } else {
      ExpandIsReferenced(es[..|es| - 1]);
      assert Expand(es)[..|es| - 1] == Expand(es[..|es| - 1]);
    }
  }

  /** Expansion preserves meaning: if no wpr needs repair, the whole parser state is the same, all timed
      events, counters and times included. */
  lemma {:induction false} ExpansionPreservesState(es: seq<Element>)
    requires Referenced(es) && forall i :: 0 <= i < |es| ==> !NeedsRepair(es[i])
    ensures Parse(Expand(es)) == Parse(es)
  {
    if es == [] {
    } else {
      var init, e := es[..|es| - 1], es[|es| - 1];
      ExpansionPreservesState(init);
      ParseStores(init);
      ParseStores(es);
      assert Expand(es)[..|es| - 1] == Expand(init);
    }
  }

  /** A reference whose repair would show: its packet is emitted at all. */
  predicate RepairShows(es: seq<Element>, e: Element)
    requires e.WRxRef? ==> LatestRef(es, e.uid) >= 0
  {
    NeedsRepair(e) && es[LatestRef(es, e.uid)].fromId != e.toId
  }

  predicate NoRepairShows(es: seq<Element>)
    requires Referenced(es)
  {
    es == [] || (NoRepairShows(es[..|es| - 1]) && !RepairShows(es[..|es| - 1], es[|es| - 1]))
  }

  lemma SameEnds(a: seq<Timed>, b: seq<Timed>, x: seq<Timed>, y: seq<Timed>)
    requires |a| == |b| && |x| == |y|
    ensures a + x == b + y <==> a == b && x == y
  {
    if a + x == b + y {
      assert (a + x)[..|a|] == a && (b + y)[..|b|] == b;
      assert (a + x)[|a|..] == x && (b + y)[|b|..] == y;
    }
  }

  /** The events one element adds. */
  function Added(s: State, e: Element): seq<Timed>
    requires Resolvable(s, e)
  {
    match e
    case WRxRef(uid, toId, fbRx, lbRx) => Emissions(Resolved(s.refs[uid], toId, fbRx, lbRx), true)
    case WRx(p) => Emissions(ParseGeneric(p), true)
    case Rx(p) => Emissions(ParseGeneric(p), false)
    case Other => []
    case TxRef(_, _, _, _, _) => []
  }

  lemma HandleAdds(s: State, e: Element)
    requires Resolvable(s, e)
    ensures Handle(s, e).events == s.events + Added(s, e)
  {
  }

  lemma AddedByExpansion(s: State, t: State, es: seq<Element>, e: Element)
    requires StoresLatest(s, es) && Resolvable(s, e) && t.refs == s.refs
    ensures e.WRxRef? ==> LatestRef(es, e.uid) >= 0
    ensures |Added(t, ExpandOne(es, e))| == |Added(s, e)|
    ensures Added(t, ExpandOne(es, e)) == Added(s, e) <==> !RepairShows(es, e)
    ensures Handle(t, ExpandOne(es, e)).refs == Handle(s, e).refs
  {
    if e.WRxRef? {
      var r := LatestRef(es, e.uid);
      assert s.refs[e.uid] == Ref(es[r].fromId, es[r].fbTx, es[r].lbTx, OrNull(es[r].meta));
      if RepairShows(es, e) {
        assert Added(t, ExpandOne(es, e))[0].event.packet.lbRx != Added(s, e)[0].event.packet.lbRx;
      }
    }
  }

  lemma {:induction false} EventsOfExpansion(es: seq<Element>)
    requires Referenced(es)
    ensures Parse(Expand(es)).refs == Parse(es).refs
    ensures |Parse(Expand(es)).events| == |Parse(es).events|
    ensures Parse(Expand(es)).events == Parse(es).events <==> NoRepairShows(es)
  {
    if es == [] {
    } else {
      var init, e := es[..|es| - 1], es[|es| - 1];
      var s, t, x := Parse(init), Parse(Expand(init)), ExpandOne(init, e);
      EventsOfExpansion(init);
      ParseStores(init);
      ParseStores(es);
      AddedByExpansion(s, t, init, e);
      assert Expand(es)[..|es| - 1] == Expand(init);
      HandleAdds(s, e);
      HandleAdds(t, x);
      SameEnds(t.events, s.events, Added(t, x), Added(s, e));
    }
  }

  /** The exact boundary: the timed events are those of the expanded stream if and only if no emitted
      packet comes from a wpr that lacks its last-bit time while it has a first-bit time. */
  lemma ExpansionPreservesEventsIff(es: seq<Element>)
    requires Referenced(es)
    ensures Parse(Expand(es)).events == Parse(es).events <==> NoRepairShows(es)
  {
    EventsOfExpansion(es);
  }

  /** A reference without a last-bit reception: as it stands its packet is emitted with 0, expanded
      with the first-bit reception. */
  lemma MissingLastBitShows()
    ensures
      var es := [TxRef(7, 1, 1.0, 2.0, "m")] + [WRxRef(7, 2, 3.0, 0.0)];
      && Referenced(es) && !NoRepairShows(es)
      && Parse(es).events != Parse(Expand(es)).events
  {
    var tx, rx := TxRef(7, 1, 1.0, 2.0, "m"), WRxRef(7, 2, 3.0, 0.0);
    var es := [tx] + [rx];
    assert es[..|es| - 1] == [tx] && [tx][..0] == [];
    assert LatestRef([tx], 7) == 0;
    assert RepairShows([tx], rx);
    ExpansionPreservesEventsIff(es);
  }

  /** Updates are one step apart. */
  lemma {:induction false} UpdatesAt(p: Packet, n: nat, i: nat)
    requires i < n
    ensures |Updates(p, n)| == n && Updates(p, n)[i] == Timed(UpdateTime(p, i + 1), WiredPacketUpdate)
  {
    if n == 1 {
    } else {
      UpdatesAt(p, n - 1, if i < n - 1 then i else 0);
    }
  }

  /** A wireless packet between different nodes is one event, at its first-bit transmission. */
  lemma WirelessPacketEvent(p: Packet)
    requires p.fromId != p.toId
    ensures Emissions(p, true) == [Timed(p.fbTx, PacketEvent(p, true, 3))]
  {
  }

  /** A wired one is followed by its four updates. */
  lemma WiredPacketEvents(p: Packet, step: real)
    requires p.fromId != p.toId && step == (p.fbRx - p.fbTx) / 4.0
    ensures Emissions(p, false) == [Timed(p.fbTx, PacketEvent(p, false, 3))] + [
      Timed(p.fbTx + step, WiredPacketUpdate), Timed(p.fbTx + 2.0 * step, WiredPacketUpdate),
      Timed(p.fbTx + 3.0 * step, WiredPacketUpdate), Timed(p.fbTx + 4.0 * step, WiredPacketUpdate)]
  {
    UpdatesAt(p, WIRED_SLOTS, 0);
    UpdatesAt(p, WIRED_SLOTS, 1);
    UpdatesAt(p, WIRED_SLOTS, 2);
    UpdatesAt(p, WIRED_SLOTS, 3);
    var us := Updates(p, WIRED_SLOTS);
    assert us == [us[0], us[1], us[2], us[3]];
  }

  /** A wired packet between different nodes emits itself and exactly four updates, equally spaced
      from its first-bit transmission on, the last at its first-bit reception. */
  lemma WiredPacketUpdates(p: Packet)
    requires p.fromId != p.toId
    ensures var es := Emissions(p, false);
      && |es| == 5 && es[0] == Timed(p.fbTx, PacketEvent(p, false, WIRELESS_SLOTS))
      && (forall i :: 1 <= i < 5 ==> es[i].event == WiredPacketUpdate)
      && (forall i :: 0 <= i < 4 ==> es[i + 1].time - es[i].time == (p.fbRx - p.fbTx) / 4.0)
      && es[4].time == p.fbRx
  {
    WiredPacketEvents(p, (p.fbRx - p.fbTx) / 4.0);
  }

  lemma ParseSnoc(es: seq<Element>, e: Element)
    requires Referenced(es + [e])
    ensures Referenced(es) && StoresLatest(Parse(es), es) && Resolvable(Parse(es), e)
    ensures e.WRxRef? ==> LatestRef(es, e.uid) >= 0
    ensures Parse(es + [e]) == Handle(Parse(es), e)
  {
    assert (es + [e])[..|es + [e]| - 1] == es;
    ParseStores(es);
    ParseStores(es + [e]);
  }

  /** What each element adds to the timed events, in terms of the elements. A `pr` or an unrelated element
      adds nothing. */
  lemma OthersAddNothing(es: seq<Element>, e: Element)
    requires Referenced(es + [e]) && (e.Other? || e.TxRef?)
    ensures Parse(es + [e]).events == Parse(es).events
  {
    ParseSnoc(es, e);
  }

  /** A `wpr` between different nodes adds its packet with the fields of the latest `pr` of its uid, at the
      first-bit transmission of that. */
  lemma ReferenceAdds(es: seq<Element>, e: Element, tx: Element)
    requires Referenced(es + [e]) && e.WRxRef?
    requires LatestRef(es, e.uid) >= 0 && tx == es[LatestRef(es, e.uid)]
    ensures var meta := if tx.meta == "" then "null" else tx.meta;
      var p := Packet(tx.fromId, e.toId, tx.fbTx, tx.lbTx, e.fbRx, e.lbRx, meta);
      Parse(es + [e]).events
        == Parse(es).events + if tx.fromId == e.toId then [] else [Timed(tx.fbTx, PacketEvent(p, true, 3))]
  {
    ParseSnoc(es, e);
    HandleAdds(Parse(es), e);
  }

  /** A `wp` between different nodes adds its packet at its own first-bit transmission. */
  lemma WirelessAdds(es: seq<Element>, e: Element)
    requires Referenced(es + [e]) && e.WRx?
    ensures var p := e.packet;
      var meta := if p.meta == "" then "null" else p.meta;
      var q := p.(lbRx := if p.lbRx == 0.0 && p.fbRx != 0.0 then p.fbRx else p.lbRx, meta := meta);
      Parse(es + [e]).events
        == Parse(es).events + if p.fromId == p.toId then [] else [Timed(p.fbTx, PacketEvent(q, true, 3))]
  {
    ParseSnoc(es, e);
    HandleAdds(Parse(es), e);
  }

  /** A `p` adds its four updates as well, one quarter of the flight apart. */
  lemma WiredAdds(es: seq<Element>, e: Element, step: real)
    requires Referenced(es + [e]) && e.Rx? && step == (e.packet.fbRx - e.packet.fbTx) / 4.0
    ensures var p := e.packet;
      var meta := if p.meta == "" then "null" else p.meta;
      var q := p.(lbRx := if p.lbRx == 0.0 && p.fbRx != 0.0 then p.fbRx else p.lbRx, meta := meta);
      Parse(es + [e]).events == Parse(es).events +
        if p.fromId == p.toId then []
        else [Timed(p.fbTx, PacketEvent(q, false, 3))] + [
          Timed(p.fbTx + step, WiredPacketUpdate), Timed(p.fbTx + 2.0 * step, WiredPacketUpdate),
          Timed(p.fbTx + 3.0 * step, WiredPacketUpdate), Timed(p.fbTx + 4.0 * step, WiredPacketUpdate)]
  {
    ParseSnoc(es, e);
    HandleAdds(Parse(es), e);
    if e.packet.fromId != e.packet.toId {
      WiredPacketEvents(ParseGeneric(e.packet), step);
    }
  }

  // ------------------------------------------------- counters and times

  function PacketsOf(events: seq<Timed>): seq<Packet> {
    if events == [] then []
    else PacketsOf(events[..|events| - 1])
         + if events[|events| - 1].event.PacketEvent? then [events[|events| - 1].event.packet] else []
  }

  lemma {:induction false} PacketsAppend(a: seq<Timed>, b: seq<Timed>)
    ensures PacketsOf(a + b) == PacketsOf(a) + PacketsOf(b)
  {
    if b == [] {
      assert a + b == a;
    } else {
      PacketsAppend(a, b[..|b| - 1]);
      assert (a + b)[..|a + b| - 1] == a + b[..|b| - 1];
    }
  }

  lemma {:induction false} NoPackets(p: Packet, n: nat)
    ensures PacketsOf(Updates(p, n)) == []
  {
    if n == 0 {
    } else {
      NoPackets(p, n - 1);
    }
  }

  lemma PacketsEmitted(p: Packet, isWpacket: bool)
    ensures PacketsOf(Emissions(p, isWpacket)) == if p.fromId == p.toId then [] else [p]
  {
    if p.fromId != p.toId {
      var first := [Timed(p.fbTx, PacketEvent(p, isWpacket, WIRELESS_SLOTS))];
      assert first[..0] == [] && PacketsOf(first) == [p];
      PacketsAppend(first, Updates(p, WIRED_SLOTS));
      NoPackets(p, WIRED_SLOTS);
      assert isWpacket ==> Emissions(p, isWpacket) == first;
    }
  }

  /** The counter and the last and the fiftieth reception, read off the packets emitted. */
  predicate CountsPackets(s: State, ps: seq<Packet>) {
    && s.count == |ps|
    && s.lastTime == (if ps == [] then -1.0 else ps[|ps| - 1].fbRx)
    && s.thousandthTime == (if |ps| < 50 then -1.0 else ps[49].fbRx)
  }

  lemma ReceiveCounts(s: State, p: Packet, isWpacket: bool)
    requires CountsPackets(s, PacketsOf(s.events))
    ensures CountsPackets(Receive(s, p, isWpacket), PacketsOf(Receive(s, p, isWpacket).events))
  {
    PacketsAppend(s.events, Emissions(p, isWpacket));
    PacketsEmitted(p, isWpacket);
  }

  lemma {:induction false} ParseCounts(es: seq<Element>)
    requires Referenced(es)
    ensures CountsPackets(Parse(es), PacketsOf(Parse(es).events))
  {
    if es == [] {
    } else {
      var init, e := es[..|es| - 1], es[|es| - 1];
      var s := Parse(init);
      ParseCounts(init);
      ParseStores(es);
      match e
      case Other =>
      case TxRef(_, _, _, _, _) =>
      case WRxRef(uid, toId, fbRx, lbRx) =>
        ReceiveCounts(s.(maxTime := Max(s.maxTime, lbRx)), Resolved(s.refs[uid], toId, fbRx, lbRx), true);
      case WRx(p) =>
        var q := ParseGeneric(p);
        ReceiveCounts(s.(maxTime := Max(Max(s.maxTime, q.lbTx), q.lbRx)), q, true);
      case Rx(p) =>
        var q := ParseGeneric(p);
        ReceiveCounts(s.(maxTime := Max(Max(s.maxTime, q.lbTx), q.lbRx)), q, false);
    }
  }

  /** x is the first-bit transmission of the packet that element i receives. */
  predicate StartsAt(es: seq<Element>, i: nat, x: real) {
    && i < |es|
    && if es[i].WRxRef? then LatestRef(es[..i], es[i].uid) >= 0 && x == es[LatestRef(es[..i], es[i].uid)].fbTx
       else (es[i].WRx? || es[i].Rx?) && x == es[i].packet.fbTx
  }

  /** x is a last-bit time that element e states or, if it lacks its reception, is given. */
  predicate EndsAt(e: Element, x: real) {
    match e
    case TxRef(_, _, _, lbTx, _) => x == lbTx
    case WRxRef(_, _, _, lbRx) => x == lbRx
    case WRx(p) => x == p.lbTx || x == if p.lbRx == 0.0 && p.fbRx != 0.0 then p.fbRx else p.lbRx
    case Rx(p) => x == p.lbTx || x == if p.lbRx == 0.0 && p.fbRx != 0.0 then p.fbRx else p.lbRx
    case Other => false
  }

  ghost predicate EarliestStart(es: seq<Element>, t: real) {
    && t <= 65535.0 && (forall i: nat, x :: StartsAt(es, i, x) ==> t <= x)
    && (t == 65535.0 || exists i: nat :: StartsAt(es, i, t))
  }

  ghost predicate LatestEnd(es: seq<Element>, t: real) {
    && t >= 0.0 && (forall i, x :: 0 <= i < |es| && EndsAt(es[i], x) ==> x <= t)
    && (t == 0.0 || exists i :: 0 <= i < |es| && EndsAt(es[i], t))
  }

  lemma StartsSnoc(es: seq<Element>, e: Element, i: nat, x: real)
    ensures StartsAt(es, i, x) ==> StartsAt(es + [e], i, x)
    ensures StartsAt(es + [e], i, x) ==> i == |es| || StartsAt(es, i, x)
  {
    if i < |es| {
      assert (es + [e])[..i] == es[..i];
    }
  }

  lemma EarliestSnoc(es: seq<Element>, e: Element, t: real, t': real)
    requires EarliestStart(es, t)
    requires forall x :: StartsAt(es + [e], |es|, x) ==> t' <= x
    requires t' == t || (t' < t && StartsAt(es + [e], |es|, t'))
    ensures EarliestStart(es + [e], t')
  {
    forall i: nat, x | StartsAt(es + [e], i, x) ensures t' <= x {
      StartsSnoc(es, e, i, x);
    }
    if t' == t != 65535.0 {
      var i: nat :| StartsAt(es, i, t);
      StartsSnoc(es, e, i, t);
    }
  }

  lemma LatestEndSnoc(es: seq<Element>, e: Element, t: real, t': real)
    requires LatestEnd(es, t)
    requires forall x :: EndsAt(e, x) ==> x <= t'
    requires t' == t || (t' > t && EndsAt(e, t'))
    ensures LatestEnd(es + [e], t')
  {
    var more := es + [e];
    forall i, x | 0 <= i < |more| && EndsAt(more[i], x) ensures x <= t' {
      assert i < |es| ==> more[i] == es[i];
    }
    if t' == t != 0.0 {
      var i :| 0 <= i < |es| && EndsAt(es[i], t);
      assert EndsAt(more[i], t);
    }
    assert more[|es|] == e;
  }

  lemma HandleStart(s: State, es: seq<Element>, e: Element)
    requires Resolvable(s, e) && StoresLatest(s, es) && EarliestStart(es, s.firstTime)
    ensures EarliestStart(es + [e], Handle(s, e).firstTime)
  {
    var more := es + [e];
    assert more[..|es|] == es && more[|es|] == e;
    EarliestSnoc(es, e, s.firstTime, Handle(s, e).firstTime);
  }

  lemma HandleEnd(s: State, es: seq<Element>, e: Element)
    requires Resolvable(s, e) && LatestEnd(es, s.maxTime)
    ensures LatestEnd(es + [e], Handle(s, e).maxTime)
  {
    LatestEndSnoc(es, e, s.maxTime, Handle(s, e).maxTime);
  }

  /** The first packet time and the length of the simulation, read off the elements. */
  lemma {:induction false} ParseTimes(es: seq<Element>)
    requires Referenced(es)
    ensures EarliestStart(es, Parse(es).firstTime) && LatestEnd(es, Parse(es).maxTime)
  {
    if es == [] {
    } else {
      var init, e := es[..|es| - 1], es[|es| - 1];
      assert es == init + [e];
      ParseTimes(init);
      ParseSnoc(init, e);
      HandleStart(Parse(init), init, e);
      HandleEnd(Parse(init), init, e);
    }
  }

  lemma {:induction false} PrefixReferenced(es: seq<Element>, i: nat)
    requires Referenced(es) && i <= |es|
    ensures Referenced(es[..i])
    decreases |es| - i
  {
    if i == |es| {
      assert es[..i] == es;
    } else {
      PrefixReferenced(es, i + 1);
      assert es[..i + 1][..i] == es[..i];
    }
  }

  /** The parser object: its loop carries out Parse one element at a time. */
  class Animxmlparser {
    var packetRefs: map<nat, Ref>
    var events: seq<Timed>
    var parsedElementCount: nat
    var maxSimulationTime: real
    var firstPacketTime: real
    var lastPacketEventTime: real
    var thousandThPacketTime: real

    function Current(): State
      reads this
    {
      State(packetRefs, events, parsedElementCount, maxSimulationTime, firstPacketTime, lastPacketEventTime, thousandThPacketTime)
    }

    constructor ()
      ensures Current() == INITIAL
    {
      packetRefs, events, parsedElementCount := map[], [], 0;
      maxSimulationTime, firstPacketTime, lastPacketEventTime, thousandThPacketTime := 0.0, 65535.0, -1.0, -1.0;
    }

    method SetMaxSimulationTime(t: real)
      modifies this`maxSimulationTime
      ensures maxSimulationTime == Max(old(maxSimulationTime), t)
    {
      maxSimulationTime := if maxSimulationTime < t then t else maxSimulationTime;
    }

    method HandlePacket(p: Packet, isWpacket: bool)
      modifies this`events, this`parsedElementCount, this`firstPacketTime, this`lastPacketEventTime, this`thousandThPacketTime
      ensures Current() == Receive(old(Current()), p, isWpacket)
    {
      if p.fbTx < firstPacketTime {
        firstPacketTime := p.fbTx;
      }
      if p.fromId == p.toId {
        return;
      }
      events := events + [Timed(p.fbTx, PacketEvent(p, isWpacket, WIRELESS_SLOTS))];
      parsedElementCount := parsedElementCount + 1;
      lastPacketEventTime := p.fbRx;
      if parsedElementCount == 50 {
        thousandThPacketTime := p.fbRx;
      }
      if !isWpacket {
        ghost var before := events;
        var step := (p.fbRx - p.fbTx) / WIRED_SLOTS as real;
        for i := 1 to WIRED_SLOTS + 1
          modifies this`events
          invariant events == before + Updates(p, i - 1)
        {
          assert p.fbTx + i as real * step == UpdateTime(p, i);
          events := events + [Timed(p.fbTx + i as real * step, WiredPacketUpdate)];
        }
        assert events == old(events) + Emissions(p, false);
      } else {
        assert events == old(events) + Emissions(p, true);
      }
    }

    method HandleElement(e: Element)
      requires Resolvable(Current(), e)
      modifies this
      ensures Current() == Handle(old(Current()), e)
    {
      match e
      case Other =>
      case TxRef(uid, fromId, fbTx, lbTx, meta) =>
        SetMaxSimulationTime(lbTx);
        packetRefs := packetRefs[uid := Ref(fromId, fbTx, lbTx, if meta == "" then "null" else meta)];
      case WRxRef(uid, toId, fbRx, lbRx) =>
        SetMaxSimulationTime(lbRx);
        var ref := packetRefs[uid];
        HandlePacket(Packet(ref.fromId, toId, ref.fbTx, ref.lbTx, fbRx, lbRx, ref.meta), true);
      case WRx(p) =>
        var q := ParseGeneric(p);
        SetMaxSimulationTime(q.lbTx);
        SetMaxSimulationTime(q.lbRx);
        HandlePacket(q, true);
      case Rx(p) =>
        var q := ParseGeneric(p);
        SetMaxSimulationTime(q.lbTx);
        SetMaxSimulationTime(q.lbRx);
        HandlePacket(q, false);
    }

    method DoParse(es: seq<Element>)
      requires Current() == INITIAL && Referenced(es)
      modifies this
      ensures Current() == Parse(es)
    {
      for i := 0 to |es|
        invariant Current() == Parse(es[..i])
      {
        assert es[..i + 1][..i] == es[..i];
        PrefixReferenced(es, i + 1);
        ParseStores(es[..i + 1]);
        HandleElement(es[i]);
      }
      assert es[..|es|] == es;
    }
  }
}

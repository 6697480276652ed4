/** The UDP pair forwarder (internal/relay): address latching on each leg, the port allocator
    with its expiry, and the relay-observed address offered as an endpoint candidate. */
module UdpRelay {

  import opened Wrappers
  import opened Keys

  datatype AddrPort = AddrPort(ip: nat, port: nat)

  datatype Leg = A | B {
    function Other(): Leg {
      if A? then B else A
    }
  }

  /** A datagram read from one leg's socket. */
  datatype Arrival = Arrival(leg: Leg, pkt: seq<Byte>, src: AddrPort, at: int)

  datatype Pair = Pair(portA: nat, portB: nat, srcA: Option<AddrPort>, srcB: Option<AddrPort>, lastActive: int) {
    function Src(leg: Leg): Option<AddrPort> {
      if leg.A? then srcA else srcB
    }

    function Latch(leg: Leg, a: AddrPort): Pair {
      if leg.A? then this.(srcA := Some(a)) else this.(srcB := Some(a))
    }
  }

  const IDLE_TIMEOUT := 600
  const TRANSPORT: Byte := 4

  /** Section 5.4 of the WireGuard paper: type byte, three zero bytes, and the length. */
  predicate WgShaped(b: seq<Byte>) {
    && |b| >= 4 && b[1] == 0 && b[2] == 0 && b[3] == 0
    && (|| (b[0] == 1 && |b| == 148)
        || (b[0] == 2 && |b| == 92)
        || (b[0] == 3 && |b| == 64)
        || (b[0] == TRANSPORT && |b| >= 32))
  }

  /** Handshake messages and cookie replies have one length each, data is at least 32 bytes long,
      and anything shorter, of another type or with a reserved byte set is not WireGuard's. */
  lemma ShapesOf(b: seq<Byte>)
    ensures |b| < 32 || (exists i :: 1 <= i < 4 && b[i] != 0) || b[0] == 0 || b[0] > 4 ==> !WgShaped(b)
    ensures |b| >= 32 && (forall i :: 1 <= i < 4 ==> b[i] == 0) ==>
              && (b[0] == 1 ==> (WgShaped(b) <==> |b| == 148))
              && (b[0] == 2 ==> (WgShaped(b) <==> |b| == 92))
              && (b[0] == 3 ==> (WgShaped(b) <==> |b| == 64))
              && (b[0] == 4 ==> WgShaped(b))
  {
    if |b| >= 4 && exists i :: 1 <= i < 4 && b[i] != 0 {
      var i :| 1 <= i < 4 && b[i] != 0;
      assert i == 1 || i == 2 || i == 3;
    }
  }

  // ---- latching and forwarding ------------------------------------------------------------

  /** The pair after a datagram, and where the datagram is sent on to. */
  function Receive(p: Pair, a: Arrival): (Pair, Option<AddrPort>) {
    if !WgShaped(a.pkt) then (p, None)
    else if p.Src(a.leg).Some? && p.Src(a.leg).value != a.src && a.pkt[0] == TRANSPORT then (p, None)
    else (p.Latch(a.leg, a.src).(lastActive := a.at), p.Src(a.leg.Other()))
  }

  function Fresh(portA: nat, portB: nat, at: int): Pair {
    Pair(portA, portB, None, None, at)
  }

  function Session(start: Pair, arrivals: seq<Arrival>): Pair {
    if arrivals == [] then start
    else Receive(Session(start, arrivals[..|arrivals| - 1]), arrivals[|arrivals| - 1]).0
  }

  predicate Heard(arrivals: seq<Arrival>, leg: Leg) {
    exists a :: a in arrivals && a.leg == leg && WgShaped(a.pkt)
  }

  /** The source of the leg's last WireGuard-shaped datagram that was its first one or was not
      transport data. */
  function LastNamed(arrivals: seq<Arrival>, leg: Leg): Option<AddrPort> {
    if arrivals == [] then None
    else
      var rest, a := arrivals[..|arrivals| - 1], arrivals[|arrivals| - 1];
      if a.leg == leg && WgShaped(a.pkt) && (a.pkt[0] != TRANSPORT || !Heard(rest, leg)) then Some(a.src)
      else LastNamed(rest, leg)
  }

  lemma {:induction false} NamedIffHeard(arrivals: seq<Arrival>, leg: Leg)
    ensures LastNamed(arrivals, leg).Some? <==> Heard(arrivals, leg)
  {
    if arrivals != [] {
      var rest, a := arrivals[..|arrivals| - 1], arrivals[|arrivals| - 1];
      assert arrivals == rest + [a];
      NamedIffHeard(rest, leg);
    }
  }

  /** On each leg of every session, the latched address is the last named source. */
  lemma {:induction false} LatchedIsLastNamed(portA: nat, portB: nat, at: int, arrivals: seq<Arrival>, leg: Leg)
    ensures Session(Fresh(portA, portB, at), arrivals).Src(leg) == LastNamed(arrivals, leg)
  {
    if arrivals != [] {
      var rest, a := arrivals[..|arrivals| - 1], arrivals[|arrivals| - 1];
      LatchedIsLastNamed(portA, portB, at, rest, leg);
      NamedIffHeard(rest, leg);
    }
  }

  /** A datagram is sent on exactly when it is WireGuard-shaped, comes from the address its leg
      then holds, and the other leg has one; it goes to that address and no other. */
  lemma ForwardedExactly(portA: nat, portB: nat, at: int, arrivals: seq<Arrival>, a: Arrival, dst: AddrPort)
    ensures Receive(Session(Fresh(portA, portB, at), arrivals), a).1 == Some(dst) <==>
            && WgShaped(a.pkt)
            && LastNamed(arrivals + [a], a.leg) == Some(a.src)
            && LastNamed(arrivals, a.leg.Other()) == Some(dst)
  {
    LatchedIsLastNamed(portA, portB, at, arrivals, a.leg);
    LatchedIsLastNamed(portA, portB, at, arrivals, a.leg.Other());
    NamedIffHeard(arrivals, a.leg);
    assert (arrivals + [a])[..|arrivals|] == arrivals;
  }

  /** A datagram counts when it is WireGuard-shaped and comes from the address its leg then holds. */
  ghost predicate Accepted(arrivals: seq<Arrival>, a: Arrival) {
    WgShaped(a.pkt) && LastNamed(arrivals + [a], a.leg) == Some(a.src)
  }

  /** When the session opened at `at` was last used. */
  ghost function LastAccepted(at: int, arrivals: seq<Arrival>): int {
    if arrivals == [] then at
    else
      var rest, a := arrivals[..|arrivals| - 1], arrivals[|arrivals| - 1];
      if Accepted(rest, a) then a.at else LastAccepted(at, rest)
  }

  /** A session's activity is that of the last datagram that counted: steady traffic from the
      latched addresses keeps it alive, and a stranger's datagrams do not. */
  lemma {:induction false} ActiveIsLastAccepted(portA: nat, portB: nat, at: int, arrivals: seq<Arrival>)
    ensures Session(Fresh(portA, portB, at), arrivals).lastActive == LastAccepted(at, arrivals)
  {
    if arrivals != [] {
      var rest, a := arrivals[..|arrivals| - 1], arrivals[|arrivals| - 1];
      ActiveIsLastAccepted(portA, portB, at, rest);
      LatchedIsLastNamed(portA, portB, at, rest, a.leg);
      NamedIffHeard(rest, a.leg);
      assert rest + [a] == arrivals;
    }
  }

  /** Data from an unknown source is dropped: neither latched, nor forwarded, nor counted. */
  lemma StrangersIgnored(portA: nat, portB: nat, at: int, arrivals: seq<Arrival>, a: Arrival)
    requires WgShaped(a.pkt) ==> a.pkt[0] == TRANSPORT && Heard(arrivals, a.leg)
                                 && LastNamed(arrivals, a.leg) != Some(a.src)
    ensures var p := Session(Fresh(portA, portB, at), arrivals); Receive(p, a) == (p, None)
  {
    LatchedIsLastNamed(portA, portB, at, arrivals, a.leg);
    NamedIffHeard(arrivals, a.leg);
  }

  // ---- which leg is whose -------------------------------------------------------------------

  /** The leg whose port a peer is handed when it asks for the pair with another. */
  function HandedLeg(self: Key, peer: Key): Leg {
    if Less(peer, self) then B else A
  }

  /** The leg whose latched address is offered to self as a candidate for p. */
  function OfferedLeg(self: Key, p: Key): Leg {
    if Less(self, p) then B else A
  }

  /** Peers of a pair hold opposite legs, the smaller key the first, and the address offered for p
      is the one latched on the port p was handed. */
  lemma OfferIsHandedLeg(self: Key, p: Key)
    ensures Less(self, p) ==> HandedLeg(self, p) == A && HandedLeg(p, self) == B
    ensures OfferedLeg(self, p) == HandedLeg(p, self)
    ensures self != p ==> HandedLeg(p, self) == HandedLeg(self, p).Other()
  {
    LessTotal(self, p);
  }

  // ---- ports ----------------------------------------------------------------------------------

  predicate Holds(p: Pair, port: nat) {
    port == p.portA || port == p.portB
  }

  /** Every live session owns its two ports, and every bound port is a live session's. */
  ghost predicate PortsOk(pairs: map<PairId, Pair>, owner: map<nat, PairId>) {
    && (forall i :: i in pairs ==> Owns(pairs[i], i, owner))
    && (forall p :: p in owner ==> owner[p] in pairs && Holds(pairs[owner[p]], p))
  }

  ghost predicate Owns(p: Pair, i: PairId, owner: map<nat, PairId>) {
    p.portA != p.portB && p.portA in owner && p.portB in owner && owner[p.portA] == i && owner[p.portB] == i
  }

  /** Live sessions never share a port, and the bound ports are exactly theirs. */
  lemma PortsExclusive(pairs: map<PairId, Pair>, owner: map<nat, PairId>)
    requires PortsOk(pairs, owner)
    ensures forall i, j, p :: i in pairs && j in pairs && Holds(pairs[i], p) && Holds(pairs[j], p) ==> i == j
    ensures forall p :: p in owner <==> exists i :: i in pairs && Holds(pairs[i], p)
  {
    forall i, p | i in pairs && Holds(pairs[i], p)
      ensures p in owner && owner[p] == i
    {
      assert Owns(pairs[i], i, owner);
    }
  }

  /** The ports of a range that neither a session nor another program holds. */
  function FreePorts(lo: nat, hi: nat, bound: set<nat>, busy: set<nat>): (free: set<nat>)
    ensures forall p :: p in free <==> lo <= p <= hi && p !in bound && p !in busy
    decreases hi - lo
  {
    if lo > hi then {}
    else FreePorts(lo + 1, hi, bound, busy) + if lo in bound || lo in busy then {} else {lo}
  }

  lemma OpenKeepsPorts(pairs: map<PairId, Pair>, owner: map<nat, PairId>, id: PairId, a: nat, b: nat, at: int)
    requires PortsOk(pairs, owner) && id !in pairs && a != b && a !in owner && b !in owner
    ensures PortsOk(pairs[id := Fresh(a, b, at)], owner[a := id][b := id])
  {
  }

  lemma CloseKeepsPorts(pairs: map<PairId, Pair>, owner: map<nat, PairId>, id: PairId)
    requires PortsOk(pairs, owner) && id in pairs
    ensures PortsOk(pairs - {id}, owner - {pairs[id].portA, pairs[id].portB})
  {
    var left, rest := pairs - {id}, owner - {pairs[id].portA, pairs[id].portB};
    forall i | i in left
      ensures Owns(left[i], i, rest)
    {
      assert Owns(pairs[i], i, owner) && Owns(pairs[id], id, owner);
    }
  }

  lemma TouchKeepsPorts(pairs: map<PairId, Pair>, owner: map<nat, PairId>, id: PairId, q: Pair)
    requires PortsOk(pairs, owner) && id in pairs && q.portA == pairs[id].portA && q.portB == pairs[id].portB
    ensures PortsOk(pairs[id := q], owner)
  {
    assert Owns(pairs[id], id, owner);
  }

  /** The sessions left when those in `left` have yet to be looked at. */
  function Surviving(pairs: map<PairId, Pair>, left: set<PairId>, now: int): map<PairId, Pair> {
    map i | i in pairs && (i in left || now - pairs[i].lastActive <= IDLE_TIMEOUT) :: pairs[i]
  }

  lemma SurvivingExactly(pairs: map<PairId, Pair>, active: map<PairId, int>, now: int)
    requires AllActive(pairs, active)
    ensures var after := Surviving(pairs, {}, now);
            && (forall i :: i in after <==> i in pairs && now - active[i] <= 600)
            && (forall i <- after :: after[i] == pairs[i])
  {
  }

  lemma VisitOne(pairs: map<PairId, Pair>, left: set<PairId>, now: int, i: PairId)
    requires i in left && i in pairs
    ensures var before, after := Surviving(pairs, left, now), Surviving(pairs, left - {i}, now);
            i in before && before[i] == pairs[i]
            && after == if now - pairs[i].lastActive > IDLE_TIMEOUT then before - {i} else before
  {
  }

  class RelayServer {
    const portMin: nat
    const portMax: nat
    var pairs: map<PairId, Pair>
    var bound: set<nat>
    /** The session each bound port belongs to. */
    ghost var owner: map<nat, PairId>
    /** What has arrived for each live session since it was opened. */
    ghost var arrived: map<PairId, seq<Arrival>>
    /** When each live session was last asked for or last carried a datagram that counted. */
    ghost var active: map<PairId, int>

    ghost predicate Valid()
      reads this
    {
      && portMin <= portMax && ((portMin == 0) == (portMax == 0))
      && bound == owner.Keys && PortsOk(pairs, owner)
      && AllTrack(pairs, arrived)
      && AllActive(pairs, active)
    }

    constructor (lo: nat, hi: nat)
      requires lo <= hi && ((lo == 0) == (hi == 0))
      ensures Valid() && portMin == lo && portMax == hi && pairs == map[] && bound == {}
    {
      portMin, portMax, pairs, bound, owner, arrived, active := lo, hi, map[], {}, map[], map[], map[];
    }

    /** Binds the lowest port of the range that neither a session nor another program holds,
        or, without a range, the port the system picks. */
    method ListenUdp(busy: set<nat>, ephemeral: Option<nat>) returns (port: Option<nat>)
      requires portMin <= portMax
      requires portMin == 0 && ephemeral.Some? ==> ephemeral.value !in bound
      modifies this`bound
      ensures portMin == 0 ==> port == ephemeral
      ensures portMin != 0 ==>
                if port.None? then FreePorts(portMin, portMax, old(bound), busy) == {}
                else port.value in FreePorts(portMin, portMax, old(bound), busy)
                     && forall p <- FreePorts(portMin, portMax, old(bound), busy) :: port.value <= p
      ensures port.None? ==> bound == old(bound)
      ensures port.Some? ==> port.value !in old(bound) && bound == old(bound) + {port.value}
    {
      if portMin == 0 {
        port := ephemeral;
        if port.Some? {
          bound := bound + {port.value};
        }
        return;
      }
      for p := portMin to portMax + 1
        invariant bound == old(bound)
        invariant forall q <- FreePorts(portMin, portMax, old(bound), busy) :: p <= q
      {
        if p !in bound && p !in busy {
          bound := bound + {p};
          return Some(p);
        }
      }
      return None;
    }

    /** Idempotent per live session. With a port range it fails exactly when fewer than two
        ports are free, and then changes nothing. */
    method Allocate(id: PairId, now: int, busy: set<nat>, first: Option<nat>, second: Option<nat>)
      returns (r: Option<(nat, nat)>)
      requires Valid()
      requires first.Some? ==> first.value !in bound
      requires second.Some? ==> second.value !in bound && second != first
      modifies this
      ensures Valid()
      ensures id in old(pairs) ==>
                && r == Some((old(pairs)[id].portA, old(pairs)[id].portB)) && bound == old(bound)
                && pairs == old(pairs)[id := old(pairs)[id].(lastActive := now)]
      ensures id !in old(pairs) ==>
                if r.None? then pairs == old(pairs) && bound == old(bound)
                else && r.value.0 != r.value.1 && pairs == old(pairs)[id := Fresh(r.value.0, r.value.1, now)]
                     && bound == old(bound) + {r.value.0, r.value.1}
                     && r.value.0 !in old(bound) && r.value.1 !in old(bound)
      ensures id !in old(pairs) && portMin != 0 ==>
                var free := FreePorts(portMin, portMax, old(bound), busy);
                && (r.None? <==> |free| < 2)
                && (r.Some? ==> r.value.0 in free && r.value.1 in free)
      ensures arrived == if id in old(pairs) || r.None? then old(arrived) else old(arrived)[id := []]
      ensures active == if r.None? then old(active) else old(active)[id := now]
    {
      if id in pairs {
        Touch(id, now);
        return Some((pairs[id].portA, pairs[id].portB));
      }
      var ports := BindBoth(busy, first, second);
      if ports.None? {
        return None;
      }
      var (a, b) := ports.value;
      OpenKeeps(pairs, owner, arrived, active, id, a, b, now);
      owner := owner[a := id][b := id];
      pairs := pairs[id := Fresh(a, b, now)];
      arrived, active := arrived[id := []], active[id := now];
      return ports;
    }

    method Touch(id: PairId, now: int)
      requires Valid() && id in pairs
      modifies `pairs, `active
      ensures Valid() && pairs == old(pairs)[id := old(pairs)[id].(lastActive := now)]
      ensures active == old(active)[id := now]
    {
      var p := pairs[id];
      TouchKeepsPorts(pairs, owner, id, p.(lastActive := now));
      pairs, active := pairs[id := p.(lastActive := now)], active[id := now];
    }

    /** Binds two ports, or none. */
    method BindBoth(busy: set<nat>, first: Option<nat>, second: Option<nat>) returns (r: Option<(nat, nat)>)
      requires portMin <= portMax
      requires first.Some? ==> first.value !in bound
      requires second.Some? ==> second.value !in bound && second != first
      modifies this`bound
      ensures r.None? ==> bound == old(bound)
      ensures r.Some? ==> && r.value.0 != r.value.1 && r.value.0 !in old(bound) && r.value.1 !in old(bound)
                          && bound == old(bound) + {r.value.0, r.value.1}
      ensures portMin != 0 ==>
                var free := FreePorts(portMin, portMax, old(bound), busy);
                && (r.None? <==> |free| < 2)
                && (r.Some? ==> r.value.0 in free && r.value.1 in free)
    {
      var a := ListenUdp(busy, first);
      if a.None? {
        return None;
      }
      var b := ListenUdp(busy, second);
      if portMin != 0 {
        OneTaken(portMin, portMax, old(bound), busy, a.value);
      }
      if b.None? {
        bound := bound - {a.value};
        assert bound == old(bound);
        return None;
      }
      assert bound == old(bound) + {a.value, b.value};
      return Some((a.value, b.value));
    }

    /** One turn of a leg's forwarding loop. A datagram that counts goes to the address the other
        leg holds, if any, and keeps the session alive; any other goes nowhere. */
    method Forward(id: PairId, a: Arrival) returns (dst: Option<AddrPort>)
      requires Valid() && id in pairs
      modifies this`pairs, this`arrived, this`active
      ensures Valid()
      ensures dst == if Accepted(old(arrived)[id], a) then LastNamed(old(arrived)[id], a.leg.Other()) else None
      ensures active == if Accepted(old(arrived)[id], a) then old(active)[id := a.at] else old(active)
      ensures pairs == old(pairs)[id := Receive(old(pairs)[id], a).0] && dst == Receive(old(pairs)[id], a).1
      ensures arrived == old(arrived)[id := old(arrived)[id] + [a]]
    {
      ReceiveKeeps(pairs, owner, arrived, active, id, a);
      ghost var counts := Accepted(arrived[id], a);
      var p;
      p, dst := Pass(pairs[id], a);
      pairs, arrived := pairs[id := p], arrived[id := arrived[id] + [a]];
      active := if counts then active[id := a.at] else active;
    }

    static method Pass(pair: Pair, a: Arrival) returns (p: Pair, dst: Option<AddrPort>)
      ensures (p, dst) == Receive(pair, a)
    {
      p := pair;
      if !WgShaped(a.pkt) {
        return p, None;
      }
      var cur := p.Src(a.leg);
      if cur.None? || cur.value != a.src {
        if cur.Some? && a.pkt[0] == TRANSPORT {
          return p, None;
        }
        p := p.Latch(a.leg, a.src);
      }
      return p.(lastActive := a.at), p.Src(a.leg.Other());
    }

    /** The latched addresses of a live session: the last named source of each leg. */
    method Observed(id: PairId) returns (srcA: Option<AddrPort>, srcB: Option<AddrPort>, ok: bool)
      requires Valid()
      ensures ok == (id in pairs)
      ensures ok ==> srcA == LastNamed(arrived[id], A) && srcB == LastNamed(arrived[id], B)
      ensures !ok ==> srcA.None? && srcB.None?
    {
      if id !in pairs {
        return None, None, false;
      }
      assert Tracks(pairs[id], arrived[id]);
      return pairs[id].srcA, pairs[id].srcB, true;
    }

    /** Sessions idle for more than ten minutes end and give their ports back. */
    method Cleanup(now: int)
      requires Valid()
      modifies this`pairs, this`bound, this`owner
      ensures Valid() && pairs == Surviving(old(pairs), {}, now)
      ensures forall i :: i in pairs <==> i in old(pairs) && now - active[i] <= 600
      ensures forall i <- pairs :: pairs[i] == old(pairs)[i]
    {
      SurvivingExactly(pairs, active, now);
      var left := pairs.Keys;
      assert pairs == Surviving(pairs, left, now);
      while left != {}
        invariant Valid() && left <= old(pairs).Keys && pairs == Surviving(old(pairs), left, now)
        decreases |left|
      {
        var i :| i in left;
        VisitOne(old(pairs), left, now, i);
        left := left - {i};
        ExpireIfIdle(i, now);
      }
    }

    method ExpireIfIdle(i: PairId, now: int)
      requires Valid() && i in pairs
      modifies this`pairs, this`bound, this`owner
      ensures Valid()
      ensures pairs == if now - old(pairs)[i].lastActive > IDLE_TIMEOUT then old(pairs) - {i} else old(pairs)
    {
      if now - pairs[i].lastActive > IDLE_TIMEOUT {
        Expire(i);
      }
    }

    method Expire(i: PairId)
      requires Valid() && i in pairs
      modifies this`pairs, this`bound, this`owner
      ensures Valid() && pairs == old(pairs) - {i}
      ensures bound == old(bound) - {old(pairs)[i].portA, old(pairs)[i].portB}
    {
      CloseKeepsPorts(pairs, owner, i);
      owner := owner - {pairs[i].portA, pairs[i].portB};
      bound := bound - {pairs[i].portA, pairs[i].portB};
      pairs := pairs - {i};
    }
  }

  /** The pair is what its arrivals made of it. */
  ghost predicate Tracks(p: Pair, arrivals: seq<Arrival>) {
    p.srcA == LastNamed(arrivals, A) && p.srcB == LastNamed(arrivals, B)
  }

  ghost predicate AllTrack(pairs: map<PairId, Pair>, arrived: map<PairId, seq<Arrival>>) {
    forall i :: i in pairs ==> i in arrived && Tracks(pairs[i], arrived[i])
  }

  lemma TrackOne(p: Pair, arrivals: seq<Arrival>, a: Arrival)
    requires Tracks(p, arrivals)
    ensures Tracks(Receive(p, a).0, arrivals + [a])
  {
    assert (arrivals + [a])[..|arrivals|] == arrivals;
    NamedIffHeard(arrivals, A);
    NamedIffHeard(arrivals, B);
  }

  ghost predicate AllActive(pairs: map<PairId, Pair>, active: map<PairId, int>) {
    forall i :: i in pairs ==> i in active && pairs[i].lastActive == active[i]
  }

  lemma ReceiveKeeps(pairs: map<PairId, Pair>, owner: map<nat, PairId>, arrived: map<PairId, seq<Arrival>>,
                     active: map<PairId, int>, id: PairId, a: Arrival)
    requires PortsOk(pairs, owner) && AllTrack(pairs, arrived) && AllActive(pairs, active) && id in pairs
    ensures var r := Receive(pairs[id], a);
            var counts := Accepted(arrived[id], a);
            && PortsOk(pairs[id := r.0], owner) && AllTrack(pairs[id := r.0], arrived[id := arrived[id] + [a]])
            && AllActive(pairs[id := r.0], if counts then active[id := a.at] else active)
            && r.1 == if counts then LastNamed(arrived[id], a.leg.Other()) else None
  {
    var q := Receive(pairs[id], a).0;
    assert Tracks(pairs[id], arrived[id]);
    ReceiveExactly(pairs[id], arrived[id], a);
    TouchKeepsPorts(pairs, owner, id, q);
    TrackOne(pairs[id], arrived[id], a);
    TrackPut(pairs, arrived, id, q, arrived[id] + [a]);
    ActivePut(pairs, active, id, q, Accepted(arrived[id], a), a.at);
  }

  lemma OpenKeeps(pairs: map<PairId, Pair>, owner: map<nat, PairId>, arrived: map<PairId, seq<Arrival>>,
                  active: map<PairId, int>, id: PairId, a: nat, b: nat, now: int)
    requires PortsOk(pairs, owner) && AllTrack(pairs, arrived) && AllActive(pairs, active)
    requires id !in pairs && a != b && a !in owner && b !in owner
    ensures var p := Fresh(a, b, now);
            && PortsOk(pairs[id := p], owner[a := id][b := id])
            && AllTrack(pairs[id := p], arrived[id := []])
            && AllActive(pairs[id := p], active[id := now])
    ensures (owner[a := id][b := id]).Keys == owner.Keys + {a, b}
  {
    OpenKeepsPorts(pairs, owner, id, a, b, now);
    TrackPut(pairs, arrived, id, Fresh(a, b, now), []);
  }

  lemma TrackPut(pairs: map<PairId, Pair>, arrived: map<PairId, seq<Arrival>>, id: PairId, q: Pair,
                 arrivals: seq<Arrival>)
    requires AllTrack(pairs, arrived) && Tracks(q, arrivals)
    ensures AllTrack(pairs[id := q], arrived[id := arrivals])
  {
  }

  lemma ActivePut(pairs: map<PairId, Pair>, active: map<PairId, int>, id: PairId, q: Pair, counts: bool, at: int)
    requires AllActive(pairs, active) && id in pairs
    requires q.lastActive == if counts then at else pairs[id].lastActive
    ensures AllActive(pairs[id := q], if counts then active[id := at] else active)
  {
  }

  lemma ReceiveExactly(p: Pair, arrivals: seq<Arrival>, a: Arrival)
    requires Tracks(p, arrivals)
    ensures Receive(p, a).1 == if Accepted(arrivals, a) then LastNamed(arrivals, a.leg.Other()) else None
    ensures Receive(p, a).0.lastActive == if Accepted(arrivals, a) then a.at else p.lastActive
    ensures Receive(p, a).0.portA == p.portA && Receive(p, a).0.portB == p.portB
  {
    assert (arrivals + [a])[..|arrivals|] == arrivals;
    NamedIffHeard(arrivals, a.leg);
  }

  lemma OneTaken(lo: nat, hi: nat, bound: set<nat>, busy: set<nat>, p: nat)
    requires p in FreePorts(lo, hi, bound, busy)
    ensures FreePorts(lo, hi, bound + {p}, busy) == FreePorts(lo, hi, bound, busy) - {p}
    ensures FreePorts(lo, hi, bound + {p}, busy) == {} <==> |FreePorts(lo, hi, bound, busy)| < 2
  {
    assert FreePorts(lo, hi, bound, busy) == FreePorts(lo, hi, bound + {p}, busy) + {p};
  }
}

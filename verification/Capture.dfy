/** The capture flow source with the collector behind it, over whole runs: every byte of the
    host's overlay traffic reaches the records, unless a flow is evicted before its bytes were
    dumped or the flow table is full. */
module Capture {

  import opened Wrappers
  import opened Sums
  import opened Flows

  datatype Accum = Accum(counters: Counters, lastSeen: Time)

  type Table = map<FlowKey, Accum>

  /** What parseFlowTuple reads off a packet. */
  datatype Tuple = Tuple(protocol: nat, src: Addr, srcPort: nat, dst: Addr, dstPort: nat)

  /** A flow is keyed with the local end as src, whichever way the packet went. */
  function Classify(self: set<Addr>, t: Tuple): Option<(FlowKey, bool)> {
    if t.src in self then Some((FlowKey(t.protocol, t.src, t.srcPort, t.dst, t.dstPort), true))
    else if t.dst in self then Some((FlowKey(t.protocol, t.dst, t.dstPort, t.src, t.srcPort), false))
    else None
  }

  /** Both directions of a connection between this host and another count for one flow, keyed by the
      host's own end and port, once as sent and once as received. */
  lemma OneFlowPerConnection(self: set<Addr>, t: Tuple)
    requires t.src in self && t.dst !in self
    ensures var k := FlowKey(t.protocol, t.src, t.srcPort, t.dst, t.dstPort);
            && Classify(self, t) == Some((k, true))
            && Classify(self, Tuple(t.protocol, t.dst, t.dstPort, t.src, t.srcPort)) == Some((k, false))
  {
  }

  function PacketOf(outbound: bool, length: nat): Counters {
    if outbound then Counters(length, 1, 0, 0) else Counters(0, 0, length, 1)
  }

  function Evict(t: Table, now: Time): Table {
    map k | k in t && now - t[k].lastSeen <= CAPTURE_FLOW_TTL :: t[k]
  }

  /** Makes room for a new flow if the table is full; None when it stays full. */
  function Room(t: Table, k: FlowKey, now: Time): Option<Table> {
    if k in t || |t| < CAPTURE_MAX_FLOWS then Some(t)
    else if |Evict(t, now)| < CAPTURE_MAX_FLOWS then Some(Evict(t, now))
    else None
  }

  function Accounted(t: Table, k: FlowKey, outbound: bool, length: nat, now: Time): Table {
    match Room(t, k, now)
    case None => Evict(t, now)
    case Some(u) =>
      var was := if k in u then u[k].counters else Zero;
      u[k := Accum(Plus(was, PacketOf(outbound, length)), now)]
  }

  /** The flows seen in the last five minutes. */
  ghost function Live(t: Table, now: Time): set<FlowKey> {
    set k | k in t && now - t[k].lastSeen <= 300 * SECOND
  }

  /** A new flow is turned away exactly when the table is full of flows that are not idle. */
  lemma AccountedExactly(t: Table, k: FlowKey, outbound: bool, length: nat, now: Time)
    ensures k in Accounted(t, k, outbound, length, now) <==> k in t || |t| < 8192 || |Live(t, now)| < 8192
  {
    assert Evict(t, now).Keys == Live(t, now);
  }

  /** A dump lists the table's flows once each, in any order. */
  ghost predicate Lists(t: Table, dump: seq<Flow>) {
    && (forall i, j :: 0 <= i < j < |dump| ==> dump[i].key != dump[j].key)
    && (forall f <- dump :: f.key in t && t[f.key].counters == f.counters)
    && (forall k <- t :: Flow(k, t[k].counters) in dump)
  }

  class CaptureDumper {
    const self: set<Addr>
    var flows: Table

    constructor (self: set<Addr>)
      ensures this.self == self && flows == map[]
    {
      this.self := self;
      flows := map[];
    }

    method EvictLocked(now: Time)
      modifies `flows
      ensures flows == Evict(old(flows), now)
      ensures forall k :: k in flows <==> k in old(flows) && now - old(flows)[k].lastSeen <= 300 * SECOND
      ensures forall k <- flows :: flows[k] == old(flows)[k]
    {
      var todo := flows.Keys;
      while todo != {}
        invariant todo <= old(flows).Keys
        invariant flows == map k | k in old(flows) && (k in todo || now - old(flows)[k].lastSeen <= CAPTURE_FLOW_TTL)
                             :: old(flows)[k]
      {
        var k :| k in todo;
        if now - flows[k].lastSeen > CAPTURE_FLOW_TTL {
          flows := flows - {k};
        }
        todo := todo - {k};
      }
    }

    method Account(t: Tuple, length: nat, now: Time)
      modifies `flows
      ensures var c := Classify(self, t);
              flows == if c.None? then old(flows) else Accounted(old(flows), c.value.0, c.value.1, length, now)
    {
      var c := Classify(self, t);
      if c.None? {
        return;
      }
      var (key, outbound) := c.value;
      if key !in flows {
        if |flows| >= CAPTURE_MAX_FLOWS {
          EvictLocked(now);
          if |flows| >= CAPTURE_MAX_FLOWS {
            return;
          }
        }
        flows := flows[key := Accum(Zero, now)];
      }
      var a := flows[key].counters;
      if outbound {
        a := a.(txBytes := a.txBytes + length, txPackets := a.txPackets + 1);
      } else {
        a := a.(rxBytes := a.rxBytes + length, rxPackets := a.rxPackets + 1);
      }
      flows := flows[key := Accum(a, now)];
    }

    method Dump(now: Time) returns (out: seq<Flow>)
      modifies `flows
      ensures flows == Evict(old(flows), now) && Lists(flows, out)
    {
      EvictLocked(now);
      out := [];
      var todo := flows.Keys;
      while todo != {}
        invariant todo <= flows.Keys
        invariant forall i, j :: 0 <= i < j < |out| ==> out[i].key != out[j].key
        invariant forall f <- out :: f.key in flows && f.key !in todo && flows[f.key].counters == f.counters
        invariant forall k <- flows :: k in todo || Flow(k, flows[k].counters) in out
      {
        var k :| k in todo;
        out := out + [Flow(k, flows[k].counters)];
        todo := todo - {k};
      }
    }
  }

  // ---- runs -----------------------------------------------------------------------------

  datatype Event =
    | Packet(tuple: Tuple, length: nat, now: Time)
    | Collect(dump: seq<Flow>, now: Time)
    | Report(ok: bool)

  /** `self` holds the host's overlay addresses; `lastDump` and `clock` are the times of the last
      collection and of the last event. */
  datatype State = State(self: set<Addr>, table: Table, collector: Collector, reports: seq<map<FlowKey, Counters>>,
                         lastDump: Time, clock: Time)

  function Begin(self: set<Addr>, t: Time): State {
    State(self, map[], Collector(map[], map[]), [], t, t)
  }

  function Counted(s: State, k: FlowKey, outbound: bool, length: nat, now: Time): State {
    s.(table := Accounted(s.table, k, outbound, length, now), clock := now)
  }

  function Step(s: State, e: Event, overlay: Addr -> bool): State {
    match e
    case Packet(tuple, length, now) =>
      var c := Classify(s.self, tuple);
      if c.None? then s.(clock := now) else Counted(s, c.value.0, c.value.1, length, now)
    case Collect(dump, now) =>
      s.(table := Evict(s.table, now), collector := Collected(s.collector, dump, overlay), lastDump := now,
         clock := now)
    case Report(ok) =>
      if ok then s.(reports := s.reports + [s.collector.pending], collector := s.collector.(pending := map[])) else s
  }

  ghost predicate Fits(s: State, k: FlowKey, overlay: Addr -> bool) {
    (overlay(k.src) || overlay(k.dst)) && (k in s.table || |s.table| < CAPTURE_MAX_FLOWS)
  }

  /** Time goes forward, dumps are at most the flow lifetime apart and list the table, the
      table has room for a new flow, and the flow is overlay traffic. */
  ghost predicate Regular(s: State, e: Event, overlay: Addr -> bool) {
    match e
    case Packet(tuple, _, now) =>
      s.clock <= now && (Classify(s.self, tuple).Some? ==> Fits(s, Classify(s.self, tuple).value.0, overlay))
    case Collect(dump, now) =>
      s.clock <= now && now - s.lastDump <= CAPTURE_FLOW_TTL && Lists(Evict(s.table, now), dump)
    case Report(_) => true
  }

  ghost predicate RegularRun(self: set<Addr>, t: Time, events: seq<Event>, overlay: Addr -> bool) {
    events == [] || (RegularRun(self, t, events[..|events| - 1], overlay)
                     && Regular(Run(self, t, events[..|events| - 1], overlay), events[|events| - 1], overlay))
  }

  function Run(self: set<Addr>, t: Time, events: seq<Event>, overlay: Addr -> bool): State {
    if events == [] then Begin(self, t)
    else Step(Run(self, t, events[..|events| - 1], overlay), events[|events| - 1], overlay)
  }

  /** What a packet carries on a lane, by its own addresses and ports; only packets that this host
      sends or receives count. */
  function Carries(self: set<Addr>, t: Tuple, length: nat, lane: Lane): nat {
    if && (t.src in self || t.dst in self) && t.protocol == lane.protocol && t.src == lane.from && t.dst == lane.to
       && Min(t.srcPort, t.dstPort) == lane.service
    then if lane.unit.Bytes? then length else 1
    else 0
  }

  /** What really travelled on a lane. */
  function Truth(self: set<Addr>, events: seq<Event>, lane: Lane): nat {
    if events == [] then 0
    else
      var e := events[|events| - 1];
      Truth(self, events[..|events| - 1], lane)
      + if e.Packet? then Carries(self, e.tuple, e.length, lane) else 0
  }

  /** Whichever end a packet is keyed by, it counts in the direction it went. */
  lemma ClassifyKeepsDirection(self: set<Addr>, t: Tuple, length: nat, lane: Lane)
    ensures var c := Classify(self, t);
            Carries(self, t, length, lane)
            == if c.None? then 0 else Sent(c.value.0, PacketOf(c.value.1, length), lane)
  {
  }

  /** The lane's traffic in the accepted reports. */
  ghost function SentInReports(reports: seq<map<FlowKey, Counters>>, lane: Lane): nat {
    if reports == [] then 0
    else SentInReports(reports[..|reports| - 1], lane) + SentIn(reports[|reports| - 1], lane)
  }

  // ---- bytes not dumped yet -------------------------------------------------------------

  ghost function Undumped(t: Table, prev: map<FlowKey, Counters>, k: FlowKey): Counters
    requires k in t
  {
    DeltaOf(t[k].counters, if k in prev then Some(prev[k]) else None)
  }

  ghost function Residue(t: Table, prev: map<FlowKey, Counters>, lane: Lane): map<FlowKey, nat> {
    map k | k in t :: Sent(k, Undumped(t, prev, k), lane)
  }

  ghost predicate Below(a: Counters, b: Counters) {
    a.txBytes <= b.txBytes && a.txPackets <= b.txPackets && a.rxBytes <= b.rxBytes && a.rxPackets <= b.rxPackets
  }

  /** Snapshots are of flows in the table and never ahead of them, every tracked flow is
      overlay traffic, and a flow with bytes not dumped was seen since the last dump. */
  ghost predicate Sound(s: State, overlay: Addr -> bool) {
    && s.lastDump <= s.clock
    && (forall k <- s.collector.prevFlow :: k in s.table && Below(s.collector.prevFlow[k], s.table[k].counters))
    && (forall k <- s.table :: (overlay(k.src) || overlay(k.dst)) && s.table[k].lastSeen <= s.clock)
    && (forall k <- s.table :: Undumped(s.table, s.collector.prevFlow, k) != Zero ==> s.lastDump <= s.table[k].lastSeen)
  }

  ghost function Balance(s: State, lane: Lane): nat {
    SentInReports(s.reports, lane) + SentIn(s.collector.pending, lane)
    + Total(Residue(s.table, s.collector.prevFlow, lane))
  }

  /** A packet adds to what is not dumped. */
  lemma DeltaGrows(cur: Counters, d: Counters, prev: Option<Counters>)
    requires prev.Some? ==> Below(prev.value, cur)
    ensures DeltaOf(Plus(cur, d), prev) == Plus(DeltaOf(cur, prev), d)
  {
  }

  lemma CountedSound(s: State, k: FlowKey, outbound: bool, length: nat, now: Time, overlay: Addr -> bool)
    requires Sound(s, overlay) && s.clock <= now && Fits(s, k, overlay)
    ensures Sound(Counted(s, k, outbound, length, now), overlay)
  {
  }

  lemma CountedBalances(s: State, k: FlowKey, outbound: bool, length: nat, now: Time, overlay: Addr -> bool,
                        lane: Lane)
    requires Sound(s, overlay) && s.clock <= now && Fits(s, k, overlay)
    ensures Balance(Counted(s, k, outbound, length, now), lane)
            == Balance(s, lane) + Sent(k, PacketOf(outbound, length), lane)
  {
    var t', prev := Counted(s, k, outbound, length, now).table, s.collector.prevFlow;
    var d := PacketOf(outbound, length);
    var cur, last := if k in s.table then s.table[k].counters else Zero, if k in prev then Some(prev[k]) else None;
    DeltaGrows(cur, d, last);
    SentPlus(k, DeltaOf(cur, last), d, lane);
    var r := Residue(s.table, prev, lane);
    var v := Sent(k, DeltaOf(cur, last), lane) + Sent(k, d, lane);
    ResiduePut(s.table, t', prev, k, v, lane);
    TotalPut(r, k, v);
  }

  lemma PacketBalances(s: State, e: Event, overlay: Addr -> bool, lane: Lane)
    requires Sound(s, overlay) && e.Packet? && Regular(s, e, overlay)
    ensures Sound(Step(s, e, overlay), overlay)
    ensures Balance(Step(s, e, overlay), lane)
            == Balance(s, lane) + Carries(s.self, e.tuple, e.length, lane)
  {
    ClassifyKeepsDirection(s.self, e.tuple, e.length, lane);
    var c := Classify(s.self, e.tuple);
    if c.Some? {
      CountedSound(s, c.value.0, c.value.1, e.length, e.now, overlay);
      CountedBalances(s, c.value.0, c.value.1, e.length, e.now, overlay, lane);
    }
  }

  lemma ResiduePut(t: Table, u: Table, prev: map<FlowKey, Counters>, k: FlowKey, v: nat,
                   lane: Lane)
    requires k in u && u == t[k := u[k]] && Sent(k, Undumped(u, prev, k), lane) == v
    ensures Residue(u, prev, lane) == Residue(t, prev, lane)[k := v]
  {
  }

  lemma {:induction false} DropZeros(w: map<FlowKey, nat>, v: map<FlowKey, nat>)
    requires v.Keys <= w.Keys && (forall k <- v :: v[k] == w[k]) && (forall k <- w :: k in v || w[k] == 0)
    ensures Total(w) == Total(v)
    decreases |w|
  {
    if w.Keys == v.Keys {
      assert w == v;
    } else {
      var k :| k in w && k !in v;
      TotalSplit(w, k);
      assert (w - {k}).Keys == w.Keys - {k};
      DropZeros(w - {k}, v);
    }
  }

  lemma {:induction false} AllZeros(w: map<FlowKey, nat>)
    requires forall k <- w :: w[k] == 0
    ensures Total(w) == 0
  {
    DropZeros(w, map[]);
  }

  /** No flow with bytes not dumped is old enough to be evicted. */
  lemma EvictionLosesNothing(s: State, now: Time, overlay: Addr -> bool, lane: Lane)
    requires Sound(s, overlay) && now - s.lastDump <= CAPTURE_FLOW_TTL
    ensures Total(Residue(Evict(s.table, now), s.collector.prevFlow, lane))
            == Total(Residue(s.table, s.collector.prevFlow, lane))
  {
    DropZeros(Residue(s.table, s.collector.prevFlow, lane),
              Residue(Evict(s.table, now), s.collector.prevFlow, lane));
  }

  // ---- a dump moves exactly what was not dumped -----------------------------------------

  lemma {:induction false} SnapshotOf(c: Collector, dump: seq<Flow>, overlay: Addr -> bool, k: FlowKey)
    requires forall f <- dump :: f.key != k
    ensures Prev(CollectAll(c, dump, overlay), k) == Prev(c, k)
  {
    if dump != [] {
      SnapshotOf(c, dump[..|dump| - 1], overlay, k);
    }
  }

  lemma AddedLast(c: Collector, before: seq<Flow>, f: Flow, overlay: Addr -> bool, lane: Lane)
    requires (forall g <- before :: g.key != f.key) && (overlay(f.key.src) || overlay(f.key.dst))
    ensures Added(c, before + [f], overlay, lane)
            == Added(c, before, overlay, lane)
               + Sent(f.key, DeltaOf(f.counters, Prev(c, f.key)), lane)
  {
    assert (before + [f])[..|before|] == before;
    SnapshotOf(c, before, overlay, f.key);
  }

  lemma {:induction false} AddedIsResidue(c: Collector, t: Table, dump: seq<Flow>, overlay: Addr -> bool,
                                          lane: Lane)
    requires Lists(t, dump) && (forall k <- t :: overlay(k.src) || overlay(k.dst))
    ensures Added(c, dump, overlay, lane) == Total(Residue(t, c.prevFlow, lane))
    decreases |dump|
  {
    if dump == [] {
      assert Residue(t, c.prevFlow, lane) == map[];
    } else {
      var before, f := dump[..|dump| - 1], dump[|dump| - 1];
      var d, rest := Sent(f.key, DeltaOf(f.counters, Prev(c, f.key)), lane),
                     Residue(t - {f.key}, c.prevFlow, lane);
      assert Added(c, before, overlay, lane) == Total(rest) by {
        ShorterList(t, dump);
        AddedIsResidue(c, t - {f.key}, before, overlay, lane);
      }
      assert Total(Residue(t, c.prevFlow, lane)) == d + Total(rest) by {
        ResidueWithout(c, t, f, lane);
      }
      assert Added(c, dump, overlay, lane) == Added(c, before, overlay, lane) + d by {
        ShorterList(t, dump);
        AddedLast(c, before, f, overlay, lane);
      }
    }
  }

  lemma ResidueWithout(c: Collector, t: Table, f: Flow, lane: Lane)
    requires f.key in t && t[f.key].counters == f.counters
    ensures var r := Residue(t, c.prevFlow, lane);
            && r - {f.key} == Residue(t - {f.key}, c.prevFlow, lane)
            && Total(r) == Sent(f.key, DeltaOf(f.counters, Prev(c, f.key)), lane) + Total(r - {f.key})
  {
    TotalSplit(Residue(t, c.prevFlow, lane), f.key);
  }

  lemma ShorterList(t: Table, dump: seq<Flow>)
    requires Lists(t, dump) && dump != []
    ensures var before, f := dump[..|dump| - 1], dump[|dump| - 1];
            && dump == before + [f] && f.key in t && t[f.key].counters == f.counters
            && (forall g <- before :: g.key != f.key) && Lists(t - {f.key}, before)
  {
  }

  lemma {:induction false} SnapshotsTaken(c: Collector, dump: seq<Flow>, overlay: Addr -> bool, i: nat)
    requires i < |dump| && (forall p, q :: 0 <= p < q < |dump| ==> dump[p].key != dump[q].key)
    requires overlay(dump[i].key.src) || overlay(dump[i].key.dst)
    ensures Prev(CollectAll(c, dump, overlay), dump[i].key) == Some(dump[i].counters)
  {
    var n := |dump| - 1;
    if i < n {
      SnapshotsTaken(c, dump[..n], overlay, i);
    }
  }

  /** After a collection the snapshots are exactly the table. */
  lemma SnapshotsAreTable(c: Collector, t: Table, dump: seq<Flow>, overlay: Addr -> bool)
    requires Lists(t, dump) && (forall k <- t :: overlay(k.src) || overlay(k.dst))
    ensures Collected(c, dump, overlay).prevFlow == Snapshot(t)
  {
    var x := CollectAll(c, dump, overlay);
    forall k <- t ensures k in x.prevFlow && x.prevFlow[k] == t[k].counters && k in Seen(dump, overlay) {
      var f := Flow(k, t[k].counters);
      var i :| 0 <= i < |dump| && dump[i] == f;
      SnapshotsTaken(c, dump, overlay, i);
    }
  }

  ghost function Snapshot(t: Table): map<FlowKey, Counters> {
    map k | k in t :: t[k].counters
  }

  lemma NothingUndumped(t: Table, k: FlowKey)
    requires k in t
    ensures Undumped(t, Snapshot(t), k) == Zero && Below(Snapshot(t)[k], t[k].counters)
  {
  }

  lemma CollectSound(s: State, e: Event, overlay: Addr -> bool)
    requires Sound(s, overlay) && e.Collect? && Regular(s, e, overlay)
    ensures Sound(Step(s, e, overlay), overlay)
    ensures var s' := Step(s, e, overlay); forall k <- s'.table :: Undumped(s'.table, s'.collector.prevFlow, k) == Zero
  {
    var t := Evict(s.table, e.now);
    assert Step(s, e, overlay).collector.prevFlow == Snapshot(t) by {
      SnapshotsAreTable(s.collector, t, e.dump, overlay);
    }
    forall k <- t ensures Undumped(t, Snapshot(t), k) == Zero && Below(Snapshot(t)[k], t[k].counters) {
      NothingUndumped(t, k);
    }
  }

  lemma DumpIsResidue(s: State, dump: seq<Flow>, now: Time, overlay: Addr -> bool, lane: Lane)
    requires Sound(s, overlay) && now - s.lastDump <= CAPTURE_FLOW_TTL && Lists(Evict(s.table, now), dump)
    ensures Added(s.collector, dump, overlay, lane) == Total(Residue(s.table, s.collector.prevFlow, lane))
  {
    EvictionLosesNothing(s, now, overlay, lane);
    AddedIsResidue(s.collector, Evict(s.table, now), dump, overlay, lane);
  }

  /** A collection adds exactly what was not dumped yet, and leaves nothing undumped. */
  lemma CollectDrains(s: State, e: Event, overlay: Addr -> bool, lane: Lane)
    requires Sound(s, overlay) && e.Collect? && Regular(s, e, overlay)
    ensures var s' := Step(s, e, overlay);
            && Added(s.collector, e.dump, overlay, lane)
               == Total(Residue(s.table, s.collector.prevFlow, lane))
            && Total(Residue(s'.table, s'.collector.prevFlow, lane)) == 0
  {
    var s' := Step(s, e, overlay);
    assert Added(s.collector, e.dump, overlay, lane) == Total(Residue(s.table, s.collector.prevFlow, lane)) by {
      DumpIsResidue(s, e.dump, e.now, overlay, lane);
    }
    assert forall k <- s'.table :: Undumped(s'.table, s'.collector.prevFlow, k) == Zero by {
      CollectSound(s, e, overlay);
    }
    NoResidue(s'.table, s'.collector.prevFlow, lane);
  }

  lemma NoResidue(t: Table, prev: map<FlowKey, Counters>, lane: Lane)
    requires forall k <- t :: Undumped(t, prev, k) == Zero
    ensures Total(Residue(t, prev, lane)) == 0
  {
    AllZeros(Residue(t, prev, lane));
  }

  lemma CollectBalances(s: State, e: Event, overlay: Addr -> bool, lane: Lane)
    requires Sound(s, overlay) && e.Collect? && Regular(s, e, overlay)
    ensures Balance(Step(s, e, overlay), lane) == Balance(s, lane)
  {
    var s' := Step(s, e, overlay);
    var added := Added(s.collector, e.dump, overlay, lane);
    CollectDrains(s, e, overlay, lane);
    assert SentIn(s'.collector.pending, lane) == SentIn(s.collector.pending, lane) + added by {
      DirectionsKept(s.collector, e.dump, overlay, lane);
    }
  }

  lemma ReportBalances(s: State, ok: bool, overlay: Addr -> bool, lane: Lane)
    ensures Balance(Step(s, Report(ok), overlay), lane) == Balance(s, lane)
  {
    if ok {
      SentInOne(s.reports, s.collector.pending, lane);
      NothingSent(lane);
    }
  }

  lemma SentInOne(reports: seq<map<FlowKey, Counters>>, r: map<FlowKey, Counters>, lane: Lane)
    ensures SentInReports(reports + [r], lane)
            == SentInReports(reports, lane) + SentIn(r, lane)
  {
    assert (reports + [r])[..|reports|] == reports;
  }

  lemma NothingSent(lane: Lane)
    ensures SentIn(map[], lane) == 0
  {
    assert Weights(map[], lane) == map[];
  }

  /** For each protocol, direction and service, and in bytes and in packets alike, accepted reports,
      pending records and what is not dumped yet add up to what really travelled, as long as dumps
      come at most five minutes apart and the table has room for every new flow. Rejected reports
      change nothing. */
  lemma {:induction false} CaptureConserves(self: set<Addr>, t: Time, events: seq<Event>, overlay: Addr -> bool,
                                            lane: Lane)
    requires RegularRun(self, t, events, overlay)
    ensures Sound(Run(self, t, events, overlay), overlay)
    ensures Run(self, t, events, overlay).self == self
    ensures Balance(Run(self, t, events, overlay), lane) == Truth(self, events, lane)
  {
    if events == [] {
      assert Residue(map[], map[], lane) == map[];
      assert Weights(map[], lane) == map[];
    } else {
      var n := |events| - 1;
      var s, e := Run(self, t, events[..n], overlay), events[n];
      CaptureConserves(self, t, events[..n], overlay, lane);
      match e
      case Packet(_, _, _) =>
        PacketBalances(s, e, overlay, lane);
      case Collect(_, _) =>
        CollectSound(s, e, overlay);
        CollectBalances(s, e, overlay, lane);
      case Report(ok) =>
        ReportBalances(s, ok, overlay, lane);
    }
  }
}

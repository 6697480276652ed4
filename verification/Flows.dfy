/** Flow telemetry: the packet capture that counts flows (cmd/agent/capture_linux.go) and the
    collector that turns its dumps into client-to-server records (cmd/agent/telemetry.go). */
module Flows {

  import opened Wrappers
  import opened Sums

  type Addr = string
  type Time = int

  const EPHEMERAL_MIN: nat := 32768
  const CAPTURE_FLOW_TTL: int := 300_000_000_000
  const CAPTURE_MAX_FLOWS: nat := 8192

  datatype FlowKey = FlowKey(protocol: nat, src: Addr, srcPort: nat, dst: Addr, dstPort: nat)

  /** Bytes and packets, tx from src to dst and rx back. */
  datatype Counters = Counters(txBytes: nat, txPackets: nat, rxBytes: nat, rxPackets: nat)

  const Zero: Counters := Counters(0, 0, 0, 0)

  function Plus(a: Counters, b: Counters): Counters {
    Counters(a.txBytes + b.txBytes, a.txPackets + b.txPackets, a.rxBytes + b.rxBytes, a.rxPackets + b.rxPackets)
  }

  function Swap(c: Counters): Counters {
    Counters(c.rxBytes, c.rxPackets, c.txBytes, c.txPackets)
  }

  function At(m: map<FlowKey, Counters>, k: FlowKey): Counters {
    if k in m then m[k] else Zero
  }

  // ---- orientation ----------------------------------------------------------------------

  datatype Oriented = Oriented(client: Addr, server: Addr, serverPort: nat, flipped: bool)

  function OrientFlow(src: Addr, srcPort: nat, dst: Addr, dstPort: nat): Oriented {
    var srcEph, dstEph := srcPort >= EPHEMERAL_MIN, dstPort >= EPHEMERAL_MIN;
    if srcEph && !dstEph then Oriented(src, dst, dstPort, false)
    else if dstEph && !srcEph then Oriented(dst, src, srcPort, true)
    else if dstPort <= srcPort then Oriented(src, dst, dstPort, false)
    else Oriented(dst, src, srcPort, true)
  }

  /** The two ends of a connection describe it the same way exactly when its ports differ, or
      both ends are one host. */
  lemma EndsAgree(a: Addr, aPort: nat, b: Addr, bPort: nat)
    ensures var x, y := OrientFlow(a, aPort, b, bPort), OrientFlow(b, bPort, a, aPort);
            (x.client, x.server, x.serverPort) == (y.client, y.server, y.serverPort) <==> aPort != bPort || a == b
  {
  }

  /** The server is the end with the lower port, or the second one when they tie. */
  lemma ServerHasLowerPort(src: Addr, srcPort: nat, dst: Addr, dstPort: nat)
    ensures var o := OrientFlow(src, srcPort, dst, dstPort);
            && o.serverPort == Min(srcPort, dstPort)
            && (o.flipped <==> srcPort < dstPort)
            && (o.client, o.server) == if srcPort < dstPort then (dst, src) else (src, dst)
  {
  }

  // ---- collecting -----------------------------------------------------------------------

  function CounterDelta(cur: nat, prev: nat, known: bool): nat {
    if !known || cur < prev then cur else cur - prev
  }

  function DeltaOf(cur: Counters, prev: Option<Counters>): Counters {
    var p, known := prev.Or(Zero), prev.Some?;
    Counters(CounterDelta(cur.txBytes, p.txBytes, known), CounterDelta(cur.txPackets, p.txPackets, known),
             CounterDelta(cur.rxBytes, p.rxBytes, known), CounterDelta(cur.rxPackets, p.rxPackets, known))
  }

  function AggKey(k: FlowKey): FlowKey {
    var o := OrientFlow(k.src, k.srcPort, k.dst, k.dstPort);
    FlowKey(k.protocol, o.client, 0, o.server, o.serverPort)
  }

  function Turned(k: FlowKey, d: Counters): Counters {
    if OrientFlow(k.src, k.srcPort, k.dst, k.dstPort).flipped then Swap(d) else d
  }

  /** A record runs from the client to the server's port; only the client's port is forgotten. */
  lemma RecordKey(k: FlowKey)
    ensures AggKey(k) == if k.srcPort < k.dstPort then FlowKey(k.protocol, k.dst, 0, k.src, k.srcPort)
                         else FlowKey(k.protocol, k.src, 0, k.dst, k.dstPort)
  {
  }

  datatype Flow = Flow(key: FlowKey, counters: Counters)

  datatype Collector = Collector(prevFlow: map<FlowKey, Counters>, pending: map<FlowKey, Counters>)

  function Prev(c: Collector, k: FlowKey): Option<Counters> {
    if k in c.prevFlow then Some(c.prevFlow[k]) else None
  }

  /** Folds one dumped flow into the record of its service. */
  function CollectOne(c: Collector, f: Flow): Collector {
    var d := DeltaOf(f.counters, Prev(c, f.key));
    var c := c.(prevFlow := c.prevFlow[f.key := f.counters]);
    if d == Zero then c
    else
      var k := AggKey(f.key);
      c.(pending := c.pending[k := Plus(At(c.pending, k), Turned(f.key, d))])
  }

  function CollectAll(c: Collector, flows: seq<Flow>, overlay: Addr -> bool): Collector {
    if flows == [] then c
    else
      var f := flows[|flows| - 1];
      var c := CollectAll(c, flows[..|flows| - 1], overlay);
      if overlay(f.key.src) || overlay(f.key.dst) then CollectOne(c, f) else c
  }

  function Seen(flows: seq<Flow>, overlay: Addr -> bool): set<FlowKey> {
    set f | f in flows && (overlay(f.key.src) || overlay(f.key.dst)) :: f.key
  }

  /** A collection: fold the dump, then drop the snapshots of flows it did not show. */
  function Collected(c: Collector, flows: seq<Flow>, overlay: Addr -> bool): Collector {
    var x := CollectAll(c, flows, overlay);
    x.(prevFlow := map k | k in x.prevFlow && k in Seen(flows, overlay) :: x.prevFlow[k])
  }

  method CollectFlows(c: Collector, flows: seq<Flow>, overlay: Addr -> bool) returns (r: Collector)
    ensures r == Collected(c, flows, overlay)
  {
    r := c;
    var seen: set<FlowKey> := {};
    for i := 0 to |flows|
      invariant r == CollectAll(c, flows[..i], overlay)
      invariant seen == Seen(flows[..i], overlay)
    {
      var f := flows[i];
      assert flows[..i + 1][..i] == flows[..i];
      if overlay(f.key.src) || overlay(f.key.dst) {
        seen := seen + {f.key};
        var prev := Prev(r, f.key);
        var delta := DeltaOf(f.counters, prev);
        r := r.(prevFlow := r.prevFlow[f.key := f.counters]);
        if delta != Zero {
          var o := OrientFlow(f.key.src, f.key.srcPort, f.key.dst, f.key.dstPort);
          var aggKey := FlowKey(f.key.protocol, o.client, 0, o.server, o.serverPort);
          if o.flipped {
            delta := Swap(delta);
          }
          r := r.(pending := r.pending[aggKey := Plus(At(r.pending, aggKey), delta)]);
        }
      }
    }
    assert flows[..|flows|] == flows;
    r := r.(prevFlow := map k | k in r.prevFlow && k in seen :: r.prevFlow[k]);
  }

  // ---- what travelled from one host to another ------------------------------------------

  datatype Unit = Bytes | Packets

  /** Traffic of one protocol from one host to another, on one service port, in bytes or packets. */
  datatype Lane = Lane(unit: Unit, protocol: nat, from: Addr, to: Addr, service: nat)

  /** What counters kept for src and dst say of a lane, whatever the port. */
  function Moved(k: FlowKey, c: Counters, lane: Lane): nat {
    var tx := if lane.unit.Bytes? then c.txBytes else c.txPackets;
    var rx := if lane.unit.Bytes? then c.rxBytes else c.rxPackets;
    if k.protocol != lane.protocol then 0
    else (if k.src == lane.from && k.dst == lane.to then tx else 0)
         + (if k.src == lane.to && k.dst == lane.from then rx else 0)
  }

  /** A captured flow has the ports of its two ends; the service is the lower one. */
  function Sent(k: FlowKey, c: Counters, lane: Lane): nat {
    if Min(k.srcPort, k.dstPort) == lane.service then Moved(k, c, lane) else 0
  }

  /** A record has the service as its destination port. */
  function Recorded(k: FlowKey, c: Counters, lane: Lane): nat {
    if k.dstPort == lane.service then Moved(k, c, lane) else 0
  }

  /** The same for every record of a map. */
  ghost function Weights(m: map<FlowKey, Counters>, lane: Lane): map<FlowKey, nat> {
    map k | k in m :: Recorded(k, m[k], lane)
  }

  ghost function SentIn(m: map<FlowKey, Counters>, lane: Lane): nat {
    Total(Weights(m, lane))
  }

  lemma SentPlus(k: FlowKey, c: Counters, d: Counters, lane: Lane)
    ensures Sent(k, Plus(c, d), lane) == Sent(k, c, lane) + Sent(k, d, lane)
  {
  }

  lemma RecordedPlus(k: FlowKey, c: Counters, d: Counters, lane: Lane)
    ensures Recorded(k, Plus(c, d), lane) == Recorded(k, c, lane) + Recorded(k, d, lane)
  {
  }

  /** Turning a flow round swaps its counters with its ends, so each direction keeps its bytes and
      packets, and the record keeps the service port. */
  lemma TurnKeepsDirections(k: FlowKey, d: Counters, lane: Lane)
    ensures Recorded(AggKey(k), Turned(k, d), lane) == Sent(k, d, lane)
  {
  }

  lemma AddRecord(m: map<FlowKey, Counters>, k: FlowKey, d: Counters, lane: Lane)
    ensures SentIn(m[k := Plus(At(m, k), d)], lane)
            == SentIn(m, lane) + Recorded(k, d, lane)
  {
    var w := Weights(m, lane);
    var was := Recorded(k, At(m, k), lane);
    RecordedPlus(k, At(m, k), d, lane);
    assert Weights(m[k := Plus(At(m, k), d)], lane) == w[k := was + Recorded(k, d, lane)];
    TotalPut(w, k, was + Recorded(k, d, lane));
  }

  /** What the flows of a dump add for each direction. */
  ghost function Added(c: Collector, flows: seq<Flow>, overlay: Addr -> bool, lane: Lane): nat {
    if flows == [] then 0
    else
      var n := |flows| - 1;
      var f := flows[n];
      Added(c, flows[..n], overlay, lane)
      + if overlay(f.key.src) || overlay(f.key.dst)
        then Sent(f.key, DeltaOf(f.counters, Prev(CollectAll(c, flows[..n], overlay), f.key)), lane) else 0
  }

  lemma CollectOneAdds(c: Collector, f: Flow, lane: Lane)
    ensures SentIn(CollectOne(c, f).pending, lane)
            == SentIn(c.pending, lane) + Sent(f.key, DeltaOf(f.counters, Prev(c, f.key)), lane)
  {
    var d := DeltaOf(f.counters, Prev(c, f.key));
    TurnKeepsDirections(f.key, d, lane);
    AddRecord(c.pending, AggKey(f.key), Turned(f.key, d), lane);
  }

  /** Orienting and aggregating a dump changes no direction's total: between any two hosts and for
      any service the pending records grow by exactly the bytes and packets the dumped flows grew
      by. */
  lemma {:induction false} DirectionsKept(c: Collector, flows: seq<Flow>, overlay: Addr -> bool,
                                          lane: Lane)
    ensures SentIn(Collected(c, flows, overlay).pending, lane)
            == SentIn(c.pending, lane) + Added(c, flows, overlay, lane)
  {
    if flows != [] {
      var n := |flows| - 1;
      DirectionsKept(c, flows[..n], overlay, lane);
      CollectOneAdds(CollectAll(c, flows[..n], overlay), flows[n], lane);
    }
  }
}

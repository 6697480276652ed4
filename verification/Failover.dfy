/** Path failover for one peer: the values kept for that peer in the reporter's maps, and
    what each operation of cmd/agent/relay.go does to them.

    A peer is direct, relayed, or relayed with a direct probe in flight. Device readings and
    the outcomes of device and network calls are arguments. Clock readings are integers, in
    nanoseconds. The zero time of the source is None here. */
module Failover {

  import opened Wrappers

  type Time = int
  type Endpoint = string

  const MINUTE: int := 60 * SECOND

  const DIRECT_STALE_AFTER: int := 90 * SECOND
  const DIRECT_PROBE_INTERVAL: int := 20 * SECOND
  const COORDINATED_PROBE_INTERVAL: int := 8 * SECOND
  const COORDINATED_PROBE_WINDOW: int := 45 * SECOND
  const DIRECT_PROBATION_MIN: int := 20 * SECOND
  const DIRECT_PROBATION_TIMEOUT: int := 60 * SECOND
  const DIRECT_STABLE_TENURE: int := 10 * MINUTE

  datatype Transport = Auto | WebSocket | Udp
  datatype Kind = QuicRelay | WsRelay | UdpRelay

  /** A loopback relay proxy. The serial number is its rank among the proxies ever started
      for the peer. */
  datatype Proxy = Proxy(serial: nat, endpoint: Endpoint)

  datatype Probe = Probe(
    started: Time, confirmedAt: Option<Time>, candidates: seq<Endpoint>, index: nat,
    relayEndpoint: Endpoint, interval: int, deadline: Option<Time>, epoch: int)

  /** The relay the peer is on, if any: `on` is the `relayed` flag. */
  datatype Relay = Relay(on: bool, at: Option<Time>, endpoint: Option<Endpoint>, kind: Option<Kind>)

  const NoRelay: Relay := Relay(false, None, None, None)

  /** The peer's proxies. `spawned` counts the proxies ever started and `closed` holds the
      serials of those that were closed. */
  datatype Proxies = Proxies(ws: Option<Proxy>, quic: Option<Proxy>, spawned: nat, closed: set<nat>)

  /** Flap damping: when the direct stint began, the consecutive short stints, and the time
      before which no probe may start. */
  datatype Damping = Damping(since: Option<Time>, flaps: nat, holdUntil: Option<Time>)

  /** What is remembered of earlier attempts: the highest punch epoch acted on, the failed
      probes in a row, the digest of the last candidate set, and whether QUIC failed. The
      digest, a join of sorted addresses, is the multiset of the addresses. */
  datatype Retry = Retry(epoch: int, failures: nat, digest: multiset<Endpoint>, quicUnavailable: bool)

  /** Everything the reporter keeps for one peer. */
  datatype PeerPath = PeerPath(
    firstSeen: Option<Time>, lastInbound: Option<Time>,
    relay: Relay, proxies: Proxies, probe: Option<Probe>, retry: Retry, damping: Damping)

  const NewPeer: PeerPath :=
    PeerPath(None, None, NoRelay, Proxies(None, None, 0, {}), None,
             Retry(0, 0, multiset{}, false), Damping(None, 0, None))

  /** What the device reports for a peer. */
  datatype DevicePeer = DevicePeer(endpoint: Option<Endpoint>, handshake: Option<Time>)

  datatype WsOutcome = WsStarted(endpoint: Endpoint) | WsNoRelay | WsFailed
  datatype UdpOutcome = UdpStarted(endpoint: Endpoint) | UdpNoRelay | UdpFailed

  /** How an attempt to start each relay transport would end. */
  datatype RelayEnv = RelayEnv(quic: Option<Endpoint>, ws: WsOutcome, udp: UdpOutcome)

  /** The three clock readings of one maybeRetryDirect call. */
  datatype Clock = Clock(hold: Time, since: Time, start: Time)

  datatype ProbeOutcome = Idle | Confirmed | Promoted | Waiting | Rotated | Restored

  // ---- values only computed -------------------------------------------------------------

  function Pow2(n: nat): (r: nat)
    ensures r >= 1
  {
    if n == 0 then 1 else 2 * Pow2(n - 1)
  }

  function DirectRetryInterval(failures: int): int {
    Min(5 * MINUTE * Pow2(if failures < 0 then 0 else Min(failures, 3)), 30 * MINUTE)
  }

  function FlapHoldDown(flaps: int): (hold: int) {
    if flaps < 1 then 0 else 2 * MINUTE * Pow2(Min(flaps - 1, 3))
  }

  function Later(a: Option<Time>, b: Option<Time>): Option<Time> {
    if b.Some? && (a.None? || b.value > a.value) then b else a
  }

  function DirectSilentFor(p: PeerPath, dev: DevicePeer, now: Time): int {
    var last := Later(Later(p.firstSeen, p.lastInbound), dev.handshake);
    if last.None? then 0 else now - last.value
  }

  // ---- operations that change the peer --------------------------------------------------

  function StintEnded(d: Damping, now: Time): Damping {
    if d.since.None? then d
    else if now - d.since.value >= DIRECT_STABLE_TENURE then d.(since := None, flaps := 0)
    else Damping(None, d.flaps + 1, Some(now + FlapHoldDown(d.flaps + 1)))
  }

  function StartProbe(p: PeerPath, candidates: seq<Endpoint>, interval: int, window: int,
                      epoch: int, now: Time, applied: bool): (r: (PeerPath, bool))
    requires |candidates| > 0
  {
    if p.relay.endpoint.None? || !applied then (p, false)
    else
      (p.(probe := Some(Probe(now, None, candidates, 0, p.relay.endpoint.value, interval,
                              if window > 0 then Some(now + window) else None, epoch))),
       true)
  }

  /** A probe answering a punch epoch not seen before is a coordinated one. */
  predicate Fast(r: Retry, epoch: int) {
    epoch > 0 && epoch > r.epoch
  }

  /** New candidates forget past failures; a new epoch is consumed even when held down. */
  function Heed(r: Retry, candidates: seq<Endpoint>, epoch: int): Retry {
    var digest := multiset(candidates);
    var r := if digest != r.digest then r.(digest := digest, failures := 0) else r;
    if Fast(r, epoch) then r.(epoch := epoch) else r
  }

  predicate HeldDown(d: Damping, now: Time) {
    d.holdUntil.Some? && now < d.holdUntil.value
  }

  predicate TooSoon(p: PeerPath, now: Time) {
    p.relay.at.Some? && now - p.relay.at.value < DirectRetryInterval(p.retry.failures)
  }

  /** A sync entry for the peer arrived. The flag says that a probe started. */
  function RetryDirect(off: bool, p: PeerPath, candidates: seq<Endpoint>, epoch: int,
                       clock: Clock, applied: bool): (r: (PeerPath, bool))
  {
    if off || |candidates| == 0 || !p.relay.on then (p, false)
    else
      var fast := Fast(p.retry, epoch);
      var p := p.(retry := Heed(p.retry, candidates, epoch));
      if HeldDown(p.damping, clock.hold) then (p, false)
      else if p.probe.Some? && !fast then (p, false)
      else if !fast && TooSoon(p, clock.since) then (p, false)
      else
        StartProbe(p, candidates,
                   if fast then COORDINATED_PROBE_INTERVAL else DIRECT_PROBE_INTERVAL,
                   if fast then COORDINATED_PROBE_WINDOW else 0, epoch, clock.start, applied)
  }

  function Serials(proxy: Option<Proxy>): set<nat> {
    if proxy.Some? then {proxy.value.serial} else {}
  }

  function CloseWs(x: Proxies): Proxies {
    x.(closed := x.closed + Serials(x.ws), ws := None)
  }

  function CloseQuic(x: Proxies): Proxies {
    x.(closed := x.closed + Serials(x.quic), quic := None)
  }

  function Promote(p: PeerPath, now: Time): PeerPath {
    p.(proxies := CloseQuic(CloseWs(p.proxies)), probe := None, relay := NoRelay,
       retry := Retry(p.retry.epoch, 0, multiset{}, false), firstSeen := Some(now),
       damping := p.damping.(since := Some(now), holdUntil := None))
  }

  function RestoreRelay(p: PeerPath, now: Time, applied: bool): (PeerPath, ProbeOutcome) {
    if applied then
      (p.(probe := None, relay := p.relay.(at := Some(now)), retry := p.retry.(failures := p.retry.failures + 1)),
       Restored)
    else (p, Waiting)
  }

  predicate DirectEndpoint(probe: Probe, dev: DevicePeer) {
    dev.endpoint.Some? && dev.endpoint.value != probe.relayEndpoint
  }

  predicate CanRotate(probe: Probe, now: Time) {
    if probe.deadline.None? then probe.index + 1 < |probe.candidates|
    else now < probe.deadline.value
  }

  function Rotate(probe: Probe, now: Time): Probe {
    probe.(index := if probe.index + 1 >= |probe.candidates| then 0 else probe.index + 1,
           started := now)
  }

  /** A confirmed probe waits for later inbound traffic. */
  function CheckProbation(p: PeerPath, probe: Probe, confirmed: Time, dev: DevicePeer, now: Time, applied: bool)
    : (PeerPath, ProbeOutcome)
  {
    if DirectEndpoint(probe, dev) && p.lastInbound.Some?
       && p.lastInbound.value > confirmed + DIRECT_PROBATION_MIN then (Promote(p, now), Promoted)
    else if now - confirmed < DIRECT_PROBATION_TIMEOUT then (p, Waiting)
    else RestoreRelay(p, now, applied)
  }

  function CheckProbe(p: PeerPath, dev: DevicePeer, now: Time, applied: bool): (PeerPath, ProbeOutcome) {
    if p.probe.None? then (p, Idle)
    else
      var probe := p.probe.value;
      if probe.confirmedAt.None? && dev.handshake.Some? && dev.handshake.value > probe.started
         && DirectEndpoint(probe, dev) then
        (p.(probe := Some(probe.(confirmedAt := Some(now)))), Confirmed)
      else if probe.confirmedAt.Some? then CheckProbation(p, probe, probe.confirmedAt.value, dev, now, applied)
      else if now - probe.started < probe.interval then (p, Waiting)
      else if CanRotate(probe, now) then
        if applied then (p.(probe := Some(Rotate(probe, now))), Rotated) else (p, Waiting)
      else RestoreRelay(p, now, applied)
  }

  /** Result of asking for a relay: the peer, whether it is now relayed, and whether the
      control plane turned out to have no relay at all. */
  datatype Switched = Switched(path: PeerPath, moved: bool, broken: bool)

  function OpenQuic(x: Proxies, ep: Endpoint): Proxies {
    x.(quic := Some(Proxy(x.spawned, ep)), spawned := x.spawned + 1)
  }

  function OpenWs(x: Proxies, ep: Endpoint): Proxies {
    x.(ws := Some(Proxy(x.spawned, ep)), spawned := x.spawned + 1)
  }

  function ViaWs(p: PeerPath, ws: WsOutcome): Switched {
    match ws
    case WsStarted(ep) =>
      Switched(p.(proxies := OpenWs(p.proxies, ep),
                  relay := p.relay.(endpoint := Some(ep), kind := Some(WsRelay))), true, false)
    case WsNoRelay => Switched(p, false, true)
    case WsFailed => Switched(p, false, false)
  }

  function ViaUdp(p: PeerPath, udp: UdpOutcome): Switched {
    match udp
    case UdpStarted(ep) =>
      Switched(p.(relay := p.relay.(endpoint := Some(ep), kind := Some(UdpRelay))), true, false)
    case UdpNoRelay => Switched(p, false, true)
    case UdpFailed => Switched(p, false, false)
  }

  function SwitchToRelay(transport: Transport, p: PeerPath, env: RelayEnv): Switched {
    match transport
    case Auto =>
      if !p.retry.quicUnavailable && env.quic.Some? then
        Switched(p.(proxies := OpenQuic(p.proxies, env.quic.value),
                    relay := p.relay.(endpoint := env.quic, kind := Some(QuicRelay))), true, false)
      else ViaWs(p.(retry := p.retry.(quicUnavailable := true)), env.ws)
    case WebSocket => ViaWs(p, env.ws)
    case Udp => ViaUdp(p, env.udp)
  }

  function Seen(p: PeerPath, now: Time): PeerPath {
    if p.firstSeen.None? then p.(firstSeen := Some(now)) else p
  }

  /** Marks a peer whose switch succeeded as relayed and closes its direct stint. */
  function Settle(p: PeerPath, now: Time): PeerPath {
    p.(relay := p.relay.(on := true, at := Some(now)), damping := StintEnded(p.damping, now))
  }

  predicate MustSwitch(broken: bool, p: PeerPath, dev: DevicePeer, now: Time) {
    !p.relay.on && !broken && DirectSilentFor(p, dev, now) >= DIRECT_STALE_AFTER
  }

  /** The part of a handshake check that may move a silent peer to a relay. */
  function RelayCheck(transport: Transport, broken: bool, p: PeerPath, dev: DevicePeer, now: Time,
                      env: RelayEnv): Switched
  {
    var p := Seen(p, now);
    if MustSwitch(broken, p, dev, now) then
      var s := SwitchToRelay(transport, p, env);
      if s.moved then Switched(Settle(s.path, now), true, broken) else s.(broken := broken || s.broken)
    else Switched(p, false, broken)
  }

  function RetireWs(p: PeerPath, alive: bool): PeerPath {
    if p.proxies.ws.Some? && !alive then
      p.(proxies := CloseWs(p.proxies), relay := NoRelay, probe := None)
    else p
  }

  function RetireQuic(p: PeerPath, alive: bool): PeerPath {
    if p.proxies.quic.Some? && !alive then
      p.(proxies := CloseQuic(p.proxies), relay := NoRelay, probe := None,
         retry := p.retry.(quicUnavailable := true))
    else p
  }

  // ---- whole runs -----------------------------------------------------------------------

  /** One thing that happens to the peer: received bytes are sampled, a sync entry for it
      arrives, the 5 s tick looks at its probe, or the report tick checks its handshake.
      On a report tick the peer may be missing from the device. */
  datatype Event =
    | Collect(now: Time, grew: bool)
    | SyncEntry(clock: Clock, candidates: seq<Endpoint>, epoch: int, applied: bool)
    | ProbeTick(now: Time, dev: DevicePeer, applied: bool)
    | HandshakeTick(now: Time, wsAlive: bool, quicAlive: bool, listed: Option<DevicePeer>,
                    broken: bool, applied: bool, env: RelayEnv)

  datatype Config = Config(transport: Transport, probeOff: bool)

  /** A direct stint: promoted, later perhaps ended. `flaps` is the count of consecutive
      short stints once it has ended. */
  datatype Stint = Stint(promotedAt: Time, endedAt: Option<Time>, flaps: nat)

  /** A started probe; `after` counts the stints that came before it. */
  datatype ProbeRecord = ProbeRecord(at: Time, coordinated: bool, epoch: int, after: nat)

  datatype History = History(stints: seq<Stint>, probes: seq<ProbeRecord>)

  datatype World = World(path: PeerPath, history: History)

  const NewWorld: World := World(NewPeer, History([], []))

  function NoteProbe(h: History, started: bool, at: Time, coordinated: bool, epoch: int): History {
    if started then h.(probes := h.probes + [ProbeRecord(at, coordinated, epoch, |h.stints|)]) else h
  }

  function NotePromoted(h: History, outcome: ProbeOutcome, now: Time): History {
    if outcome.Promoted? then h.(stints := h.stints + [Stint(now, None, 0)]) else h
  }

  function NoteEnded(h: History, ended: bool, flaps: nat, now: Time): History {
    if ended && |h.stints| > 0 then
      var n := |h.stints| - 1;
      h.(stints := h.stints[n := h.stints[n].(endedAt := Some(now), flaps := flaps)])
    else h
  }

  function Step(cfg: Config, w: World, e: Event): World {
    match e
    case Collect(now, grew) =>
      if grew then w.(path := w.path.(lastInbound := Some(now))) else w
    case SyncEntry(clock, candidates, epoch, applied) =>
      var r := RetryDirect(cfg.probeOff, w.path, candidates, epoch, clock, applied);
      World(r.0, NoteProbe(w.history, r.1, clock.start, Fast(w.path.retry, epoch), epoch))
    case ProbeTick(now, dev, applied) =>
      var r := CheckProbe(w.path, dev, now, applied);
      World(r.0, NotePromoted(w.history, r.1, now))
    case HandshakeTick(now, wsAlive, quicAlive, listed, broken, applied, env) =>
      var p := RetireQuic(RetireWs(w.path, wsAlive), quicAlive);
      if listed.None? then w.(path := p)
      else
        var r := CheckProbe(p, listed.value, now, applied);
        var s := RelayCheck(cfg.transport, broken, r.0, listed.value, now, env);
        World(s.path, NoteEnded(NotePromoted(w.history, r.1, now),
                                s.moved && r.0.damping.since.Some?, s.path.damping.flaps, now))
  }

  function Run(cfg: Config, events: seq<Event>): World {
    if events == [] then NewWorld
    else Step(cfg, Run(cfg, events[..|events| - 1]), events[|events| - 1])
  }

  function Began(e: Event): Time {
    if e.SyncEntry? then e.clock.hold else e.now
  }

  function Finished(e: Event): Time {
    if e.SyncEntry? then e.clock.start else e.now
  }

  /** The clock never runs backwards, inside a call or from one event to the next. */
  predicate Timed(events: seq<Event>) {
    && (forall i :: 0 <= i < |events| && events[i].SyncEntry? ==>
          events[i].clock.hold <= events[i].clock.since <= events[i].clock.start)
    && (forall i, j :: 0 <= i < j < |events| ==> Finished(events[i]) <= Began(events[j]))
  }
}

/** What path failover guarantees over whole runs: the entries for a peer stay consistent,
    and direct stints that do not hold are damped ever harder. */
module FailoverRuns {

  import opened Wrappers
  import opened Failover

  ghost predicate RelayConsistent(r: Relay) {
    (r.on <==> r.endpoint.Some?) && (r.on <==> r.at.Some?) && (r.on <==> r.kind.Some?)
  }

  /** At most one proxy is live and it serves the relay in use; every proxy ever started is
      the live one or closed. */
  ghost predicate ProxiesConsistent(x: Proxies, r: Relay) {
    && (x.ws.Some? <==> r.kind == Some(WsRelay))
    && (x.quic.Some? <==> r.kind == Some(QuicRelay))
    && (x.ws.Some? ==> r.endpoint == Some(x.ws.value.endpoint))
    && (x.quic.Some? ==> r.endpoint == Some(x.quic.value.endpoint))
    && ClosedOrLive(x)
  }

  ghost function Live(x: Proxies): set<nat> {
    Serials(x.ws) + Serials(x.quic)
  }

  ghost predicate ClosedOrLive(x: Proxies) {
    && (forall i <- Live(x) :: i < x.spawned)
    && (forall i: nat :: i in x.closed <==> i < x.spawned && i !in Live(x))
  }

  ghost predicate ProbeConsistent(probe: Option<Probe>, r: Relay) {
    probe.Some? ==>
      r.on && r.endpoint == Some(probe.value.relayEndpoint) && probe.value.index < |probe.value.candidates|
  }

  /** A direct stint clock never coexists with a relay or with a hold-down. */
  ghost predicate DampingConsistent(d: Damping, r: Relay) {
    d.since.Some? ==> !r.on && d.holdUntil.None?
  }

  /** The entries kept for one peer agree with each other. */
  ghost predicate Consistent(p: PeerPath) {
    && RelayConsistent(p.relay)
    && ProxiesConsistent(p.proxies, p.relay)
    && ProbeConsistent(p.probe, p.relay)
    && DampingConsistent(p.damping, p.relay)
  }

  ghost predicate NotAfter(at: Option<Time>, t: Time) {
    at.Some? ==> at.value <= t
  }

  /** No entry lies in the future, and a stint never began after the peer was last seen new. */
  ghost predicate Clocked(p: PeerPath, t: Time) {
    && NotAfter(p.firstSeen, t) && NotAfter(p.lastInbound, t)
    && NotAfter(p.relay.at, t) && NotAfter(p.damping.since, t)
    && (p.probe.Some? ==>
          && p.probe.value.started <= t
          && (p.probe.value.confirmedAt.Some? ==>
                p.probe.value.started <= p.probe.value.confirmedAt.value <= t))
    && (p.damping.since.Some? ==> p.firstSeen.Some? && p.damping.since.value <= p.firstSeen.value)
  }

  ghost function Release(s: Stint): Time
    requires s.endedAt.Some?
  {
    s.endedAt.value + FlapHoldDown(s.flaps)
  }

  ghost function FlapsBefore(stints: seq<Stint>, i: nat): nat
    requires i <= |stints|
  {
    if i == 0 then 0 else stints[i - 1].flaps
  }

  /** Stint i lasted at least the silence it takes to fall back; a short one adds a flap to
      the count, a stable one clears it. */
  ghost predicate Ended(stints: seq<Stint>, i: nat)
    requires i < |stints|
  {
    var s := stints[i];
    && s.endedAt.Some?
    && s.promotedAt + DIRECT_STALE_AFTER <= s.endedAt.value
    && s.flaps == if s.endedAt.value - s.promotedAt >= DIRECT_STABLE_TENURE then 0
                  else FlapsBefore(stints, i) + 1
  }

  /** Stint i + 1 began only after the hold-down earned by stint i and the probation of the
      probe that led to it. */
  ghost predicate Gap(stints: seq<Stint>, i: nat)
    requires i + 1 < |stints|
  {
    Ended(stints, i) && Release(stints[i]) + DIRECT_PROBATION_MIN < stints[i + 1].promotedAt
  }

  /** A probe that follows n stints starts only when each of their hold-downs is over. */
  ghost predicate Held(stints: seq<Stint>, q: ProbeRecord) {
    && q.after <= |stints|
    && (forall s :: 0 <= s < q.after ==> stints[s].endedAt.Some? && Release(stints[s]) <= q.at)
  }

  ghost predicate EpochsRise(probes: seq<ProbeRecord>) {
    forall i, j :: 0 <= i < j < |probes| && probes[i].coordinated && probes[j].coordinated ==>
                     probes[i].epoch < probes[j].epoch
  }

  ghost predicate Damped(h: History) {
    && (forall i :: 0 <= i < |h.stints| - 1 ==> Gap(h.stints, i))
    && (forall q <- h.probes :: Held(h.stints, q))
    && EpochsRise(h.probes)
  }

  /** The open stint is the last of the history, and the flap count is the one it left. */
  ghost predicate StintLinked(stints: seq<Stint>, d: Damping) {
    var n := |stints|;
    if d.since.Some? then
      n > 0 && stints[n - 1] == Stint(d.since.value, None, 0) && d.flaps == FlapsBefore(stints, n - 1)
    else
      d.flaps == FlapsBefore(stints, n) && (n > 0 ==> Ended(stints, n - 1))
  }

  /** Every hold-down ever earned is over by t or still in force, and over before the start
      of the probe in flight. */
  ghost predicate HoldLinked(stints: seq<Stint>, d: Damping, probe: Option<Probe>, t: Time) {
    forall s <- stints :: s.endedAt.Some? ==>
      && (Release(s) <= t || (d.holdUntil.Some? && Release(s) <= d.holdUntil.value))
      && (probe.Some? ==> Release(s) <= probe.value.started)
  }

  ghost predicate EpochLinked(probes: seq<ProbeRecord>, mark: int) {
    forall q <- probes :: q.coordinated ==> 0 < q.epoch <= mark
  }

  ghost predicate Linked(h: History, p: PeerPath, t: Time) {
    && StintLinked(h.stints, p.damping)
    && HoldLinked(h.stints, p.damping, p.probe, t)
    && EpochLinked(h.probes, p.retry.epoch)
  }

  ghost predicate Sound(w: World, t: Time) {
    Consistent(w.path) && Clocked(w.path, t) && Damped(w.history) && Linked(w.history, w.path, t)
  }

  // ---- proxies --------------------------------------------------------------------------

  lemma CloseWsKeeps(x: Proxies)
    requires ClosedOrLive(x) && (x.ws.None? || x.quic.None?)
    ensures ClosedOrLive(CloseWs(x))
  {
    assert forall i :: i in Serials(x.ws) ==> i in Live(x);
    assert Live(CloseWs(x)) == Live(x) - Serials(x.ws);
  }

  lemma CloseQuicKeeps(x: Proxies)
    requires ClosedOrLive(x) && (x.ws.None? || x.quic.None?)
    ensures ClosedOrLive(CloseQuic(x))
  {
    assert forall i :: i in Serials(x.quic) ==> i in Live(x);
    assert Live(CloseQuic(x)) == Live(x) - Serials(x.quic);
  }

  lemma CloseKeeps(x: Proxies)
    requires ClosedOrLive(x) && (x.ws.None? || x.quic.None?)
    ensures ClosedOrLive(CloseWs(x)) && ClosedOrLive(CloseQuic(x)) && ClosedOrLive(CloseQuic(CloseWs(x)))
  {
    CloseWsKeeps(x);
    CloseQuicKeeps(x);
    CloseQuicKeeps(CloseWs(x));
  }

  lemma OpenKeeps(x: Proxies, ep: Endpoint)
    requires ClosedOrLive(x) && x.ws.None? && x.quic.None?
    ensures ClosedOrLive(OpenWs(x, ep)) && ClosedOrLive(OpenQuic(x, ep))
  {
  }

  // ---- one event at a time --------------------------------------------------------------

  lemma AgeSound(w: World, t: Time, now: Time)
    requires Sound(w, t) && t <= now
    ensures Sound(w, now)
  {
  }

  lemma CollectSound(cfg: Config, w: World, e: Event, t: Time)
    requires Sound(w, t) && e.Collect? && t <= e.now
    ensures Sound(Step(cfg, w, e), e.now)
  {
  }

  lemma ProbeDamped(h: History, q: ProbeRecord)
    requires Damped(h) && Held(h.stints, q)
    requires q.coordinated ==> forall r <- h.probes :: r.coordinated ==> r.epoch < q.epoch
    ensures Damped(h.(probes := h.probes + [q]))
  {
  }

  lemma AllEnded(h: History, d: Damping, s: Stint)
    requires Damped(h) && StintLinked(h.stints, d) && d.since.None? && s in h.stints
    ensures s.endedAt.Some?
  {
    var i :| 0 <= i < |h.stints| && h.stints[i] == s;
    if i < |h.stints| - 1 {
      assert Gap(h.stints, i);
    }
  }

  /** A probe starts only on a relayed peer whose hold-downs are all over. */
  lemma StartAllowed(w: World, c: Clock, t: Time)
    requires Sound(w, t) && w.path.relay.on && !HeldDown(w.path.damping, c.hold)
    requires t <= c.hold <= c.since <= c.start
    ensures forall s <- w.history.stints :: s.endedAt.Some? && Release(s) <= c.start
  {
    forall s <- w.history.stints ensures s.endedAt.Some? && Release(s) <= c.start {
      AllEnded(w.history, w.path.damping, s);
    }
  }

  lemma HeedSound(w: World, candidates: seq<Endpoint>, epoch: int, t: Time)
    requires Sound(w, t)
    ensures Sound(w.(path := w.path.(retry := Heed(w.path.retry, candidates, epoch))), t)
  {
  }

  lemma SyncSound(cfg: Config, w: World, e: Event, t: Time)
    requires Sound(w, t) && e.SyncEntry?
    requires t <= e.clock.hold <= e.clock.since <= e.clock.start
    ensures Sound(Step(cfg, w, e), e.clock.start)
  {
    var r := RetryDirect(cfg.probeOff, w.path, e.candidates, e.epoch, e.clock, e.applied);
    AgeSound(w, t, e.clock.start);
    HeedSound(w, e.candidates, e.epoch, e.clock.start);
    if r.1 {
      StartAllowed(w, e.clock, t);
      ProbeDamped(w.history, ProbeRecord(e.clock.start, Fast(w.path.retry, e.epoch), e.epoch, |w.history.stints|));
    }
  }

  lemma PromotedDamped(h: History, now: Time)
    requires Damped(h)
    requires var n := |h.stints|;
             n > 0 ==> Ended(h.stints, n - 1) && Release(h.stints[n - 1]) + DIRECT_PROBATION_MIN < now
    ensures Damped(h.(stints := h.stints + [Stint(now, None, 0)]))
  {
    var stints := h.stints + [Stint(now, None, 0)];
    forall i | 0 <= i < |h.stints| ensures Gap(stints, i) {
      if i < |h.stints| - 1 {
        assert Gap(h.stints, i);
      }
    }
    forall q <- h.probes ensures Held(stints, q) {
      assert Held(h.stints, q);
    }
  }

  lemma PromoteSound(p: PeerPath, h: History, now: Time, t: Time)
    requires Sound(World(p, h), t) && t <= now
    requires p.probe.Some? && p.probe.value.confirmedAt.Some? && p.lastInbound.Some?
    requires p.lastInbound.value > p.probe.value.confirmedAt.value + DIRECT_PROBATION_MIN
    ensures Sound(World(Promote(p, now), NotePromoted(h, Promoted, now)), now)
  {
    CloseKeeps(p.proxies);
    PromotedDamped(h, now);
  }

  lemma RestoreSound(p: PeerPath, h: History, now: Time, applied: bool, t: Time)
    requires Sound(World(p, h), t) && t <= now && p.probe.Some?
    ensures Sound(World(RestoreRelay(p, now, applied).0, h), now)
  {
  }

  /** Confirming or rotating a probe changes only the probe, and never to an earlier start. */
  lemma ReprobeSound(p: PeerPath, h: History, probe: Probe, now: Time)
    requires Sound(World(p, h), now) && p.probe.Some?
    requires probe.relayEndpoint == p.probe.value.relayEndpoint && probe.index < |probe.candidates|
    requires p.probe.value.started <= probe.started <= now
    requires probe.confirmedAt.Some? ==> probe.started <= probe.confirmedAt.value <= now
    ensures Sound(World(p.(probe := Some(probe)), h), now)
  {
  }

  lemma ProbeSound(p: PeerPath, h: History, dev: DevicePeer, now: Time, applied: bool, t: Time)
    requires Sound(World(p, h), t) && t <= now
    ensures var r := CheckProbe(p, dev, now, applied); Sound(World(r.0, NotePromoted(h, r.1, now)), now)
  {
    var r := CheckProbe(p, dev, now, applied);
    AgeSound(World(p, h), t, now);
    if r.1.Promoted? {
      PromoteSound(p, h, now, t);
    } else if r.1.Restored? {
      RestoreSound(p, h, now, applied, t);
    } else if r.1.Confirmed? || r.1.Rotated? {
      ReprobeSound(p, h, r.0.probe.value, now);
    }
  }

  lemma RetireSound(w: World, wsAlive: bool, quicAlive: bool, t: Time)
    requires Sound(w, t)
    ensures Sound(w.(path := RetireQuic(RetireWs(w.path, wsAlive), quicAlive)), t)
  {
    CloseKeeps(w.path.proxies);
  }

  lemma EndedDamped(h: History, now: Time, flaps: nat)
    requires Damped(h) && |h.stints| > 0 && h.stints[|h.stints| - 1].endedAt.None?
    ensures Damped(NoteEnded(h, true, flaps, now))
  {
    var stints := NoteEnded(h, true, flaps, now).stints;
    forall i | 0 <= i < |stints| - 1 ensures Gap(stints, i) {
      assert Gap(h.stints, i);
    }
    forall q <- h.probes ensures Held(stints, q) {
      assert Held(h.stints, q);
    }
  }

  /** A switch that succeeds leaves consistent relay entries once the peer is marked. */
  lemma SwitchConsistent(transport: Transport, p: PeerPath, env: RelayEnv, now: Time)
    requires Consistent(p) && !p.relay.on
    ensures var s := SwitchToRelay(transport, p, env);
            && s.path == p.(relay := s.path.relay, proxies := s.path.proxies, retry := s.path.retry)
            && s.path.retry.epoch == p.retry.epoch
            && (s.moved ==> RelayConsistent(Settle(s.path, now).relay)
                            && ProxiesConsistent(s.path.proxies, Settle(s.path, now).relay))
            && (!s.moved ==> s.path.relay == p.relay && s.path.proxies == p.proxies)
  {
    if env.quic.Some? {
      OpenKeeps(p.proxies, env.quic.value);
    }
    if env.ws.WsStarted? {
      OpenKeeps(p.proxies, env.ws.endpoint);
    }
  }

  lemma SettleSound(p: PeerPath, q: PeerPath, h: History, now: Time)
    requires Sound(World(p, h), now) && !p.relay.on
    requires q == p.(relay := q.relay, proxies := q.proxies, retry := q.retry) && q.retry.epoch == p.retry.epoch
    requires RelayConsistent(Settle(q, now).relay) && ProxiesConsistent(q.proxies, Settle(q, now).relay)
    requires p.damping.since.Some? ==> now - p.damping.since.value >= DIRECT_STALE_AFTER
    ensures Sound(World(Settle(q, now), NoteEnded(h, p.damping.since.Some?, Settle(q, now).damping.flaps, now)), now)
  {
    if p.damping.since.Some? {
      EndedDamped(h, now, Settle(q, now).damping.flaps);
    }
  }

  lemma RelaySound(cfg: Config, w: World, broken: bool, dev: DevicePeer, now: Time, env: RelayEnv)
    requires Sound(w, now)
    ensures var s := RelayCheck(cfg.transport, broken, w.path, dev, now, env);
            var h := NoteEnded(w.history, s.moved && w.path.damping.since.Some?, s.path.damping.flaps, now);
            Sound(World(s.path, h), now)
  {
    var p := Seen(w.path, now);
    assert Sound(World(p, w.history), now);
    if MustSwitch(broken, p, dev, now) {
      SwitchConsistent(cfg.transport, p, env, now);
      var s := SwitchToRelay(cfg.transport, p, env);
      if s.moved {
        SettleSound(p, s.path, w.history, now);
      }
    }
  }

  lemma StepSound(cfg: Config, w: World, e: Event, t: Time)
    requires Sound(w, t) && t <= Began(e)
    requires e.SyncEntry? ==> e.clock.hold <= e.clock.since <= e.clock.start
    ensures Sound(Step(cfg, w, e), Finished(e))
  {
    match e
    case Collect(_, _) => CollectSound(cfg, w, e, t);
    case SyncEntry(_, _, _, _) => SyncSound(cfg, w, e, t);
    case ProbeTick(now, dev, applied) => ProbeSound(w.path, w.history, dev, now, applied, t);
    case HandshakeTick(now, wsAlive, quicAlive, listed, broken, applied, env) =>
      var p := RetireQuic(RetireWs(w.path, wsAlive), quicAlive);
      RetireSound(w, wsAlive, quicAlive, t);
      if listed.Some? {
        ProbeSound(p, w.history, listed.value, now, applied, t);
        var r := CheckProbe(p, listed.value, now, applied);
        RelaySound(cfg, World(r.0, NotePromoted(w.history, r.1, now)), broken, listed.value, now, env);
      } else {
        AgeSound(w.(path := p), t, now);
      }
  }

  // ---- whole runs -----------------------------------------------------------------------

  ghost function EndTime(events: seq<Event>): Time {
    if events == [] then 0 else Finished(events[|events| - 1])
  }

  lemma {:induction false} RunSound(cfg: Config, events: seq<Event>, t: Time)
    requires Timed(events) && (events == [] || t == EndTime(events))
    ensures Sound(Run(cfg, events), t)
  {
    if events != [] {
      var n := |events| - 1;
      var before := events[..n];
      var s := if n == 0 then Began(events[n]) else EndTime(before);
      RunSound(cfg, before, s);
      StepSound(cfg, Run(cfg, before), events[n], s);
    }
  }

  /** In every reachable state the entries of the peer agree with each other and the history
      is damped: short stints escalate the hold-down, no probe starts inside one, and
      coordinated probes use each punch epoch at most once. */
  lemma EveryRun(cfg: Config, events: seq<Event>)
    requires Timed(events)
    ensures Consistent(Run(cfg, events).path)
    ensures Damped(Run(cfg, events).history)
  {
    RunSound(cfg, events, EndTime(events));
  }

  /** No epoch, candidate change or relay restart starts a probe inside a hold-down: a probe
      on record after a stint that ended at `endedAt` as the k-th short one in a row starts
      no earlier than the k-th hold-down allows. */
  lemma NoProbeInHoldDown(cfg: Config, events: seq<Event>, s: nat, q: nat)
    requires Timed(events)
    requires var h := Run(cfg, events).history;
             q < |h.probes| && s < h.probes[q].after && s < |h.stints|
    ensures var h := Run(cfg, events).history;
            && h.stints[s].endedAt.Some?
            && h.probes[q].at >= h.stints[s].endedAt.value + FlapHoldDown(h.stints[s].flaps)
  {
    EveryRun(cfg, events);
    var h := Run(cfg, events).history;
    assert Held(h.stints, h.probes[q]);
  }

  // ---- geometric slow-down --------------------------------------------------------------

  /** Total hold-down earned by the first n flaps of a row. */
  ghost function HoldSum(n: nat): int {
    if n == 0 then 0 else HoldSum(n - 1) + FlapHoldDown(n)
  }

  ghost predicate Short(s: Stint) {
    s.endedAt.Some? && s.endedAt.value - s.promotedAt < DIRECT_STABLE_TENURE
  }

  /** n short stints in a row, the first of them following no flap. */
  ghost predicate FlapRow(stints: seq<Stint>, i: nat, n: nat) {
    && i + n < |stints|
    && FlapsBefore(stints, i) == 0
    && (forall k :: i <= k < i + n ==> Short(stints[k]))
  }

  lemma {:induction false} RowCounts(h: History, i: nat, n: nat)
    requires Damped(h) && FlapRow(h.stints, i, n)
    ensures FlapsBefore(h.stints, i + n) == n
    ensures h.stints[i + n].promotedAt - h.stints[i].promotedAt
            >= HoldSum(n) + n * (DIRECT_STALE_AFTER + DIRECT_PROBATION_MIN)
  {
    if n > 0 {
      RowCounts(h, i, n - 1);
      assert Gap(h.stints, i + n - 1);
    }
  }

  /** However punch epochs, candidates and relays behave, a row of n direct stints that do not
      hold takes at least the escalating hold-downs plus 110 s a stint. */
  lemma ChurnSlows(cfg: Config, events: seq<Event>, i: nat, n: nat)
    requires Timed(events) && FlapRow(Run(cfg, events).history.stints, i, n)
    ensures var stints := Run(cfg, events).history.stints;
            stints[i + n].promotedAt - stints[i].promotedAt
            >= HoldSum(n) + n * (DIRECT_STALE_AFTER + DIRECT_PROBATION_MIN)
  {
    EveryRun(cfg, events);
    RowCounts(Run(cfg, events).history, i, n);
  }

  /** 2, 4, 8 and then 16 minutes for every further flap. */
  lemma {:induction false} HoldSumClosed(n: nat)
    ensures n <= 3 ==> HoldSum(n) == 2 * MINUTE * (Pow2(n) - 1)
    ensures n >= 3 ==> HoldSum(n) == 14 * MINUTE + 16 * MINUTE * (n - 3)
  {
    if n > 0 {
      HoldSumClosed(n - 1);
      assert Pow2(0) == 1 && Pow2(1) == 2 && Pow2(2) == 4 && Pow2(3) == 8;
    }
  }

  // ---- what a promotion proves ----------------------------------------------------------

  /** The device reading a tick event makes of the peer, if it looks at the probe. */
  ghost function Reading(e: Event): Option<DevicePeer> {
    if e.ProbeTick? then Some(e.dev) else if e.HandshakeTick? then e.listed else None
  }

  /** The event read a handshake newer than the start of the probe's candidate, on an
      endpoint other than the relay's. */
  ghost predicate FreshDirect(p: PeerPath, e: Event) {
    var dev := Reading(e);
    && dev.Some? && p.probe.Some?
    && dev.value.handshake.Some? && dev.value.handshake.value > p.probe.value.started
    && dev.value.endpoint.Some? && Some(dev.value.endpoint.value) != p.relay.endpoint
  }

  /** A probe is confirmed after an event only if it was before and did not change, or the
      event itself confirmed it; received bytes are noted only by a sample that grew. */
  ghost predicate Follows(p: PeerPath, e: Event, q: PeerPath) {
    && (q.probe.Some? && q.probe.value.confirmedAt.Some? && q.probe != p.probe ==>
          && FreshDirect(p, e) && p.probe.value == q.probe.value.(confirmedAt := None)
          && q.probe.value.confirmedAt == Some(e.now))
    && (q.lastInbound != p.lastInbound ==> q.lastInbound.Some? && e == Collect(q.lastInbound.value, true))
  }

  lemma SwitchFollows(transport: Transport, broken: bool, p: PeerPath, dev: DevicePeer, now: Time, env: RelayEnv)
    ensures var q := RelayCheck(transport, broken, p, dev, now, env).path;
            q.probe == p.probe && q.lastInbound == p.lastInbound
  {
  }

  lemma ProbeFollows(p: PeerPath, dev: DevicePeer, now: Time, applied: bool)
    requires Consistent(p)
    ensures var q := CheckProbe(p, dev, now, applied).0;
            && q.lastInbound == p.lastInbound
            && (q.probe.Some? && q.probe.value.confirmedAt.Some? && q.probe != p.probe ==>
                  && FreshDirect(p, ProbeTick(now, dev, applied))
                  && p.probe.value == q.probe.value.(confirmedAt := None)
                  && q.probe.value.confirmedAt == Some(now))
  {
  }

  lemma RetireFollows(p: PeerPath, wsAlive: bool, quicAlive: bool)
    requires Consistent(p)
    ensures var q := RetireQuic(RetireWs(p, wsAlive), quicAlive);
            && Consistent(q) && q.lastInbound == p.lastInbound
            && ((q.probe == p.probe && q.relay == p.relay) || q.probe.None?)
  {
    CloseKeeps(p.proxies);
  }

  lemma StepFollows(cfg: Config, w: World, e: Event)
    requires Consistent(w.path)
    ensures Follows(w.path, e, Step(cfg, w, e).path)
  {
    match e
    case Collect(_, _) =>
    case SyncEntry(_, _, _, _) =>
    case ProbeTick(now, dev, applied) => ProbeFollows(w.path, dev, now, applied);
    case HandshakeTick(now, wsAlive, quicAlive, listed, broken, applied, env) =>
      var p := RetireQuic(RetireWs(w.path, wsAlive), quicAlive);
      RetireFollows(w.path, wsAlive, quicAlive);
      if listed.Some? {
        ProbeFollows(p, listed.value, now, applied);
        SwitchFollows(cfg.transport, broken, CheckProbe(p, listed.value, now, applied).0, listed.value, now, env);
      }
  }

  /** States visited, before and after each event. */
  ghost predicate Visits(paths: seq<PeerPath>, events: seq<Event>) {
    && |paths| == |events| + 1 && paths[0] == NewPeer
    && (forall i :: 0 <= i < |events| ==> Follows(paths[i], events[i], paths[i + 1]))
  }

  /** Event a confirmed the probe, which is still the one in flight before event c. */
  ghost predicate ConfirmedAt(paths: seq<PeerPath>, events: seq<Event>, a: nat, c: nat, probe: Probe)
    requires |paths| == |events| + 1
  {
    && a < c < |paths|
    && FreshDirect(paths[a], events[a])
    && paths[a].probe.value == probe.(confirmedAt := None)
    && probe.confirmedAt == Some(events[a].now)
    && (forall m :: a < m <= c ==> paths[m].probe == Some(probe))
  }

  lemma {:induction false} TraceConfirmation(paths: seq<PeerPath>, events: seq<Event>, c: nat)
    requires Visits(paths, events) && c < |paths|
    requires paths[c].probe.Some? && paths[c].probe.value.confirmedAt.Some?
    ensures exists a: nat :: ConfirmedAt(paths, events, a, c, paths[c].probe.value)
  {
    var probe := paths[c].probe.value;
    assert Follows(paths[c - 1], events[c - 1], paths[c]);
    if paths[c].probe == paths[c - 1].probe {
      TraceConfirmation(paths, events, c - 1);
      var a: nat :| ConfirmedAt(paths, events, a, c - 1, probe);
      assert ConfirmedAt(paths, events, a, c, probe);
    } else {
      assert ConfirmedAt(paths, events, c - 1, c, probe);
    }
  }

  lemma {:induction false} TraceInbound(paths: seq<PeerPath>, events: seq<Event>, c: nat)
    requires Visits(paths, events) && c < |paths| && paths[c].lastInbound.Some?
    ensures exists b: nat :: b < c && events[b] == Collect(paths[c].lastInbound.value, true)
  {
    assert Follows(paths[c - 1], events[c - 1], paths[c]);
    if paths[c].lastInbound == paths[c - 1].lastInbound {
      TraceInbound(paths, events, c - 1);
    }
  }

  ghost function Paths(cfg: Config, events: seq<Event>): seq<PeerPath> {
    seq(|events| + 1, i requires 0 <= i <= |events| => Run(cfg, events[..i]).path)
  }

  lemma RunVisits(cfg: Config, events: seq<Event>)
    requires Timed(events)
    ensures Visits(Paths(cfg, events), events)
  {
    forall i | 0 <= i < |events| ensures Follows(Paths(cfg, events)[i], events[i], Paths(cfg, events)[i + 1]) {
      assert events[..i + 1][..i] == events[..i];
      EveryRun(cfg, events[..i]);
      StepFollows(cfg, Run(cfg, events[..i]), events[i]);
    }
  }

  /** Event c adds a stint to the history. */
  ghost predicate Promotes(cfg: Config, events: seq<Event>, c: nat)
    requires c < |events|
  {
    |Run(cfg, events[..c + 1]).history.stints| > |Run(cfg, events[..c]).history.stints|
  }

  lemma PromotesMeans(cfg: Config, w: World, e: Event)
    requires Consistent(w.path)
    requires |Step(cfg, w, e).history.stints| > |w.history.stints|
    ensures Reading(e).Some? && w.path.probe.Some? && w.path.probe.value.confirmedAt.Some?
    ensures w.path.lastInbound.Some?
    ensures w.path.lastInbound.value > w.path.probe.value.confirmedAt.value + DIRECT_PROBATION_MIN
    ensures Reading(e).value.endpoint.Some? && Some(Reading(e).value.endpoint.value) != w.path.relay.endpoint
  {
    if e.HandshakeTick? {
      RetireFollows(w.path, e.wsAlive, e.quicAlive);
    }
  }

  /** A peer leaves its relay only on evidence: an earlier event a saw a handshake newer than
      the candidate's start on a direct endpoint, that same probe stayed in flight, a sample b
      more than 20 s later showed more received bytes, and the endpoint is still direct. */
  lemma PromotionProof(cfg: Config, events: seq<Event>, c: nat) returns (a: nat, b: nat)
    requires Timed(events) && c < |events| && Promotes(cfg, events, c)
    ensures a < b < c
    ensures var p := Run(cfg, events[..c]).path;
            && p.probe.Some?
            && ConfirmedAt(Paths(cfg, events), events, a, c, p.probe.value)
            && events[b].Collect? && events[b].grew
            && events[b].now > events[a].now + DIRECT_PROBATION_MIN
            && Reading(events[c]).Some? && Reading(events[c]).value.endpoint.Some?
            && Some(Reading(events[c]).value.endpoint.value) != p.relay.endpoint
  {
    var w := Run(cfg, events[..c]);
    var paths := Paths(cfg, events);
    RunVisits(cfg, events);
    assert events[..c + 1][..c] == events[..c];
    EveryRun(cfg, events[..c]);
    PromotesMeans(cfg, w, events[c]);
    TraceConfirmation(paths, events, c);
    TraceInbound(paths, events, c);
    a :| ConfirmedAt(paths, events, a, c, w.path.probe.value);
    b :| b < c && events[b] == Collect(w.path.lastInbound.value, true);
  }
}

/** What path failover does, and exactly when: which silent peers fall back to a relay, which
    sync entries start a probe, how a probe ends, and that every candidate gets its turn. */
module FailoverLive {

  import opened Wrappers
  import opened Failover
  import opened FailoverRuns
  import FailoverBackoff

  // ---- falling back to a relay ----------------------------------------------------------

  /** When received bytes were last seen to grow. */
  ghost function LastInbound(events: seq<Event>): Option<Time> {
    if events == [] then None
    else
      var n := |events| - 1;
      if events[n].Collect? && events[n].grew then Some(events[n].now) else LastInbound(events[..n])
  }

  /** When the peer was last seen as new: at its latest promotion, or else at the first
      handshake tick that found it on the device. */
  ghost function FirstSighting(cfg: Config, events: seq<Event>): Option<Time> {
    if events == [] then None
    else
      var n := |events| - 1;
      var before := FirstSighting(cfg, events[..n]);
      if Promotes(cfg, events, n) then Some(Finished(events[n]))
      else if before.None? && events[n].HandshakeTick? && events[n].listed.Some? then Some(events[n].now)
      else before
  }

  lemma CheckTimes(p: PeerPath, dev: DevicePeer, now: Time, applied: bool)
    ensures var r := CheckProbe(p, dev, now, applied);
            && r.0.lastInbound == p.lastInbound
            && r.0.firstSeen == if r.1.Promoted? then Some(now) else p.firstSeen
  {
  }

  lemma RelayTimes(transport: Transport, broken: bool, p: PeerPath, dev: DevicePeer, now: Time, env: RelayEnv)
    ensures var q := RelayCheck(transport, broken, p, dev, now, env).path;
            && q.lastInbound == p.lastInbound
            && q.firstSeen == if p.firstSeen.None? then Some(now) else p.firstSeen
  {
  }

  lemma StepTimes(cfg: Config, w: World, e: Event)
    ensures var after := Step(cfg, w, e);
            && after.path.lastInbound == (if e.Collect? && e.grew then Some(e.now) else w.path.lastInbound)
            && after.path.firstSeen ==
               if |after.history.stints| > |w.history.stints| then Some(Finished(e))
               else if w.path.firstSeen.None? && e.HandshakeTick? && e.listed.Some? then Some(e.now)
               else w.path.firstSeen
  {
    match e
    case Collect(_, _) =>
    case SyncEntry(_, _, _, _) =>
    case ProbeTick(now, dev, applied) => CheckTimes(w.path, dev, now, applied);
    case HandshakeTick(now, wsAlive, quicAlive, listed, broken, applied, env) =>
      var p := RetireQuic(RetireWs(w.path, wsAlive), quicAlive);
      if listed.Some? {
        CheckTimes(p, listed.value, now, applied);
        RelayTimes(cfg.transport, broken, CheckProbe(p, listed.value, now, applied).0, listed.value, now, env);
      }
  }

  /** The two times the reporter keeps for the peer are those of the events. */
  lemma {:induction false} RunTimes(cfg: Config, events: seq<Event>)
    ensures Run(cfg, events).path.lastInbound == LastInbound(events)
    ensures Run(cfg, events).path.firstSeen == FirstSighting(cfg, events)
  {
    if events != [] {
      var n := |events| - 1;
      RunTimes(cfg, events[..n]);
      assert events[..n + 1] == events;
      StepTimes(cfg, Run(cfg, events[..n]), events[n]);
    }
  }

  /** The time, if there is one, lies at least 90 s back. */
  ghost predicate Past(at: Option<Time>, now: Time) {
    at.Some? ==> now - at.value >= 90 * SECOND
  }

  /** The peer on a report tick once dead proxies are retired and its probe is checked. */
  ghost function Checked(p: PeerPath, e: Event): PeerPath
    requires e.HandshakeTick? && e.listed.Some?
  {
    CheckProbe(RetireQuic(RetireWs(p, e.wsAlive), e.quicAlive), e.listed.value, e.now, e.applied).0
  }

  /** The relay the configured transport comes up with: QUIC is tried first under auto,
      unless it failed before, and the WebSocket is what auto falls back to. */
  ghost function Offered(transport: Transport, env: RelayEnv, noQuic: bool): Option<(Kind, Endpoint)> {
    if transport.Auto? && !noQuic && env.quic.Some? then Some((QuicRelay, env.quic.value))
    else if transport.Udp? then
      if env.udp.UdpStarted? then Some((UdpRelay, env.udp.endpoint)) else None
    else if env.ws.WsStarted? then Some((WsRelay, env.ws.endpoint)) else None
  }

  /** No transport starts and the control plane answers that it has no relay. */
  ghost predicate Denied(transport: Transport, env: RelayEnv, noQuic: bool) {
    Offered(transport, env, noQuic).None? && if transport.Udp? then env.udp.UdpNoRelay? else env.ws.WsNoRelay?
  }

  /** On this tick the peer, silent and without a relay, asks for one and is told there is none. */
  ghost predicate AsksInVain(cfg: Config, p: PeerPath, e: Event)
    requires e.HandshakeTick? && e.listed.Some?
  {
    var q := Checked(p, e);
    && !q.relay.on && Denied(cfg.transport, e.env, q.retry.quicUnavailable)
    && q.firstSeen.Some? && Past(q.firstSeen, e.now)
    && Past(q.lastInbound, e.now) && Past(e.listed.value.handshake, e.now)
  }

  lemma RelayDenied(cfg: Config, p: PeerPath, e: Event)
    requires e.HandshakeTick? && e.listed.Some?
    ensures RelayCheck(cfg.transport, e.broken, Checked(p, e), e.listed.value, e.now, e.env).broken ==
            (e.broken || AsksInVain(cfg, p, e))
  {
  }

  lemma RelayFallsBack(transport: Transport, broken: bool, q: PeerPath, dev: DevicePeer, now: Time, env: RelayEnv)
    ensures var after := RelayCheck(transport, broken, q, dev, now, env).path;
            var offered := Offered(transport, env, q.retry.quicUnavailable);
            && after.firstSeen.Some?
            && (if q.relay.on || broken || offered.None?
                   || !Past(after.firstSeen, now) || !Past(q.lastInbound, now) || !Past(dev.handshake, now)
                then after.relay == q.relay
                else after.relay == Relay(true, Some(now), Some(offered.value.1), Some(offered.value.0)))
            && after.retry == q.retry.(quicUnavailable :=
                 || q.retry.quicUnavailable
                 || (&& transport.Auto? && env.quic.None? && !q.relay.on && !broken
                     && Past(after.firstSeen, now) && Past(q.lastInbound, now) && Past(dev.handshake, now)))
  {
  }

  lemma FallBack(cfg: Config, w: World, e: Event)
    requires e.HandshakeTick? && e.listed.Some?
    ensures var q := Checked(w.path, e);
            && Step(cfg, w, e).path == RelayCheck(cfg.transport, e.broken, q, e.listed.value, e.now, e.env).path
            && q.lastInbound == w.path.lastInbound
  {
    CheckTimes(RetireQuic(RetireWs(w.path, e.wsAlive), e.quicAlive), e.listed.value, e.now, e.applied);
  }

  /** A report tick that finds the peer on the device leaves it relayed exactly when it was
      still relayed after the dead proxies and the probe were dealt with, or when the relay is
      not known to be missing, a transport starts, and neither the first sighting, nor the
      last received bytes, nor the last handshake lies within the last 90 s. A peer moved here
      is on the transport that started, from now on; any other keeps its relay as it was. QUIC is
      ruled out for the peer once such an attempt finds it does not start. */
  lemma FallsBackExactly(cfg: Config, events: seq<Event>, e: Event)
    requires e.HandshakeTick? && e.listed.Some?
    ensures var q := Checked(Run(cfg, events).path, e);
            var after := Run(cfg, events + [e]).path;
            var offered := Offered(cfg.transport, e.env, q.retry.quicUnavailable);
            if q.relay.on || e.broken || offered.None?
               || !Past(FirstSighting(cfg, events + [e]), e.now)
               || !Past(LastInbound(events), e.now)
               || !Past(e.listed.value.handshake, e.now)
            then after.relay == q.relay
            else after.relay == Relay(true, Some(e.now), Some(offered.value.1), Some(offered.value.0))
    ensures var q := Checked(Run(cfg, events).path, e);
            Run(cfg, events + [e]).path.retry.quicUnavailable <==>
              || q.retry.quicUnavailable
              || (&& cfg.transport.Auto? && e.env.quic.None? && !q.relay.on && !e.broken
                  && Past(FirstSighting(cfg, events + [e]), e.now)
                  && Past(LastInbound(events), e.now)
                  && Past(e.listed.value.handshake, e.now))
    ensures FirstSighting(cfg, events + [e]).Some?
  {
    var all := events + [e];
    assert all[..|all| - 1] == events;
    RunTimes(cfg, events);
    RunTimes(cfg, all);
    FallBack(cfg, Run(cfg, events), e);
    var q := Checked(Run(cfg, events).path, e);
    RelayFallsBack(cfg.transport, e.broken, q, e.listed.value, e.now, e.env);
  }

  /** Retirement on a report tick: the peer loses its relay and its probe exactly when the
      proxy that carries it is dead, and a dead QUIC proxy rules QUIC out. */
  lemma RetiresExactly(cfg: Config, events: seq<Event>, wsAlive: bool, quicAlive: bool)
    requires Timed(events)
    ensures var p := Run(cfg, events).path;
            var q := RetireQuic(RetireWs(p, wsAlive), quicAlive);
            var ws := p.relay.kind == Some(WsRelay) && !wsAlive;
            var quic := p.relay.kind == Some(QuicRelay) && !quicAlive;
            && q == (if ws || quic
                     then p.(proxies := q.proxies, relay := NoRelay, probe := None,
                             retry := p.retry.(quicUnavailable := quic || p.retry.quicUnavailable))
                     else p)
            && (ws || quic ==> q.proxies.ws.None? && q.proxies.quic.None?)
  {
    EveryRun(cfg, events);
  }

  // ---- starting a probe -----------------------------------------------------------------

  /** The epoch asks for a punch the peer has not answered yet. */
  ghost predicate NewEpoch(p: PeerPath, e: Event)
    requires e.SyncEntry?
  {
    e.epoch > 0 && e.epoch > p.retry.epoch
  }

  /** How long the peer must have been on its relay before it is probed unasked. New
      candidates start over at five minutes. */
  ghost function Wait(p: PeerPath, candidates: seq<Endpoint>): int {
    if multiset(candidates) != p.retry.digest || p.retry.failures == 0 then 5 * MINUTE
    else if p.retry.failures == 1 then 10 * MINUTE
    else if p.retry.failures == 2 then 20 * MINUTE
    else 30 * MINUTE
  }

  /** The probe a sync entry starts: a coordinated one dwells 8 s per candidate for 45 s in
      all, any other 20 s per candidate until the candidates run out. */
  ghost function Begun(p: PeerPath, e: Event): Probe
    requires e.SyncEntry? && p.relay.endpoint.Some?
  {
    var fast := NewEpoch(p, e);
    Probe(e.clock.start, None, e.candidates, 0, p.relay.endpoint.value,
          if fast then 8 * SECOND else 20 * SECOND,
          if fast then Some(e.clock.start + 45 * SECOND) else None, e.epoch)
  }

  /** What a sync entry leaves behind even where no probe starts: the epoch counts as
      answered, and new candidates clear the failures. */
  ghost function Noted(p: PeerPath, e: Event): Retry
    requires e.SyncEntry?
  {
    Retry(if NewEpoch(p, e) then e.epoch else p.retry.epoch,
          if multiset(e.candidates) == p.retry.digest then p.retry.failures else 0,
          multiset(e.candidates), p.retry.quicUnavailable)
  }

  lemma SyncStarts(cfg: Config, w: World, e: Event)
    requires e.SyncEntry? && Consistent(w.path)
    ensures var p := w.path;
            var after := Step(cfg, w, e);
            var heard := !cfg.probeOff && e.candidates != [] && p.relay.on;
            var starts := heard && e.applied
                          && (p.damping.holdUntil.Some? ==> e.clock.hold >= p.damping.holdUntil.value)
                          && (NewEpoch(p, e)
                              || (p.probe.None? && e.clock.since - p.relay.at.value >= Wait(p, e.candidates)));
            && after.path == (if starts then p.(retry := Noted(p, e), probe := Some(Begun(p, e)))
                              else if heard then p.(retry := Noted(p, e)) else p)
            && after.history.probes == w.history.probes +
               (if starts then [ProbeRecord(e.clock.start, NewEpoch(p, e), e.epoch, |w.history.stints|)] else [])
  {
    FailoverBackoff.RetryLadder(Noted(w.path, e).failures);
  }

  /** The hold-down in force: the one the latest stint earned, if it has ended short. */
  ghost function HoldOf(stints: seq<Stint>): Option<Time> {
    var n := |stints|;
    if n == 0 || stints[n - 1].endedAt.None? || stints[n - 1].flaps == 0 then None
    else Some(Release(stints[n - 1]))
  }

  lemma CheckHold(p: PeerPath, h: History, dev: DevicePeer, now: Time, applied: bool)
    requires p.damping.holdUntil == HoldOf(h.stints)
    ensures var r := CheckProbe(p, dev, now, applied);
            r.0.damping.holdUntil == HoldOf(NotePromoted(h, r.1, now).stints)
  {
  }

  lemma RelayHold(cfg: Config, p: PeerPath, h: History, broken: bool, dev: DevicePeer, now: Time, env: RelayEnv)
    requires StintLinked(h.stints, p.damping) && DampingConsistent(p.damping, p.relay)
    requires p.damping.holdUntil == HoldOf(h.stints)
    ensures var s := RelayCheck(cfg.transport, broken, p, dev, now, env);
            s.path.damping.holdUntil ==
            HoldOf(NoteEnded(h, s.moved && p.damping.since.Some?, s.path.damping.flaps, now).stints)
  {
  }

  lemma StepHold(cfg: Config, w: World, e: Event, t: Time)
    requires Sound(w, t) && t <= Began(e) && Began(e) <= Finished(e)
    requires w.path.damping.holdUntil == HoldOf(w.history.stints)
    ensures var after := Step(cfg, w, e); after.path.damping.holdUntil == HoldOf(after.history.stints)
  {
    match e
    case Collect(_, _) =>
    case SyncEntry(_, _, _, _) =>
    case ProbeTick(now, dev, applied) => CheckHold(w.path, w.history, dev, now, applied);
    case HandshakeTick(now, wsAlive, quicAlive, listed, broken, applied, env) =>
      var p := RetireQuic(RetireWs(w.path, wsAlive), quicAlive);
      if listed.Some? {
        var r := CheckProbe(p, listed.value, now, applied);
        assert Sound(World(r.0, NotePromoted(w.history, r.1, now)), now) by {
          RetireSound(w, wsAlive, quicAlive, t);
          ProbeSound(p, w.history, listed.value, now, applied, t);
        }
        CheckHold(p, w.history, listed.value, now, applied);
        RelayHold(cfg, r.0, NotePromoted(w.history, r.1, now), broken, listed.value, now, env);
      }
  }

  lemma {:induction false} RunHold(cfg: Config, events: seq<Event>)
    requires Timed(events)
    ensures var w := Run(cfg, events); w.path.damping.holdUntil == HoldOf(w.history.stints)
  {
    if events != [] {
      var n := |events| - 1;
      var before := events[..n];
      var s := if n == 0 then Began(events[n]) else EndTime(before);
      RunHold(cfg, before);
      RunSound(cfg, before, s);
      StepHold(cfg, Run(cfg, before), events[n], s);
    }
  }

  /** A sync entry starts a probe exactly when probing is on, it brings candidates for a
      relayed peer, the device takes the change, the hold-down earned by the latest stint is
      over, and either the epoch is new or no probe is under way and the peer has been on its
      relay for the wait it has earned. Nothing else about the peer changes, except that a
      relayed peer's epoch and candidates are noted even where no probe starts. */
  lemma ProbeStartsExactly(cfg: Config, events: seq<Event>, e: Event)
    requires e.SyncEntry? && Timed(events)
    ensures var r := Run(cfg, events).path.relay; r.on ==> r.at.Some? && r.endpoint.Some?
    ensures var w := Run(cfg, events);
            var p := w.path;
            var after := Run(cfg, events + [e]);
            var hold := HoldOf(w.history.stints);
            var heard := !cfg.probeOff && e.candidates != [] && p.relay.on;
            var starts := heard && e.applied && (hold.Some? ==> e.clock.hold >= hold.value)
                          && (NewEpoch(p, e)
                              || (p.probe.None? && e.clock.since - p.relay.at.value >= Wait(p, e.candidates)));
            && after.path == (if starts then p.(retry := Noted(p, e), probe := Some(Begun(p, e)))
                              else if heard then p.(retry := Noted(p, e)) else p)
            && |after.history.probes| == |w.history.probes| + if starts then 1 else 0
  {
    assert (events + [e])[..|events|] == events;
    EveryRun(cfg, events);
    RunHold(cfg, events);
    SyncStarts(cfg, Run(cfg, events), e);
  }

  // ---- how a probe goes -----------------------------------------------------------------

  /** The device says the peer is reached elsewhere than through its relay. */
  ghost predicate Elsewhere(p: PeerPath, dev: DevicePeer) {
    dev.endpoint.Some? && dev.endpoint != p.relay.endpoint
  }

  ghost predicate Unconfirmed(p: PeerPath) {
    p.probe.Some? && p.probe.value.confirmedAt.None?
  }

  /** The probed candidate was answered: a handshake since it was set, not over the relay. */
  ghost predicate Answered(p: PeerPath, dev: DevicePeer)
    requires p.probe.Some?
  {
    Elsewhere(p, dev) && dev.handshake.Some? && dev.handshake.value > p.probe.value.started
  }

  /** Bytes came in more than 20 s after the answer. */
  ghost predicate Proven(p: PeerPath, dev: DevicePeer)
    requires p.probe.Some? && p.probe.value.confirmedAt.Some?
  {
    && Elsewhere(p, dev)
    && p.lastInbound.Some? && p.lastInbound.value > p.probe.value.confirmedAt.value + 20 * SECOND
  }

  /** The peer back on its relay after one more failure. */
  ghost function GivenUp(p: PeerPath, now: Time): PeerPath {
    p.(probe := None, relay := p.relay.(at := Some(now)), retry := p.retry.(failures := p.retry.failures + 1))
  }

  /** What becomes of p, whose probe waits for bytes on the answered path. */
  ghost predicate Concludes(p: PeerPath, dev: DevicePeer, now: Time, applied: bool, q: PeerPath)
    requires p.probe.Some? && p.probe.value.confirmedAt.Some?
  {
    if Proven(p, dev) then
      && q.relay == NoRelay && q.probe.None? && q.proxies.ws.None? && q.proxies.quic.None?
      && q.retry == Retry(p.retry.epoch, 0, multiset{}, false)
      && q.damping == Damping(Some(now), p.damping.flaps, None)
      && q.firstSeen == Some(now) && q.lastInbound == p.lastInbound
    else if applied && now - p.probe.value.confirmedAt.value >= 60 * SECOND then q == GivenUp(p, now)
    else q == p
  }

  /** What becomes of p, whose probe waits for an answer. An uncoordinated probe ends with
      its last candidate, a coordinated one goes round until its deadline. */
  ghost predicate GoesOn(p: PeerPath, dev: DevicePeer, now: Time, applied: bool, q: PeerPath)
    requires Unconfirmed(p)
  {
    var b := p.probe.value;
    var last := b.index + 1 >= |b.candidates|;
    if Answered(p, dev) then q == p.(probe := Some(b.(confirmedAt := Some(now))))
    else if !applied || now - b.started < b.interval then q == p
    else if (if b.deadline.None? then last else now >= b.deadline.value) then q == GivenUp(p, now)
    else q == p.(probe := Some(b.(index := if last then 0 else b.index + 1, started := now)))
  }

  lemma TickConfirmed(p: PeerPath, dev: DevicePeer, now: Time, applied: bool)
    requires ProbeConsistent(p.probe, p.relay) && p.probe.Some? && p.probe.value.confirmedAt.Some?
    ensures Concludes(p, dev, now, applied, CheckProbe(p, dev, now, applied).0)
  {
  }

  lemma TickUnconfirmed(p: PeerPath, dev: DevicePeer, now: Time, applied: bool)
    requires ProbeConsistent(p.probe, p.relay) && Unconfirmed(p)
    ensures GoesOn(p, dev, now, applied, CheckProbe(p, dev, now, applied).0)
  {
  }

  /** How a probe goes on one tick. A candidate that is answered is confirmed; one that is
      not gives way to the next after its dwell, or the probe is given up. A confirmed probe
      leads to promotion exactly when bytes came in well after the answer, and is given up
      after a minute without them. A promoted peer starts afresh: no relay, no failures, QUIC
      allowed again, its stint counted from now. */
  lemma ProbeTickExactly(cfg: Config, events: seq<Event>, e: Event)
    requires e.ProbeTick? && Timed(events)
    ensures var p := Run(cfg, events).path;
            var after := Run(cfg, events + [e]).path;
            && (p.probe.None? ==> after == p)
            && (Unconfirmed(p) ==> GoesOn(p, e.dev, e.now, e.applied, after))
            && (p.probe.Some? && !Unconfirmed(p) ==> Concludes(p, e.dev, e.now, e.applied, after))
  {
    assert (events + [e])[..|events|] == events;
    EveryRun(cfg, events);
    var p := Run(cfg, events).path;
    if Unconfirmed(p) {
      TickUnconfirmed(p, e.dev, e.now, e.applied);
    } else if p.probe.Some? {
      TickConfirmed(p, e.dev, e.now, e.applied);
    }
  }

  /** Place i on a ring of n places. */
  ghost function Place(i: nat, n: nat): (r: nat)
    requires n > 0
    ensures r < n
    ensures i < n ==> r == i
  {
    if i < n then i else Place(i - n, n)
  }

  lemma {:induction false} PlaceNext(i: nat, n: nat)
    requires n > 0
    ensures Place(i + 1, n) == if Place(i, n) + 1 == n then 0 else Place(i, n) + 1
  {
    if i >= n {
      PlaceNext(i - n, n);
    }
  }

  /** When the candidate in use after k ticks was set. */
  ghost function SetAt(b: Probe, ticks: seq<Event>, k: nat): Time
    requires k <= |ticks| && forall t <- ticks :: t.ProbeTick?
  {
    if k == 0 then b.started else ticks[k - 1].now
  }

  /** Ticks on which the probe of p moves: each comes a dwell after the last, finds no answer
      and is taken by the device. */
  ghost predicate Unanswered(p: PeerPath, ticks: seq<Event>)
    requires p.probe.Some?
  {
    && (forall t <- ticks :: t.ProbeTick?)
    && (forall k :: 0 <= k < |ticks| ==>
          var b := p.probe.value.(started := SetAt(p.probe.value, ticks, k));
          ticks[k].applied && ticks[k].now - b.started >= b.interval
          && !Answered(p.(probe := Some(b)), ticks[k].dev))
  }

  /** The probe of p after k ticks without an answer. */
  ghost function Swept(p: PeerPath, ticks: seq<Event>, k: nat): PeerPath
    requires p.probe.Some? && p.probe.value.candidates != []
    requires k <= |ticks| && forall t <- ticks :: t.ProbeTick?
  {
    var b := p.probe.value;
    p.(probe := Some(b.(index := Place(b.index + k, |b.candidates|), started := SetAt(b, ticks, k))))
  }

  /** After k ticks the probe still has somewhere to go. */
  ghost predicate Open(b: Probe, ticks: seq<Event>, k: nat)
    requires k < |ticks| && ticks[k].ProbeTick?
  {
    if b.deadline.None? then b.index + k + 1 < |b.candidates| else ticks[k].now < b.deadline.value
  }

  lemma SweptUnanswered(p: PeerPath, ticks: seq<Event>, k: nat)
    requires ProbeConsistent(p.probe, p.relay) && Unconfirmed(p) && Unanswered(p, ticks) && k < |ticks|
    ensures var q := Swept(p, ticks, k);
            && ProbeConsistent(q.probe, q.relay) && Unconfirmed(q) && !Answered(q, ticks[k].dev)
            && ticks[k].applied && ticks[k].now - q.probe.value.started >= q.probe.value.interval
  {
    var b := p.probe.value.(started := SetAt(p.probe.value, ticks, k));
    assert !Answered(p.(probe := Some(b)), ticks[k].dev);
  }

  lemma SweepStep(p: PeerPath, ticks: seq<Event>, k: nat, q: PeerPath)
    requires ProbeConsistent(p.probe, p.relay) && Unconfirmed(p) && Unanswered(p, ticks) && k < |ticks|
    requires p.probe.value.deadline.None? ==> p.probe.value.index + k < |p.probe.value.candidates|
    requires GoesOn(Swept(p, ticks, k), ticks[k].dev, ticks[k].now, ticks[k].applied, q)
    ensures q == if Open(p.probe.value, ticks, k) then Swept(p, ticks, k + 1) else GivenUp(p, ticks[k].now)
  {
    SweptUnanswered(p, ticks, k);
    PlaceNext(p.probe.value.index + k, |p.probe.value.candidates|);
  }

  /** What a tick makes of a peer whose probe waits for an answer. */
  ghost predicate Moves(p: PeerPath, t: Event, q: PeerPath)
    requires t.ProbeTick?
  {
    Unconfirmed(p) && ProbeConsistent(p.probe, p.relay) ==> GoesOn(p, t.dev, t.now, t.applied, q)
  }

  lemma SweptMoves(p: PeerPath, ticks: seq<Event>, k: nat, q: PeerPath)
    requires ProbeConsistent(p.probe, p.relay) && Unconfirmed(p) && Unanswered(p, ticks) && k < |ticks|
    requires p.probe.value.deadline.None? ==> p.probe.value.index + k < |p.probe.value.candidates|
    requires Moves(Swept(p, ticks, k), ticks[k], q)
    ensures q == if Open(p.probe.value, ticks, k) then Swept(p, ticks, k + 1) else GivenUp(p, ticks[k].now)
  {
    SweptUnanswered(p, ticks, k);
    SweepStep(p, ticks, k, q);
  }

  ghost predicate MovesAt(qs: seq<PeerPath>, ticks: seq<Event>, k: nat)
    requires k < |ticks| && ticks[k].ProbeTick? && k + 1 < |qs|
  {
    Moves(qs[k], ticks[k], qs[k + 1])
  }

  /** Peers as a row of ticks leaves them, each from the one before. */
  ghost predicate Row(qs: seq<PeerPath>, ticks: seq<Event>) {
    && |qs| == |ticks| + 1 && (forall t <- ticks :: t.ProbeTick?)
    && (forall k {:trigger MovesAt(qs, ticks, k)} :: 0 <= k < |ticks| ==> MovesAt(qs, ticks, k))
  }

  ghost function Tracked(cfg: Config, events: seq<Event>, ticks: seq<Event>): seq<PeerPath> {
    seq(|ticks| + 1, k requires 0 <= k <= |ticks| => Run(cfg, events + ticks[..k]).path)
  }

  lemma RunMoves(cfg: Config, events: seq<Event>, ticks: seq<Event>, k: nat)
    requires k < |ticks| && ticks[k].ProbeTick?
    ensures Moves(Run(cfg, events + ticks[..k]).path, ticks[k], Run(cfg, events + ticks[..k + 1]).path)
  {
    var p, t := Run(cfg, events + ticks[..k]).path, ticks[k];
    assert (events + ticks[..k + 1])[..|events| + k] == events + ticks[..k];
    if Unconfirmed(p) && ProbeConsistent(p.probe, p.relay) {
      TickUnconfirmed(p, t.dev, t.now, t.applied);
    }
  }

  lemma RunRow(cfg: Config, events: seq<Event>, ticks: seq<Event>)
    requires forall t <- ticks :: t.ProbeTick?
    ensures Row(Tracked(cfg, events, ticks), ticks)
    ensures Tracked(cfg, events, ticks)[0] == Run(cfg, events).path
    ensures Tracked(cfg, events, ticks)[|ticks|] == Run(cfg, events + ticks).path
  {
    var qs := Tracked(cfg, events, ticks);
    forall k | 0 <= k < |ticks|
      ensures MovesAt(qs, ticks, k)
    {
      RunMoves(cfg, events, ticks, k);
    }
    assert events + ticks[..0] == events && ticks[..|ticks|] == ticks;
  }

  /** A probe that is not answered takes its candidates in turn: k ticks on it is k places
      further, wrapping round, as long as a coordinated probe's window is open or an
      uncoordinated one has a candidate left. */
  lemma {:induction false} SweepAt(qs: seq<PeerPath>, ticks: seq<Event>, k: nat)
    requires Row(qs, ticks) && k <= |ticks|
    requires Unconfirmed(qs[0]) && ProbeConsistent(qs[0].probe, qs[0].relay) && Unanswered(qs[0], ticks)
    requires forall j :: 0 <= j < k ==> Open(qs[0].probe.value, ticks, j)
    ensures qs[k] == Swept(qs[0], ticks, k)
  {
    if k > 0 {
      SweepAt(qs, ticks, k - 1);
      assert Open(qs[0].probe.value, ticks, k - 1);
      assert MovesAt(qs, ticks, k - 1);
      SweptMoves(qs[0], ticks, k - 1, qs[k]);
    }
  }

  lemma SweepEnds(qs: seq<PeerPath>, ticks: seq<Event>)
    requires Row(qs, ticks) && |ticks| > 0
    requires Unconfirmed(qs[0]) && ProbeConsistent(qs[0].probe, qs[0].relay) && Unanswered(qs[0], ticks)
    requires var b := qs[0].probe.value;
             && (forall j :: 0 <= j < |ticks| - 1 ==> Open(b, ticks, j))
             && !Open(b, ticks, |ticks| - 1)
             && (b.deadline.None? ==> b.index + |ticks| == |b.candidates|)
    ensures qs[|ticks|] == GivenUp(qs[0], ticks[|ticks| - 1].now)
  {
    var n := |ticks| - 1;
    SweepAt(qs, ticks, n);
    assert MovesAt(qs, ticks, n);
    SweptMoves(qs[0], ticks, n, qs[n + 1]);
  }

  /** The peer on candidate k of a probe that started with its first. */
  ghost function OnCandidate(p: PeerPath, ticks: seq<Event>, k: nat): PeerPath
    requires p.probe.Some? && k <= |ticks| && forall t <- ticks :: t.ProbeTick?
  {
    p.(probe := Some(p.probe.value.(index := k, started := SetAt(p.probe.value, ticks, k))))
  }

  lemma SweepVisits(qs: seq<PeerPath>, ticks: seq<Event>, k: nat)
    requires Row(qs, ticks) && k < |ticks|
    requires Unconfirmed(qs[0]) && ProbeConsistent(qs[0].probe, qs[0].relay) && Unanswered(qs[0], ticks)
    requires var b := qs[0].probe.value; b.deadline.None? && b.index == 0 && |ticks| == |b.candidates|
    ensures qs[k] == OnCandidate(qs[0], ticks, k)
  {
    SweepAt(qs, ticks, k);
  }

  /** Every candidate of an uncoordinated probe gets its turn, in order and once; when the
      last has had its dwell the peer is back on its relay with one more failure. */
  lemma EveryCandidateTried(cfg: Config, events: seq<Event>, ticks: seq<Event>)
    requires Timed(events)
    requires var p := Run(cfg, events).path;
             && Unconfirmed(p) && Unanswered(p, ticks)
             && p.probe.value.deadline.None? && p.probe.value.index == 0
             && 0 < |ticks| == |p.probe.value.candidates|
    ensures var p := Run(cfg, events).path;
            && (forall k :: 0 <= k < |ticks| ==>
                  Run(cfg, events + ticks[..k]).path == OnCandidate(p, ticks, k))
            && Run(cfg, events + ticks).path == GivenUp(p, ticks[|ticks| - 1].now)
  {
    var qs := Tracked(cfg, events, ticks);
    EveryRun(cfg, events);
    RunRow(cfg, events, ticks);
    forall k | 0 <= k < |ticks|
      ensures Run(cfg, events + ticks[..k]).path == OnCandidate(Run(cfg, events).path, ticks, k)
    {
      SweepVisits(qs, ticks, k);
      assert qs[k] == Run(cfg, events + ticks[..k]).path;
    }
    SweepEnds(qs, ticks);
  }

  /** A coordinated probe goes round its candidates until its window closes: the first tick
      that comes a dwell later, at or after the deadline, puts the peer back on its relay. */
  lemma WindowCloses(cfg: Config, events: seq<Event>, ticks: seq<Event>)
    requires Timed(events) && |ticks| > 0
    requires var p := Run(cfg, events).path;
             && Unconfirmed(p) && Unanswered(p, ticks) && p.probe.value.deadline.Some?
             && (forall j :: 0 <= j < |ticks| - 1 ==> ticks[j].now < p.probe.value.deadline.value)
             && ticks[|ticks| - 1].now >= p.probe.value.deadline.value
    ensures Run(cfg, events + ticks).path == GivenUp(Run(cfg, events).path, ticks[|ticks| - 1].now)
  {
    EveryRun(cfg, events);
    RunRow(cfg, events, ticks);
    SweepEnds(Tracked(cfg, events, ticks), ticks);
  }
}

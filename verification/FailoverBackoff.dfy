/** Retry back-off over whole runs: how far apart the probes no punch epoch asked for must lie. */
module FailoverBackoff {

  import opened Failover
  import opened FailoverRuns

  /** 5, 10, 20 and then 30 minutes as probes keep failing. */
  lemma RetryLadder(failures: int)
    ensures DirectRetryInterval(failures) ==
            if failures <= 0 then 5 * MINUTE
            else if failures == 1 then 10 * MINUTE
            else if failures == 2 then 20 * MINUTE
            else 30 * MINUTE
  {
    assert Pow2(0) == 1 && Pow2(1) == 2 && Pow2(2) == 4 && Pow2(3) == 8;
  }

  ghost predicate StartedBy(probes: seq<ProbeRecord>, t: Time) {
    forall q <- probes :: q.at <= t
  }

  /** A probe without a new epoch starts five minutes or more after every probe before it. */
  ghost predicate Spaced(probes: seq<ProbeRecord>) {
    forall i, j :: 0 <= i < j < |probes| && !probes[j].coordinated ==> probes[j].at >= probes[i].at + 5 * MINUTE
  }

  /** No probe lies in the future; none started after the relay clock of a peer not probing. */
  ghost predicate Backed(p: PeerPath, probes: seq<ProbeRecord>, t: Time) {
    StartedBy(probes, t) && (p.probe.None? && p.relay.at.Some? ==> StartedBy(probes, p.relay.at.value))
  }

  /** A sync entry that starts a probe without a new epoch does so no sooner than the interval
      its failures earned after every earlier probe. */
  lemma StartBacksOff(cfg: Config, w: World, e: Event, t: Time)
    requires Sound(w, t) && Backed(w.path, w.history.probes, t) && e.SyncEntry? && !Fast(w.path.retry, e.epoch)
    requires t <= e.clock.hold <= e.clock.since <= e.clock.start
    requires RetryDirect(cfg.probeOff, w.path, e.candidates, e.epoch, e.clock, e.applied).1
    ensures forall q <- w.history.probes ::
              e.clock.start >= q.at + DirectRetryInterval(Heed(w.path.retry, e.candidates, e.epoch).failures)
  {
  }

  lemma SyncBacked(cfg: Config, w: World, e: Event, t: Time)
    requires Sound(w, t) && Backed(w.path, w.history.probes, t) && Spaced(w.history.probes) && e.SyncEntry?
    requires t <= e.clock.hold <= e.clock.since <= e.clock.start
    ensures var v := Step(cfg, w, e); Backed(v.path, v.history.probes, e.clock.start) && Spaced(v.history.probes)
  {
    var r := RetryDirect(cfg.probeOff, w.path, e.candidates, e.epoch, e.clock, e.applied);
    if r.1 && !Fast(w.path.retry, e.epoch) {
      StartBacksOff(cfg, w, e, t);
      RetryLadder(Heed(w.path.retry, e.candidates, e.epoch).failures);
    }
  }

  lemma ProbeBacked(p: PeerPath, probes: seq<ProbeRecord>, dev: DevicePeer, now: Time, applied: bool, t: Time)
    requires Backed(p, probes, t) && t <= now
    ensures Backed(CheckProbe(p, dev, now, applied).0, probes, now)
  {
  }

  lemma RelayBacked(transport: Transport, broken: bool, p: PeerPath, probes: seq<ProbeRecord>,
                    dev: DevicePeer, now: Time, env: RelayEnv)
    requires Consistent(p) && Backed(p, probes, now)
    ensures Backed(RelayCheck(transport, broken, p, dev, now, env).path, probes, now)
  {
  }

  lemma RetireBacked(p: PeerPath, probes: seq<ProbeRecord>, wsAlive: bool, quicAlive: bool, t: Time)
    requires Backed(p, probes, t)
    ensures Backed(RetireQuic(RetireWs(p, wsAlive), quicAlive), probes, t)
  {
  }

  lemma TickBacked(cfg: Config, w: World, e: Event, t: Time)
    requires Sound(w, t) && Backed(w.path, w.history.probes, t) && e.HandshakeTick? && t <= e.now
    ensures var v := Step(cfg, w, e); Backed(v.path, w.history.probes, e.now) && v.history.probes == w.history.probes
  {
    var probes := w.history.probes;
    var p := RetireQuic(RetireWs(w.path, e.wsAlive), e.quicAlive);
    RetireBacked(w.path, probes, e.wsAlive, e.quicAlive, t);
    if e.listed.Some? {
      var q := CheckProbe(p, e.listed.value, e.now, e.applied).0;
      ProbeBacked(p, probes, e.listed.value, e.now, e.applied, t);
      assert Consistent(q) by {
        RetireSound(w, e.wsAlive, e.quicAlive, t);
        ProbeSound(p, w.history, e.listed.value, e.now, e.applied, t);
      }
      RelayBacked(cfg.transport, e.broken, q, probes, e.listed.value, e.now, e.env);
    }
  }

  lemma StepBacked(cfg: Config, w: World, e: Event, t: Time)
    requires Sound(w, t) && Backed(w.path, w.history.probes, t) && Spaced(w.history.probes) && t <= Began(e)
    requires e.SyncEntry? ==> e.clock.hold <= e.clock.since <= e.clock.start
    ensures var v := Step(cfg, w, e); Backed(v.path, v.history.probes, Finished(e)) && Spaced(v.history.probes)
  {
    var probes := w.history.probes;
    match e
    case Collect(_, _) =>
    case SyncEntry(_, _, _, _) => SyncBacked(cfg, w, e, t);
    case ProbeTick(now, dev, applied) => ProbeBacked(w.path, probes, dev, now, applied, t);
    case HandshakeTick(_, _, _, _, _, _, _) => TickBacked(cfg, w, e, t);
  }

  lemma {:induction false} RunBacked(cfg: Config, events: seq<Event>, t: Time)
    requires Timed(events) && (events == [] || t == EndTime(events))
    ensures var w := Run(cfg, events); Backed(w.path, w.history.probes, t) && Spaced(w.history.probes)
  {
    if events != [] {
      var n := |events| - 1;
      var before := events[..n];
      var s := if n == 0 then Began(events[n]) else EndTime(before);
      RunBacked(cfg, before, s);
      RunSound(cfg, before, s);
      StepBacked(cfg, Run(cfg, before), events[n], s);
    }
  }

  /** Over any run, whatever candidate sets and relay restarts do, a probe that no new epoch
      asked for starts at least five minutes after every earlier probe of the peer. */
  lemma UncoordinatedProbesSpaced(cfg: Config, events: seq<Event>, i: nat, j: nat)
    requires Timed(events)
    requires var probes := Run(cfg, events).history.probes; i < j < |probes| && !probes[j].coordinated
    ensures var probes := Run(cfg, events).history.probes; probes[j].at >= probes[i].at + 5 * MINUTE
  {
    RunBacked(cfg, events, EndTime(events));
  }

  /** And while its candidates stay the same, failures stretch that to 10, 20 and 30 minutes. */
  lemma FailuresBackOff(cfg: Config, events: seq<Event>, e: Event, q: nat)
    requires Timed(events + [e]) && e.SyncEntry?
    requires var w := Run(cfg, events);
             && q < |w.history.probes| && !Fast(w.path.retry, e.epoch) && multiset(e.candidates) == w.path.retry.digest
             && |Step(cfg, w, e).history.probes| > |w.history.probes|
    ensures var w := Run(cfg, events);
            e.clock.start >= w.history.probes[q].at + DirectRetryInterval(w.path.retry.failures)
  {
    var all := events + [e];
    var t := EndTime(events);
    assert forall i :: 0 <= i < |events| ==> all[i] == events[i];
    assert all[|events|] == e;
    RunBacked(cfg, events, t);
    RunSound(cfg, events, t);
    StartBacksOff(cfg, Run(cfg, events), e, t);
  }
}

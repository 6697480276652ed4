/** The reporter of cmd/agent/telemetry.go with the maps that cmd/agent/relay.go updates in
    place, one entry per peer and map. The object keeps, as ghost state, the events each peer has
    been through; its invariant is that the maps hold for every peer what the run of those events
    gives, so what FailoverRuns and FailoverLive prove of runs holds of the object at all times. */
module Reporter {

  import opened Wrappers
  import opened Failover
  import opened FailoverRuns
  import opened FailoverLive

  type Key = string

  function Get<T>(m: map<Key, T>, k: Key): Option<T> {
    if k in m then Some(m[k]) else None
  }

  const Blank: History := History([], [])

  /** What one event does to the entries of a peer. */
  ghost function After(cfg: Config, p: PeerPath, e: Event): PeerPath {
    Step(cfg, World(p, Blank), e).path
  }

  /** The entries of a peer do not depend on the history kept beside them in a run. */
  lemma AfterIsStep(cfg: Config, w: World, e: Event)
    ensures Step(cfg, w, e).path == After(cfg, w.path, e)
  {
  }

  // ---- all peers at once ------------------------------------------------------------------

  type Paths = m: imap<Key, PeerPath> | forall k: Key :: k in m ghost witness imap k: Key :: NewPeer

  type Pasts = m: imap<Key, seq<Event>> | forall k: Key :: k in m ghost witness imap k: Key :: []

  ghost function NoPast(k: Key): seq<Event> {
    []
  }

  ghost function NoPasts(): Pasts {
    imap k: Key :: NoPast(k)
  }

  ghost function NewPath(k: Key): PeerPath {
    NewPeer
  }

  ghost function NewPaths(): Paths {
    imap k: Key :: NewPath(k)
  }

  /** The events are in order and over by now, and their run ends in p. */
  ghost predicate Arrived(cfg: Config, past: seq<Event>, now: Time, p: PeerPath) {
    Timed(past) && (past != [] ==> EndTime(past) <= now) && p == Run(cfg, past).path
  }

  ghost predicate AllArrived(cfg: Config, pasts: Pasts, now: Time, paths: Paths) {
    forall k: Key {:trigger Arrived(cfg, pasts[k], now, paths[k])} :: Arrived(cfg, pasts[k], now, paths[k])
  }

  ghost predicate InOrder(e: Event, now: Time) {
    && now <= Began(e)
    && (e.SyncEntry? ==> e.clock.hold <= e.clock.since <= e.clock.start)
  }

  lemma FinishedBy(past: seq<Event>, i: nat)
    requires Timed(past) && i < |past|
    ensures Finished(past[i]) <= EndTime(past)
  {
    var last := past[|past| - 1];
    assert Began(last) <= Finished(last);
  }

  lemma TimedOne(past: seq<Event>, now: Time, e: Event)
    requires Timed(past) && (past != [] ==> EndTime(past) <= now) && InOrder(e, now)
    ensures Timed(past + [e])
  {
    var all := past + [e];
    forall i, j | 0 <= i < j < |all|
      ensures Finished(all[i]) <= Began(all[j])
    {
      if j == |past| {
        FinishedBy(past, i);
      }
    }
  }

  lemma OneMore(cfg: Config, past: seq<Event>, now: Time, p: PeerPath, e: Event)
    requires Arrived(cfg, past, now, p) && InOrder(e, now)
    ensures Arrived(cfg, past + [e], Finished(e), After(cfg, p, e))
  {
    assert (past + [e])[..|past|] == past;
    AfterIsStep(cfg, Run(cfg, past), e);
    TimedOne(past, now, e);
  }

  /** One event of one peer. */
  lemma OneHappens(cfg: Config, pasts: Pasts, now: Time, paths: Paths, k: Key, e: Event)
    requires AllArrived(cfg, pasts, now, paths) && InOrder(e, now)
    ensures AllArrived(cfg, pasts[k := pasts[k] + [e]], Finished(e), paths[k := After(cfg, paths[k], e)])
  {
    var after, there := pasts[k := pasts[k] + [e]], paths[k := After(cfg, paths[k], e)];
    forall j: Key
      ensures Arrived(cfg, after[j], Finished(e), there[j])
    {
      assert Arrived(cfg, pasts[j], now, paths[j]);
      if j == k {
        OneMore(cfg, pasts[k], now, paths[k], e);
      }
    }
  }

  /** At most one event, at the given time, that took a peer from p to q. */
  ghost predicate Moved(cfg: Config, p: PeerPath, events: seq<Event>, now: Time, q: PeerPath) {
    if events == [] then q == p
    else |events| == 1 && !events[0].SyncEntry? && events[0].now == now && q == After(cfg, p, events[0])
  }

  ghost predicate AllMoved(cfg: Config, paths: Paths, events: Pasts, now: Time, there: Paths) {
    forall k: Key {:trigger Moved(cfg, paths[k], events[k], now, there[k])} ::
      Moved(cfg, paths[k], events[k], now, there[k])
  }

  ghost function Joined(pasts: Pasts, events: Pasts): Pasts {
    imap k: Key :: pasts[k] + events[k]
  }

  lemma AllHappen(cfg: Config, pasts: Pasts, now: Time, paths: Paths, events: Pasts, later: Time, there: Paths)
    requires AllArrived(cfg, pasts, now, paths) && now <= later && AllMoved(cfg, paths, events, later, there)
    ensures AllArrived(cfg, Joined(pasts, events), later, there)
  {
    var after := Joined(pasts, events);
    forall k: Key
      ensures Arrived(cfg, after[k], later, there[k])
    {
      assert Arrived(cfg, pasts[k], now, paths[k]);
      assert Moved(cfg, paths[k], events[k], later, there[k]);
      if events[k] == [] {
        assert pasts[k] + events[k] == pasts[k];
      } else {
        assert events[k] == [events[k][0]];
        OneMore(cfg, pasts[k], now, paths[k], events[k][0]);
      }
    }
  }

  // ---- the maps, grouped by what they are about -----------------------------------------

  datatype RelayMaps = RelayMaps(
    relayed: map<Key, bool>, relayedAt: map<Key, Time>,
    endpoints: map<Key, Endpoint>, pathKinds: map<Key, Kind>)
  {
    ghost function At(k: Key): Relay {
      Relay(Get(relayed, k).Or(false), Get(relayedAt, k), Get(endpoints, k), Get(pathKinds, k))
    }

    function Clear(k: Key): (m: RelayMaps)
      ensures m.At(k) == NoRelay
      ensures forall j :: j != k ==> m.At(j) == At(j)
    {
      RelayMaps(relayed - {k}, relayedAt - {k}, endpoints - {k}, pathKinds - {k})
    }

    function Stamp(k: Key, now: Time): (m: RelayMaps)
      ensures m.At(k) == At(k).(at := Some(now))
      ensures forall j :: j != k ==> m.At(j) == At(j)
    {
      this.(relayedAt := relayedAt[k := now])
    }

    function Mark(k: Key, now: Time): (m: RelayMaps)
      ensures m.At(k) == At(k).(on := true, at := Some(now))
      ensures forall j :: j != k ==> m.At(j) == At(j)
    {
      this.(relayed := relayed[k := true], relayedAt := relayedAt[k := now])
    }

    function Point(k: Key, ep: Endpoint, kind: Kind): (m: RelayMaps)
      ensures m.At(k) == At(k).(endpoint := Some(ep), kind := Some(kind))
      ensures forall j :: j != k ==> m.At(j) == At(j)
    {
      this.(endpoints := endpoints[k := ep], pathKinds := pathKinds[k := kind])
    }
  }

  /** `started` counts the proxies ever started for a peer, `closed` holds the closed ones. */
  datatype ProxyMaps = ProxyMaps(
    ws: map<Key, Proxy>, quic: map<Key, Proxy>, started: map<Key, nat>, closed: map<Key, set<nat>>)
  {
    ghost function At(k: Key): Proxies {
      Proxies(Get(ws, k), Get(quic, k), Get(started, k).Or(0), Get(closed, k).Or({}))
    }

    function DropWs(k: Key): (m: ProxyMaps)
      ensures m.At(k) == CloseWs(At(k)) && m.ws == ws - {k} && m.quic == quic
      ensures forall j :: j != k ==> m.At(j) == At(j)
    {
      if k in ws then
        this.(closed := closed[k := Get(closed, k).Or({}) + {ws[k].serial}], ws := ws - {k})
      else this
    }

    function DropQuic(k: Key): (m: ProxyMaps)
      ensures m.At(k) == CloseQuic(At(k)) && m.quic == quic - {k} && m.ws == ws
      ensures forall j :: j != k ==> m.At(j) == At(j)
    {
      if k in quic then
        this.(closed := closed[k := Get(closed, k).Or({}) + {quic[k].serial}], quic := quic - {k})
      else this
    }

    function AddWs(k: Key, ep: Endpoint): (m: ProxyMaps)
      ensures m.At(k) == OpenWs(At(k), ep)
      ensures forall j :: j != k ==> m.At(j) == At(j)
    {
      var n := Get(started, k).Or(0);
      this.(ws := ws[k := Proxy(n, ep)], started := started[k := n + 1])
    }

    function AddQuic(k: Key, ep: Endpoint): (m: ProxyMaps)
      ensures m.At(k) == OpenQuic(At(k), ep)
      ensures forall j :: j != k ==> m.At(j) == At(j)
    {
      var n := Get(started, k).Or(0);
      this.(quic := quic[k := Proxy(n, ep)], started := started[k := n + 1])
    }
  }

  datatype RetryMaps = RetryMaps(
    lastPunchEpoch: map<Key, int>, directFailures: map<Key, nat>,
    lastCandidates: map<Key, multiset<Endpoint>>, quicUnavailable: map<Key, bool>)
  {
    ghost function At(k: Key): Retry {
      Retry(Get(lastPunchEpoch, k).Or(0), Get(directFailures, k).Or(0),
            Get(lastCandidates, k).Or(multiset{}), Get(quicUnavailable, k).Or(false))
    }

    function NoteCandidates(k: Key, digest: multiset<Endpoint>): (m: RetryMaps)
      ensures m.At(k) == At(k).(digest := digest, failures := 0)
      ensures forall j :: j != k ==> m.At(j) == At(j)
    {
      this.(lastCandidates := lastCandidates[k := digest], directFailures := directFailures - {k})
    }

    function NoteEpoch(k: Key, epoch: int): (m: RetryMaps)
      ensures m.At(k) == At(k).(epoch := epoch)
      ensures forall j :: j != k ==> m.At(j) == At(j)
    {
      this.(lastPunchEpoch := lastPunchEpoch[k := epoch])
    }

    function NoteFailure(k: Key): (m: RetryMaps)
      ensures m.At(k) == At(k).(failures := At(k).failures + 1)
      ensures forall j :: j != k ==> m.At(j) == At(j)
    {
      this.(directFailures := directFailures[k := Get(directFailures, k).Or(0) + 1])
    }

    function NoteNoQuic(k: Key): (m: RetryMaps)
      ensures m.At(k) == At(k).(quicUnavailable := true)
      ensures forall j :: j != k ==> m.At(j) == At(j)
    {
      this.(quicUnavailable := quicUnavailable[k := true])
    }

    function Forget(k: Key): (m: RetryMaps)
      ensures m.At(k) == Retry(At(k).epoch, 0, multiset{}, false)
      ensures forall j :: j != k ==> m.At(j) == At(j)
    {
      this.(directFailures := directFailures - {k}, lastCandidates := lastCandidates - {k},
            quicUnavailable := quicUnavailable - {k})
    }
  }

  datatype DampingMaps = DampingMaps(
    directSince: map<Key, Time>, directFlaps: map<Key, nat>, holdDownUntil: map<Key, Time>)
  {
    ghost function At(k: Key): Damping {
      Damping(Get(directSince, k), Get(directFlaps, k).Or(0), Get(holdDownUntil, k))
    }

    function Begin(k: Key, now: Time): (m: DampingMaps)
      ensures m.At(k) == At(k).(since := Some(now), holdUntil := None)
      ensures forall j :: j != k ==> m.At(j) == At(j)
    {
      this.(directSince := directSince[k := now], holdDownUntil := holdDownUntil - {k})
    }
  }

  // ---- the reporter ---------------------------------------------------------------------

  class TelemetryReporter {
    const cfg: Config

    var firstSeen: map<Key, Time>
    var lastInbound: map<Key, Time>
    var directProbes: map<Key, Probe>
    var relays: RelayMaps
    var proxies: ProxyMaps
    var retries: RetryMaps
    var damping: DampingMaps
    var relayBroken: bool

    /** What each peer has been through, where that took it, and the time so far. */
    ghost var pasts: Pasts
    ghost var paths: Paths
    ghost var clock: Time

    /** The entries of all maps for one peer. */
    ghost function View(k: Key): PeerPath
      reads `firstSeen, `lastInbound, `directProbes, `relays, `proxies, `retries, `damping
    {
      PeerPath(Get(firstSeen, k), Get(lastInbound, k), relays.At(k), proxies.At(k),
               Get(directProbes, k), retries.At(k), damping.At(k))
    }

    /** The maps hold these paths. */
    ghost predicate Holds(paths: Paths)
      reads `firstSeen, `lastInbound, `directProbes, `relays, `proxies, `retries, `damping
    {
      forall k {:trigger View(k)} :: View(k) == paths[k]
    }

    ghost predicate Valid()
      reads this
    {
      Holds(paths) && AllArrived(cfg, pasts, clock, paths)
    }

    constructor (cfg: Config, now: Time)
      ensures Valid() && this.cfg == cfg && clock == now && !relayBroken
      ensures pasts == NoPasts() && forall k :: View(k) == NewPeer
    {
      this.cfg := cfg;
      firstSeen, lastInbound, directProbes := map[], map[], map[];
      relays := RelayMaps(map[], map[], map[], map[]);
      proxies := ProxyMaps(map[], map[], map[], map[]);
      retries := RetryMaps(map[], map[], map[], map[]);
      damping := DampingMaps(map[], map[], map[]);
      relayBroken := false;
      pasts, paths, clock := NoPasts(), NewPaths(), now;
    }

    /** In every state of the object every peer is where the run of its past leads, so its
        entries agree with each other. */
    lemma EveryPeerConsistent(k: Key)
      requires Valid()
      ensures View(k) == Run(cfg, pasts[k]).path && Timed(pasts[k])
      ensures Consistent(View(k))
    {
      assert Arrived(cfg, pasts[k], clock, paths[k]);
      EveryRun(cfg, pasts[k]);
    }

    /** A peer whose past ends with a report tick that found it on the device is relayed now
        exactly when that tick left it on its relay, or found it silent for 90 s by the events
        of its past while a transport started. */
    lemma SilentPeersFallBack(k: Key, before: seq<Event>, e: Event)
      requires Valid() && pasts[k] == before + [e] && e.HandshakeTick? && e.listed.Some?
      ensures var q := Checked(Run(cfg, before).path, e);
              var offered := Offered(cfg.transport, e.env, q.retry.quicUnavailable);
              View(k).relay.on <==>
                || q.relay.on
                || (&& !e.broken && offered.Some? && Past(FirstSighting(cfg, pasts[k]), e.now)
                    && Past(LastInbound(before), e.now) && Past(e.listed.value.handshake, e.now))
    {
      EveryPeerConsistent(k);
      FallsBackExactly(cfg, before, e);
    }

    /** The sampling part of collectLinkCounters: a peer whose received bytes grew. */
    method NoteInbound(k: Key, now: Time)
      requires Valid() && clock <= now
      modifies `lastInbound, `pasts, `paths, `clock
      ensures Valid() && clock == now
      ensures pasts == old(pasts)[k := old(pasts)[k] + [Collect(now, true)]]
    {
      OneHappens(cfg, pasts, clock, paths, k, Collect(now, true));
      ghost var there := Sample(k, now, paths);
      Note(pasts[k := pasts[k] + [Collect(now, true)]], now, there);
    }

    /** Takes note of what happened, which the maps already show. */
    ghost method Note(after: Pasts, now: Time, there: Paths)
      requires Holds(there) && AllArrived(cfg, after, now, there)
      modifies `pasts, `paths, `clock
      ensures Valid() && clock == now && pasts == after
    {
      pasts, paths, clock := after, there, now;
    }

    method Sample(k: Key, now: Time, ghost start: Paths) returns (ghost there: Paths)
      requires Holds(start)
      modifies `lastInbound
      ensures Holds(there) && there == start[k := After(cfg, start[k], Collect(now, true))]
    {
      Grew(k, now);
      there := start[k := After(cfg, start[k], Collect(now, true))];
    }

    method Grew(k: Key, now: Time)
      modifies `lastInbound
      ensures View(k) == After(cfg, old(View(k)), Collect(now, true))
      ensures forall j :: j != k ==> View(j) == old(View(j))
    {
      lastInbound := lastInbound[k := now];
    }

    method NoteDirectStintEnded(k: Key, now: Time)
      modifies `damping
      ensures damping.At(k) == StintEnded(old(damping.At(k)), now)
      ensures forall j :: j != k ==> damping.At(j) == old(damping.At(j))
    {
      if k !in damping.directSince {
        return;
      }
      var tenure := now - damping.directSince[k];
      damping := damping.(directSince := damping.directSince - {k});
      if tenure >= DIRECT_STABLE_TENURE {
        damping := damping.(directFlaps := damping.directFlaps - {k});
        return;
      }
      var flaps := Get(damping.directFlaps, k).Or(0) + 1;
      damping := damping.(directFlaps := damping.directFlaps[k := flaps],
                          holdDownUntil := damping.holdDownUntil[k := now + FlapHoldDown(flaps)]);
    }

    method StartDirectProbe(k: Key, candidates: seq<Endpoint>, interval: int, window: int, epoch: int,
                            now: Time, applied: bool)
      requires |candidates| > 0
      modifies `directProbes
      ensures View(k) == StartProbe(old(View(k)), candidates, interval, window, epoch, now, applied).0
      ensures forall j :: j != k ==> View(j) == old(View(j))
    {
      if k !in relays.endpoints {
        return;
      }
      var probe := Probe(now, None, candidates, 0, relays.endpoints[k], interval, None, epoch);
      if window > 0 {
        probe := probe.(deadline := Some(now + window));
      }
      if applied {
        directProbes := directProbes[k := probe];
      }
    }

    /** Notes the candidate set and the punch epoch; fast means the epoch is new. */
    method HeedEntry(k: Key, candidates: seq<Endpoint>, epoch: int) returns (fast: bool)
      modifies `retries
      ensures fast == Fast(old(retries.At(k)), epoch)
      ensures retries.At(k) == Heed(old(retries.At(k)), candidates, epoch)
      ensures forall j :: j != k ==> retries.At(j) == old(retries.At(j))
    {
      var digest := multiset(candidates);
      if digest != Get(retries.lastCandidates, k).Or(multiset{}) {
        retries := retries.NoteCandidates(k, digest);
      }

      fast := false;
      if epoch > 0 && epoch > Get(retries.lastPunchEpoch, k).Or(0) {
        retries := retries.NoteEpoch(k, epoch);
        fast := true;
      }
    }

    /** A sync entry for the peer arrived; `at` holds the clock readings of the call. */
    method MaybeRetryDirect(k: Key, candidates: seq<Endpoint>, epoch: int, at: Clock, applied: bool)
      requires Valid() && clock <= at.hold <= at.since <= at.start
      modifies `retries, `directProbes, `pasts, `paths, `clock
      ensures Valid() && clock == at.start
      ensures pasts == old(pasts)[k := old(pasts)[k] + [SyncEntry(at, candidates, epoch, applied)]]
    {
      ghost var e := SyncEntry(at, candidates, epoch, applied);
      OneHappens(cfg, pasts, clock, paths, k, e);
      ghost var there := SyncPeer(k, candidates, epoch, at, applied, paths);
      Note(pasts[k := pasts[k] + [e]], at.start, there);
    }

    method SyncPeer(k: Key, candidates: seq<Endpoint>, epoch: int, at: Clock, applied: bool, ghost start: Paths)
      returns (ghost there: Paths)
      requires Holds(start)
      modifies `retries, `directProbes
      ensures Holds(there) && there == start[k := After(cfg, start[k], SyncEntry(at, candidates, epoch, applied))]
    {
      RetryPeer(k, candidates, epoch, at, applied);
      there := start[k := After(cfg, start[k], SyncEntry(at, candidates, epoch, applied))];
    }

    method RetryPeer(k: Key, candidates: seq<Endpoint>, epoch: int, clock: Clock, applied: bool)
      modifies `retries, `directProbes
      ensures View(k) == After(cfg, old(View(k)), SyncEntry(clock, candidates, epoch, applied))
      ensures forall j :: j != k ==> View(j) == old(View(j))
    {
      if cfg.probeOff || |candidates| == 0 || !Get(relays.relayed, k).Or(false) {
        return;
      }

      var fast := HeedEntry(k, candidates, epoch);

      if k in damping.holdDownUntil && clock.hold < damping.holdDownUntil[k] {
        return;
      }
      if k in directProbes && !fast {
        return;
      }
      if !fast && k in relays.relayedAt
         && clock.since - relays.relayedAt[k] < DirectRetryInterval(Get(retries.directFailures, k).Or(0)) {
        return;
      }

      var interval, window := DIRECT_PROBE_INTERVAL, 0;
      if fast {
        interval, window := COORDINATED_PROBE_INTERVAL, COORDINATED_PROBE_WINDOW;
      }
      StartDirectProbe(k, candidates, interval, window, epoch, clock.start, applied);
    }

    method PromoteDirect(k: Key, now: Time)
      modifies `proxies, `relays, `directProbes, `retries, `firstSeen, `damping
      ensures View(k) == Promote(old(View(k)), now)
      ensures forall j :: j != k ==> View(j) == old(View(j))
    {
      proxies := proxies.DropWs(k);
      proxies := proxies.DropQuic(k);
      directProbes := directProbes - {k};
      relays := relays.Clear(k);
      retries := retries.Forget(k);
      firstSeen := firstSeen[k := now];
      damping := damping.Begin(k, now);
    }

    method RestoreRelayAfterProbe(k: Key, now: Time, applied: bool)
      modifies `directProbes, `relays, `retries
      ensures View(k) == RestoreRelay(old(View(k)), now, applied).0
      ensures forall j :: j != k ==> View(j) == old(View(j))
    {
      if !applied {
        return;
      }
      directProbes := directProbes - {k};
      relays := relays.Stamp(k, now);
      retries := retries.NoteFailure(k);
    }

    method CheckDirectProbe(k: Key, dev: DevicePeer, now: Time, applied: bool)
      modifies `proxies, `relays, `directProbes, `retries, `firstSeen, `damping
      ensures View(k) == CheckProbe(old(View(k)), dev, now, applied).0
      ensures forall j :: j != k ==> View(j) == old(View(j))
    {
      if k !in directProbes {
        return;
      }
      var probe := directProbes[k];

      var directEndpoint := dev.endpoint.Some? && dev.endpoint.value != probe.relayEndpoint;
      if probe.confirmedAt.None? && dev.handshake.Some? && dev.handshake.value > probe.started && directEndpoint {
        directProbes := directProbes[k := probe.(confirmedAt := Some(now))];
        return;
      }

      if probe.confirmedAt.Some? {
        CheckConfirmedProbe(k, dev, now, applied);
        return;
      }

      if now - probe.started < probe.interval {
        return;
      }

      var canRotate := if probe.deadline.None? then probe.index + 1 < |probe.candidates|
                       else now < probe.deadline.value;
      if canRotate {
        RotateProbe(k, probe, now, applied);
        return;
      }
      RestoreRelayAfterProbe(k, now, applied);
    }

    method CheckConfirmedProbe(k: Key, dev: DevicePeer, now: Time, applied: bool)
      requires k in directProbes && directProbes[k].confirmedAt.Some?
      modifies `proxies, `relays, `directProbes, `retries, `firstSeen, `damping
      ensures var probe := old(directProbes)[k];
              View(k) == CheckProbation(old(View(k)), probe, probe.confirmedAt.value, dev, now, applied).0
      ensures forall j :: j != k ==> View(j) == old(View(j))
    {
      var probe := directProbes[k];
      var directEndpoint := dev.endpoint.Some? && dev.endpoint.value != probe.relayEndpoint;
      if directEndpoint && k in lastInbound
         && lastInbound[k] > probe.confirmedAt.value + DIRECT_PROBATION_MIN {
        PromoteDirect(k, now);
        return;
      }
      if now - probe.confirmedAt.value < DIRECT_PROBATION_TIMEOUT {
        return;
      }
      RestoreRelayAfterProbe(k, now, applied);
    }

    method RotateProbe(k: Key, probe: Probe, now: Time, applied: bool)
      requires k in directProbes && directProbes[k] == probe
      modifies `directProbes
      ensures directProbes == if applied then old(directProbes)[k := Rotate(probe, now)] else old(directProbes)
    {
      var index := probe.index + 1;
      if index >= |probe.candidates| {
        index := 0;
      }
      if applied {
        directProbes := directProbes[k := probe.(index := index, started := now)];
      }
    }

    method ProbePeer(k: Key, dev: DevicePeer, now: Time, applied: bool, ghost start: Paths)
      returns (ghost there: Paths)
      requires Holds(start)
      modifies `proxies, `relays, `directProbes, `retries, `firstSeen, `damping
      ensures Holds(there) && there == start[k := CheckProbe(start[k], dev, now, applied).0]
    {
      CheckDirectProbe(k, dev, now, applied);
      there := start[k := CheckProbe(start[k], dev, now, applied).0];
    }

    method ProbePeers(device: map<Key, DevicePeer>, now: Time, applied: Key -> bool, ghost start: Paths)
      returns (ghost there: Paths)
      requires Holds(start)
      modifies `proxies, `relays, `directProbes, `retries, `firstSeen, `damping
      ensures Holds(there) && AllProbed(start, device, now, applied, there)
    {
      there := start;
      var todo := device.Keys;
      while todo != {}
        invariant todo <= device.Keys && Holds(there)
        invariant forall k :: k in device && k !in todo ==>
                    there[k] == CheckProbe(start[k], device[k], now, applied(k)).0
        invariant forall k :: k !in device || k in todo ==> there[k] == start[k]
      {
        var k :| k in todo;
        there := ProbePeer(k, device[k], now, applied(k), there);
        todo := todo - {k};
      }
    }

    /** The 5 s tick: advances the probes of the device's peers, in whatever order it lists them. */
    method CheckProbes(device: map<Key, DevicePeer>, now: Time, applied: Key -> bool)
      requires Valid() && clock <= now
      modifies `proxies, `relays, `directProbes, `retries, `firstSeen, `damping, `pasts, `paths, `clock
      ensures Valid() && clock == now
      ensures pasts == Joined(old(pasts), ProbeTicks(device, now, applied))
    {
      ghost var there := ProbePeers(device, now, applied, paths);
      ghost var ticks := ProbeTicks(device, now, applied);
      ChecksAreTicks(cfg, paths, there, device, now, applied);
      AllHappen(cfg, pasts, clock, paths, ticks, now, there);
      Note(Joined(pasts, ticks), now, there);
    }

    method StartWsRelay(k: Key, outcome: WsOutcome) returns (moved: bool)
      modifies `relays, `proxies, `relayBroken
      ensures var s := ViaWs(old(View(k)), outcome);
              View(k) == s.path && moved == s.moved && relayBroken == (old(relayBroken) || s.broken)
      ensures forall j :: j != k ==> View(j) == old(View(j))
    {
      match outcome
      case WsStarted(ep) =>
        proxies := proxies.AddWs(k, ep);
        relays := relays.Point(k, ep, WsRelay);
        moved := true;
      case WsNoRelay =>
        relayBroken := true;
        moved := false;
      case WsFailed =>
        moved := false;
    }

    method MoveToRelay(k: Key, env: RelayEnv) returns (moved: bool)
      modifies `relays, `proxies, `retries, `relayBroken
      ensures var s := SwitchToRelay(cfg.transport, old(View(k)), env);
              View(k) == s.path && moved == s.moved && relayBroken == (old(relayBroken) || s.broken)
      ensures forall j :: j != k ==> View(j) == old(View(j))
    {
      match cfg.transport
      case Auto =>
        if !Get(retries.quicUnavailable, k).Or(false) {
          if env.quic.Some? {
            proxies := proxies.AddQuic(k, env.quic.value);
            relays := relays.Point(k, env.quic.value, QuicRelay);
            moved := true;
            return;
          }
        }
        retries := retries.NoteNoQuic(k);
        moved := StartWsRelay(k, env.ws);
      case WebSocket =>
        moved := StartWsRelay(k, env.ws);
      case Udp =>
        match env.udp {
          case UdpStarted(ep) =>
            relays := relays.Point(k, ep, UdpRelay);
            moved := true;
          case UdpNoRelay =>
            relayBroken := true;
            moved := false;
          case UdpFailed =>
            moved := false;
        }
    }

    /** One peer's share of a handshake check, after its probe was looked at. */
    method CheckHandshake(k: Key, dev: DevicePeer, now: Time, env: RelayEnv)
      modifies `firstSeen, `relays, `proxies, `retries, `damping, `relayBroken
      ensures var s := RelayCheck(cfg.transport, old(relayBroken), old(View(k)), dev, now, env);
              View(k) == s.path && relayBroken == s.broken
      ensures forall j :: j != k ==> View(j) == old(View(j))
    {
      if k !in firstSeen {
        firstSeen := firstSeen[k := now];
      }
      if Get(relays.relayed, k).Or(false) || relayBroken {
        return;
      }
      var last := Later(Later(Get(firstSeen, k), Get(lastInbound, k)), dev.handshake);
      var silentFor := if last.None? then 0 else now - last.value;
      if silentFor < DIRECT_STALE_AFTER {
        return;
      }
      var moved := MoveToRelay(k, env);
      if moved {
        MarkRelayed(k, now);
      }
    }

    method MarkRelayed(k: Key, now: Time)
      modifies `relays, `damping
      ensures View(k) == Settle(old(View(k)), now)
      ensures forall j :: j != k ==> View(j) == old(View(j))
    {
      relays := relays.Mark(k, now);
      NoteDirectStintEnded(k, now);
    }

    method RetireWsProxy(k: Key, alive: bool)
      modifies `proxies, `relays, `directProbes
      ensures View(k) == RetireWs(old(View(k)), alive)
      ensures forall j :: j != k ==> View(j) == old(View(j))
    {
      if k in proxies.ws && !alive {
        proxies := proxies.DropWs(k);
        relays := relays.Clear(k);
        directProbes := directProbes - {k};
      }
    }

    method RetireQuicProxy(k: Key, alive: bool)
      modifies `proxies, `relays, `directProbes, `retries
      ensures View(k) == RetireQuic(old(View(k)), alive)
      ensures forall j :: j != k ==> View(j) == old(View(j))
    {
      if k in proxies.quic && !alive {
        proxies := proxies.DropQuic(k);
        relays := relays.Clear(k);
        directProbes := directProbes - {k};
        retries := retries.NoteNoQuic(k);
      }
    }

    /** Retires the WebSocket proxies whose pumps have stopped, in whatever order. */
    method RetireWsProxies(alive: set<Key>, ghost start: Paths) returns (ghost there: Paths)
      requires Holds(start)
      modifies `proxies, `relays, `directProbes
      ensures Holds(there) && AllRetiredWs(start, alive, there)
    {
      var todo := proxies.ws.Keys;
      there := start;
      NoWsProxy(start);
      while todo != {}
        invariant Holds(there)
        invariant forall k :: k in todo ==> there[k] == start[k]
        invariant forall k :: k !in todo ==> there[k] == RetireWs(start[k], k in alive)
      {
        var k :| k in todo;
        there := DropWsPeer(k, k in alive, there);
        todo := todo - {k};
      }
    }

    method DropWsPeer(k: Key, alive: bool, ghost start: Paths) returns (ghost there: Paths)
      requires Holds(start)
      modifies `proxies, `relays, `directProbes
      ensures Holds(there) && there == start[k := RetireWs(start[k], alive)]
    {
      RetireWsProxy(k, alive);
      there := start[k := RetireWs(start[k], alive)];
    }

    lemma NoWsProxy(paths: Paths)
      requires Holds(paths)
      ensures forall k :: k !in proxies.ws ==> paths[k].proxies.ws.None?
    {
      assert forall k :: paths[k] == View(k);
    }

    method RetireQuicProxies(alive: set<Key>, ghost start: Paths) returns (ghost there: Paths)
      requires Holds(start)
      modifies `proxies, `relays, `directProbes, `retries
      ensures Holds(there) && AllRetiredQuic(start, alive, there)
    {
      var todo := proxies.quic.Keys;
      there := start;
      NoQuicProxy(start);
      while todo != {}
        invariant Holds(there)
        invariant forall k :: k in todo ==> there[k] == start[k]
        invariant forall k :: k !in todo ==> there[k] == RetireQuic(start[k], k in alive)
      {
        var k :| k in todo;
        there := DropQuicPeer(k, k in alive, there);
        todo := todo - {k};
      }
    }

    method DropQuicPeer(k: Key, alive: bool, ghost start: Paths) returns (ghost there: Paths)
      requires Holds(start)
      modifies `proxies, `relays, `directProbes, `retries
      ensures Holds(there) && there == start[k := RetireQuic(start[k], alive)]
    {
      RetireQuicProxy(k, alive);
      there := start[k := RetireQuic(start[k], alive)];
    }

    lemma NoQuicProxy(paths: Paths)
      requires Holds(paths)
      ensures forall k :: k !in proxies.quic ==> paths[k].proxies.quic.None?
    {
      assert forall k :: paths[k] == View(k);
    }

    /** The peer's probe and then its handshake. `told` says that it asks for a relay in vain. */
    method CheckPeer(k: Key, dev: DevicePeer, now: Time, applied: bool, env: RelayEnv, ghost start: Paths,
                     ghost told: bool, ghost goal: PeerPath)
      returns (ghost there: Paths)
      requires Holds(start) && TurnsTo(cfg, start[k], dev, now, applied, relayBroken, env, goal)
      requires told == AsksInVain(cfg, start[k], TurnEvent(dev, now, applied, false, env))
      modifies `firstSeen, `directProbes, `relays, `proxies, `retries, `damping, `relayBroken
      ensures Holds(there) && there == start[k := goal]
      ensures relayBroken == (old(relayBroken) || told)
    {
      TurnIsCheck(cfg, start[k], dev, now, applied, relayBroken, env, told, goal);
      assert View(k) == start[k];
      CheckBoth(k, dev, now, applied, env);
      there := start[k := goal];
    }

    method CheckBoth(k: Key, dev: DevicePeer, now: Time, applied: bool, env: RelayEnv)
      modifies `firstSeen, `directProbes, `relays, `proxies, `retries, `damping, `relayBroken
      ensures var s := RelayCheck(cfg.transport, old(relayBroken), CheckProbe(old(View(k)), dev, now, applied).0, dev,
                                  now, env);
              View(k) == s.path && relayBroken == s.broken
      ensures forall j :: j != k ==> View(j) == old(View(j))
    {
      CheckDirectProbe(k, dev, now, applied);
      CheckHandshake(k, dev, now, env);
    }

    /** Checks every peer of the device, in whatever order. `missing` holds the peers at whose
        turn the relay was known to be missing; the peers in `vain` would be told so. */
    method CheckPeers(device: map<Key, DevicePeer>, now: Time, applied: Key -> bool, env: Key -> RelayEnv,
                      ghost start: Paths, ghost vain: set<Key>, ghost marked: Paths, ghost unmarked: Paths)
      returns (ghost missing: set<Key>, ghost there: Paths)
      requires Holds(start) && vain <= device.Keys
      requires AllVain(cfg, start, device, now, applied, env, vain)
      requires AllTurnTo(cfg, start, device, now, applied, true, env, marked)
      requires AllTurnTo(cfg, start, device, now, applied, false, env, unmarked)
      modifies `firstSeen, `directProbes, `relays, `proxies, `retries, `damping, `relayBroken
      ensures missing <= device.Keys && (old(relayBroken) ==> missing == device.Keys)
      ensures missing != {} ==> relayBroken
      ensures relayBroken <==> old(relayBroken) || vain - missing != {}
      ensures Holds(there)
      ensures forall k :: there[k] == if k !in device then start[k]
                                      else if k in missing then marked[k] else unmarked[k]
    {
      missing, there := {}, start;
      var todo := device.Keys;
      while todo != {}
        invariant todo <= device.Keys && Holds(there)
        invariant Underway(start, marked, unmarked, device.Keys, todo, missing, there)
        invariant Told(old(relayBroken), relayBroken, device.Keys, vain, todo, missing)
      {
        var k :| k in todo;
        ghost var goal := if relayBroken then marked[k] else unmarked[k];
        assert TurnsTo(cfg, start[k], device[k], now, applied(k), relayBroken, env(k), goal);
        ToldNext(old(relayBroken), relayBroken, device.Keys, vain, todo, missing, k);
        UnderwayNext(start, marked, unmarked, device.Keys, todo, missing, there, k, relayBroken);
        if relayBroken {
          missing := missing + {k};
        }
        there := CheckPeer(k, device[k], now, applied(k), env(k), there, k in vain, goal);
        todo := todo - {k};
      }
    }

    method CheckAll(device: map<Key, DevicePeer>, now: Time, applied: Key -> bool, env: Key -> RelayEnv,
                    ghost start: Paths, ghost vain: set<Key>)
      returns (ghost missing: set<Key>, ghost there: Paths)
      requires Holds(start) && vain <= device.Keys
      requires AllVain(cfg, start, device, now, applied, env, vain)
      modifies `firstSeen, `directProbes, `relays, `proxies, `retries, `damping, `relayBroken
      ensures missing <= device.Keys && (old(relayBroken) ==> missing == device.Keys)
      ensures missing != {} ==> relayBroken
      ensures relayBroken <==> old(relayBroken) || vain - missing != {}
      ensures Holds(there) && AllTurned(cfg, start, device, now, applied, missing, env, there)
    {
      ghost var marked := TurnAll(cfg, start, device, now, applied, true, env);
      ghost var unmarked := TurnAll(cfg, start, device, now, applied, false, env);
      missing, there := CheckPeers(device, now, applied, env, start, vain, marked, unmarked);
      AllHadTheirTurn(cfg, start, device, now, applied, missing, env, there, marked, unmarked);
    }

    /** The report tick: every peer, on the device or not, goes through one handshake event. */
    method CheckHandshakes(device: map<Key, DevicePeer>, now: Time, wsAlive: set<Key>, quicAlive: set<Key>,
                           applied: Key -> bool, env: Key -> RelayEnv)
      returns (ghost missing: set<Key>)
      requires Valid() && clock <= now
      modifies `firstSeen, `directProbes, `relays, `proxies, `retries, `damping, `relayBroken,
               `pasts, `paths, `clock
      ensures Valid() && clock == now
      ensures missing <= device.Keys && (old(relayBroken) ==> missing == device.Keys)
      ensures missing != {} ==> relayBroken
      ensures relayBroken <==>
                old(relayBroken) || Vain(cfg, old(paths), device, now, wsAlive, quicAlive, applied, env) - missing != {}
      ensures pasts == Joined(old(pasts), Ticks(device, now, wsAlive, quicAlive, missing, applied, env))
    {
      ghost var there;
      missing, there := Tick(device, now, wsAlive, quicAlive, applied, env, paths);
      ghost var ticks := Ticks(device, now, wsAlive, quicAlive, missing, applied, env);
      AllHappen(cfg, pasts, clock, paths, ticks, now, there);
      Note(Joined(pasts, ticks), now, there);
    }

    method Tick(device: map<Key, DevicePeer>, now: Time, wsAlive: set<Key>, quicAlive: set<Key>,
                applied: Key -> bool, env: Key -> RelayEnv, ghost start: Paths)
      returns (ghost missing: set<Key>, ghost there: Paths)
      requires Holds(start)
      modifies `firstSeen, `directProbes, `relays, `proxies, `retries, `damping, `relayBroken
      ensures missing <= device.Keys && (old(relayBroken) ==> missing == device.Keys)
      ensures missing != {} ==> relayBroken
      ensures relayBroken <==>
                old(relayBroken) || Vain(cfg, start, device, now, wsAlive, quicAlive, applied, env) - missing != {}
      ensures Holds(there)
      ensures AllMoved(cfg, start, Ticks(device, now, wsAlive, quicAlive, missing, applied, env), now, there)
    {
      ghost var retiredWs := RetireWsProxies(wsAlive, start);
      ghost var retired := RetireQuicProxies(quicAlive, retiredWs);
      VainAfterRetiring(cfg, start, retiredWs, retired, device, now, wsAlive, quicAlive, applied, env);
      missing, there := CheckAll(device, now, applied, env, retired,
                                 Vain(cfg, start, device, now, wsAlive, quicAlive, applied, env));
      TurnsAreTicks(cfg, start, retiredWs, retired, there, device, now, wsAlive, quicAlive, missing, applied, env);
    }
  }

  /** The probe ticks of the peers on the device. */
  ghost function ProbeTicks(device: map<Key, DevicePeer>, now: Time, applied: Key -> bool): Pasts {
    imap k: Key :: if k in device then [ProbeTick(now, device[k], applied(k))] else []
  }

  /** The handshake ticks of all peers, whether on the device or not. */
  ghost function Ticks(device: map<Key, DevicePeer>, now: Time, wsAlive: set<Key>, quicAlive: set<Key>,
                       missing: set<Key>, applied: Key -> bool, env: Key -> RelayEnv): Pasts
  {
    imap k: Key :: [HandshakeTick(now, k in wsAlive, k in quicAlive, Get(device, k), k in missing, applied(k), env(k))]
  }

  ghost predicate AllProbed(start: Paths, device: map<Key, DevicePeer>, now: Time, applied: Key -> bool, there: Paths) {
    forall k: Key {:trigger Probed(start[k], Get(device, k), now, applied(k), there[k])} ::
      Probed(start[k], Get(device, k), now, applied(k), there[k])
  }

  ghost predicate Probed(p: PeerPath, listed: Option<DevicePeer>, now: Time, applied: bool, q: PeerPath) {
    q == if listed.Some? then CheckProbe(p, listed.value, now, applied).0 else p
  }

  ghost predicate AllRetiredWs(start: Paths, alive: set<Key>, there: Paths) {
    forall k: Key {:trigger RetiredWs(start[k], k in alive, there[k])} :: RetiredWs(start[k], k in alive, there[k])
  }

  ghost predicate RetiredWs(p: PeerPath, alive: bool, q: PeerPath) {
    q == RetireWs(p, alive)
  }

  ghost predicate AllRetiredQuic(start: Paths, alive: set<Key>, there: Paths) {
    forall k: Key {:trigger RetiredQuic(start[k], k in alive, there[k])} :: RetiredQuic(start[k], k in alive, there[k])
  }

  ghost predicate RetiredQuic(p: PeerPath, alive: bool, q: PeerPath) {
    q == RetireQuic(p, alive)
  }

  ghost predicate AllTurned(cfg: Config, start: Paths, device: map<Key, DevicePeer>, now: Time, applied: Key -> bool,
                            missing: set<Key>, env: Key -> RelayEnv, there: Paths)
  {
    forall k: Key {:trigger Turned(cfg, start[k], Get(device, k), now, applied(k), k in missing, env(k), there[k])} ::
      Turned(cfg, start[k], Get(device, k), now, applied(k), k in missing, env(k), there[k])
  }

  ghost predicate Turned(cfg: Config, p: PeerPath, listed: Option<DevicePeer>, now: Time, applied: bool, mark: bool,
                         env: RelayEnv, q: PeerPath)
  {
    q == if listed.Some? then Turn(cfg, p, listed.value, now, applied, mark, env) else p
  }

  lemma ChecksAreTicks(cfg: Config, paths: Paths, there: Paths, device: map<Key, DevicePeer>, now: Time,
                       applied: Key -> bool)
    requires AllProbed(paths, device, now, applied, there)
    ensures AllMoved(cfg, paths, ProbeTicks(device, now, applied), now, there)
  {
    forall k: Key
      ensures Moved(cfg, paths[k], ProbeTicks(device, now, applied)[k], now, there[k])
    {
      assert Probed(paths[k], Get(device, k), now, applied(k), there[k]);
    }
  }

  lemma TurnIsTick(cfg: Config, p: PeerPath, listed: Option<DevicePeer>, now: Time, wsAlive: bool, quicAlive: bool,
                   applied: bool, mark: bool, env: RelayEnv)
    ensures var q := RetireQuic(RetireWs(p, wsAlive), quicAlive);
            After(cfg, p, HandshakeTick(now, wsAlive, quicAlive, listed, mark, applied, env))
            == if listed.None? then q else Turn(cfg, q, listed.value, now, applied, mark, env)
  {
  }

  /** Retiring dead proxies and then taking its turn is what a handshake tick does to a peer. */
  lemma TurnsAreTicks(cfg: Config, paths: Paths, retiredWs: Paths, retired: Paths, there: Paths,
                      device: map<Key, DevicePeer>, now: Time, wsAlive: set<Key>, quicAlive: set<Key>,
                      missing: set<Key>, applied: Key -> bool, env: Key -> RelayEnv)
    requires AllRetiredWs(paths, wsAlive, retiredWs) && AllRetiredQuic(retiredWs, quicAlive, retired)
    requires AllTurned(cfg, retired, device, now, applied, missing, env, there)
    ensures AllMoved(cfg, paths, Ticks(device, now, wsAlive, quicAlive, missing, applied, env), now, there)
  {
    var ticks := Ticks(device, now, wsAlive, quicAlive, missing, applied, env);
    forall k: Key
      ensures Moved(cfg, paths[k], ticks[k], now, there[k])
    {
      assert RetiredWs(paths[k], k in wsAlive, retiredWs[k]);
      assert RetiredQuic(retiredWs[k], k in quicAlive, retired[k]);
      assert Turned(cfg, retired[k], Get(device, k), now, applied(k), k in missing, env(k), there[k]);
      TurnIsTick(cfg, paths[k], Get(device, k), now, k in wsAlive, k in quicAlive, applied(k), k in missing, env(k));
    }
  }

  /** The part of a handshake event that comes after dead proxies were retired. */
  ghost function Turn(cfg: Config, p: PeerPath, dev: DevicePeer, now: Time, applied: bool, mark: bool, env: RelayEnv)
    : PeerPath
  {
    After(cfg, p, TurnEvent(dev, now, applied, mark, env))
  }

  /** The peers still to do are as they were; the others had their turn. */
  ghost predicate Underway(start: Paths, marked: Paths, unmarked: Paths, keys: set<Key>, todo: set<Key>,
                           missing: set<Key>, there: Paths)
  {
    forall k :: there[k] == if k !in keys || k in todo then start[k]
                            else if k in missing then marked[k] else unmarked[k]
  }

  lemma UnderwayNext(start: Paths, marked: Paths, unmarked: Paths, keys: set<Key>, todo: set<Key>,
                     missing: set<Key>, there: Paths, k: Key, broken: bool)
    requires Underway(start, marked, unmarked, keys, todo, missing, there)
    requires k in todo && todo <= keys && missing !! todo
    ensures there[k] == start[k]
    ensures Underway(start, marked, unmarked, keys, todo - {k}, if broken then missing + {k} else missing,
                     there[k := if broken then marked[k] else unmarked[k]])
  {
  }

  /** The relay is known to be missing once it was at the start, or a peer was told so; from
      then on every peer finds it missing. */
  ghost predicate Told(was: bool, broken: bool, keys: set<Key>, vain: set<Key>, todo: set<Key>, missing: set<Key>) {
    && missing <= keys - todo && (was ==> missing == keys - todo) && (missing != {} ==> broken)
    && (broken <==> was || vain - todo - missing != {})
  }

  lemma ToldNext(was: bool, broken: bool, keys: set<Key>, vain: set<Key>, todo: set<Key>, missing: set<Key>, k: Key)
    requires Told(was, broken, keys, vain, todo, missing) && k in todo && todo <= keys
    ensures Told(was, broken || k in vain, keys, vain, todo - {k}, if broken then missing + {k} else missing)
  {
    var after := if broken then missing + {k} else missing;
    assert vain - (todo - {k}) - after
        == if k in vain && !broken then vain - todo - missing + {k} else vain - todo - missing;
  }

  ghost predicate TurnsTo(cfg: Config, p: PeerPath, dev: DevicePeer, now: Time, applied: bool, mark: bool,
                          env: RelayEnv, q: PeerPath)
  {
    q == Turn(cfg, p, dev, now, applied, mark, env)
  }

  lemma TurnIsCheck(cfg: Config, p: PeerPath, dev: DevicePeer, now: Time, applied: bool, mark: bool, env: RelayEnv,
                    told: bool, goal: PeerPath)
    requires TurnsTo(cfg, p, dev, now, applied, mark, env, goal)
    requires told == AsksInVain(cfg, p, TurnEvent(dev, now, applied, false, env))
    ensures var s := RelayCheck(cfg.transport, mark, CheckProbe(p, dev, now, applied).0, dev, now, env);
            s.path == goal && s.broken == (mark || told)
  {
    RelayDenied(cfg, p, TurnEvent(dev, now, applied, mark, env));
  }

  /** Every peer of the device is in `goal` as its turn leaves it. */
  ghost predicate AllTurnTo(cfg: Config, start: Paths, device: map<Key, DevicePeer>, now: Time, applied: Key -> bool,
                            mark: bool, env: Key -> RelayEnv, goal: Paths)
  {
    forall k {:trigger TurnsTo(cfg, start[k], device[k], now, applied(k), mark, env(k), goal[k])} :: k in device ==>
      TurnsTo(cfg, start[k], device[k], now, applied(k), mark, env(k), goal[k])
  }

  ghost function TurnAll(cfg: Config, start: Paths, device: map<Key, DevicePeer>, now: Time, applied: Key -> bool,
                         mark: bool, env: Key -> RelayEnv): (goal: Paths)
    ensures AllTurnTo(cfg, start, device, now, applied, mark, env, goal)
  {
    imap k: Key :: if k in device then Turn(cfg, start[k], device[k], now, applied(k), mark, env(k)) else start[k]
  }

  lemma AllHadTheirTurn(cfg: Config, start: Paths, device: map<Key, DevicePeer>, now: Time, applied: Key -> bool,
                        missing: set<Key>, env: Key -> RelayEnv, there: Paths, marked: Paths, unmarked: Paths)
    requires AllTurnTo(cfg, start, device, now, applied, true, env, marked)
    requires AllTurnTo(cfg, start, device, now, applied, false, env, unmarked)
    requires forall k :: there[k] == if k !in device then start[k]
                                     else if k in missing then marked[k] else unmarked[k]
    ensures AllTurned(cfg, start, device, now, applied, missing, env, there)
  {
    forall k: Key
      ensures Turned(cfg, start[k], Get(device, k), now, applied(k), k in missing, env(k), there[k])
    {
      if k in device {
        var goal := if k in missing then marked[k] else unmarked[k];
        assert TurnsTo(cfg, start[k], device[k], now, applied(k), k in missing, env(k), goal);
      }
    }
  }

  ghost function TurnEvent(dev: DevicePeer, now: Time, applied: bool, mark: bool, env: RelayEnv): (e: Event)
    ensures e.HandshakeTick? && e.listed.Some?
  {
    HandshakeTick(now, true, true, Some(dev), mark, applied, env)
  }

  /** The peers that on a report tick, silent and without a relay, would ask for one and be
      told that there is none. */
  ghost function Vain(cfg: Config, paths: Paths, device: map<Key, DevicePeer>, now: Time, wsAlive: set<Key>,
                      quicAlive: set<Key>, applied: Key -> bool, env: Key -> RelayEnv): set<Key>
  {
    set k | k in device
            && AsksInVain(cfg, paths[k], HandshakeTick(now, k in wsAlive, k in quicAlive, Some(device[k]), false,
                                                       applied(k), env(k)))
  }

  ghost predicate AllVain(cfg: Config, start: Paths, device: map<Key, DevicePeer>, now: Time, applied: Key -> bool,
                          env: Key -> RelayEnv, vain: set<Key>)
  {
    forall k {:trigger k in vain} :: k in device ==>
      (k in vain <==> AsksInVain(cfg, start[k], TurnEvent(device[k], now, applied(k), false, env(k))))
  }

  lemma VainAfterRetiring(cfg: Config, paths: Paths, retiredWs: Paths, retired: Paths, device: map<Key, DevicePeer>,
                          now: Time, wsAlive: set<Key>, quicAlive: set<Key>, applied: Key -> bool,
                          env: Key -> RelayEnv)
    requires AllRetiredWs(paths, wsAlive, retiredWs) && AllRetiredQuic(retiredWs, quicAlive, retired)
    ensures AllVain(cfg, retired, device, now, applied, env,
                    Vain(cfg, paths, device, now, wsAlive, quicAlive, applied, env))
  {
    forall k | k in device
      ensures AsksInVain(cfg, paths[k], HandshakeTick(now, k in wsAlive, k in quicAlive, Some(device[k]), false,
                                                      applied(k), env(k))) <==>
              AsksInVain(cfg, retired[k], TurnEvent(device[k], now, applied(k), false, env(k)))
    {
      assert RetiredWs(paths[k], k in wsAlive, retiredWs[k]);
      assert RetiredQuic(retiredWs[k], k in quicAlive, retired[k]);
    }
  }
}

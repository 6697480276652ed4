/** Punch coordination: the control plane's per-pair epochs (cmd/server/report.go) together
    with the agents that act on them (cmd/agent/relay.go), as one system of steps in which
    payloads may be lost, repeated, delayed and reordered, and no two clocks agree. */
module Punch {

  import opened Wrappers
  import opened Keys
  import opened Failover
  import opened FailoverRuns

  const PUNCH_COOLDOWN: int := 2 * MINUTE
  const MAX_PUNCH_ATTEMPTS: nat := 3

  datatype PunchEpoch = PunchEpoch(epoch: nat, attempts: nat, bumpedAt: Option<Time>)

  const NoEpoch: PunchEpoch := PunchEpoch(0, 0, None)

  /** The flag says whether the epoch advanced. */
  function Bump(p: PunchEpoch, now: Time): (r: (PunchEpoch, bool)) {
    if p.attempts >= MAX_PUNCH_ATTEMPTS then (p, false)
    else if p.bumpedAt.Some? && now - p.bumpedAt.value < PUNCH_COOLDOWN * Pow2(Min(p.attempts, 2)) then (p, false)
    else (PunchEpoch(p.epoch + 1, p.attempts + 1, Some(now)), true)
  }

  function Reset(p: PunchEpoch): PunchEpoch {
    if p.attempts == 0 then p else p.(attempts := 0, bumpedAt := None)
  }

  // ---- the server's map -----------------------------------------------------------------

  datatype Nat = EasyNat | HardNat | StaticNat | UnknownNat

  datatype State = Direct | Probing | Relayed(kind: Kind)

  datatype Decision = Decision(
    remoteOnline: bool, selfCandidates: nat, remoteCandidates: nat, selfNat: Nat, remoteNat: Nat)

  predicate ShouldBump(state: State, d: Decision) {
    && state.Relayed?
    && !(d.selfNat.HardNat? && d.remoteNat.HardNat?)
    && d.remoteOnline && d.selfCandidates > 0 && d.remoteCandidates > 0
  }

  datatype PathReport = PathReport(peer: Key, state: State)

  function EpochOf(m: map<PairId, PunchEpoch>, id: PairId): PunchEpoch {
    if id in m then m[id] else NoEpoch
  }

  /** What one line of a report does to the record of its pair. */
  function AfterLine(p: PunchEpoch, line: PathReport, visible: map<Key, Decision>, now: Time): PunchEpoch {
    if line.peer !in visible then p
    else if line.state.Direct? then Reset(p)
    else if ShouldBump(line.state, visible[line.peer]) then Bump(p, now).0
    else p
  }

  /** What a report does to the record of its sender and `peer`: each of its lines for that
      peer resets or bumps it in turn. */
  function Coordinated(p: PunchEpoch, peer: Key, paths: seq<PathReport>, visible: map<Key, Decision>, now: Time)
    : PunchEpoch
  {
    if paths == [] then p
    else
      var n := |paths| - 1;
      var q := Coordinated(p, peer, paths[..n], visible, now);
      if paths[n].peer == peer then AfterLine(q, paths[n], visible, now) else q
  }

  ghost function HeardOf(heard: map<PairId, seq<ServerEvent>>, id: PairId): seq<ServerEvent> {
    if id in heard then heard[id] else []
  }

  /** The server's map of epochs. As ghost state it keeps what each pair has been through; the
      record of a pair is always the one the run of those events gives. */
  class PunchServer {
    var punchEpochs: map<PairId, PunchEpoch>
    ghost var heard: map<PairId, seq<ServerEvent>>

    ghost predicate Valid()
      reads this
    {
      forall id {:trigger EpochOf(punchEpochs, id)} :: EpochOf(punchEpochs, id) == ServerRun(HeardOf(heard, id)).record
    }

    constructor ()
      ensures Valid() && punchEpochs == map[] && heard == map[]
    {
      punchEpochs, heard := map[], map[];
    }

    /** The epoch both ends of a pair are told. */
    method CurrentEpoch(a: Key, b: Key) returns (epoch: nat)
      ensures epoch == EpochOf(punchEpochs, RelayPairId(a, b)).epoch
      ensures epoch == EpochOf(punchEpochs, RelayPairId(b, a)).epoch
    {
      PairIdSymmetric(a, b, b, a);
      var id := RelayPairId(a, b);
      epoch := if id in punchEpochs then punchEpochs[id].epoch else 0;
    }

    method BumpPunchEpoch(a: Key, b: Key, now: Time) returns (bumped: bool)
      requires Valid()
      modifies this
      ensures Valid() && heard == var id := RelayPairId(a, b); old(heard)[id := old(HeardOf(heard, id)) + [Asked(now)]]
      ensures var id := RelayPairId(a, b);
              && (EpochOf(punchEpochs, id), bumped) == Bump(old(EpochOf(punchEpochs, id)), now)
              && (forall j :: j != id ==> EpochOf(punchEpochs, j) == old(EpochOf(punchEpochs, j)))
    {
      var id := RelayPairId(a, b);
      var cur := EpochOf(punchEpochs, id);
      RunOne(HeardOf(heard, id), Asked(now));
      heard := heard[id := HeardOf(heard, id) + [Asked(now)]];
      if cur.attempts >= MAX_PUNCH_ATTEMPTS {
        return false;
      }
      var cooldown := PUNCH_COOLDOWN * Pow2(Min(cur.attempts, 2));
      if cur.bumpedAt.Some? && now - cur.bumpedAt.value < cooldown {
        return false;
      }
      punchEpochs := punchEpochs[id := PunchEpoch(cur.epoch + 1, cur.attempts + 1, Some(now))];
      assert forall j {:trigger EpochOf(punchEpochs, j)} :: j != id ==>
          EpochOf(punchEpochs, j) == old(EpochOf(punchEpochs, j));
      return true;
    }

    method ResetPunchAttempts(a: Key, b: Key)
      requires Valid()
      modifies this
      ensures Valid() && heard == var id := RelayPairId(a, b); old(heard)[id := old(HeardOf(heard, id)) + [WentDirect]]
      ensures var id := RelayPairId(a, b);
              && EpochOf(punchEpochs, id) == Reset(old(EpochOf(punchEpochs, id)))
              && (forall j :: j != id ==> EpochOf(punchEpochs, j) == old(EpochOf(punchEpochs, j)))
    {
      var id := RelayPairId(a, b);
      RunOne(HeardOf(heard, id), WentDirect);
      heard := heard[id := HeardOf(heard, id) + [WentDirect]];
      var cur := EpochOf(punchEpochs, id);
      if id !in punchEpochs || cur.attempts == 0 {
        return;
      }
      punchEpochs := punchEpochs[id := cur.(attempts := 0, bumpedAt := None)];
      assert forall j {:trigger EpochOf(punchEpochs, j)} :: j != id ==>
          EpochOf(punchEpochs, j) == old(EpochOf(punchEpochs, j));
    }

    /** Handles the path states of one report of `self`. */
    method CoordinatePunches(self: Key, paths: seq<PathReport>, visible: map<Key, Decision>, now: Time)
      requires Valid()
      modifies this
      ensures Valid()
      ensures |paths| == 1 && paths[0].peer in visible ==>
                var id := RelayPairId(self, paths[0].peer);
                Handled(ServerRun(old(HeardOf(heard, id))), paths[0].state, visible[paths[0].peer], now,
                        EpochOf(punchEpochs, id))
      ensures forall peer :: var id := RelayPairId(self, peer);
                             EpochOf(punchEpochs, id)
                             == Coordinated(old(EpochOf(punchEpochs, id)), peer, paths, visible, now)
      ensures forall id: PairId :: id.lo != self && id.hi != self ==>
                EpochOf(punchEpochs, id) == old(EpochOf(punchEpochs, id))
    {
      for n := 0 to |paths|
        invariant Valid()
        invariant forall peer :: var id := RelayPairId(self, peer);
                                 EpochOf(punchEpochs, id)
                                 == Coordinated(old(EpochOf(punchEpochs, id)), peer, paths[..n], visible, now)
        invariant forall id: PairId :: id.lo != self && id.hi != self ==>
                    EpochOf(punchEpochs, id) == old(EpochOf(punchEpochs, id))
      {
        var p := paths[n];
        assert paths[..n + 1][..n] == paths[..n];
        forall peer ensures RelayPairId(self, peer) == RelayPairId(self, p.peer) <==> peer == p.peer {
          PairIdSymmetric(self, peer, self, p.peer);
        }
        HandleLine(self, p, visible, now);
      }
      assert paths[..|paths|] == paths;
      if |paths| == 1 && paths[0].peer in visible {
        var id := RelayPairId(self, paths[0].peer);
        assert Handled(ServerRun(old(HeardOf(heard, id))), paths[0].state, visible[paths[0].peer], now,
                       EpochOf(punchEpochs, id)) by {
          OneLineExactly(old(HeardOf(heard, id)), paths[0], visible, now);
          assert paths == [paths[0]];
          assert EpochOf(punchEpochs, id)
              == Coordinated(old(EpochOf(punchEpochs, id)), paths[0].peer, paths, visible, now);
        }
      }
    }

    method HandleLine(self: Key, line: PathReport, visible: map<Key, Decision>, now: Time)
      requires Valid()
      modifies this
      ensures Valid()
      ensures var id := RelayPairId(self, line.peer);
              && EpochOf(punchEpochs, id) == AfterLine(old(EpochOf(punchEpochs, id)), line, visible, now)
              && (forall j :: j != id ==> EpochOf(punchEpochs, j) == old(EpochOf(punchEpochs, j)))
    {
      if line.peer !in visible {
        return;
      }
      if line.state.Direct? {
        ResetPunchAttempts(self, line.peer);
      } else if ShouldBump(line.state, visible[line.peer]) {
        var _ := BumpPunchEpoch(self, line.peer, now);
      }
    }

    /** Whatever has been reported, the record of every pair is that of a paced run. */
    lemma EveryPairPaced(id: PairId)
      requires Valid()
      ensures var l := ServerRun(HeardOf(heard, id)); EpochOf(punchEpochs, id) == l.record && LedgerOk(l)
    {
      ServerRunOk(HeardOf(heard, id));
    }
  }

  // ---- one pair over a whole run --------------------------------------------------------

  datatype ServerEvent = Asked(now: Time) | WentDirect

  /** The record of a pair, and the bump times of every relay episode so far, an episode
      ending at a reset that had something to reset. */
  datatype Ledger = Ledger(record: PunchEpoch, episodes: seq<seq<Time>>)

  const NewLedger: Ledger := Ledger(NoEpoch, [[]])

  function Note(l: Ledger, e: ServerEvent): Ledger {
    var n := |l.episodes| - 1;
    match e
    case Asked(now) =>
      var r := Bump(l.record, now);
      if r.1 && n >= 0 then Ledger(r.0, l.episodes[n := l.episodes[n] + [now]]) else l
    case WentDirect =>
      if l.record.attempts == 0 then l else Ledger(Reset(l.record), l.episodes + [[]])
  }

  function ServerRun(events: seq<ServerEvent>): Ledger {
    if events == [] then NewLedger
    else Note(ServerRun(events[..|events| - 1]), events[|events| - 1])
  }

  ghost function Total(episodes: seq<seq<Time>>): nat {
    if episodes == [] then 0 else Total(episodes[..|episodes| - 1]) + |episodes[|episodes| - 1]|
  }

  /** At most three bumps, the second at least 4 and the third at least 8 minutes later. */
  ghost predicate Paced(episode: seq<Time>) {
    && |episode| <= MAX_PUNCH_ATTEMPTS
    && (|episode| >= 2 ==> episode[1] - episode[0] >= 4 * MINUTE)
    && (|episode| >= 3 ==> episode[2] - episode[1] >= 8 * MINUTE)
  }

  ghost predicate LedgerOk(l: Ledger) {
    && |l.episodes| > 0
    && (forall e <- l.episodes :: Paced(e))
    && l.record.epoch == Total(l.episodes)
    && var last := l.episodes[|l.episodes| - 1];
    && l.record.attempts == |last|
    && l.record.bumpedAt == if |last| == 0 then None else Some(last[|last| - 1])
  }

  lemma TotalOfLast(before: seq<seq<Time>>, last: seq<Time>)
    ensures Total(before + [last]) == Total(before) + |last|
  {
    assert (before + [last])[..|before|] == before;
  }

  /** A bump that is granted paces its episode. */
  lemma GrantPaced(record: PunchEpoch, last: seq<Time>, now: Time)
    requires Paced(last) && record.attempts == |last| && Bump(record, now).1
    requires record.bumpedAt == if |last| == 0 then None else Some(last[|last| - 1])
    ensures Paced(last + [now])
  {
    assert Pow2(0) == 1 && Pow2(1) == 2 && Pow2(2) == 4;
    var more := last + [now];
    assert |last| == 1 ==> more[0] == last[0] && more[1] == now;
    assert |last| == 2 ==> more[0] == last[0] && more[1] == last[1] && more[2] == now;
  }

  lemma AskedKeeps(l: Ledger, now: Time)
    requires LedgerOk(l)
    ensures LedgerOk(Note(l, Asked(now))) && l.record.epoch <= Note(l, Asked(now)).record.epoch
  {
    var n := |l.episodes| - 1;
    var before, last := l.episodes[..n], l.episodes[n];
    assert l.episodes == before + [last] && Paced(last);
    if Bump(l.record, now).1 {
      GrantPaced(l.record, last, now);
      TotalOfLast(before, last);
      TotalOfLast(before, last + [now]);
      assert l.episodes[n := last + [now]] == before + [last + [now]];
    }
  }

  lemma NoteKeeps(l: Ledger, e: ServerEvent)
    requires LedgerOk(l)
    ensures LedgerOk(Note(l, e)) && l.record.epoch <= Note(l, e).record.epoch
  {
    match e
    case Asked(now) => AskedKeeps(l, now);
    case WentDirect => TotalOfLast(l.episodes, []);
  }

  lemma {:induction false} ServerRunOk(events: seq<ServerEvent>)
    ensures LedgerOk(ServerRun(events))
  {
    if events != [] {
      ServerRunOk(events[..|events| - 1]);
      NoteKeeps(ServerRun(events[..|events| - 1]), events[|events| - 1]);
    } else {
      TotalOfLast([], []);
    }
  }

  /** The events that the lines of a report for one peer stand for. */
  function Said(peer: Key, paths: seq<PathReport>, visible: map<Key, Decision>, now: Time): seq<ServerEvent> {
    if paths == [] then []
    else
      var n := |paths| - 1;
      var before := Said(peer, paths[..n], visible, now);
      if paths[n].peer != peer || peer !in visible then before
      else if paths[n].state.Direct? then before + [WentDirect]
      else if ShouldBump(paths[n].state, visible[peer]) then before + [Asked(now)]
      else before
  }

  lemma RunOne(events: seq<ServerEvent>, e: ServerEvent)
    ensures ServerRun(events + [e]) == Note(ServerRun(events), e)
    ensures ServerRun(events + [e]).record
            == var r := ServerRun(events).record; if e.Asked? then Bump(r, e.now).0 else Reset(r)
  {
    assert (events + [e])[..|events|] == events;
    ServerRunOk(events);
  }

  /** A report takes the record of each pair through the events its lines stand for, so records
      the server keeps are records that runs reach. */
  lemma {:induction false} CoordinatedIsRun(events: seq<ServerEvent>, peer: Key, paths: seq<PathReport>,
                                            visible: map<Key, Decision>, now: Time)
    ensures Coordinated(ServerRun(events).record, peer, paths, visible, now)
            == ServerRun(events + Said(peer, paths, visible, now)).record
  {
    if paths == [] {
      assert events + [] == events;
    } else {
      var n := |paths| - 1;
      CoordinatedIsRun(events, peer, paths[..n], visible, now);
      var before := events + Said(peer, paths[..n], visible, now);
      var said := Said(peer, paths, visible, now);
      if said != Said(peer, paths[..n], visible, now) {
        var e := said[|said| - 1];
        assert before + [e] == events + said;
        RunOne(before, e);
      }
    }
  }

  /** The epoch of a pair never falls. */
  lemma {:induction false} EpochNeverFalls(events: seq<ServerEvent>, n: nat)
    requires n <= |events|
    ensures ServerRun(events[..n]).record.epoch <= ServerRun(events).record.epoch
  {
    if n < |events| {
      var before := events[..|events| - 1];
      assert before[..n] == events[..n];
      EpochNeverFalls(before, n);
      ServerRunOk(before);
      NoteKeeps(ServerRun(before), events[|events| - 1]);
    } else {
      assert events[..n] == events;
    }
  }

  /** In every reachable state an epoch is refused exactly when this episode used up its three
      bumps, or had one less than 4 minutes ago, or two the second less than 8 minutes ago.
      The base cooldown of 2 minutes never applies. */
  lemma RefusedExactly(events: seq<ServerEvent>, now: Time)
    ensures var l := ServerRun(events);
            |l.episodes| > 0
            && var last := l.episodes[|l.episodes| - 1];
            !Bump(l.record, now).1 <==>
              || |last| == 3
              || (|last| == 1 && now - last[0] < 4 * MINUTE)
              || (|last| == 2 && now - last[1] < 8 * MINUTE)
  {
    ServerRunOk(events);
    assert Pow2(0) == 1 && Pow2(1) == 2 && Pow2(2) == 4;
    var l := ServerRun(events);
    assert Paced(l.episodes[|l.episodes| - 1]);
  }

  /** The bump times of the relay episode under way. */
  ghost function Episode(l: Ledger): seq<Time> {
    if l.episodes == [] then [] else l.episodes[|l.episodes| - 1]
  }

  /** What a report line about a visible peer makes of the pair's record. The epoch rises by one
      exactly when the sender is on a relay, the other end is online, both have candidates, not
      both sit behind hard NATs, and the episode has a bump left and has waited 4 or 8 minutes
      since the last. A direct path gives the pair its attempts back. */
  ghost predicate Handled(l: Ledger, state: State, d: Decision, now: Time, after: PunchEpoch) {
    var last := Episode(l);
    var rises := && (state == Relayed(QuicRelay) || state == Relayed(WsRelay) || state == Relayed(UdpRelay))
                 && d.remoteOnline && d.selfCandidates > 0 && d.remoteCandidates > 0
                 && (!d.selfNat.HardNat? || !d.remoteNat.HardNat?)
                 && |last| < 3
                 && (|last| == 1 ==> now - last[0] >= 4 * MINUTE)
                 && (|last| == 2 ==> now - last[1] >= 8 * MINUTE);
    && after.epoch == l.record.epoch + (if rises then 1 else 0)
    && after.attempts == (if state.Direct? then 0 else if rises then |last| + 1 else |last|)
    && after.bumpedAt == if state.Direct? then None else if rises then Some(now) else l.record.bumpedAt
  }

  lemma OneLineExactly(events: seq<ServerEvent>, line: PathReport, visible: map<Key, Decision>, now: Time)
    requires line.peer in visible
    ensures var l := ServerRun(events);
            Handled(l, line.state, visible[line.peer], now, Coordinated(l.record, line.peer, [line], visible, now))
  {
    var l := ServerRun(events);
    ServerRunOk(events);
    RefusedExactly(events, now);
    assert Coordinated(l.record, line.peer, [], visible, now) == l.record;
    assert [line][..0] == [];
    if line.state.Relayed? {
      var kind := line.state.kind;
      assert kind.QuicRelay? || kind.WsRelay? || kind.UdpRelay?;
      assert line.state == Relayed(kind);
    }
    assert Paced(Episode(l));
  }

  lemma {:induction false} TotalBound(episodes: seq<seq<Time>>)
    requires forall e <- episodes :: Paced(e)
    ensures Total(episodes) <= MAX_PUNCH_ATTEMPTS * |episodes|
  {
    if episodes != [] {
      TotalBound(episodes[..|episodes| - 1]);
      assert Paced(episodes[|episodes| - 1]);
    }
  }

  // ---- server and agents together -------------------------------------------------------

  /** The pair's server record, the epochs ever put into a payload, and the two agents. */
  datatype System = System(server: Ledger, sent: set<nat>, agents: seq<World>)

  datatype Action =
    | Server(request: ServerEvent)
    | Reply
    | Agent(who: nat, event: Event)

  const Start: System := System(NewLedger, {}, [NewWorld, NewWorld])

  /** An agent acts on any event, a sync entry only with an epoch some payload carried. */
  predicate Enabled(s: System, a: Action) {
    a.Agent? ==> a.who < |s.agents| && (a.event.SyncEntry? ==> a.event.epoch >= 0 && a.event.epoch as nat in s.sent)
  }

  function Act(cfg: Config, s: System, a: Action): System {
    if !Enabled(s, a) then s
    else
      match a
      case Server(e) => s.(server := Note(s.server, e))
      case Reply => s.(sent := s.sent + {s.server.record.epoch})
      case Agent(who, e) => s.(agents := s.agents[who := Step(cfg, s.agents[who], e)])
  }

  function SystemRun(cfg: Config, actions: seq<Action>): System {
    if actions == [] then Start
    else Act(cfg, SystemRun(cfg, actions[..|actions| - 1]), actions[|actions| - 1])
  }

  /** Coordinated probes carry rising epochs, none above the agent's mark. */
  ghost predicate AgentOk(w: World) {
    w.path.retry.epoch >= 0 && EpochsRise(w.history.probes) && EpochLinked(w.history.probes, w.path.retry.epoch)
  }

  ghost predicate SystemOk(s: System) {
    && LedgerOk(s.server)
    && |s.agents| == 2
    && (forall e <- s.sent :: e <= s.server.record.epoch)
    && (forall w <- s.agents :: AgentOk(w) && w.path.retry.epoch <= s.server.record.epoch)
  }

  lemma TicksKeepMark(transport: Transport, p: PeerPath, dev: DevicePeer, now: Time, applied: bool, broken: bool,
                      env: RelayEnv)
    ensures CheckProbe(p, dev, now, applied).0.retry.epoch == p.retry.epoch
    ensures RelayCheck(transport, broken, p, dev, now, env).path.retry.epoch == p.retry.epoch
  {
  }

  lemma TickStep(cfg: Config, w: World, e: Event)
    requires e.HandshakeTick?
    ensures Step(cfg, w, e).path.retry.epoch == w.path.retry.epoch
    ensures Step(cfg, w, e).history.probes == w.history.probes
  {
    if e.listed.Some? {
      var p := RetireQuic(RetireWs(w.path, e.wsAlive), e.quicAlive);
      TicksKeepMark(cfg.transport, p, e.listed.value, e.now, e.applied, e.broken, e.env);
      var q := CheckProbe(p, e.listed.value, e.now, e.applied).0;
      TicksKeepMark(cfg.transport, q, e.listed.value, e.now, e.applied, e.broken, e.env);
    }
  }

  lemma AgentStep(cfg: Config, w: World, e: Event)
    requires AgentOk(w)
    ensures AgentOk(Step(cfg, w, e))
    ensures var m := Step(cfg, w, e).path.retry.epoch; m == w.path.retry.epoch || (e.SyncEntry? && m == e.epoch)
  {
    match e
    case Collect(_, _) =>
    case SyncEntry(_, _, _, _) =>
    case ProbeTick(now, dev, applied) =>
      TicksKeepMark(cfg.transport, w.path, dev, now, applied, false, RelayEnv(None, WsFailed, UdpFailed));
    case HandshakeTick(_, _, _, _, _, _, _) => TickStep(cfg, w, e);
  }

  lemma ActKeeps(cfg: Config, s: System, a: Action)
    requires SystemOk(s)
    ensures SystemOk(Act(cfg, s, a))
  {
    match a
    case Server(e) => NoteKeeps(s.server, e);
    case Reply =>
    case Agent(who, e) =>
      if Enabled(s, a) {
        AgentStep(cfg, s.agents[who], e);
      }
  }

  lemma {:induction false} SystemRunOk(cfg: Config, actions: seq<Action>)
    ensures SystemOk(SystemRun(cfg, actions))
  {
    if actions == [] {
      ServerRunOk([]);
    } else {
      SystemRunOk(cfg, actions[..|actions| - 1]);
      ActKeeps(cfg, SystemRun(cfg, actions[..|actions| - 1]), actions[|actions| - 1]);
    }
  }

  ghost function CoordinatedCount(probes: seq<ProbeRecord>): nat {
    if probes == [] then 0
    else CoordinatedCount(probes[..|probes| - 1]) + if probes[|probes| - 1].coordinated then 1 else 0
  }

  lemma {:induction false} CountBound(probes: seq<ProbeRecord>, mark: int)
    requires EpochsRise(probes) && EpochLinked(probes, mark) && mark >= 0
    ensures CoordinatedCount(probes) <= mark
  {
    if probes != [] {
      var n := |probes| - 1;
      var last := probes[n];
      assert last in probes;
      CountBound(probes[..n], if last.coordinated then last.epoch - 1 else mark);
    }
  }

  /** Under any interleaving, loss, duplication and clock skew: no agent starts two coordinated
      probes for one epoch, and it starts at most three per relay episode of the pair. */
  lemma CoordinatedProbesBounded(cfg: Config, actions: seq<Action>, w: World)
    requires w in SystemRun(cfg, actions).agents
    ensures EpochsRise(w.history.probes)
    ensures var server := SystemRun(cfg, actions).server;
            CoordinatedCount(w.history.probes) <= server.record.epoch <= 3 * |server.episodes|
  {
    SystemRunOk(cfg, actions);
    CountBound(w.history.probes, w.path.retry.epoch);
    TotalBound(SystemRun(cfg, actions).server.episodes);
  }
}

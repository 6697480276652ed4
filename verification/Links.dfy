/** Link counter telemetry (cmd/agent/telemetry.go): readings of counters that may reset are
    turned into deltas, kept until the control plane accepts a report. */
module Links {

  import opened Wrappers
  import opened Keys
  import Flows

  /** A reading below the last one means the counter restarted from zero. */
  function Delta(cur: nat, prev: nat): nat {
    if cur < prev then cur else cur - prev
  }

  // ---- one counter over a whole run -----------------------------------------------------

  /** The interface counter, the agent's last reading, what waits for a report and what was
      accepted. The rest is the truth the agent does not see: bytes since the last reading,
      whether the counter was reset since then, and bytes no reading will ever show. */
  datatype Meter = Meter(counter: nat, prev: nat, pending: nat, accepted: nat, unseen: nat, wasReset: bool, lost: int)

  const NewMeter: Meter := Meter(0, 0, 0, 0, 0, false, 0)

  datatype Event = Transfer(bytes: nat) | CounterReset | Collect | Report(ok: bool)

  function Step(m: Meter, e: Event): Meter {
    match e
    case Transfer(n) => m.(counter := m.counter + n, unseen := m.unseen + n)
    case CounterReset => m.(counter := 0, wasReset := true)
    case Collect =>
      var d := Delta(m.counter, m.prev);
      m.(prev := m.counter, pending := m.pending + d, unseen := 0, wasReset := false, lost := m.lost + m.unseen - d)
    case Report(ok) => if ok then m.(accepted := m.accepted + m.pending, pending := 0) else m
  }

  function Run(events: seq<Event>): Meter {
    if events == [] then NewMeter else Step(Run(events[..|events| - 1]), events[|events| - 1])
  }

  /** The bytes that really went through. */
  function Truth(events: seq<Event>): nat {
    if events == [] then 0
    else
      var e := events[|events| - 1];
      Truth(events[..|events| - 1]) + if e.Transfer? then e.bytes else 0
  }

  // ---- the same told from the events ----------------------------------------------------------

  /** What happened since the last reading. */
  function SinceCollect(events: seq<Event>): seq<Event> {
    if events == [] || events[|events| - 1].Collect? then []
    else SinceCollect(events[..|events| - 1]) + [events[|events| - 1]]
  }

  predicate HasReset(events: seq<Event>) {
    exists e :: e in events && e.CounterReset?
  }

  function SinceReset(events: seq<Event>): seq<Event> {
    if events == [] || events[|events| - 1].CounterReset? then []
    else SinceReset(events[..|events| - 1]) + [events[|events| - 1]]
  }

  /** The bytes of a stretch that went through before its last reset. */
  function BytesBeforeReset(events: seq<Event>): nat {
    if events == [] then 0
    else
      var rest, e := events[..|events| - 1], events[|events| - 1];
      if e.CounterReset? then Truth(rest) else BytesBeforeReset(rest)
  }

  /** What the counter showed at the last reading, 0 before the first. */
  function LastShown(events: seq<Event>): nat {
    if events == [] then 0
    else
      var rest, e := events[..|events| - 1], events[|events| - 1];
      if e.Collect? then Truth(SinceReset(rest)) else LastShown(rest)
  }

  /** A reading taken now shows every byte since the last one: there was no reset in between, or
      nothing went through before the last reset and what followed it adds up to less than the
      last reading showed, or that reading showed nothing. */
  predicate Shown(events: seq<Event>) {
    var stretch := SinceCollect(events);
    HasReset(stretch) ==>
      && BytesBeforeReset(stretch) == 0
      && (Truth(SinceReset(stretch)) < LastShown(events) || LastShown(events) == 0)
  }

  lemma HasResetOne(events: seq<Event>, e: Event)
    ensures HasReset(events + [e]) <==> HasReset(events) || e.CounterReset?
  {
    if HasReset(events) {
      var r :| r in events && r.CounterReset?;
      assert r in events + [e];
    }
    assert e in events + [e];
  }

  lemma SinceResetOne(events: seq<Event>, e: Event)
    ensures SinceReset(events + [e]) == if e.CounterReset? then [] else SinceReset(events) + [e]
    ensures BytesBeforeReset(events + [e]) == if e.CounterReset? then Truth(events) else BytesBeforeReset(events)
    ensures Truth(events + [e]) == Truth(events) + if e.Transfer? then e.bytes else 0
  {
    assert (events + [e])[..|events|] == events;
  }

  /** A stretch splits at its last reset. */
  lemma {:induction false} StretchSplits(events: seq<Event>)
    ensures Truth(events) == BytesBeforeReset(events) + Truth(SinceReset(events))
    ensures !HasReset(events) ==> BytesBeforeReset(events) == 0
  {
    if events != [] {
      var rest, e := events[..|events| - 1], events[|events| - 1];
      assert events == rest + [e];
      StretchSplits(rest);
      HasResetOne(rest, e);
      SinceResetOne(rest, e);
      SinceResetOne(SinceReset(rest), e);
    }
  }

  /** The parts of the meter that the agent does not see, read off the events. */
  ghost predicate Told(events: seq<Event>, m: Meter) {
    var stretch := SinceCollect(events);
    && m.counter == Truth(SinceReset(events)) && m.prev == LastShown(events)
    && m.unseen == Truth(stretch) && (m.wasReset <==> HasReset(stretch))
    && (HasReset(stretch) ==> m.counter == Truth(SinceReset(stretch)))
    && (!HasReset(stretch) ==> m.counter == m.prev + m.unseen)
  }

  /** How one more event changes what is read off the events. */
  lemma OneMore(events: seq<Event>, e: Event)
    ensures SinceCollect(events + [e]) == if e.Collect? then [] else SinceCollect(events) + [e]
    ensures LastShown(events + [e]) == if e.Collect? then Truth(SinceReset(events)) else LastShown(events)
  {
    assert (events + [e])[..|events|] == events;
  }

  lemma SinceResetBytes(events: seq<Event>, e: Event)
    ensures Truth(SinceReset(events + [e]))
            == if e.CounterReset? then 0 else Truth(SinceReset(events)) + if e.Transfer? then e.bytes else 0
  {
    SinceResetOne(events, e);
    SinceResetOne(SinceReset(events), e);
  }

  lemma ToldTransfer(events: seq<Event>, m: Meter, n: nat)
    requires Told(events, m)
    ensures Told(events + [Transfer(n)], Step(m, Transfer(n)))
  {
    var e, stretch := Transfer(n), SinceCollect(events);
    OneMore(events, e);
    SinceResetBytes(events, e);
    HasResetOne(stretch, e);
    SinceResetOne(stretch, e);
    SinceResetBytes(stretch, e);
  }

  lemma ToldReset(events: seq<Event>, m: Meter)
    requires Told(events, m)
    ensures Told(events + [CounterReset], Step(m, CounterReset))
  {
    var stretch := SinceCollect(events);
    OneMore(events, CounterReset);
    SinceResetBytes(events, CounterReset);
    HasResetOne(stretch, CounterReset);
    SinceResetOne(stretch, CounterReset);
    SinceResetBytes(stretch, CounterReset);
  }

  lemma ToldCollect(events: seq<Event>, m: Meter)
    requires Told(events, m)
    ensures Told(events + [Collect], Step(m, Collect))
  {
    OneMore(events, Collect);
    SinceResetBytes(events, Collect);
  }

  lemma ToldReport(events: seq<Event>, m: Meter, ok: bool)
    requires Told(events, m)
    ensures Told(events + [Report(ok)], Step(m, Report(ok)))
  {
    var e, stretch := Report(ok), SinceCollect(events);
    OneMore(events, e);
    SinceResetBytes(events, e);
    HasResetOne(stretch, e);
    SinceResetOne(stretch, e);
    SinceResetBytes(stretch, e);
  }

  lemma {:induction false} RunTold(events: seq<Event>)
    ensures Told(events, Run(events))
  {
    if events != [] {
      var rest, e := events[..|events| - 1], events[|events| - 1];
      assert events == rest + [e];
      RunTold(rest);
      match e
      case Transfer(n) => ToldTransfer(rest, Run(rest), n);
      case CounterReset => ToldReset(rest, Run(rest));
      case Collect => ToldCollect(rest, Run(rest));
      case Report(ok) => ToldReport(rest, Run(rest), ok);
    }
  }

  // ---- conservation ---------------------------------------------------------------------------

  ghost predicate MeterOk(m: Meter) {
    && (if m.wasReset then m.counter <= m.unseen else m.counter == m.prev + m.unseen)
    && m.lost >= 0
  }

  /** Nothing is counted twice or invented: accepted and pending bytes fall short of the truth
      by exactly the bytes not read yet and the bytes lost to resets. */
  lemma {:induction false} Conserved(events: seq<Event>)
    ensures MeterOk(Run(events))
    ensures var m := Run(events); m.accepted + m.pending + m.unseen + m.lost == Truth(events)
  {
    if events != [] {
      Conserved(events[..|events| - 1]);
    }
  }

  /** A reading loses nothing exactly when it shows every byte since the last one. */
  lemma ReadingExact(events: seq<Event>)
    ensures Step(Run(events), Collect).lost >= Run(events).lost
    ensures Step(Run(events), Collect).lost == Run(events).lost <==> Shown(events)
  {
    Conserved(events);
    RunTold(events);
    StretchSplits(SinceCollect(events));
  }

  ghost predicate AllShown(events: seq<Event>) {
    forall i :: 0 <= i < |events| && events[i].Collect? ==> Shown(events[..i])
  }

  lemma AllShownOne(events: seq<Event>, e: Event)
    ensures AllShown(events + [e]) <==> AllShown(events) && (e.Collect? ==> Shown(events))
  {
    var all := events + [e];
    assert all[..|events|] == events && all[|events|] == e;
    assert forall i :: 0 <= i < |events| ==> all[..i] == events[..i] && all[i] == events[i];
    if AllShown(all) {
      forall i | 0 <= i < |events| && events[i].Collect?
        ensures Shown(events[..i])
      {
        assert all[i].Collect?;
      }
    }
  }

  /** No byte is lost exactly when every reading of the run shows every byte since the one
      before it. */
  lemma {:induction false} NoLossExactly(events: seq<Event>)
    ensures Run(events).lost == 0 <==> AllShown(events)
  {
    if events != [] {
      var rest, e := events[..|events| - 1], events[|events| - 1];
      assert events == rest + [e];
      NoLossExactly(rest);
      AllShownOne(rest, e);
      Conserved(rest);
      ReadingExact(rest);
    }
  }

  lemma RunAt(events: seq<Event>, n: nat)
    requires n < |events|
    ensures Run(events[..n + 1]) == Step(Run(events[..n]), events[n])
    ensures Truth(events[..n + 1]) == Truth(events[..n]) + if events[n].Transfer? then events[n].bytes else 0
  {
    assert events[..n + 1][..n] == events[..n];
  }

  lemma LossyFirst(run: seq<Event>)
    requires |run| == 6 && run[0] == Transfer(100)
    ensures Run(run[..1]) == Meter(100, 0, 0, 0, 100, false, 0) && Truth(run[..1]) == 100
  {
    RunAt(run, 0);
    var none := run[..0];
    assert none == [];
  }

  lemma LossyStart(run: seq<Event>)
    requires |run| == 6 && run[1] == Collect
    requires Run(run[..1]) == Meter(100, 0, 0, 0, 100, false, 0) && Truth(run[..1]) == 100
    ensures Run(run[..2]) == Meter(100, 100, 100, 0, 0, false, 0) && Truth(run[..2]) == 100
  {
    RunAt(run, 1);
  }

  lemma LossyMiddle(run: seq<Event>)
    requires |run| == 6 && run[2] == Transfer(50) && run[3] == CounterReset
    requires Run(run[..2]) == Meter(100, 100, 100, 0, 0, false, 0) && Truth(run[..2]) == 100
    ensures Run(run[..4]) == Meter(0, 100, 100, 0, 50, true, 0) && Truth(run[..4]) == 150
  {
    RunAt(run, 2);
    RunAt(run, 3);
  }

  lemma LossyEnd(run: seq<Event>)
    requires |run| == 6 && run[4] == Transfer(20) && run[5] == Collect
    requires Run(run[..4]) == Meter(0, 100, 100, 0, 50, true, 0) && Truth(run[..4]) == 150
    ensures Run(run) == Meter(20, 20, 120, 0, 0, false, 50) && Truth(run) == 170
  {
    RunAt(run, 4);
    RunAt(run, 5);
    assert run[..6] == run;
  }

  /** Bytes that went through between the last reading and a reset are gone, even though the
      reset shows as a decrease: the second reading is below the first. */
  lemma ResetCanLose(run: seq<Event>)
    requires |run| == 6 && run[0] == Transfer(100) && run[1] == Collect && run[2] == Transfer(50)
    requires run[3] == CounterReset && run[4] == Transfer(20) && run[5] == Collect
    ensures Truth(run) == 170 && Run(run).accepted + Run(run).pending == 120
    ensures LastShown(run) == 20 < 100 == LastShown(run[..2])
  {
    LossyFirst(run);
    LossyStart(run);
    LossyMiddle(run);
    LossyEnd(run);
    assert LastShown(run) == Run(run).prev by {
      RunTold(run);
    }
    assert LastShown(run[..2]) == Run(run[..2]).prev by {
      RunTold(run[..2]);
    }
  }

  // ---- the reporter's maps --------------------------------------------------------------

  datatype Counters = Counters(rx: nat, tx: nat)

  const Zero: Counters := Counters(0, 0)

  /** The counters of a device peer and the time of its last handshake, if any. */
  datatype Reading = Reading(counters: Counters, handshake: Option<string>)

  /** A record waiting for a report. */
  datatype Pending = Pending(counters: Counters, handshake: Option<string>)

  const NoPending: Pending := Pending(Zero, None)

  /** What is kept of one peer. */
  datatype Entry = Entry(prev: Counters, pending: Option<Pending>, grew: bool)

  /** A reading with nothing to tell leaves the pending records alone; any other makes or extends
      one, be it with no more than a handshake time. */
  function Added(was: Option<Pending>, rx: nat, tx: nat, handshake: Option<string>): Option<Pending> {
    if rx == 0 && tx == 0 && handshake.None? then was
    else
      var p := was.Or(NoPending);
      Some(Pending(Counters(p.counters.rx + rx, p.counters.tx + tx),
                   if handshake.Some? then handshake else p.handshake))
  }

  function Read(e: Entry, r: Reading): Entry {
    var rx, tx := Delta(r.counters.rx, e.prev.rx), Delta(r.counters.tx, e.prev.tx);
    Entry(r.counters, Added(e.pending, rx, tx, r.handshake), e.grew || rx > 0)
  }

  function Reported(e: Entry, ok: bool): Entry {
    if ok then e.(pending := None) else e
  }

  /** The entry is what the meters of the two directions have of the peer. */
  ghost predicate Metered(e: Entry, rx: Meter, tx: Meter) {
    var p := e.pending.Or(NoPending);
    e.prev == Counters(rx.prev, tx.prev) && p.counters == Counters(rx.pending, tx.pending)
  }

  /** Reading a peer is the Collect step of both its meters, and a report the Report step. */
  lemma ReadIsCollect(e: Entry, rx: Meter, tx: Meter, r: Reading, ok: bool)
    requires Metered(e, rx, tx)
    ensures r.counters == Counters(rx.counter, tx.counter) ==>
              Metered(Read(e, r), Step(rx, Collect), Step(tx, Collect))
    ensures Metered(Reported(e, ok), Step(rx, Report(ok)), Step(tx, Report(ok)))
  {
  }

  /** The path checks hear of a peer exactly when its received bytes grew, whatever it was sent; a
      record waits for it once there is traffic in either direction or a handshake to tell of, and
      carries the latest handshake time. */
  lemma ReadTells(e: Entry, rx: Meter, tx: Meter, r: Reading)
    requires Metered(e, rx, tx) && r.counters == Counters(rx.counter, tx.counter)
    ensures var after := Read(e, r);
            var received, sent := Step(rx, Collect).pending > rx.pending, Step(tx, Collect).pending > tx.pending;
            && (after.grew <==> e.grew || received)
            && (after.pending.Some? <==> e.pending.Some? || received || sent || r.handshake.Some?)
            && after.pending.Or(NoPending).handshake ==
               if r.handshake.Some? then r.handshake else e.pending.Or(NoPending).handshake
  {
  }

  class LinkTelemetry {
    var prevLink: map<Key, Counters>
    var pendingCounters: map<Key, Pending>
    var pendingFlows: map<Flows.FlowKey, Flows.Counters>
    var inbound: set<Key>

    ghost function View(k: Key): Entry
      reads `prevLink, `pendingCounters, `inbound
    {
      Entry(if k in prevLink then prevLink[k] else Zero,
            if k in pendingCounters then Some(pendingCounters[k]) else None, k in inbound)
    }

    constructor ()
      ensures prevLink == map[] && pendingCounters == map[] && pendingFlows == map[] && inbound == {}
    {
      prevLink, pendingCounters, pendingFlows, inbound := map[], map[], map[], {};
    }

    method CollectPeer(k: Key, r: Reading)
      modifies `prevLink, `pendingCounters, `inbound
      ensures View(k) == Read(old(View(k)), r)
      ensures forall j :: j != k ==> View(j) == old(View(j))
    {
      var cur := r.counters;
      var prev := if k in prevLink then prevLink[k] else Zero;
      var deltaRx: int := cur.rx - prev.rx;
      var deltaTx: int := cur.tx - prev.tx;
      if deltaRx < 0 {
        deltaRx := cur.rx;
      }
      if deltaTx < 0 {
        deltaTx := cur.tx;
      }
      prevLink := prevLink[k := cur];
      if deltaRx > 0 {
        inbound := inbound + {k};
      }
      if deltaRx == 0 && deltaTx == 0 && r.handshake.None? {
        return;
      }
      var pending := if k in pendingCounters then pendingCounters[k] else NoPending;
      pending := pending.(counters := Counters(pending.counters.rx + deltaRx, pending.counters.tx + deltaTx));
      if r.handshake.Some? {
        pending := pending.(handshake := r.handshake);
      }
      pendingCounters := pendingCounters[k := pending];
    }

    /** Reads every peer of the device once. `inbound` collects the peers whose received bytes
        grew, for the path checks. */
    method CollectLinkCounters(device: map<Key, Reading>)
      modifies `prevLink, `pendingCounters, `inbound
      ensures forall k :: View(k) == if k in device then Read(old(View(k)), device[k]) else old(View(k))
    {
      var todo := device.Keys;
      while todo != {}
        invariant todo <= device.Keys
        invariant forall k :: View(k) == if k in device && k !in todo then Read(old(View(k)), device[k])
                                         else old(View(k))
      {
        var k :| k in todo;
        CollectPeer(k, device[k]);
        todo := todo - {k};
      }
    }

    /** Sends what is pending, counters and flows. A rejected report keeps all of it, an accepted
        one moves all of it to the control plane. */
    method Send(ok: bool) returns (counters: map<Key, Pending>, flows: map<Flows.FlowKey, Flows.Counters>)
      modifies `pendingCounters, `pendingFlows
      ensures counters == old(pendingCounters) && flows == old(pendingFlows)
      ensures pendingFlows == if ok then map[] else old(pendingFlows)
      ensures forall k :: View(k) == Reported(old(View(k)), ok)
    {
      counters, flows := pendingCounters, pendingFlows;
      if ok {
        pendingCounters, pendingFlows := map[], map[];
      }
    }
  }
}

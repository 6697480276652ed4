/** What the QUIC relay leg delivers over one sender session, when the network may lose,
    repeat and reorder frames and the full table may evict any assembly. */
module QuicRuns {

  import opened Wrappers
  import opened QuicRelay

  /** A frame that arrives: part k of datagram i. The victim is the assembly a full table
      would drop for it. */
  datatype Arrival = Arrival(i: nat, k: nat, victim: nat)

  /** Datagrams a session may carry: fewer than the ids available, each one buffer at most. */
  ghost predicate Session(sent: seq<Bytes>) {
    |sent| < ID_LIMIT && (forall d <- sent :: |d| <= MAX_DATAGRAM)
  }

  /** Ids count up from 1, so datagram i carries i + 1. */
  ghost predicate Genuine(sent: seq<Bytes>, a: Arrival) {
    a.i < |sent| && Sendable(sent[a.i]) && a.k < Count(|sent[a.i]|)
  }

  ghost function Part(sent: seq<Bytes>, a: Arrival): Fragment
    requires Session(sent) && Genuine(sent, a)
  {
    Fragment(a.k, Count(|sent[a.i]|), a.i + 1, Slice(sent[a.i], a.k))
  }

  datatype Written = Written(i: nat, packet: Bytes)

  datatype State = State(table: Table, log: seq<Written>)

  ghost function Arrive(sent: seq<Bytes>, s: State, a: Arrival): State
    requires Session(sent) && Genuine(sent, a)
  {
    var r := File(Admit(s.table, Part(sent, a), a.victim), Part(sent, a));
    State(r.0, if r.1.Some? then s.log + [Written(a.i, r.1.value)] else s.log)
  }

  /** An arrival is what the receiver does with the frame the sender made of the part. */
  lemma ArriveIsReceive(sent: seq<Bytes>, s: State, a: Arrival)
    requires Session(sent) && Genuine(sent, a)
    ensures var r := Receive(s.table, FrameOf(sent[a.i], a.i + 1, a.k), a.victim);
            Arrive(sent, s, a) == State(r.0, if r.1.Some? then s.log + [Written(a.i, r.1.value)] else s.log)
  {
    FrameRoundTrip(Part(sent, a));
  }

  ghost predicate AllGenuine(sent: seq<Bytes>, arrivals: seq<Arrival>) {
    Session(sent) && (forall a <- arrivals :: Genuine(sent, a))
  }

  ghost function Run(sent: seq<Bytes>, arrivals: seq<Arrival>): State
    requires AllGenuine(sent, arrivals)
  {
    if arrivals == [] then State(map[], [])
    else Arrive(sent, Run(sent, arrivals[..|arrivals| - 1]), arrivals[|arrivals| - 1])
  }

  // ---- filled slots ---------------------------------------------------------------------

  ghost function Filled(parts: seq<Bytes>): set<nat> {
    set k: nat | k < |parts| && parts[k] != []
  }

  ghost function Below(n: nat): (r: set<nat>)
    ensures |r| == n
    ensures forall k: nat :: k in r <==> k < n
  {
    if n == 0 then {} else Below(n - 1) + {n - 1}
  }

  lemma SubsetFull(a: set<nat>, b: set<nat>)
    requires a <= b && |a| == |b|
    ensures a == b
  {
    if a != b {
      var x :| x in b && x !in a;
      assert b - {x} >= a;
      SubsetSize(a, b - {x});
    }
  }

  lemma FilledSize(parts: seq<Bytes>)
    ensures |Filled(parts)| <= |parts|
    ensures |Filled(parts)| == |parts| ==> Filled(parts) == Below(|parts|)
  {
    SubsetSize(Filled(parts), Below(|parts|));
    if |Filled(parts)| == |parts| {
      SubsetFull(Filled(parts), Below(|parts|));
    }
  }

  // ---- slices make the datagram ---------------------------------------------------------

  lemma {:induction false} JoinSlices(d: Bytes, parts: seq<Bytes>)
    requires |parts| <= Count(|d|)
    requires forall k :: 0 <= k < |parts| ==> parts[k] == Slice(d, k)
    ensures Join(parts) == d[..Min(|parts| * FRAGMENT_PAYLOAD, |d|)]
  {
    if parts != [] {
      var m := |parts| - 1;
      JoinSlices(d, parts[..m]);
      assert Min(m * FRAGMENT_PAYLOAD, |d|) == m * FRAGMENT_PAYLOAD;
      assert parts[m] == Slice(d, m);
    }
  }

  /** Everything on an assembly came from its datagram, and it is not complete yet. */
  ghost predicate AssemblyOk(d: Bytes, a: Assembly) {
    && Sendable(d) && |a.parts| == Count(|d|)
    && (forall k :: 0 <= k < |a.parts| ==> a.parts[k] == [] || a.parts[k] == Slice(d, k))
    && a.seen == |Filled(a.parts)|
    && a.seen < Count(|d|)
  }

  ghost predicate EntryOk(sent: seq<Bytes>, id: nat, a: Assembly) {
    0 < id <= |sent| && AssemblyOk(sent[id - 1], a)
  }

  ghost predicate TableOk(sent: seq<Bytes>, t: Table) {
    |t| <= MAX_ASSEMBLIES && (forall id <- t :: EntryOk(sent, id, t[id]))
  }

  /** What filing a fresh part of an assembly does. */
  lemma FilePart(d: Bytes, a: Assembly, k: nat)
    requires AssemblyOk(d, a) && k < Count(|d|) && a.parts[k] == []
    ensures var b := Assembly(a.parts[k := Slice(d, k)], a.seen + 1);
            && Filled(b.parts) == Filled(a.parts) + {k}
            && (b.seen < Count(|d|) ==> AssemblyOk(d, b))
            && (b.seen == Count(|d|) ==> Join(b.parts) == d)
            && b.seen <= Count(|d|)
  {
    var parts := a.parts[k := Slice(d, k)];
    assert Filled(parts) == Filled(a.parts) + {k};
    FilledSize(parts);
    if a.seen + 1 == Count(|d|) {
      forall j | 0 <= j < |parts| ensures parts[j] == Slice(d, j) {
        assert j in Below(|parts|);
      }
      JoinSlices(d, parts);
    }
  }

  lemma BlankOk(d: Bytes)
    requires Sendable(d)
    ensures AssemblyOk(d, Assembly(seq(Count(|d|), _ => []), 0))
    ensures Filled(seq(Count(|d|), _ => [])) == {}
  {
    var parts: seq<Bytes> := seq(Count(|d|), _ => []);
    assert Filled(parts) == {};
  }

  lemma Remove(sent: seq<Bytes>, t: Table, id: nat)
    requires TableOk(sent, t) && id in t
    ensures TableOk(sent, t - {id}) && |t - {id}| < |t|
  {
    assert (t - {id}).Keys == t.Keys - {id};
  }

  lemma Put(sent: seq<Bytes>, t: Table, id: nat, a: Assembly)
    requires TableOk(sent, t) && EntryOk(sent, id, a) && (id in t || |t| < MAX_ASSEMBLIES)
    ensures TableOk(sent, t[id := a])
  {
    assert (t[id := a]).Keys == t.Keys + {id};
  }

  lemma AdmitOk(sent: seq<Bytes>, t: Table, f: Fragment, victim: nat)
    requires TableOk(sent, t) && 0 < f.id <= |sent| && Sendable(sent[f.id - 1]) && f.count == Count(|sent[f.id - 1]|)
    ensures TableOk(sent, Admit(t, f, victim))
  {
    var blank := Assembly(seq(f.count, _ => []), 0);
    assert EntryOk(sent, f.id, blank) by {
      BlankOk(sent[f.id - 1]);
    }
    if f.id !in t {
      if |t| >= MAX_ASSEMBLIES {
        Remove(sent, t, AnyOf(t, victim));
        Put(sent, t - {AnyOf(t, victim)}, f.id, blank);
      } else {
        Put(sent, t, f.id, blank);
      }
    }
  }

  /** The fragment is part k of datagram d. */
  ghost predicate PartOf(d: Bytes, f: Fragment) {
    && Sendable(d) && |d| <= MAX_DATAGRAM
    && f.count == Count(|d|) && f.index < f.count && f.payload == Slice(d, f.index)
  }

  /** Filing a part leaves the table, or advances the assembly, or completes the datagram. */
  lemma FileEntry(d: Bytes, t: Table, f: Fragment)
    requires f.id in t && AssemblyOk(d, t[f.id]) && PartOf(d, f)
    ensures var r := File(t, f);
            || r == (t, None)
            || (r.1.None? && f.id in r.0 && r.0 == t[f.id := r.0[f.id]] && AssemblyOk(d, r.0[f.id]))
            || r == (t - {f.id}, Some(d))
  {
    if t[f.id].parts[f.index] == [] {
      FilePart(d, t[f.id], f.index);
    }
  }

  lemma FileOk(sent: seq<Bytes>, t: Table, f: Fragment)
    requires TableOk(sent, t) && f.id in t && PartOf(sent[f.id - 1], f)
    ensures var r := File(t, f);
            TableOk(sent, r.0) && (r.1.Some? ==> r.1.value == sent[f.id - 1])
  {
    assert EntryOk(sent, f.id, t[f.id]);
    FileEntry(sent[f.id - 1], t, f);
    Remove(sent, t, f.id);
    var r := File(t, f);
    if f.id in r.0 {
      Put(sent, t, f.id, r.0[f.id]);
    }
  }

  lemma ArriveOk(sent: seq<Bytes>, s: State, a: Arrival)
    requires Session(sent) && Genuine(sent, a) && TableOk(sent, s.table)
    ensures TableOk(sent, Arrive(sent, s, a).table)
    ensures var log := Arrive(sent, s, a).log; log == s.log || log == s.log + [Written(a.i, sent[a.i])]
  {
    AdmitOk(sent, s.table, Part(sent, a), a.victim);
    FileOk(sent, Admit(s.table, Part(sent, a), a.victim), Part(sent, a));
  }

  /** Under any loss, duplication, reordering and eviction, every datagram written out is one
      that was sent, and the table holds at most 64 assemblies. */
  lemma {:induction false} OnlySentIsWritten(sent: seq<Bytes>, arrivals: seq<Arrival>)
    requires AllGenuine(sent, arrivals)
    ensures TableOk(sent, Run(sent, arrivals).table)
    ensures |Run(sent, arrivals).table| <= MAX_ASSEMBLIES
    ensures forall w <- Run(sent, arrivals).log :: w.i < |sent| && w.packet == sent[w.i]
  {
    if arrivals != [] {
      var n := |arrivals| - 1;
      OnlySentIsWritten(sent, arrivals[..n]);
      ArriveOk(sent, Run(sent, arrivals[..n]), arrivals[n]);
    }
  }

  // ---- exactly once ---------------------------------------------------------------------

  /** The parts of datagram i that have arrived. */
  ghost function Arrived(arrivals: seq<Arrival>, i: nat): set<nat> {
    if arrivals == [] then {}
    else
      var n := |arrivals| - 1;
      Arrived(arrivals[..n], i) + if arrivals[n].i == i then {arrivals[n].k} else {}
  }

  ghost function Writes(log: seq<Written>, i: nat): nat {
    if log == [] then 0
    else Writes(log[..|log| - 1], i) + if log[|log| - 1].i == i then 1 else 0
  }

  ghost predicate NoRepeat(arrivals: seq<Arrival>, i: nat) {
    forall p, q :: 0 <= p < q < |arrivals| && arrivals[p].i == i && arrivals[q].i == i ==>
                     arrivals[p].k != arrivals[q].k
  }

  ghost predicate Evicts(t: Table, a: Arrival, id: nat) {
    a.i + 1 !in t && |t| >= MAX_ASSEMBLIES && AnyOf(t, a.victim) == id
  }

  /** No arrival of the run makes the table drop the assembly of datagram i. */
  ghost predicate NeverEvicted(sent: seq<Bytes>, arrivals: seq<Arrival>, i: nat)
    requires AllGenuine(sent, arrivals)
  {
    forall n :: 0 <= n < |arrivals| ==> !Evicts(Run(sent, arrivals[..n]).table, arrivals[n], i + 1)
  }

  /** While parts are missing nothing of i is written and its assembly holds just the parts
      that came; once all came it was written once and is gone. */
  ghost predicate Progress(sent: seq<Bytes>, s: State, came: set<nat>, i: nat)
    requires i < |sent|
  {
    if |came| == Count(|sent[i]|) then i + 1 !in s.table && Writes(s.log, i) == 1
    else
      && Writes(s.log, i) == 0
      && (i + 1 in s.table <==> came != {})
      && (i + 1 in s.table ==> Filled(s.table[i + 1].parts) == came)
  }

  lemma {:induction false} ArrivedBelow(sent: seq<Bytes>, arrivals: seq<Arrival>, i: nat)
    requires AllGenuine(sent, arrivals) && i < |sent|
    ensures Arrived(arrivals, i) <= Below(Count(|sent[i]|))
    ensures forall k <- Arrived(arrivals, i) ::
              exists p :: 0 <= p < |arrivals| && arrivals[p].i == i && arrivals[p].k == k
  {
    if arrivals != [] {
      var n := |arrivals| - 1;
      ArrivedBelow(sent, arrivals[..n], i);
      assert Genuine(sent, arrivals[n]);
      forall k <- Arrived(arrivals[..n], i)
        ensures exists p :: 0 <= p < |arrivals| && arrivals[p].i == i && arrivals[p].k == k {
        var p :| 0 <= p < n && arrivals[..n][p].i == i && arrivals[..n][p].k == k;
        assert arrivals[p].i == i;
      }
    }
  }

  lemma WritesOne(log: seq<Written>, w: Written, i: nat)
    ensures Writes(log + [w], i) == Writes(log, i) + if w.i == i then 1 else 0
  {
    assert (log + [w])[..|log|] == log;
  }

  /** An arrival leaves the other assemblies alone unless it evicts one. */
  lemma OthersUntouched(t: Table, f: Fragment, victim: nat, id: nat)
    requires id != f.id && f.index < f.count
    requires f.id !in t && |t| >= MAX_ASSEMBLIES ==> AnyOf(t, victim) != id
    ensures var u := File(Admit(t, f, victim), f).0;
            (id in u <==> id in t) && (id in u ==> u[id] == t[id])
  {
  }

  lemma OtherKeepsProgress(sent: seq<Bytes>, s: State, a: Arrival, came: set<nat>, i: nat)
    requires Session(sent) && Genuine(sent, a) && TableOk(sent, s.table) && i < |sent| && a.i != i
    requires Progress(sent, s, came, i) && !Evicts(s.table, a, i + 1)
    ensures Progress(sent, Arrive(sent, s, a), came, i)
  {
    OtherWritesNone(sent, s, a, i);
    OthersUntouched(s.table, Part(sent, a), a.victim, i + 1);
    SameProgress(sent, s, Arrive(sent, s, a), came, i);
  }

  lemma OtherWritesNone(sent: seq<Bytes>, s: State, a: Arrival, i: nat)
    requires Session(sent) && Genuine(sent, a) && TableOk(sent, s.table) && i < |sent| && a.i != i
    ensures Writes(Arrive(sent, s, a).log, i) == Writes(s.log, i)
  {
    ArriveOk(sent, s, a);
    WritesOne(s.log, Written(a.i, sent[a.i]), i);
  }

  lemma SameProgress(sent: seq<Bytes>, s: State, s': State, came: set<nat>, i: nat)
    requires i < |sent| && Progress(sent, s, came, i) && Writes(s'.log, i) == Writes(s.log, i)
    requires (i + 1 in s'.table <==> i + 1 in s.table) && (i + 1 in s'.table ==> s'.table[i + 1] == s.table[i + 1])
    ensures Progress(sent, s', came, i)
  {
  }

  /** The assembly of a part just admitted holds exactly what came before. */
  lemma AdmittedSlot(sent: seq<Bytes>, s: State, a: Arrival, came: set<nat>)
    requires Session(sent) && Genuine(sent, a) && TableOk(sent, s.table)
    requires |came| < Count(|sent[a.i]|) && Progress(sent, s, came, a.i) && a.k !in came
    ensures var t := Admit(s.table, Part(sent, a), a.victim);
            && a.i + 1 in t && AssemblyOk(sent[a.i], t[a.i + 1])
            && Filled(t[a.i + 1].parts) == came && t[a.i + 1].parts[a.k] == []
  {
    if a.i + 1 in s.table {
      var asm := s.table[a.i + 1];
      assert EntryOk(sent, a.i + 1, asm);
      assert a.k in Filled(asm.parts) <==> asm.parts[a.k] != [];
    } else {
      BlankOk(sent[a.i]);
    }
  }

  /** Filing a missing part: the last one completes the datagram, any other just joins. */
  lemma FileSlot(d: Bytes, t: Table, f: Fragment, came: set<nat>)
    requires f.id in t && AssemblyOk(d, t[f.id]) && PartOf(d, f)
    requires Filled(t[f.id].parts) == came && t[f.id].parts[f.index] == []
    ensures var r := File(t, f);
            if |came + {f.index as nat}| == Count(|d|) then f.id !in r.0 && r.1 == Some(d)
            else f.id in r.0 && r.1.None? && Filled(r.0[f.id].parts) == came + {f.index as nat}
  {
    FilePart(d, t[f.id], f.index);
    assert f.index as nat !in came;
  }

  /** What a part that had not come yet does to the table and to the output. */
  ghost predicate Filed(d: Bytes, t: Table, out: Option<Bytes>, id: nat, came: set<nat>) {
    if |came| == Count(|d|) then id !in t && out == Some(d)
    else id in t && out.None? && Filled(t[id].parts) == came
  }

  lemma PartIsFiled(sent: seq<Bytes>, s: State, a: Arrival, came: set<nat>)
    requires Session(sent) && Genuine(sent, a) && TableOk(sent, s.table)
    requires |came| < Count(|sent[a.i]|) && a.k !in came && Progress(sent, s, came, a.i)
    ensures var f := Part(sent, a);
            var r := File(Admit(s.table, f, a.victim), f);
            Filed(sent[a.i], r.0, r.1, a.i + 1, came + {a.k})
  {
    var f := Part(sent, a);
    AdmittedSlot(sent, s, a, came);
    FileSlot(sent[a.i], Admit(s.table, f, a.victim), f, came);
  }

  lemma PartMakesProgress(sent: seq<Bytes>, s: State, a: Arrival, came: set<nat>)
    requires Session(sent) && Genuine(sent, a) && TableOk(sent, s.table)
    requires came <= Below(Count(|sent[a.i]|)) && a.k !in came
    requires Progress(sent, s, came, a.i)
    ensures Progress(sent, Arrive(sent, s, a), came + {a.k}, a.i)
  {
    assert |came| < Count(|sent[a.i]|) by {
      SubsetSize(came + {a.k}, Below(Count(|sent[a.i]|)));
    }
    PartIsFiled(sent, s, a, came);
    WritesOne(s.log, Written(a.i, sent[a.i]), a.i);
  }

  /** What holds of a run's repeats and evictions holds of the run without its last arrival. */
  lemma ShorterRun(sent: seq<Bytes>, arrivals: seq<Arrival>, i: nat)
    requires AllGenuine(sent, arrivals) && arrivals != []
    requires NoRepeat(arrivals, i) && NeverEvicted(sent, arrivals, i)
    ensures NoRepeat(arrivals[..|arrivals| - 1], i) && NeverEvicted(sent, arrivals[..|arrivals| - 1], i)
  {
    var n := |arrivals| - 1;
    forall m | 0 <= m < n ensures !Evicts(Run(sent, arrivals[..n][..m]).table, arrivals[m], i + 1) {
      assert arrivals[..n][..m] == arrivals[..m];
    }
  }

  lemma FreshPart(sent: seq<Bytes>, arrivals: seq<Arrival>, i: nat)
    requires AllGenuine(sent, arrivals) && arrivals != [] && i < |sent| && NoRepeat(arrivals, i)
    requires arrivals[|arrivals| - 1].i == i
    ensures arrivals[|arrivals| - 1].k !in Arrived(arrivals[..|arrivals| - 1], i)
  {
    ArrivedBelow(sent, arrivals[..|arrivals| - 1], i);
  }

  lemma {:induction false} ProgressHolds(sent: seq<Bytes>, arrivals: seq<Arrival>, i: nat)
    requires AllGenuine(sent, arrivals) && i < |sent| && Sendable(sent[i])
    requires NoRepeat(arrivals, i) && NeverEvicted(sent, arrivals, i)
    ensures Progress(sent, Run(sent, arrivals), Arrived(arrivals, i), i)
  {
    if arrivals != [] {
      var n := |arrivals| - 1;
      var before, s := arrivals[..n], Run(sent, arrivals[..n]);
      ShorterRun(sent, arrivals, i);
      ProgressHolds(sent, before, i);
      OnlySentIsWritten(sent, before);
      if arrivals[n].i == i {
        ArrivedBelow(sent, before, i);
        FreshPart(sent, arrivals, i);
        PartMakesProgress(sent, s, arrivals[n], Arrived(before, i));
      } else {
        OtherKeepsProgress(sent, s, arrivals[n], Arrived(before, i), i);
      }
    }
  }

  /** A datagram whose parts each arrive once, in whatever order and among whatever other
      traffic, and whose assembly is never evicted, is written out exactly once. */
  lemma DeliveredOnce(sent: seq<Bytes>, arrivals: seq<Arrival>, i: nat)
    requires AllGenuine(sent, arrivals) && i < |sent| && 0 < |sent[i]|
    requires NoRepeat(arrivals, i) && NeverEvicted(sent, arrivals, i)
    requires Arrived(arrivals, i) == Below(Count(|sent[i]|))
    ensures Writes(Run(sent, arrivals).log, i) == 1
    ensures forall w <- Run(sent, arrivals).log :: w.i == i ==> w.packet == sent[i]
  {
    assert |sent[i]| <= MAX_DATAGRAM;
    ProgressHolds(sent, arrivals, i);
    OnlySentIsWritten(sent, arrivals);
  }
}

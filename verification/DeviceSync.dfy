/** Reconciling the WireGuard device with the control plane's peer list (cmd/agent/sync.go).
    The device is a cryptokey-routing table: a prefix routes to one peer, and assigning it to
    a peer takes it from whichever peer had it. */
module DeviceSync {

  import opened Wrappers
  import opened Keys

  type Prefix = string
  type Endpoint = string

  /** What the device keeps of a peer beside its routes; a zero preshared key is "". */
  datatype PeerState = PeerState(psk: Key, keepalive: int, endpoint: Option<Endpoint>, handshaken: bool)

  datatype Device = Device(peers: map<Key, PeerState>, routes: map<Prefix, Key>)

  datatype PeerConfig = PeerConfig(
    key: Key, remove: bool, updateOnly: bool, psk: Option<Key>, endpoint: Option<Endpoint>,
    keepalive: Option<int>, replaceAllowed: bool, allowed: seq<Prefix>)

  function ToSet(s: seq<Prefix>): set<Prefix> {
    set p | p in s
  }

  ghost predicate NoDup(s: seq<Prefix>) {
    forall i, j :: 0 <= i < j < |s| ==> s[i] != s[j]
  }

  /** The prefixes routed to a peer. */
  function Owned(d: Device, k: Key): set<Prefix> {
    set p | p in d.routes && d.routes[p] == k
  }

  /** Routes lead to peers the device has. */
  ghost predicate WellFormed(d: Device) {
    forall p <- d.routes :: d.routes[p] in d.peers
  }

  // ---- the device -----------------------------------------------------------------------

  function Assign(routes: map<Prefix, Key>, allowed: seq<Prefix>, k: Key): map<Prefix, Key> {
    map p | p in routes.Keys + ToSet(allowed) :: if p in allowed then k else routes[p]
  }

  function Unroute(routes: map<Prefix, Key>, k: Key): map<Prefix, Key> {
    map p | p in routes && routes[p] != k :: routes[p]
  }

  const FreshPeer: PeerState := PeerState("", 0, None, false)

  function Merge(cur: PeerState, c: PeerConfig): PeerState {
    PeerState(c.psk.Or(cur.psk), c.keepalive.Or(cur.keepalive),
              if c.endpoint.Some? then c.endpoint else cur.endpoint, cur.handshaken)
  }

  /** One entry of a device configuration, as WireGuard applies it. */
  function Configure(d: Device, c: PeerConfig): Device {
    if c.remove then Device(d.peers - {c.key}, Unroute(d.routes, c.key))
    else if c.updateOnly && c.key !in d.peers then d
    else
      var cur := if c.key in d.peers then d.peers[c.key] else FreshPeer;
      var routes := if c.replaceAllowed then Unroute(d.routes, c.key) else d.routes;
      Device(d.peers[c.key := Merge(cur, c)], Assign(routes, c.allowed, c.key))
  }

  function ConfigureAll(d: Device, changes: seq<PeerConfig>): Device {
    if changes == [] then d
    else Configure(ConfigureAll(d, changes[..|changes| - 1]), changes[|changes| - 1])
  }

  // ---- what needs changing --------------------------------------------------------------

  /** The lists are compared as sorted text, that is as multisets. */
  predicate SameAllowedIPs(a: seq<Prefix>, b: seq<Prefix>) {
    |a| == |b| && multiset(a) == multiset(b)
  }

  predicate NeedsUpdate(cur: PeerState, list: seq<Prefix>, want: PeerConfig) {
    || !SameAllowedIPs(list, want.allowed)
    || cur.psk != want.psk.Or("")
    || (want.keepalive.Some? && cur.keepalive != want.keepalive.value)
  }

  predicate EndpointStale(cur: PeerState, want: PeerConfig) {
    !cur.handshaken && want.endpoint.Some? && cur.endpoint != want.endpoint
  }

  /** The update sent for a peer the device has. */
  function Update(cur: PeerState, want: PeerConfig): PeerConfig {
    want.(updateOnly := true, replaceAllowed := true,
          endpoint := if EndpointStale(cur, want) then want.endpoint else None)
  }

  function Removal(k: Key): PeerConfig {
    PeerConfig(k, true, false, None, None, None, false, [])
  }

  function ByKey(desired: seq<PeerConfig>): map<Key, PeerConfig> {
    if desired == [] then map[]
    else ByKey(desired[..|desired| - 1])[desired[|desired| - 1].key := desired[|desired| - 1]]
  }

  ghost predicate Keyed(desired: map<Key, PeerConfig>) {
    forall k <- desired :: desired[k].key == k
  }

  lemma {:induction false} ByKeyKeyed(desired: seq<PeerConfig>)
    ensures Keyed(ByKey(desired))
  {
    if desired != [] {
      ByKeyKeyed(desired[..|desired| - 1]);
    }
  }

  /** Entries of the control plane: plain additions. */
  ghost predicate Plain(desired: map<Key, PeerConfig>) {
    && Keyed(desired)
    && forall k <- desired :: !desired[k].remove && !desired[k].updateOnly && !desired[k].replaceAllowed
  }

  /** No two desired peers share a prefix. */
  ghost predicate Exclusive(desired: map<Key, PeerConfig>) {
    forall j, k, p :: j in desired && k in desired && p in desired[j].allowed && p in desired[k].allowed ==> j == k
  }

  ghost predicate Listed(d: Device, lists: map<Key, seq<Prefix>>) {
    forall k <- d.peers :: k in lists && multiset(lists[k]) == multiset(Owned(d, k))
  }

  /** Whether the device's entry for a desired peer is left alone. */
  ghost predicate Kept(d: Device, lists: map<Key, seq<Prefix>>, desired: map<Key, PeerConfig>, k: Key)
    requires Listed(d, lists)
  {
    k in desired && k in d.peers
    && !NeedsUpdate(d.peers[k], lists[k], desired[k]) && !EndpointStale(d.peers[k], desired[k])
  }

  /** The change a peer calls for. */
  ghost function Change(d: Device, desired: map<Key, PeerConfig>, k: Key): PeerConfig {
    if k !in desired then Removal(k)
    else if k !in d.peers then desired[k]
    else Update(d.peers[k], desired[k])
  }

  /** The list holds, once each and in whatever order, the changes that the keys looked at so
      far call for, and nothing else. */
  ghost predicate Covers(d: Device, lists: map<Key, seq<Prefix>>, desired: map<Key, PeerConfig>,
                         changes: seq<PeerConfig>, seen: set<Key>)
    requires Listed(d, lists)
  {
    && (forall i, j :: 0 <= i < j < |changes| ==> changes[i].key != changes[j].key)
    && (forall c <- changes :: c.key in seen && c == Change(d, desired, c.key) && !Kept(d, lists, desired, c.key))
    && (forall k <- seen :: Kept(d, lists, desired, k) || Change(d, desired, k) in changes)
  }

  /** The change list of a sync. */
  ghost predicate IsDiff(d: Device, lists: map<Key, seq<Prefix>>, desired: map<Key, PeerConfig>,
                         changes: seq<PeerConfig>)
    requires Listed(d, lists)
  {
    Covers(d, lists, desired, changes, d.peers.Keys + desired.Keys)
  }

  lemma CoverOne(d: Device, lists: map<Key, seq<Prefix>>, desired: map<Key, PeerConfig>,
                 changes: seq<PeerConfig>, seen: set<Key>, k: Key)
    requires Listed(d, lists) && Keyed(desired) && Covers(d, lists, desired, changes, seen) && k !in seen
    ensures if Kept(d, lists, desired, k) then Covers(d, lists, desired, changes, seen + {k})
            else Covers(d, lists, desired, changes + [Change(d, desired, k)], seen + {k})
  {
    assert Change(d, desired, k).key == k;
  }

  method IndexByKey(desired: seq<PeerConfig>) returns (byKey: map<Key, PeerConfig>)
    ensures byKey == ByKey(desired)
  {
    byKey := map[];
    for i := 0 to |desired|
      invariant byKey == ByKey(desired[..i])
    {
      byKey := byKey[desired[i].key := desired[i]];
      assert desired[..i + 1][..i] == desired[..i];
    }
    assert desired[..|desired|] == desired;
  }

  method Removals(d: Device, lists: map<Key, seq<Prefix>>, byKey: map<Key, PeerConfig>)
    returns (changes: seq<PeerConfig>)
    requires Listed(d, lists) && Keyed(byKey)
    ensures Covers(d, lists, byKey, changes, d.peers.Keys - byKey.Keys)
  {
    changes := [];
    var todo := d.peers.Keys;
    while todo != {}
      invariant todo <= d.peers.Keys
      invariant Covers(d, lists, byKey, changes, d.peers.Keys - byKey.Keys - todo)
    {
      var k :| k in todo;
      ghost var seen := d.peers.Keys - byKey.Keys - todo;
      if k !in byKey {
        CoverOne(d, lists, byKey, changes, seen, k);
        changes := changes + [Removal(k)];
      }
      todo := todo - {k};
      assert d.peers.Keys - byKey.Keys - todo == if k !in byKey then seen + {k} else seen;
    }
    assert d.peers.Keys - byKey.Keys - {} == d.peers.Keys - byKey.Keys;
  }

  method SyncPeers(d: Device, lists: map<Key, seq<Prefix>>, desired: seq<PeerConfig>)
    returns (changes: seq<PeerConfig>)
    requires Listed(d, lists)
    ensures IsDiff(d, lists, ByKey(desired), changes)
  {
    ByKeyKeyed(desired);
    var byKey := IndexByKey(desired);
    changes := Removals(d, lists, byKey);

    ghost var all := d.peers.Keys + byKey.Keys;
    var todo := byKey.Keys;
    assert all - todo == d.peers.Keys - byKey.Keys;
    while todo != {}
      invariant todo <= byKey.Keys
      invariant Covers(d, lists, byKey, changes, all - todo)
    {
      var k :| k in todo;
      CoverOne(d, lists, byKey, changes, all - todo, k);
      var want := byKey[k];
      if k !in d.peers {
        changes := changes + [want];
      } else {
        var cur := d.peers[k];
        var fieldsChanged := NeedsUpdate(cur, lists[k], want);
        var endpointStale := EndpointStale(cur, want);
        if fieldsChanged || endpointStale {
          var update := want.(updateOnly := true, replaceAllowed := true);
          if !endpointStale {
            update := update.(endpoint := None);
          }
          changes := changes + [update];
        }
      }
      assert all - (todo - {k}) == all - todo + {k};
      todo := todo - {k};
    }
    assert all - {} == all;
  }

  // ---- what a sync leaves behind --------------------------------------------------------

  /** The state a desired peer ends up in. */
  ghost function Goal(d: Device, want: PeerConfig): PeerState {
    if want.key in d.peers then Merge(d.peers[want.key], Update(d.peers[want.key], want))
    else Merge(FreshPeer, want)
  }

  /** Key k is as the sync wants it: gone, or in its goal state with just its prefixes. */
  ghost predicate Done(d: Device, desired: map<Key, PeerConfig>, x: Device, k: Key) {
    if k in desired then
      k in x.peers && x.peers[k] == Goal(d, desired[k]) && Owned(x, k) == ToSet(desired[k].allowed)
    else k !in x.peers && Owned(x, k) == {}
  }

  /** Key k's own change has not been applied yet. */
  ghost predicate Untouched(d: Device, x: Device, k: Key) {
    && (k in x.peers <==> k in d.peers)
    && (k in d.peers ==> x.peers[k] == d.peers[k])
    && (k !in d.peers ==> Owned(x, k) == {})
  }

  lemma SetOfMultiset(list: seq<Prefix>, owned: set<Prefix>)
    requires multiset(list) == multiset(owned)
    ensures ToSet(list) == owned
  {
    forall p ensures p in ToSet(list) <==> p in owned {
      assert p in list <==> p in multiset(list);
      assert p in owned <==> p in multiset(owned);
    }
  }

  lemma KeptIsDone(d: Device, lists: map<Key, seq<Prefix>>, desired: map<Key, PeerConfig>, k: Key)
    requires Listed(d, lists) && Plain(desired) && Kept(d, lists, desired, k)
    ensures Done(d, desired, d, k)
  {
    SetOfMultiset(lists[k], Owned(d, k));
    SetOfMultiset(desired[k].allowed, Owned(d, k));
  }

  lemma RoutesAfter(x: Device, c: PeerConfig, j: Key)
    requires !c.remove && (c.updateOnly ==> c.key in x.peers)
    ensures Owned(Configure(x, c), j) ==
            if j == c.key then (if c.replaceAllowed then {} else Owned(x, j)) + ToSet(c.allowed)
            else Owned(x, j) - ToSet(c.allowed)
  {
  }

  lemma RoutesAfterRemoval(x: Device, k: Key, j: Key)
    ensures Owned(Configure(x, Removal(k)), j) == if j == k then {} else Owned(x, j)
  {
  }

  /** Applying a peer's change finishes the peer. */
  lemma ChangeFinishes(d: Device, desired: map<Key, PeerConfig>, x: Device, k: Key)
    requires Plain(desired) && Untouched(d, x, k)
    ensures Done(d, desired, Configure(x, Change(d, desired, k)), k)
  {
    var c := Change(d, desired, k);
    if k in desired {
      RoutesAfter(x, c, k);
    } else {
      RoutesAfterRemoval(x, k, k);
    }
  }

  /** It disturbs no finished peer, and starts on no other. */
  lemma ChangeSpares(d: Device, desired: map<Key, PeerConfig>, x: Device, k: Key, j: Key)
    requires Plain(desired) && Exclusive(desired) && Untouched(d, x, k) && j != k
    ensures Done(d, desired, x, j) ==> Done(d, desired, Configure(x, Change(d, desired, k)), j)
    ensures Untouched(d, x, j) ==> Untouched(d, Configure(x, Change(d, desired, k)), j)
  {
    var c := Change(d, desired, k);
    if k in desired {
      RoutesAfter(x, c, j);
    } else {
      RoutesAfterRemoval(x, k, j);
    }
  }

  /** After the first n changes: their keys are done, keys that call for no change are done,
      the others are untouched. */
  ghost predicate Partway(d: Device, lists: map<Key, seq<Prefix>>, desired: map<Key, PeerConfig>,
                          changes: seq<PeerConfig>, n: nat, x: Device)
    requires Listed(d, lists) && n <= |changes|
  {
    forall k :: if Pending(changes, n, k) then Untouched(d, x, k) else Done(d, desired, x, k)
  }

  ghost predicate Pending(changes: seq<PeerConfig>, n: nat, k: Key)
    requires n <= |changes|
  {
    exists c <- changes[n..] :: c.key == k
  }

  lemma PendingStep(changes: seq<PeerConfig>, n: nat)
    requires n < |changes| && (forall i, j :: 0 <= i < j < |changes| ==> changes[i].key != changes[j].key)
    ensures forall j :: Pending(changes, n, j) <==> Pending(changes, n + 1, j) || j == changes[n].key
    ensures !Pending(changes, n + 1, changes[n].key)
  {
    assert changes[n..] == [changes[n]] + changes[n + 1..];
  }

  lemma PartwayStart(d: Device, lists: map<Key, seq<Prefix>>, desired: map<Key, PeerConfig>, changes: seq<PeerConfig>)
    requires Listed(d, lists) && WellFormed(d) && Plain(desired) && IsDiff(d, lists, desired, changes)
    ensures Partway(d, lists, desired, changes, 0, d)
  {
    assert changes[0..] == changes;
    forall k | !Pending(changes, 0, k) ensures Done(d, desired, d, k) {
      if k in d.peers.Keys + desired.Keys {
        assert Change(d, desired, k).key == k;
        KeptIsDone(d, lists, desired, k);
      }
    }
    forall k | Pending(changes, 0, k) ensures Untouched(d, d, k) {
    }
  }

  lemma PartwayStep(d: Device, lists: map<Key, seq<Prefix>>, desired: map<Key, PeerConfig>, changes: seq<PeerConfig>,
                    n: nat, x: Device)
    requires Listed(d, lists) && Plain(desired) && Exclusive(desired) && IsDiff(d, lists, desired, changes)
    requires n < |changes| && Partway(d, lists, desired, changes, n, x)
    ensures Partway(d, lists, desired, changes, n + 1, Configure(x, changes[n]))
  {
    var c := changes[n];
    var k := c.key;
    assert c in changes;
    PendingStep(changes, n);
    forall j ensures if Pending(changes, n + 1, j) then Untouched(d, Configure(x, c), j)
                     else Done(d, desired, Configure(x, c), j) {
      if j == k {
        ChangeFinishes(d, desired, x, k);
      } else {
        ChangeSpares(d, desired, x, k, j);
      }
    }
  }

  lemma {:induction false} PartwayHolds(d: Device, lists: map<Key, seq<Prefix>>, desired: map<Key, PeerConfig>,
                                        changes: seq<PeerConfig>, n: nat)
    requires Listed(d, lists) && WellFormed(d) && Plain(desired) && Exclusive(desired)
    requires IsDiff(d, lists, desired, changes) && n <= |changes|
    ensures Partway(d, lists, desired, changes, n, ConfigureAll(d, changes[..n]))
  {
    if n == 0 {
      PartwayStart(d, lists, desired, changes);
    } else {
      PartwayHolds(d, lists, desired, changes, n - 1);
      assert changes[..n][..n - 1] == changes[..n - 1];
      PartwayStep(d, lists, desired, changes, n - 1, ConfigureAll(d, changes[..n - 1]));
    }
  }

  lemma AllDone(d: Device, lists: map<Key, seq<Prefix>>, desired: map<Key, PeerConfig>, changes: seq<PeerConfig>,
                k: Key)
    requires Listed(d, lists) && WellFormed(d) && Plain(desired) && Exclusive(desired)
    requires IsDiff(d, lists, desired, changes)
    ensures Done(d, desired, ConfigureAll(d, changes), k)
  {
    PartwayHolds(d, lists, desired, changes, |changes|);
    assert changes[..|changes|] == changes;
    assert !Pending(changes, |changes|, k);
  }

  /** A successful sync leaves exactly the desired peers, each with exactly its prefixes, its
      preshared key and its keepalive when one is asked for, and the endpoint asked for;
      whatever roaming made of the endpoint of a peer that has completed a handshake stays. */
  lemma SyncSettles(d: Device, lists: map<Key, seq<Prefix>>, desired: map<Key, PeerConfig>, changes: seq<PeerConfig>)
    requires Listed(d, lists) && WellFormed(d) && Plain(desired) && Exclusive(desired)
    requires IsDiff(d, lists, desired, changes)
    ensures ConfigureAll(d, changes).peers.Keys == desired.Keys
    ensures forall k <- desired :: AsDesired(d, desired[k], ConfigureAll(d, changes))
  {
    var x := ConfigureAll(d, changes);
    forall k ensures k in x.peers <==> k in desired {
      AllDone(d, lists, desired, changes, k);
    }
    assert x.peers.Keys == desired.Keys;
    forall k <- desired ensures AsDesired(d, desired[k], x) {
      AllDone(d, lists, desired, changes, k);
    }
  }

  /** The device x, reached from d, has the peer as the control plane wants it. What is not
      asked for stays; so does the endpoint of a peer that has completed a handshake, while
      any other peer takes the endpoint it is given. */
  ghost predicate AsDesired(d: Device, want: PeerConfig, x: Device) {
    && want.key in x.peers
    && Owned(x, want.key) == ToSet(want.allowed)
    && (if want.key !in d.peers then
          x.peers[want.key] == PeerState(want.psk.Or(""), want.keepalive.Or(0), want.endpoint, false)
        else
          var was := d.peers[want.key];
          x.peers[want.key] ==
          PeerState(want.psk.Or(was.psk), want.keepalive.Or(was.keepalive),
                    if was.handshaken || want.endpoint.None? then was.endpoint else want.endpoint,
                    was.handshaken))
  }

  /** A prefix routes to a peer after a sync exactly when that peer is desired with it. */
  lemma RoutesExactly(d: Device, lists: map<Key, seq<Prefix>>, desired: map<Key, PeerConfig>,
                      changes: seq<PeerConfig>, p: Prefix, k: Key)
    requires Listed(d, lists) && WellFormed(d) && Plain(desired) && Exclusive(desired)
    requires IsDiff(d, lists, desired, changes)
    ensures var x := ConfigureAll(d, changes);
            p in x.routes && x.routes[p] == k <==> k in desired && p in desired[k].allowed
  {
    var x := ConfigureAll(d, changes);
    AllDone(d, lists, desired, changes, k);
    assert p in Owned(x, k) <==> p in x.routes && x.routes[p] == k;
    assert k in desired ==> (p in ToSet(desired[k].allowed) <==> p in desired[k].allowed);
  }

  /** Whatever order the maps yield, the device ends up the same. */
  lemma OrderDoesNotMatter(d: Device, lists: map<Key, seq<Prefix>>, desired: map<Key, PeerConfig>,
                           changes: seq<PeerConfig>, others: seq<PeerConfig>)
    requires Listed(d, lists) && WellFormed(d) && Plain(desired) && Exclusive(desired)
    requires IsDiff(d, lists, desired, changes) && IsDiff(d, lists, desired, others)
    ensures ConfigureAll(d, changes) == ConfigureAll(d, others)
  {
    var x, y := ConfigureAll(d, changes), ConfigureAll(d, others);
    forall k ensures Done(d, desired, x, k) && Done(d, desired, y, k) {
      AllDone(d, lists, desired, changes, k);
      AllDone(d, lists, desired, others, k);
    }
    SamePeers(d, desired, x, y);
    SameRoutes(d, desired, x, y);
  }

  lemma SamePeers(d: Device, desired: map<Key, PeerConfig>, x: Device, y: Device)
    requires forall k :: Done(d, desired, x, k) && Done(d, desired, y, k)
    ensures x.peers == y.peers
  {
    forall k ensures k in x.peers <==> k in y.peers {
      assert Done(d, desired, x, k) && Done(d, desired, y, k);
    }
    forall k <- x.peers ensures x.peers[k] == y.peers[k] {
      assert Done(d, desired, x, k) && Done(d, desired, y, k);
    }
  }

  lemma SameRoutes(d: Device, desired: map<Key, PeerConfig>, x: Device, y: Device)
    requires forall k :: Done(d, desired, x, k) && Done(d, desired, y, k)
    ensures x.routes == y.routes
  {
    forall p ensures p in x.routes <==> p in y.routes {
      RouteCarries(d, desired, x, y, p);
      RouteCarries(d, desired, y, x, p);
    }
    forall p <- x.routes ensures x.routes[p] == y.routes[p] {
      RouteCarries(d, desired, x, y, p);
    }
  }

  lemma RouteCarries(d: Device, desired: map<Key, PeerConfig>, x: Device, y: Device, p: Prefix)
    requires forall k :: Done(d, desired, x, k) && Done(d, desired, y, k)
    ensures p in x.routes ==> p in y.routes && y.routes[p] == x.routes[p]
  {
    if p in x.routes {
      var k := x.routes[p];
      assert Done(d, desired, x, k) && Done(d, desired, y, k);
      assert p in Owned(x, k);
    }
  }

  // ---- when an immediate second sync changes nothing ------------------------------------

  lemma {:induction false} NoDupMultiset(s: seq<Prefix>)
    ensures NoDup(s) <==> multiset(s) == multiset(ToSet(s))
  {
    if s != [] {
      var n := |s| - 1;
      var t, p := s[..n], s[n];
      NoDupMultiset(t);
      assert s == t + [p];
      assert ToSet(s) == ToSet(t) + {p};
      if p in t {
        assert multiset(s)[p] >= 2;
      } else {
        assert multiset(ToSet(s)) == multiset(ToSet(t)) + multiset{p};
        if multiset(s) == multiset(ToSet(s)) {
          assert multiset(t) == multiset(s) - multiset{p};
        }
      }
    }
  }

  /** Nothing but the preshared key of an entry without one can differ after a sync. */
  ghost predicate PskSettled(d: Device, want: PeerConfig) {
    want.psk.Some? || want.key !in d.peers || d.peers[want.key].psk == ""
  }

  ghost predicate Repeatable(d: Device, desired: map<Key, PeerConfig>) {
    Exclusive(desired) && (forall k <- desired :: NoDup(desired[k].allowed) && PskSettled(d, desired[k]))
  }

  ghost predicate StateDone(d: Device, desired: map<Key, PeerConfig>, x: Device, k: Key) {
    if k in desired then k in x.peers && x.peers[k] == Goal(d, desired[k]) else k !in x.peers
  }

  ghost predicate StateUntouched(d: Device, x: Device, k: Key) {
    (k in x.peers <==> k in d.peers) && (k in d.peers ==> x.peers[k] == d.peers[k])
  }

  lemma KeptState(d: Device, lists: map<Key, seq<Prefix>>, desired: map<Key, PeerConfig>, k: Key)
    requires Listed(d, lists) && Plain(desired) && Kept(d, lists, desired, k)
    ensures StateDone(d, desired, d, k)
  {
  }

  lemma StateStep(d: Device, desired: map<Key, PeerConfig>, x: Device, k: Key, j: Key)
    requires Plain(desired) && StateUntouched(d, x, k)
    ensures var y := Configure(x, Change(d, desired, k));
            if j == k then StateDone(d, desired, y, k)
            else (j in y.peers <==> j in x.peers) && (j in y.peers ==> y.peers[j] == x.peers[j])
  {
  }

  ghost predicate StatesPartway(d: Device, desired: map<Key, PeerConfig>, changes: seq<PeerConfig>, n: nat, x: Device)
    requires n <= |changes|
  {
    forall k :: if Pending(changes, n, k) then StateUntouched(d, x, k) else StateDone(d, desired, x, k)
  }

  lemma StatesStep(d: Device, lists: map<Key, seq<Prefix>>, desired: map<Key, PeerConfig>, changes: seq<PeerConfig>,
                   n: nat, x: Device)
    requires Listed(d, lists) && Plain(desired) && IsDiff(d, lists, desired, changes)
    requires n < |changes| && StatesPartway(d, desired, changes, n, x)
    ensures StatesPartway(d, desired, changes, n + 1, Configure(x, changes[n]))
  {
    var c := changes[n];
    assert c in changes;
    PendingStep(changes, n);
    assert Pending(changes, n, c.key);
    forall j ensures if Pending(changes, n + 1, j) then StateUntouched(d, Configure(x, c), j)
                     else StateDone(d, desired, Configure(x, c), j)
    {
      assert Pending(changes, n, j) <==> Pending(changes, n + 1, j) || j == c.key;
      StateStep(d, desired, x, c.key, j);
    }
  }

  /** Keys, preshared keys, keepalives and endpoints come out right even when prefixes clash. */
  lemma {:induction false} StatesHold(d: Device, lists: map<Key, seq<Prefix>>, desired: map<Key, PeerConfig>,
                                      changes: seq<PeerConfig>, n: nat)
    requires Listed(d, lists) && Plain(desired) && IsDiff(d, lists, desired, changes) && n <= |changes|
    ensures StatesPartway(d, desired, changes, n, ConfigureAll(d, changes[..n]))
  {
    if n == 0 {
      assert changes[0..] == changes;
      forall k | !Pending(changes, 0, k) && k in d.peers.Keys + desired.Keys ensures StateDone(d, desired, d, k) {
        assert Change(d, desired, k).key == k;
        KeptState(d, lists, desired, k);
      }
    } else {
      StatesHold(d, lists, desired, changes, n - 1);
      assert changes[..n][..n - 1] == changes[..n - 1];
      StatesStep(d, lists, desired, changes, n - 1, ConfigureAll(d, changes[..n - 1]));
    }
  }

  lemma GoalIsStable(d: Device, want: PeerConfig)
    ensures want.keepalive.Some? ==> Goal(d, want).keepalive == want.keepalive.value
    ensures !EndpointStale(Goal(d, want), want)
    ensures Goal(d, want).psk == want.psk.Or("") <==> PskSettled(d, want)
  {
  }

  lemma ListsAgree(list: seq<Prefix>, owned: set<Prefix>, allowed: seq<Prefix>)
    requires multiset(list) == multiset(owned)
    ensures SameAllowedIPs(list, allowed) <==> NoDup(allowed) && ToSet(allowed) == owned
  {
    NoDupMultiset(allowed);
    if multiset(list) == multiset(allowed) {
      SetOfMultiset(allowed, owned);
      assert |multiset(list)| == |list| && |multiset(allowed)| == |allowed|;
    }
    if NoDup(allowed) && ToSet(allowed) == owned {
      assert |multiset(list)| == |list| && |multiset(allowed)| == |allowed|;
    }
  }

  /** An immediate second sync finds nothing to change exactly when no desired prefix occurs
      twice, in one entry or across entries, and every entry brings a preshared key or meets a
      peer that has none. */
  lemma SecondSyncEmpty(d: Device, lists: map<Key, seq<Prefix>>, desired: map<Key, PeerConfig>,
                        changes: seq<PeerConfig>, again: map<Key, seq<Prefix>>)
    requires Listed(d, lists) && WellFormed(d) && Plain(desired) && IsDiff(d, lists, desired, changes)
    requires Listed(ConfigureAll(d, changes), again)
    ensures IsDiff(ConfigureAll(d, changes), again, desired, []) <==> Repeatable(d, desired)
  {
    var x := ConfigureAll(d, changes);
    assert changes[..|changes|] == changes;
    StatesHold(d, lists, desired, changes, |changes|);
    forall k ensures StateDone(d, desired, x, k) {
      assert !Pending(changes, |changes|, k);
    }
    forall k <- desired
      ensures Kept(x, again, desired, k) <==>
                NoDup(desired[k].allowed) && PskSettled(d, desired[k]) && Owned(x, k) == ToSet(desired[k].allowed)
    {
      assert StateDone(d, desired, x, k);
      GoalIsStable(d, desired[k]);
      ListsAgree(again[k], Owned(x, k), desired[k].allowed);
    }
    if Repeatable(d, desired) {
      SyncSettles(d, lists, desired, changes);
    }
    if forall k <- desired :: Kept(x, again, desired, k) {
      OwnersExclude(x, desired);
    }
    EmptyDiff(x, again, desired);
  }

  lemma OwnersExclude(x: Device, desired: map<Key, PeerConfig>)
    requires forall k <- desired :: Owned(x, k) == ToSet(desired[k].allowed)
    ensures Exclusive(desired)
  {
    forall j, k, p | j in desired && k in desired && p in desired[j].allowed && p in desired[k].allowed ensures j == k {
      assert p in Owned(x, j) && p in Owned(x, k);
    }
  }

  lemma EmptyDiff(x: Device, lists: map<Key, seq<Prefix>>, desired: map<Key, PeerConfig>)
    requires Listed(x, lists)
    ensures IsDiff(x, lists, desired, []) <==>
            x.peers.Keys <= desired.Keys && (forall k <- desired :: Kept(x, lists, desired, k))
  {
  }
}

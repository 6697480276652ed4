/** From the store to the devices: what an agent's WireGuard device holds once it has applied
    the payload the control plane built from a reachable store state. */
module EndToEnd {

  import opened Wrappers
  import opened Keys
  import opened Store
  import opened PeerTable
  import opened Payload
  import D = DeviceSync

  /** Prefixes are printed one-to-one. */
  ghost predicate OneToOne(text: Text) {
    forall x, y :: text(x) == text(y) ==> x == y
  }

  /** How prefixes are printed. */
  type Text = Cidr -> D.Prefix

  /** The endpoint an agent takes from an entry, if any. */
  function Hint(e: Entry): Option<D.Endpoint> {
    var best := if e.candidates != [] then e.candidates[0] else e.endpoint.Or("");
    if best == "" then None else Some(best)
  }

  /** A payload entry as the agent hands it to the device. */
  function Config(text: Text, e: Entry): D.PeerConfig {
    D.PeerConfig(e.key, false, false, Some(e.psk), Hint(e), Some(e.keepalive), false,
                 seq(|e.allowed|, i requires 0 <= i < |e.allowed| => text(e.allowed[i])))
  }

  function Configs(text: Text, es: seq<Entry>): seq<D.PeerConfig> {
    if es == [] then []
    else Configs(text, es[..|es| - 1]) + [Config(text, es[|es| - 1])]
  }

  ghost predicate EntryKeysDiffer(es: seq<Entry>) {
    forall e, f :: e in es && f in es && e.key == f.key ==> e == f
  }

  lemma {:induction false} ByKeyOfConfigs(text: Text, es: seq<Entry>, k: Key)
    requires EntryKeysDiffer(es)
    ensures var m := D.ByKey(Configs(text, es));
            && (k in m ==> exists e :: e in es && e.key == k)
            && (forall e :: e in es && e.key == k ==> k in m && m[k] == Config(text, e))
  {
    if es != [] {
      var rest, last := es[..|es| - 1], es[|es| - 1];
      assert es == rest + [last];
      ByKeyOfConfigs(text, rest, k);
      var cs := Configs(text, rest);
      assert (cs + [Config(text, last)])[..|cs|] == cs;
      assert last in es;
    }
  }

  lemma ConfigAllows(text: Text, e: Entry, p: D.Prefix)
    ensures p in Config(text, e).allowed <==> exists x :: x in e.allowed && text(x) == p
  {
    var c := Config(text, e);
    if p in c.allowed {
      var i :| 0 <= i < |c.allowed| && c.allowed[i] == p;
      assert e.allowed[i] in e.allowed;
    }
    if x :| x in e.allowed && text(x) == p {
      var i :| 0 <= i < |e.allowed| && e.allowed[i] == x;
      assert c.allowed[i] == p;
    }
  }

  /** The payload of one agent and what reconciling its device with it means. */
  datatype Agent = Agent(db: Db, defaultAllow: bool, s: Server, self: Id, others: seq<Peer>,
                         text: Text)
  {
    ghost predicate Valid() {
      Ok(db.rows) && self in db.rows && IsView(db, defaultAllow, self, others) && OneToOne(text)
    }

    function Me(): Peer
      requires self in db.rows
    {
      Peer(self, db.rows[self])
    }

    function Entries(): seq<Entry>
      requires self in db.rows
    {
      Payload.Entries(s, Me(), others, |others|)
    }

    function Desired(): map<Key, D.PeerConfig>
      requires self in db.rows
    {
      D.ByKey(Configs(text, Entries()))
    }

    /** Some ordering of the changes that the device d calls for, applied. */
    ghost predicate Synced(d: D.Device, lists: map<Key, seq<D.Prefix>>, changes: seq<D.PeerConfig>)
      requires self in db.rows
    {
      D.Listed(d, lists) && D.WellFormed(d) && D.IsDiff(d, lists, Desired(), changes)
    }
  }

  lemma EntryOf(a: Agent, e: Entry) returns (o: Peer)
    requires a.Valid() && e in a.Entries()
    ensures o in a.others && Payload.Listed(a.Me(), o) && e == EntryFor(a.s, a.Me(), a.others, o)
  {
    EntriesAre(a.s, a.Me(), a.others, |a.others|, e);
    var i :| 0 <= i < |a.others| && Payload.Listed(a.Me(), a.others[i])
             && e == EntryFor(a.s, a.Me(), a.others, a.others[i]);
    o := a.others[i];
  }

  lemma PayloadKeysDiffer(a: Agent)
    requires a.Valid()
    ensures EntryKeysDiffer(a.Entries())
  {
    forall e, f | e in a.Entries() && f in a.Entries() && e.key == f.key
      ensures e == f
    {
      var o := EntryOf(a, e);
      var q := EntryOf(a, f);
      assert a.db.rows[o.id].key == a.db.rows[q.id].key;
      assert KeysDiffer(a.db.rows);
    }
  }

  /** Every payload is an admissible wish list: plain entries, no prefix wanted by two. */
  lemma PayloadAdmissible(a: Agent)
    requires a.Valid()
    ensures D.Plain(a.Desired()) && D.Exclusive(a.Desired())
  {
    PayloadKeysDiffer(a);
    ViewSound(a.db, a.defaultAllow, a.self, a.others);
    forall k | k in a.Desired()
      ensures exists e :: e in a.Entries() && e.key == k && a.Desired()[k] == Config(a.text, e)
    {
      ByKeyOfConfigs(a.text, a.Entries(), k);
      var e :| e in a.Entries() && e.key == k;
    }
    forall j, k, p | j in a.Desired() && k in a.Desired() && p in a.Desired()[j].allowed && p in a.Desired()[k].allowed
      ensures j == k
    {
      var e :| e in a.Entries() && e.key == j && a.Desired()[j] == Config(a.text, e);
      var f :| f in a.Entries() && f.key == k && a.Desired()[k] == Config(a.text, f);
      SharedPrefix(a, e, f, p);
    }
  }

  lemma SharedPrefix(a: Agent, e: Entry, f: Entry, p: D.Prefix)
    requires a.Valid() && e in a.Entries() && f in a.Entries()
    requires p in Config(a.text, e).allowed && p in Config(a.text, f).allowed
    ensures e == f
  {
    ConfigAllows(a.text, e, p);
    ConfigAllows(a.text, f, p);
    var x :| x in e.allowed && a.text(x) == p;
    var y :| y in f.allowed && a.text(y) == p;
    assert x == y;
    var o := EntryOf(a, e);
    var q := EntryOf(a, f);
    ViewSound(a.db, a.defaultAllow, a.self, a.others);
    EntriesDisjoint(a.Me(), a.others, o, q, x);
  }

  /** After a sync the device has exactly the peers of the payload, each routed its
      prefixes and holding its preshared key and keepalive; a peer that has not completed a
      handshake is aimed at its best candidate, any other stays where it roamed to. */
  lemma DeviceMatches(a: Agent, d: D.Device, lists: map<Key, seq<D.Prefix>>, changes: seq<D.PeerConfig>, e: Entry)
    requires a.Valid() && a.Synced(d, lists, changes) && e in a.Entries()
    ensures var x := D.ConfigureAll(d, changes);
            && e.key in x.peers && x.peers[e.key].psk == e.psk && x.peers[e.key].keepalive == e.keepalive
            && (e.key in d.peers && d.peers[e.key].handshaken ==> x.peers[e.key].endpoint == d.peers[e.key].endpoint)
            && ((e.key !in d.peers || !d.peers[e.key].handshaken) && e.candidates != [] && e.candidates[0] != "" ==>
                  x.peers[e.key].endpoint == Some(e.candidates[0]))
            && (forall c :: c in e.allowed ==> a.text(c) in x.routes && x.routes[a.text(c)] == e.key)
  {
    PayloadAdmissible(a);
    PayloadKeysDiffer(a);
    ByKeyOfConfigs(a.text, a.Entries(), e.key);
    D.SyncSettles(d, lists, a.Desired(), changes);
    var x := D.ConfigureAll(d, changes);
    var want := a.Desired()[e.key];
    assert D.AsDesired(d, want, x);
    forall c | c in e.allowed
      ensures a.text(c) in x.routes && x.routes[a.text(c)] == e.key
    {
      ConfigAllows(a.text, e, a.text(c));
      assert a.text(c) in D.ToSet(want.allowed);
      assert a.text(c) in D.Owned(x, e.key);
    }
  }

  lemma DeviceHasOnly(a: Agent, d: D.Device, lists: map<Key, seq<D.Prefix>>, changes: seq<D.PeerConfig>, k: Key)
    requires a.Valid() && a.Synced(d, lists, changes)
    ensures k in D.ConfigureAll(d, changes).peers <==> ListsPeer(a.Entries(), k)
  {
    PayloadAdmissible(a);
    PayloadKeysDiffer(a);
    ByKeyOfConfigs(a.text, a.Entries(), k);
    D.SyncSettles(d, lists, a.Desired(), changes);
    assert k in D.ConfigureAll(d, changes).peers <==> k in a.Desired();
  }

  /** Traffic to the overlay address of any visible peer leaves for that peer, or for its
      gateway when it is a mobile routed by another agent. */
  lemma OverlayReaches(a: Agent, d: D.Device, lists: map<Key, seq<D.Prefix>>, changes: seq<D.PeerConfig>,
                       p: Peer, x: Cidr)
    requires a.Valid() && a.Synced(d, lists, changes)
    requires p in a.others && x in AllowedIPs(p.row) && !Stranded(a.Me(), a.others, p)
    ensures var routes := D.ConfigureAll(d, changes).routes;
            && a.text(x) in routes
            && (Payload.Listed(a.Me(), p) ==> routes[a.text(x)] == p.row.key)
            && (!Payload.Listed(a.Me(), p) ==>
                  p.row.gateway in a.db.rows && routes[a.text(x)] == a.db.rows[p.row.gateway].key)
  {
    ViewSound(a.db, a.defaultAllow, a.self, a.others);
    var o := Home(a.Me(), a.others, p);
    CarriedAre(a.others, o, p);
    AllowedAre(a.Me(), a.others, o, x);
    assert Brings(Carried(a.others, o), x);
    DefaultsOnlyAtExit(a.s, a.Me(), a.others, o);
    DeviceMatches(a, d, lists, changes, EntryFor(a.s, a.Me(), a.others, o));
  }

  /** Two active agents that have both synced have each other as peers or neither does, and
      then they hold the same preshared key. */
  lemma DevicesAgree(a: Agent, b: Agent,
                     dA: D.Device, listsA: map<Key, seq<D.Prefix>>, changesA: seq<D.PeerConfig>,
                     dB: D.Device, listsB: map<Key, seq<D.Prefix>>, changesB: seq<D.PeerConfig>)
    requires a.Valid() && b.Valid() && a.Synced(dA, listsA, changesA) && b.Synced(dB, listsB, changesB)
    requires a.db == b.db && a.s == b.s && a.defaultAllow == b.defaultAllow
    requires a.Me().row.agent && b.Me().row.agent && !a.Me().row.revoked && !b.Me().row.revoked
    ensures var atA, atB := D.ConfigureAll(dA, changesA).peers, D.ConfigureAll(dB, changesB).peers;
            && (b.Me().row.key in atA <==> a.Me().row.key in atB)
            && (b.Me().row.key in atA ==> atA[b.Me().row.key].psk == atB[a.Me().row.key].psk)
  {
    var keyA, keyB := a.Me().row.key, b.Me().row.key;
    DeviceHasOnly(a, dA, listsA, changesA, keyB);
    DeviceHasOnly(b, dB, listsB, changesB, keyA);
    PairAgrees(a.db, a.defaultAllow, a.s, a.self, b.self, a.others, b.others);
    if ListsPeer(a.Entries(), keyB) {
      var e :| e in a.Entries() && e.key == keyB;
      var f :| f in b.Entries() && f.key == keyA;
      DeviceMatches(a, dA, listsA, changesA, e);
      DeviceMatches(b, dB, listsB, changesB, f);
    }
  }

  /** The devices of one mesh hold the same preshared key for a peer exactly when they are the two
      ends, or one end, of one pair. */
  lemma DeviceKeysPrivate(a: Agent, b: Agent,
                          dA: D.Device, listsA: map<Key, seq<D.Prefix>>, changesA: seq<D.PeerConfig>,
                          dB: D.Device, listsB: map<Key, seq<D.Prefix>>, changesB: seq<D.PeerConfig>, j: Key, k: Key)
    requires a.Valid() && b.Valid() && a.Synced(dA, listsA, changesA) && b.Synced(dB, listsB, changesB)
    requires a.db == b.db && a.s == b.s && a.defaultAllow == b.defaultAllow && Injective(a.s.kdf)
    requires j in D.ConfigureAll(dA, changesA).peers && k in D.ConfigureAll(dB, changesB).peers
    ensures D.ConfigureAll(dA, changesA).peers[j].psk == D.ConfigureAll(dB, changesB).peers[k].psk <==>
            || (a.self == b.self && j == k)
            || (j == b.Me().row.key && k == a.Me().row.key)
  {
    DeviceHasOnly(a, dA, listsA, changesA, j);
    DeviceHasOnly(b, dB, listsB, changesB, k);
    var e :| e in a.Entries() && e.key == j;
    var f :| f in b.Entries() && f.key == k;
    DeviceMatches(a, dA, listsA, changesA, e);
    DeviceMatches(b, dB, listsB, changesB, f);
    PayloadKeysPrivate(a.db, a.defaultAllow, a.s, a.self, a.others, b.self, b.others, e, f);
  }

  /** After a sync a prefix routes to a key exactly when the payload's entry for it says so. */
  lemma RoutedExactly(a: Agent, d: D.Device, lists: map<Key, seq<D.Prefix>>, changes: seq<D.PeerConfig>,
                      c: Cidr, k: Key)
    requires a.Valid() && a.Synced(d, lists, changes)
    ensures var routes := D.ConfigureAll(d, changes).routes;
            a.text(c) in routes && routes[a.text(c)] == k <==>
            exists e :: e in a.Entries() && e.key == k && c in e.allowed
  {
    PayloadAdmissible(a);
    PayloadKeysDiffer(a);
    ByKeyOfConfigs(a.text, a.Entries(), k);
    D.RoutesExactly(d, lists, a.Desired(), changes, a.text(c), k);
    forall e | e in a.Entries() && e.key == k
      ensures k in a.Desired() && (a.text(c) in a.Desired()[k].allowed <==> c in e.allowed)
    {
      ConfigAllows(a.text, e, a.text(c));
    }
  }

  /** The agent's exit node, when it has one that is active. */
  ghost predicate HasExit(a: Agent)
    requires a.Valid()
  {
    a.Me().row.exit in a.db.rows && !a.db.rows[a.Me().row.exit].revoked
  }

  lemma ExitVisible(a: Agent)
    requires a.Valid() && HasExit(a)
    ensures var exit := a.Me().row.exit;
            Peer(exit, a.db.rows[exit]) in a.others && Payload.Listed(a.Me(), Peer(exit, a.db.rows[exit]))
  {
    var exit := a.Me().row.exit;
    assert exit != 0 && exit != a.self;
    assert a.db.rows[exit].agent;
    assert Visible(a.db, a.defaultAllow, a.self, exit);
  }

  /** Once its exit node is cleared, an agent's internet traffic has no route through the mesh:
      whatever the exit was and whatever the policy, no default route is left on the device. */
  lemma ClearedExitRoutesNothing(before: Db, a: Agent, d: D.Device, lists: map<Key, seq<D.Prefix>>,
                                 changes: seq<D.PeerConfig>)
    requires Ok(before.rows) && SetExit(before, a.self, 0) == Some(a.db)
    requires a.Valid() && a.Synced(d, lists, changes)
    ensures !HasExit(a)
    ensures var routes := D.ConfigureAll(d, changes).routes; a.text(Any4) !in routes && a.text(Any6) !in routes
  {
    assert 0 !in a.db.rows;
    InternetGoesToExit(a, d, lists, changes, Any4);
    InternetGoesToExit(a, d, lists, changes, Any6);
  }

  /** Once an exit node is set, the default routes lead to it. */
  lemma ChosenExitRoutes(before: Db, exit: Id, a: Agent, d: D.Device, lists: map<Key, seq<D.Prefix>>,
                         changes: seq<D.PeerConfig>)
    requires Ok(before.rows) && exit != 0 && SetExit(before, a.self, exit) == Some(a.db)
    requires a.Valid() && a.Synced(d, lists, changes)
    ensures exit in before.rows
    ensures var routes := D.ConfigureAll(d, changes).routes;
            && a.text(Any4) in routes && routes[a.text(Any4)] == before.rows[exit].key
            && a.text(Any6) in routes && routes[a.text(Any6)] == before.rows[exit].key
  {
    InternetGoesToExit(a, d, lists, changes, Any4);
    InternetGoesToExit(a, d, lists, changes, Any6);
  }

  /** After a sync the default routes lead to the exit node, under any ACL policy, and there
      are none unless an active exit node is assigned. */
  lemma InternetGoesToExit(a: Agent, d: D.Device, lists: map<Key, seq<D.Prefix>>, changes: seq<D.PeerConfig>, c: Cidr)
    requires a.Valid() && a.Synced(d, lists, changes) && (c == Any4 || c == Any6)
    ensures var routes := D.ConfigureAll(d, changes).routes;
            && (a.text(c) in routes <==> HasExit(a))
            && (HasExit(a) ==> routes[a.text(c)] == a.db.rows[a.Me().row.exit].key)
  {
    ViewSound(a.db, a.defaultAllow, a.self, a.others);
    var routes := D.ConfigureAll(d, changes).routes;
    if HasExit(a) {
      var exit := a.Me().row.exit;
      var o := Peer(exit, a.db.rows[exit]);
      ExitVisible(a);
      DefaultsOnlyAtExit(a.s, a.Me(), a.others, o);
      RoutedExactly(a, d, lists, changes, c, o.row.key);
      assert EntryFor(a.s, a.Me(), a.others, o) in a.Entries();
    } else if a.text(c) in routes {
      var k := routes[a.text(c)];
      RoutedExactly(a, d, lists, changes, c, k);
      var e :| e in a.Entries() && e.key == k && c in e.allowed;
      var o := EntryOf(a, e);
      AllowedAre(a.Me(), a.others, o, c);
    }
  }

  // ---- where a packet goes ------------------------------------------------------------------

  datatype Dest = V4(a: Addr) | V6(b: Addr)

  predicate Matches(c: Cidr, to: Dest) {
    match c
    case Net4(a) => to == V4(a)
    case Net6(b) => to == V6(b)
    case Any4 => to.V4?
    case Any6 => to.V6?
  }

  function Length(c: Cidr): nat {
    match c
    case Net4(_) => 32
    case Net6(_) => 128
    case _ => 0
  }

  /** Cryptokey routing: a packet leaves for the peer of the longest prefix that matches it. */
  ghost predicate LeavesFor(text: Text, routes: map<D.Prefix, Key>, to: Dest, k: Key) {
    exists c :: && Matches(c, to) && text(c) in routes && routes[text(c)] == k
                && forall b :: Matches(b, to) && text(b) in routes ==> Length(b) <= Length(c)
  }

  function HostRoute(to: Dest): Cidr {
    match to
    case V4(a) => Net4(a)
    case V6(b) => Net6(b)
  }

  function DefaultRoute(to: Dest): Cidr {
    if to.V4? then Any4 else Any6
  }

  /** A host route beats the default route, and nothing else can match. */
  lemma LookupMeans(text: Text, routes: map<D.Prefix, Key>, to: Dest, k: Key)
    ensures LeavesFor(text, routes, to, k) <==>
            if text(HostRoute(to)) in routes then routes[text(HostRoute(to))] == k
            else text(DefaultRoute(to)) in routes && routes[text(DefaultRoute(to))] == k
  {
    assert forall c :: Matches(c, to) <==> c == HostRoute(to) || c == DefaultRoute(to);
    var best := if text(HostRoute(to)) in routes then HostRoute(to) else DefaultRoute(to);
    if text(best) in routes && routes[text(best)] == k {
      assert Matches(best, to);
    }
  }

  /** Whether a peer the agent can reach has the overlay address. */
  ghost predicate HeldBy(a: Agent, to: Dest, p: Peer)
    requires a.Valid()
  {
    && p in a.others && !Stranded(a.Me(), a.others, p)
    && match to
       case V4(x) => p.row.ip4 == x
       case V6(x) => p.row.ip6 == Some(x)
  }

  /** After a sync a packet for the overlay address of a visible peer leaves for that peer, or for
      its gateway when it is a mobile routed by another agent, even when an exit node is set. */
  lemma TrafficToPeer(a: Agent, d: D.Device, lists: map<Key, seq<D.Prefix>>, changes: seq<D.PeerConfig>,
                      to: Dest, p: Peer, k: Key)
    requires a.Valid() && a.Synced(d, lists, changes) && HeldBy(a, to, p)
    ensures Payload.Listed(a.Me(), p) || p.row.gateway in a.db.rows
    ensures LeavesFor(a.text, D.ConfigureAll(d, changes).routes, to, k) <==>
            k == if Payload.Listed(a.Me(), p) then p.row.key else a.db.rows[p.row.gateway].key
  {
    AddressesAre(p.row, HostRoute(to));
    OverlayReaches(a, d, lists, changes, p, HostRoute(to));
    LookupMeans(a.text, D.ConfigureAll(d, changes).routes, to, k);
  }

  /** A packet for any other address leaves for the active exit node, and nowhere without one. */
  lemma TrafficElsewhere(a: Agent, d: D.Device, lists: map<Key, seq<D.Prefix>>, changes: seq<D.PeerConfig>,
                         to: Dest, k: Key)
    requires a.Valid() && a.Synced(d, lists, changes) && forall p :: !HeldBy(a, to, p)
    ensures LeavesFor(a.text, D.ConfigureAll(d, changes).routes, to, k) <==>
            HasExit(a) && k == a.db.rows[a.Me().row.exit].key
  {
    LookupMeans(a.text, D.ConfigureAll(d, changes).routes, to, k);
    InternetGoesToExit(a, d, lists, changes, DefaultRoute(to));
    NoHostRoute(a, d, lists, changes, to);
  }

  lemma NoHostRoute(a: Agent, d: D.Device, lists: map<Key, seq<D.Prefix>>, changes: seq<D.PeerConfig>, to: Dest)
    requires a.Valid() && a.Synced(d, lists, changes) && forall p :: !HeldBy(a, to, p)
    ensures a.text(HostRoute(to)) !in D.ConfigureAll(d, changes).routes
  {
    var routes, c := D.ConfigureAll(d, changes).routes, HostRoute(to);
    if a.text(c) in routes {
      RoutedExactly(a, d, lists, changes, c, routes[a.text(c)]);
      var e :| e in a.Entries() && e.key == routes[a.text(c)] && c in e.allowed;
      var o := EntryOf(a, e);
      AllowedAre(a.Me(), a.others, o, c);
      var p :| p in Carried(a.others, o) && c in AllowedIPs(p.row);
      CarriedAre(a.others, o, p);
      AddressesAre(p.row, c);
      ViewSound(a.db, a.defaultAllow, a.self, a.others);
      assert HeldBy(a, to, p);
    }
  }
}

/** The peer list the control plane sends to an agent (cmd/server buildPeerEntries), built
    from the rows visible to it. Which endpoint candidates a pair has is an arbitrary function
    here; the Candidates module is about it. */
module Payload {

  import opened Wrappers
  import opened Keys
  import opened Store
  import opened PeerTable
  import StoreRuns

  datatype Peer = Peer(id: Id, row: Row)

  /** /32 and /128 routes, and the two default routes. */
  datatype Cidr = Net4(a: Addr) | Net6(b: Addr) | Any4 | Any6

  const DEFAULT_KEEPALIVE := 25

  datatype Entry = Entry(key: Key, psk: Key, epoch: nat, exitNode: bool, allowed: seq<Cidr>,
                         endpoint: Option<string>, candidates: seq<string>, keepalive: int)

  /** What all entries of one server share: the pair key derivation, the epochs, the endpoint
      candidates of a pair, best first, and the configured keepalive. */
  datatype Server = Server(kdf: (Key, Key) -> Key, epochs: map<PairId, nat>,
                           candidates: (Peer, Peer) -> seq<string>, keepalive: int)
  {
    function KeepaliveOrDefault(): int {
      if keepalive <= 0 then DEFAULT_KEEPALIVE else keepalive
    }
  }

  function PunchEpoch(epochs: map<PairId, nat>, a: Key, b: Key): nat {
    var id := RelayPairId(a, b);
    if id in epochs then epochs[id] else 0
  }

  function AllowedIPs(r: Row): seq<Cidr> {
    [Net4(r.ip4)] + if r.ip6.Some? then [Net6(r.ip6.value)] else []
  }

  /** A peer is reached at its IPv4 address and, when it has one, at its IPv6 address. */
  lemma AddressesAre(r: Row, x: Cidr)
    ensures x in AllowedIPs(r) <==> x == Net4(r.ip4) || (r.ip6.Some? && x == Net6(r.ip6.value))
  {
  }

  predicate Routed(r: Row) {
    !r.agent && r.gateway != 0
  }

  // ---- the entries as a function of the rows ----------------------------------------------

  function Mobiles(others: seq<Peer>, gateway: Id): seq<Peer> {
    if others == [] then []
    else
      var rest, p := Mobiles(others[..|others| - 1], gateway), others[|others| - 1];
      if Routed(p.row) && p.row.gateway == gateway then rest + [p] else rest
  }

  function Routes(peers: seq<Peer>): seq<Cidr> {
    if peers == [] then [] else Routes(peers[..|peers| - 1]) + AllowedIPs(peers[|peers| - 1].row)
  }

  /** The peers whose overlay addresses o's entry carries. */
  function Carried(others: seq<Peer>, o: Peer): seq<Peer> {
    [o] + if o.row.agent then Mobiles(others, o.id) else []
  }

  predicate IsExit(self: Peer, o: Peer) {
    o.row.agent && self.row.exit != 0 && o.id == self.row.exit
  }

  function Allowed(self: Peer, others: seq<Peer>, o: Peer): seq<Cidr> {
    var carried := Routes(Carried(others, o));
    if IsExit(self, o) then carried + [Any4, Any6] else carried
  }

  /** A routed mobile is a peer of its own gateway only. */
  predicate Listed(self: Peer, o: Peer) {
    Routed(o.row) ==> o.row.gateway == self.id
  }

  function EntryFor(s: Server, self: Peer, others: seq<Peer>, o: Peer): Entry {
    Entry(o.row.key, DerivePairKey(s.kdf, self.row.key, o.row.key),
          PunchEpoch(s.epochs, self.row.key, o.row.key), IsExit(self, o), Allowed(self, others, o),
          First(Hints(s, self, o)), Hints(s, self, o), s.KeepaliveOrDefault())
  }

  /** A static peer roams in: no endpoint is pushed for it. */
  function Hints(s: Server, self: Peer, o: Peer): seq<string> {
    if o.row.agent then s.candidates(self, o) else []
  }

  function First(candidates: seq<string>): Option<string> {
    if candidates == [] then None else Some(candidates[0])
  }

  /** The entries of the first n visible peers. */
  function Entries(s: Server, self: Peer, others: seq<Peer>, n: nat): seq<Entry>
    requires n <= |others|
  {
    if n == 0 then []
    else
      var before := Entries(s, self, others, n - 1);
      if Listed(self, others[n - 1]) then before + [EntryFor(s, self, others, others[n - 1])] else before
  }

  function AllRoutes(es: seq<Entry>): seq<Cidr> {
    if es == [] then [] else AllRoutes(es[..|es| - 1]) + es[|es| - 1].allowed
  }

  lemma {:induction false} MobilesAre(others: seq<Peer>, gateway: Id, p: Peer)
    ensures p in Mobiles(others, gateway) <==> p in others && Routed(p.row) && p.row.gateway == gateway
  {
    if others != [] {
      MobilesAre(others[..|others| - 1], gateway, p);
      assert others == others[..|others| - 1] + [others[|others| - 1]];
    }
  }

  predicate Brings(peers: seq<Peer>, x: Cidr) {
    exists p :: p in peers && x in AllowedIPs(p.row)
  }

  lemma {:induction false} RoutesAre(peers: seq<Peer>, x: Cidr)
    ensures x in Routes(peers) <==> Brings(peers, x)
  {
    if peers != [] {
      RoutesAre(peers[..|peers| - 1], x);
      assert peers == peers[..|peers| - 1] + [peers[|peers| - 1]];
    }
  }

  lemma RoutesAppend(peers: seq<Peer>, p: Peer)
    ensures Routes(peers + [p]) == Routes(peers) + AllowedIPs(p.row)
  {
    assert (peers + [p])[..|peers|] == peers;
  }

  lemma MobilesAppend(others: seq<Peer>, i: nat, gateway: Id)
    requires i < |others|
    ensures Mobiles(others[..i + 1], gateway) ==
            var rest := Mobiles(others[..i], gateway);
            if Routed(others[i].row) && others[i].row.gateway == gateway then rest + [others[i]] else rest
  {
    assert others[..i + 1][..i] == others[..i];
  }

  // ---- building them ------------------------------------------------------------------------

  method GroupMobiles(others: seq<Peer>) returns (byGateway: map<Id, seq<Peer>>)
    ensures forall g: Id :: Mobiles(others, g) == if g in byGateway then byGateway[g] else []
  {
    byGateway := map[];
    for i := 0 to |others|
      invariant forall g: Id :: Mobiles(others[..i], g) == if g in byGateway then byGateway[g] else []
    {
      var o := others[i];
      assert others[..i + 1][..i] == others[..i];
      if Routed(o.row) {
        var before := if o.row.gateway in byGateway then byGateway[o.row.gateway] else [];
        byGateway := byGateway[o.row.gateway := before + [o]];
      }
    }
    assert others[..|others|] == others;
  }

  method BuildPeerEntries(s: Server, self: Peer, others: seq<Peer>) returns (es: seq<Entry>)
    ensures es == Entries(s, self, others, |others|)
  {
    var keepalive := s.KeepaliveOrDefault();
    var byGateway := GroupMobiles(others);
    es := [];
    for n := 0 to |others|
      invariant es == Entries(s, self, others, n)
    {
      var o := others[n];
      if Routed(o.row) && o.row.gateway != self.id {
        continue;
      }
      var mobiles := if o.row.agent && o.id in byGateway then byGateway[o.id] else [];
      assert [o] + mobiles == Carried(others, o);
      var allowed := CollectRoutes(o, mobiles);
      var entry := Entry(o.row.key, DerivePairKey(s.kdf, self.row.key, o.row.key),
                         PunchEpoch(s.epochs, self.row.key, o.row.key), false, [], None, [], keepalive);
      if o.row.agent {
        if self.row.exit != 0 && o.id == self.row.exit {
          entry := entry.(exitNode := true);
          allowed := allowed + [Any4, Any6];
        }
        var candidates := s.candidates(self, o);
        if |candidates| > 0 {
          entry := entry.(endpoint := Some(candidates[0]));
        }
        entry := entry.(candidates := candidates);
      }
      es := es + [entry.(allowed := allowed)];
    }
  }

  method CollectRoutes(o: Peer, mobiles: seq<Peer>) returns (allowed: seq<Cidr>)
    ensures allowed == Routes([o] + mobiles)
  {
    allowed := AllowedIPs(o.row);
    RoutesAppend([], o);
    for k := 0 to |mobiles|
      invariant allowed == Routes([o] + mobiles[..k])
    {
      RoutesAppend([o] + mobiles[..k], mobiles[k]);
      assert [o] + mobiles[..k] + [mobiles[k]] == [o] + mobiles[..k + 1];
      allowed := allowed + AllowedIPs(mobiles[k].row);
    }
    assert mobiles[..|mobiles|] == mobiles;
  }

  /** The overlay routes self forwards for, in order. */
  method GatewayRoutesFor(self: Peer, others: seq<Peer>) returns (routes: seq<Cidr>)
    requires self.id != 0
    ensures routes == Routes(Mobiles(others, self.id))
  {
    routes := [];
    for i := 0 to |others|
      invariant routes == Routes(Mobiles(others[..i], self.id))
    {
      MobilesAppend(others, i, self.id);
      if !others[i].row.agent && others[i].row.gateway == self.id {
        RoutesAppend(Mobiles(others[..i], self.id), others[i]);
        routes := routes + AllowedIPs(others[i].row);
      }
    }
    assert others[..|others|] == others;
  }

  // ---- visibility ---------------------------------------------------------------------------

  predicate Touches(end: Option<Id>, a: Id, b: Id) {
    end.None? || end.value == a || end.value == b
  }

  predicate Ruled(rules: set<Rule>, a: Id, b: Id) {
    exists r :: r in rules && Touches(r.src, a, b) && Touches(r.dst, a, b)
  }

  /** Whether the row p is handed to self. */
  predicate Visible(db: Db, defaultAllow: bool, self: Id, p: Id)
    requires self in db.rows
  {
    && p in db.rows && !db.rows[p].revoked && p != self
    && (|| defaultAllow || db.rows[p].gateway == self || db.rows[p].exit == self
        || p == db.rows[self].exit || Ruled(db.rules, self, p))
  }

  /** The rows handed to self, in id order. */
  ghost predicate IsView(db: Db, defaultAllow: bool, self: Id, others: seq<Peer>)
    requires self in db.rows
  {
    && (forall i, j :: 0 <= i < j < |others| ==> others[i].id < others[j].id)
    && (forall p: Peer :: p in others <==> Visible(db, defaultAllow, self, p.id) && p.row == db.rows[p.id])
  }

  // ---- what every payload satisfies ---------------------------------------------------------

  ghost predicate NoRepeat<T>(s: seq<T>) {
    forall i, j :: 0 <= i < j < |s| ==> s[i] != s[j]
  }

  ghost predicate IdsDiffer(peers: seq<Peer>) {
    forall i, j :: 0 <= i < j < |peers| ==> peers[i].id != peers[j].id
  }

  /** Peers that share an address are the same peer. */
  ghost predicate Apart(peers: seq<Peer>) {
    forall p, q, x :: p in peers && q in peers && x in AllowedIPs(p.row) && x in AllowedIPs(q.row) ==> p.id == q.id
  }

  ghost predicate Wired(self: Peer, others: seq<Peer>) {
    && (forall p :: p in others ==> p.id != 0 && p.id != self.id)
    && (forall p :: p in others && p.row.gateway != 0 ==> !p.row.agent)
    && (forall p, g :: p in others && g in others && g.id == p.row.gateway ==> g.row.agent)
    && (forall p :: p in others && p.id == self.row.exit ==> p.row.agent)
  }

  ghost predicate Sound(self: Peer, others: seq<Peer>) {
    IdsDiffer(others) && Apart(others) && Wired(self, others)
  }

  lemma ViewSound(db: Db, defaultAllow: bool, self: Id, others: seq<Peer>)
    requires Ok(db.rows) && self in db.rows && IsView(db, defaultAllow, self, others)
    ensures Sound(Peer(self, db.rows[self]), others)
  {
    forall p, q, x | p in others && q in others && x in AllowedIPs(p.row) && x in AllowedIPs(q.row)
      ensures p.id == q.id
    {
      assert Distinct4(db.rows) && Distinct6(db.rows);
    }
  }

  lemma NoRepeatAppend<T>(a: seq<T>, b: seq<T>)
    requires NoRepeat(a) && NoRepeat(b) && forall x :: x in a ==> x !in b
    ensures NoRepeat(a + b)
  {
    var c := a + b;
    forall i, j | 0 <= i < j < |c|
      ensures c[i] != c[j]
    {
      if i < |a| <= j {
        assert c[i] in a && c[j] == b[j - |a|];
      }
    }
  }

  lemma {:induction false} RoutesNoRepeat(peers: seq<Peer>)
    requires IdsDiffer(peers) && Apart(peers)
    ensures NoRepeat(Routes(peers))
  {
    if peers != [] {
      var rest, last := peers[..|peers| - 1], peers[|peers| - 1];
      RoutesNoRepeat(rest);
      forall x | x in Routes(rest)
        ensures x !in AllowedIPs(last.row)
      {
        RoutesAre(rest, x);
        var p :| p in rest && x in AllowedIPs(p.row);
      }
      NoRepeatAppend(Routes(rest), AllowedIPs(last.row));
    }
  }

  lemma {:induction false} MobilesDiffer(others: seq<Peer>, gateway: Id)
    requires IdsDiffer(others)
    ensures IdsDiffer(Mobiles(others, gateway))
  {
    if others != [] {
      MobilesDiffer(others[..|others| - 1], gateway);
      var m := Mobiles(others[..|others| - 1], gateway);
      forall i | 0 <= i < |m|
        ensures m[i].id != others[|others| - 1].id
      {
        MobilesAre(others[..|others| - 1], gateway, m[i]);
      }
    }
  }

  lemma CarriedAre(others: seq<Peer>, o: Peer, p: Peer)
    ensures p in Carried(others, o) <==>
            p == o || (o.row.agent && p in others && Routed(p.row) && p.row.gateway == o.id)
  {
    MobilesAre(others, o.id, p);
  }

  lemma CarriedApart(self: Peer, others: seq<Peer>, o: Peer)
    requires Sound(self, others) && o in others
    ensures forall p :: p in Carried(others, o) ==> p in others
    ensures IdsDiffer(Carried(others, o)) && Apart(Carried(others, o))
  {
    forall p | p in Carried(others, o)
      ensures p in others && (p != o ==> p.id != o.id)
    {
      CarriedAre(others, o, p);
      SameId(others, p, o);
    }
    MobilesDiffer(others, o.id);
    if o.row.agent {
      MobilesAre(others, o.id, o);
    }
  }

  lemma SameId(others: seq<Peer>, p: Peer, q: Peer)
    requires IdsDiffer(others) && p in others && q in others
    ensures p.id == q.id <==> p == q
  {
  }

  lemma AllowedNoRepeat(self: Peer, others: seq<Peer>, o: Peer)
    requires Sound(self, others) && o in others
    ensures NoRepeat(Allowed(self, others, o))
  {
    CarriedApart(self, others, o);
    RoutesNoRepeat(Carried(others, o));
    forall x | x in Routes(Carried(others, o))
      ensures !x.Any4? && !x.Any6?
    {
      RoutesAre(Carried(others, o), x);
    }
    NoRepeatAppend(Routes(Carried(others, o)), [Any4, Any6]);
  }

  /** An address in o's entry belongs to a peer o carries. */
  lemma AllowedAre(self: Peer, others: seq<Peer>, o: Peer, x: Cidr)
    ensures x in Allowed(self, others, o) <==>
            if x.Any4? || x.Any6? then IsExit(self, o) else Brings(Carried(others, o), x)
  {
    RoutesAre(Carried(others, o), x);
  }

  /** A peer's addresses live in one entry only. */
  lemma OneHome(self: Peer, others: seq<Peer>, o: Peer, q: Peer, p: Peer)
    requires Sound(self, others) && o in others && q in others && Listed(self, o) && Listed(self, q)
    requires p in Carried(others, o) && p in Carried(others, q)
    ensures o == q
  {
    CarriedAre(others, o, p);
    CarriedAre(others, q, p);
    SameId(others, o, q);
  }

  lemma EntriesDisjoint(self: Peer, others: seq<Peer>, o: Peer, q: Peer, x: Cidr)
    requires Sound(self, others) && o in others && q in others && Listed(self, o) && Listed(self, q)
    requires x in Allowed(self, others, o) && x in Allowed(self, others, q)
    ensures o == q
  {
    AllowedAre(self, others, o, x);
    AllowedAre(self, others, q, x);
    if x.Any4? || x.Any6? {
      SameId(others, o, q);
    } else {
      var p :| p in Carried(others, o) && x in AllowedIPs(p.row);
      var r :| r in Carried(others, q) && x in AllowedIPs(r.row);
      CarriedAre(others, o, p);
      CarriedAre(others, q, r);
      SameId(others, p, r);
      OneHome(self, others, o, q, p);
    }
  }

  ghost predicate InFirst(self: Peer, others: seq<Peer>, n: nat, x: Cidr)
    requires n <= |others|
  {
    exists i :: 0 <= i < n && Listed(self, others[i]) && x in Allowed(self, others, others[i])
  }

  lemma AllRoutesAppend(es: seq<Entry>, e: Entry)
    ensures AllRoutes(es + [e]) == AllRoutes(es) + e.allowed
  {
    assert (es + [e])[..|es|] == es;
  }

  lemma InFirstOne(self: Peer, others: seq<Peer>, n: nat, x: Cidr)
    requires 0 < n <= |others|
    ensures InFirst(self, others, n, x) <==>
            || InFirst(self, others, n - 1, x)
            || (Listed(self, others[n - 1]) && x in Allowed(self, others, others[n - 1]))
  {
  }

  lemma {:induction false} RoutesWhere(s: Server, self: Peer, others: seq<Peer>, n: nat, x: Cidr)
    requires n <= |others|
    ensures x in AllRoutes(Entries(s, self, others, n)) <==> InFirst(self, others, n, x)
  {
    if n > 0 {
      RoutesWhere(s, self, others, n - 1, x);
      var o := others[n - 1];
      InFirstOne(self, others, n, x);
      if Listed(self, o) {
        AllRoutesAppend(Entries(s, self, others, n - 1), EntryFor(s, self, others, o));
      }
    }
  }

  /** No prefix occurs twice across all the allowed IPs of a payload. */
  lemma {:induction false} PayloadNoRepeat(s: Server, self: Peer, others: seq<Peer>, n: nat)
    requires Sound(self, others) && n <= |others|
    ensures NoRepeat(AllRoutes(Entries(s, self, others, n)))
  {
    if n > 0 {
      PayloadNoRepeat(s, self, others, n - 1);
      var before, o := Entries(s, self, others, n - 1), others[n - 1];
      if Listed(self, o) {
        AllRoutesAppend(before, EntryFor(s, self, others, o));
        AllowedNoRepeat(self, others, o);
        forall x | x in AllRoutes(before)
          ensures x !in Allowed(self, others, o)
        {
          RoutesWhere(s, self, others, n - 1, x);
          var i :| 0 <= i < n - 1 && Listed(self, others[i]) && x in Allowed(self, others, others[i]);
          if x in Allowed(self, others, o) {
            EntriesDisjoint(self, others, others[i], o, x);
          }
        }
        NoRepeatAppend(AllRoutes(before), Allowed(self, others, o));
      }
    }
  }

  /** A routed mobile is unreachable when its gateway is neither self nor visible. */
  ghost predicate Stranded(self: Peer, others: seq<Peer>, p: Peer) {
    Routed(p.row) && p.row.gateway != self.id && forall g :: g in others ==> g.id != p.row.gateway
  }

  /** Every visible peer's addresses are in the payload exactly when it is not stranded. */
  lemma AddressesDelivered(s: Server, self: Peer, others: seq<Peer>, p: Peer, x: Cidr)
    requires Sound(self, others) && p in others && x in AllowedIPs(p.row)
    ensures x in AllRoutes(Entries(s, self, others, |others|)) <==> !Stranded(self, others, p)
  {
    RoutesWhere(s, self, others, |others|, x);
    if !Stranded(self, others, p) {
      var o := Home(self, others, p);
      var i :| 0 <= i < |others| && others[i] == o;
      AllowedAre(self, others, o, x);
      assert Brings(Carried(others, o), x);
    } else if InFirst(self, others, |others|, x) {
      var i :| 0 <= i < |others| && Listed(self, others[i]) && x in Allowed(self, others, others[i]);
      AllowedAre(self, others, others[i], x);
      var q :| q in Carried(others, others[i]) && x in AllowedIPs(q.row);
      CarriedAre(others, others[i], q);
      SameId(others, p, q);
    }
  }

  /** The peer whose entry carries p. */
  ghost function Home(self: Peer, others: seq<Peer>, p: Peer): (o: Peer)
    requires Sound(self, others) && p in others && !Stranded(self, others, p)
    ensures o in others && Listed(self, o) && p in Carried(others, o)
  {
    if Listed(self, p) then p
    else
      var g :| g in others && g.id == p.row.gateway;
      CarriedAre(others, g, p);
      g
  }

  /** Nothing else is in a payload: every route is a visible peer's address or a default. */
  lemma NothingElse(s: Server, self: Peer, others: seq<Peer>, x: Cidr)
    requires Sound(self, others) && x in AllRoutes(Entries(s, self, others, |others|))
    ensures x.Any4? || x.Any6? || exists p :: p in others && x in AllowedIPs(p.row)
  {
    RoutesWhere(s, self, others, |others|, x);
    if !x.Any4? && !x.Any6? {
      var i :| 0 <= i < |others| && Listed(self, others[i]) && x in Allowed(self, others, others[i]);
      AllowedAre(self, others, others[i], x);
      var p :| p in Carried(others, others[i]) && x in AllowedIPs(p.row);
      CarriedAre(others, others[i], p);
    }
  }

  lemma {:induction false} EntriesAre(s: Server, self: Peer, others: seq<Peer>, n: nat, e: Entry)
    requires n <= |others|
    ensures e in Entries(s, self, others, n) <==>
            exists i :: 0 <= i < n && Listed(self, others[i]) && e == EntryFor(s, self, others, others[i])
  {
    if n > 0 {
      EntriesAre(s, self, others, n - 1, e);
    }
  }

  /** The default routes sit in the assigned exit node's entry and nowhere else. */
  lemma DefaultsOnlyAtExit(s: Server, self: Peer, others: seq<Peer>, o: Peer)
    requires Sound(self, others) && o in others && Listed(self, o)
    ensures EntryFor(s, self, others, o) in Entries(s, self, others, |others|)
    ensures var e := EntryFor(s, self, others, o);
            && (Any4 in e.allowed <==> o.id == self.row.exit)
            && (Any6 in e.allowed <==> o.id == self.row.exit)
            && (e.exitNode <==> o.id == self.row.exit)
  {
    var i :| 0 <= i < |others| && others[i] == o;
    EntriesAre(s, self, others, |others|, EntryFor(s, self, others, o));
    AllowedAre(self, others, o, Any4);
    AllowedAre(self, others, o, Any6);
  }

  // ---- the two ends of a pair ---------------------------------------------------------------

  lemma VisibilityMutual(db: Db, defaultAllow: bool, a: Id, b: Id)
    requires Ok(db.rows) && a in db.rows && b in db.rows
    requires db.rows[a].agent && db.rows[b].agent && !db.rows[a].revoked && !db.rows[b].revoked
    ensures Visible(db, defaultAllow, a, b) <==> Visible(db, defaultAllow, b, a)
  {
    assert db.rows[a].gateway == 0 && db.rows[b].gateway == 0;
    forall r | r in db.rules
      ensures Touches(r.src, a, b) && Touches(r.dst, a, b) <==> Touches(r.src, b, a) && Touches(r.dst, b, a)
    {
    }
  }

  /** What the data path needs pierces default-deny: a gateway sees its active mobiles, and an
      active client and its active exit node see each other. */
  lemma DataPathVisible(db: Db, defaultAllow: bool, client: Id)
    requires Ok(db.rows) && client in db.rows && !db.rows[client].revoked
    ensures var g := db.rows[client].gateway; g != 0 ==> Visible(db, defaultAllow, g, client)
    ensures var e := db.rows[client].exit;
            e != 0 ==> && Visible(db, defaultAllow, e, client)
                       && (!db.rows[e].revoked ==> Visible(db, defaultAllow, client, e))
  {
    var g := db.rows[client].gateway;
    if g != 0 {
      assert g in db.rows && db.rows[g].agent && !db.rows[client].agent;
    }
  }

  /** The payload for self has an entry for b's key. */
  ghost predicate ListsPeer(es: seq<Entry>, key: Key) {
    exists e :: e in es && e.key == key
  }

  lemma EntryForKey(db: Db, defaultAllow: bool, s: Server, a: Id, others: seq<Peer>, b: Id, e: Entry)
    requires Ok(db.rows) && a in db.rows && IsView(db, defaultAllow, a, others)
    requires b in db.rows && e in Entries(s, Peer(a, db.rows[a]), others, |others|) && e.key == db.rows[b].key
    ensures Visible(db, defaultAllow, a, b) && Listed(Peer(a, db.rows[a]), Peer(b, db.rows[b]))
    ensures e == EntryFor(s, Peer(a, db.rows[a]), others, Peer(b, db.rows[b]))
  {
    var self := Peer(a, db.rows[a]);
    EntriesAre(s, self, others, |others|, e);
    var i :| 0 <= i < |others| && Listed(self, others[i]) && e == EntryFor(s, self, others, others[i]);
    assert others[i] in others;
    assert others[i].row == db.rows[others[i].id];
    assert KeysDiffer(db.rows);
  }

  lemma ListsMeans(db: Db, defaultAllow: bool, s: Server, a: Id, others: seq<Peer>, b: Id)
    requires Ok(db.rows) && a in db.rows && IsView(db, defaultAllow, a, others)
    requires b in db.rows
    ensures ListsPeer(Entries(s, Peer(a, db.rows[a]), others, |others|), db.rows[b].key)
            <==> Visible(db, defaultAllow, a, b) && (db.rows[b].agent || db.rows[b].gateway in {0, a})
  {
    var self, peer := Peer(a, db.rows[a]), Peer(b, db.rows[b]);
    var es := Entries(s, self, others, |others|);
    if ListsPeer(es, db.rows[b].key) {
      var e :| e in es && e.key == db.rows[b].key;
      EntryForKey(db, defaultAllow, s, a, others, b, e);
    }
    if Visible(db, defaultAllow, a, b) && Listed(self, peer) {
      assert peer in others;
      var i :| 0 <= i < |others| && others[i] == peer;
      EntriesAre(s, self, others, |others|, EntryFor(s, self, others, peer));
    }
  }

  /** What an entry tells the agent about a peer: the key of the pair, the epoch on the pair's
      record or 0, for an agent its candidates with the best one as endpoint and for a static
      peer neither, and never a keepalive of 0. */
  lemma EntryMeans(db: Db, defaultAllow: bool, s: Server, a: Id, others: seq<Peer>, b: Id, e: Entry)
    requires Ok(db.rows) && a in db.rows && IsView(db, defaultAllow, a, others)
    requires b in db.rows && e in Entries(s, Peer(a, db.rows[a]), others, |others|) && e.key == db.rows[b].key
    ensures e.psk == DerivePairKey(s.kdf, db.rows[a].key, db.rows[b].key)
    ensures forall id :: (id == PairId(db.rows[a].key, db.rows[b].key) || id == PairId(db.rows[b].key, db.rows[a].key))
                         && Less(id.lo, id.hi) ==>
              e.epoch == if id in s.epochs then s.epochs[id] else 0
    ensures e.candidates ==
            if db.rows[b].agent then s.candidates(Peer(a, db.rows[a]), Peer(b, db.rows[b])) else []
    ensures if e.candidates == [] then e.endpoint.None? else e.endpoint == Some(e.candidates[0])
    ensures e.keepalive == (if s.keepalive > 0 then s.keepalive else 25) && e.keepalive > 0
  {
    EntryForKey(db, defaultAllow, s, a, others, b, e);
    LessTotal(db.rows[a].key, db.rows[b].key);
  }

  /** Entries of the payloads of one server, for whatever agents, carry the same preshared key
      exactly when they are the two ends, or one end, of one pair. */
  lemma PayloadKeysPrivate(db: Db, defaultAllow: bool, s: Server, a: Id, forA: seq<Peer>, b: Id, forB: seq<Peer>,
                           e: Entry, f: Entry)
    requires Ok(db.rows) && a in db.rows && b in db.rows && Injective(s.kdf)
    requires IsView(db, defaultAllow, a, forA) && IsView(db, defaultAllow, b, forB)
    requires e in Entries(s, Peer(a, db.rows[a]), forA, |forA|) && f in Entries(s, Peer(b, db.rows[b]), forB, |forB|)
    ensures e.psk == f.psk <==>
            || (a == b && e.key == f.key)
            || (e.key == db.rows[b].key && f.key == db.rows[a].key)
  {
    EntriesAre(s, Peer(a, db.rows[a]), forA, |forA|, e);
    EntriesAre(s, Peer(b, db.rows[b]), forB, |forB|, f);
    PairKeysDiffer(s.kdf, db.rows[a].key, e.key, db.rows[b].key, f.key);
    assert KeysDiffer(db.rows);
  }

  /** Of two active agents each is in the other's payload or neither is, and the two entries
      carry the same preshared key and the same punch epoch. */
  lemma PairAgrees(db: Db, defaultAllow: bool, s: Server, a: Id, b: Id, forA: seq<Peer>, forB: seq<Peer>)
    requires Ok(db.rows) && a in db.rows && b in db.rows
    requires db.rows[a].agent && db.rows[b].agent && !db.rows[a].revoked && !db.rows[b].revoked
    requires IsView(db, defaultAllow, a, forA) && IsView(db, defaultAllow, b, forB)
    ensures var atA := Entries(s, Peer(a, db.rows[a]), forA, |forA|);
            var atB := Entries(s, Peer(b, db.rows[b]), forB, |forB|);
            && (ListsPeer(atA, db.rows[b].key) <==> ListsPeer(atB, db.rows[a].key))
            && (forall e, f :: e in atA && f in atB && e.key == db.rows[b].key && f.key == db.rows[a].key
                  ==> e.psk == f.psk && e.epoch == f.epoch)
  {
    VisibilityMutual(db, defaultAllow, a, b);
    ListsMeans(db, defaultAllow, s, a, forA, b);
    ListsMeans(db, defaultAllow, s, b, forB, a);
    forall e | e in Entries(s, Peer(a, db.rows[a]), forA, |forA|) && e.key == db.rows[b].key
      ensures e == EntryFor(s, Peer(a, db.rows[a]), forA, Peer(b, db.rows[b]))
    {
      EntryForKey(db, defaultAllow, s, a, forA, b, e);
    }
    forall e | e in Entries(s, Peer(b, db.rows[b]), forB, |forB|) && e.key == db.rows[a].key
      ensures e == EntryFor(s, Peer(b, db.rows[b]), forB, Peer(a, db.rows[a]))
    {
      EntryForKey(db, defaultAllow, s, b, forB, a, e);
    }
    PairKeySymmetric(s.kdf, db.rows[a].key, db.rows[b].key);
    PairIdSymmetric(db.rows[a].key, db.rows[b].key, db.rows[b].key, db.rows[a].key);
  }

  /** In every reachable store state, the payload of every peer routes each prefix to one peer,
      and each visible overlay address exactly once unless it is a stranded mobile's. */
  lemma EveryPayload(net4: Prefix, net6: Option<Prefix>, txs: seq<StoreRuns.Tx>, defaultAllow: bool,
                     s: Server, self: Id, others: seq<Peer>, p: Peer, x: Cidr)
    requires var db := StoreRuns.Run(net4, net6, txs);
             self in db.rows && IsView(db, defaultAllow, self, others)
    ensures var me := Peer(self, StoreRuns.Run(net4, net6, txs).rows[self]);
            var routes := AllRoutes(Entries(s, me, others, |others|));
            && NoRepeat(routes)
            && (p in others && x in AllowedIPs(p.row) ==> (x in routes <==> !Stranded(me, others, p)))
  {
    var db := StoreRuns.Run(net4, net6, txs);
    StoreRuns.EveryRun(net4, net6, txs);
    ViewSound(db, defaultAllow, self, others);
    var me := Peer(self, db.rows[self]);
    PayloadNoRepeat(s, me, others, |others|);
    if p in others && x in AllowedIPs(p.row) {
      AddressesDelivered(s, me, others, p, x);
    }
  }

  /** Whether the data path itself ties b to a: b is a's routed mobile or its exit client, or its
      exit node. */
  predicate Tied(rows: Rows, a: Id, b: Id)
    requires a in rows && b in rows
  {
    rows[b].gateway == a || rows[b].exit == a || rows[a].exit == b
  }

  /** Whether the policy lets a know of b: everyone may know everyone, the data path ties them,
      or a rule's two ends are each open or one of the two. */
  predicate Connected(db: Db, defaultAllow: bool, a: Id, b: Id)
    requires a in db.rows && b in db.rows
  {
    || defaultAllow || Tied(db.rows, a, b)
    || exists r :: && r in db.rules
                   && (r.src.None? || r.src == Some(a) || r.src == Some(b))
                   && (r.dst.None? || r.dst == Some(a) || r.dst == Some(b))
  }

  lemma VisibleExactly(db: Db, defaultAllow: bool, a: Id, b: Id)
    requires Ok(db.rows) && a in db.rows && b in db.rows
    ensures Visible(db, defaultAllow, a, b) <==>
            !db.rows[b].revoked && a != b && Connected(db, defaultAllow, a, b)
  {
    forall r | r in db.rules
      ensures Touches(r.src, a, b) <==> r.src.None? || r.src == Some(a) || r.src == Some(b)
      ensures Touches(r.dst, a, b) <==> r.dst.None? || r.dst == Some(a) || r.dst == Some(b)
    {
    }
  }

  /** In every reachable store state a peer's payload carries an address of another active peer
      exactly when the policy connects the two, and where that peer is a mobile routed by a third
      one, that gateway is active and connected too. */
  lemma PayloadReaches(net4: Prefix, net6: Option<Prefix>, txs: seq<StoreRuns.Tx>, defaultAllow: bool, s: Server,
                       a: Id, others: seq<Peer>, b: Id, x: Cidr)
    requires var db := StoreRuns.Run(net4, net6, txs);
             && a in db.rows && b in db.rows && a != b && !db.rows[b].revoked
             && IsView(db, defaultAllow, a, others) && x in AllowedIPs(db.rows[b])
    ensures var db := StoreRuns.Run(net4, net6, txs);
            var g := db.rows[b].gateway;
            && (g != 0 ==> g in db.rows)
            && (x in AllRoutes(Entries(s, Peer(a, db.rows[a]), others, |others|)) <==>
                && Connected(db, defaultAllow, a, b)
                && (g == 0 || g == a || (!db.rows[g].revoked && Connected(db, defaultAllow, a, g))))
  {
    var db := StoreRuns.Run(net4, net6, txs);
    StoreRuns.EveryRun(net4, net6, txs);
    ViewSound(db, defaultAllow, a, others);
    var me, peer := Peer(a, db.rows[a]), Peer(b, db.rows[b]);
    VisibleExactly(db, defaultAllow, a, b);
    if Connected(db, defaultAllow, a, b) {
      assert peer in others;
      AddressesDelivered(s, me, others, peer, x);
      StrandedExactly(db, defaultAllow, a, others, b);
    } else if x in AllRoutes(Entries(s, me, others, |others|)) {
      NothingElse(s, me, others, x);
      var p :| p in others && x in AllowedIPs(p.row);
      SameAddress(db.rows, p.id, b, x);
    }
  }

  /** Under default-deny, in every reachable store state and where no rule covers both, a peer's
      payload carries an address of another active peer exactly when the data path ties them. */
  lemma DenyIsolates(net4: Prefix, net6: Option<Prefix>, txs: seq<StoreRuns.Tx>, s: Server,
                     a: Id, others: seq<Peer>, b: Id, x: Cidr)
    requires var db := StoreRuns.Run(net4, net6, txs);
             && a in db.rows && b in db.rows && a != b && !db.rows[b].revoked && IsView(db, false, a, others)
             && !Ruled(db.rules, a, b) && x in AllowedIPs(db.rows[b])
    ensures var db := StoreRuns.Run(net4, net6, txs);
            x in AllRoutes(Entries(s, Peer(a, db.rows[a]), others, |others|)) <==> Tied(db.rows, a, b)
  {
    StoreRuns.EveryRun(net4, net6, txs);
    VisibleExactly(StoreRuns.Run(net4, net6, txs), false, a, b);
    PayloadReaches(net4, net6, txs, false, s, a, others, b, x);
  }

  lemma StrandedExactly(db: Db, defaultAllow: bool, a: Id, others: seq<Peer>, b: Id)
    requires Ok(db.rows) && a in db.rows && b in db.rows && IsView(db, defaultAllow, a, others)
    ensures var g := db.rows[b].gateway;
            && (g != 0 ==> g in db.rows)
            && (Stranded(Peer(a, db.rows[a]), others, Peer(b, db.rows[b])) <==>
                g != 0 && g != a && (db.rows[g].revoked || !Connected(db, defaultAllow, a, g)))
  {
    var g := db.rows[b].gateway;
    if g != 0 {
      assert g in db.rows && !db.rows[b].agent;
      VisibleExactly(db, defaultAllow, a, g);
      assert Peer(g, db.rows[g]) in others <==> Visible(db, defaultAllow, a, g);
    }
  }

  lemma SameAddress(rows: Rows, i: Id, j: Id, x: Cidr)
    requires Distinct(rows) && i in rows && j in rows && x in AllowedIPs(rows[i]) && x in AllowedIPs(rows[j])
    ensures i == j
  {
  }
}

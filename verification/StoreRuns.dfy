/** Whole runs of peer-table transactions, and the store object that performs them. */
module StoreRuns {

  import opened Wrappers
  import opened Keys
  import opened Store
  import opened PeerTable

  datatype Tx =
    | Enrolling(id: Id, key: Key, authorized: bool)
    | AddStatic(id: Id, key: Key, gateway: Id)
    | Revoking(id: Id)
    | Removing(id: Id)
    | Readdress(id: Id, a4: nat, a6: Option<nat>)
    | Offer(id: Id, on: bool)
    | ExitVia(id: Id, exit: Id)
    | Renumber(ids: seq<Id>, t4: Prefix, t6: Prefix)
    | AddRule(rule: Rule)
    | DropRule(rule: Rule)

  /** Enrolling a known key takes the re-enroll path and ignores the fresh id. */
  ghost function Enroll(db: Db, id: Id, key: Key, authorized: bool): Option<Db> {
    if !authorized then None
    else if Has(db.rows, key) then
      var i :| i in db.rows && db.rows[i].key == key;
      ReEnroll(db, i)
    else Insert(db, id, key, true, 0)
  }

  predicate Names(rows: Rows, end: Option<Id>) {
    end.Some? ==> end.value in rows
  }

  /** The database hands out ids that are positive and unused, and lists rows in id order. */
  ghost predicate Possible(db: Db, tx: Tx) {
    match tx
    case Enrolling(id, _, _) => id != 0 && id !in db.rows
    case AddStatic(id, _, _) => id != 0 && id !in db.rows
    case Renumber(ids, _, _) => Listing(db.rows, ids)
    case _ => true
  }

  ghost function Try(db: Db, tx: Tx): Option<Db>
    requires Possible(db, tx)
  {
    match tx
    case Enrolling(id, key, authorized) => Enroll(db, id, key, authorized)
    case AddStatic(id, key, gateway) => CreateStatic(db, id, key, gateway)
    case Revoking(id) => Revoke(db, id)
    case Removing(id) => Remove(db, id)
    case Readdress(id, a4, a6) => UpdateAddress(db, id, a4, a6)
    case Offer(id, on) => Advertise(db, id, on)
    case ExitVia(id, exit) => SetExit(db, id, exit)
    case Renumber(ids, t4, t6) => Migrate(db, ids, t4, t6)
    case AddRule(r) => if Names(db.rows, r.src) && Names(db.rows, r.dst)
                       then Some(db.(rules := db.rules + {r})) else None
    case DropRule(r) => Some(db.(rules := db.rules - {r}))
  }

  /** A failed transaction rolls back. */
  ghost function Apply(db: Db, tx: Tx): Db {
    if Possible(db, tx) then Try(db, tx).Or(db) else db
  }

  ghost function Run(net4: Prefix, net6: Option<Prefix>, txs: seq<Tx>): Db {
    if txs == [] then Db(map[], {}, net4, net6)
    else Apply(Run(net4, net6, txs[..|txs| - 1]), txs[|txs| - 1])
  }

  lemma ApplyOk(db: Db, tx: Tx)
    requires Ok(db.rows)
    ensures Ok(Apply(db, tx).rows)
  {
    if Possible(db, tx) {
      match tx
      case Enrolling(id, key, authorized) =>
        if authorized && Has(db.rows, key) {
          var i :| i in db.rows && db.rows[i].key == key && Enroll(db, id, key, true) == ReEnroll(db, i);
          ReEnrollOk(db, i);
        } else if authorized {
          InsertOk(db, id, key, true, 0);
        }
      case AddStatic(id, key, gateway) =>
        if CreateStatic(db, id, key, gateway).Some? {
          InsertOk(db, id, key, false, gateway);
        }
      case Revoking(id) => RevokeOk(db, id);
      case Removing(id) => RemoveOk(db, id);
      case Readdress(id, a4, a6) => UpdateAddressOk(db, id, a4, a6);
      case Offer(id, on) => AdvertiseOk(db, id, on);
      case ExitVia(id, exit) => SetExitOk(db, id, exit);
      case Renumber(ids, t4, t6) => MigrateOk(db, ids, t4, t6);
      case AddRule(_) =>
      case DropRule(_) =>
    }
  }

  /** In every reachable table addresses of both families are pairwise distinct (revoked rows
      included), gateways are agents, and no active peer exits through a peer with an exit. */
  lemma {:induction false} EveryRun(net4: Prefix, net6: Option<Prefix>, txs: seq<Tx>)
    ensures Ok(Run(net4, net6, txs).rows)
  {
    if txs != [] {
      EveryRun(net4, net6, txs[..|txs| - 1]);
      ApplyOk(Run(net4, net6, txs[..|txs| - 1]), txs[|txs| - 1]);
    }
  }

  ghost predicate HousedRow(r: Row, net4: Prefix, net6: Option<Prefix>) {
    && r.ip4.Host? && ValidHost(net4, r.ip4.n)
    && (r.ip6.Some? ==> net6.Some? && r.ip6.value.Host? && ValidHost(net6.value, r.ip6.value.n))
  }

  /** Every row holds host addresses of the current networks, never a network address. */
  ghost predicate Housed(db: Db) {
    forall i :: i in db.rows ==> HousedRow(db.rows[i], db.net4, db.net6)
  }

  lemma NewAddrsHoused(db: Db)
    ensures var a := NewAddrs(db);
            a.Some? ==> && a.value.0.Host? && ValidHost(db.net4, a.value.0.n)
                        && (a.value.1.Some? ==> db.net6.Some? && a.value.1.value.Host?
                                                && ValidHost(db.net6.value, a.value.1.value.n))
  {
    FreeFromIsLowest(db.net4, Used4(db.rows), db.net4.base + 1);
    if db.net6.Some? {
      FreeFromIsLowest(db.net6.value, Used6(db.rows), db.net6.value.base + 1);
    }
  }

  lemma EnrollHoused(db: Db, id: Id, key: Key, authorized: bool)
    requires Housed(db)
    ensures Housed(Enroll(db, id, key, authorized).Or(db))
  {
    NewAddrsHoused(db);
    if db.net6.Some? {
      FreeFromIsLowest(db.net6.value, Used6(db.rows), db.net6.value.base + 1);
    }
  }

  lemma MigrateHoused(db: Db, ids: seq<Id>, t4: Prefix, t6: Prefix)
    requires Listing(db.rows, ids)
    ensures Migrate(db, ids, t4, t6).Some? ==> Housed(Migrate(db, ids, t4, t6).value)
  {
    var r := Migrate(db, ids, t4, t6);
    if r.Some? {
      forall i | i in r.value.rows
        ensures HousedRow(r.value.rows[i], t4, Some(t6))
      {
        var a :| 0 <= a < |ids| && ids[a] == i;
        MovedAt(db.rows, ids, FirstHosts(t4, |ids|).value, FirstHosts(t6, |ids|).value, |ids|, a);
      }
    }
  }

  lemma ApplyHoused(db: Db, tx: Tx)
    requires Housed(db)
    ensures Housed(Apply(db, tx))
  {
    if Possible(db, tx) {
      match tx
      case Enrolling(id, key, authorized) => EnrollHoused(db, id, key, authorized);
      case AddStatic(id, key, gateway) => NewAddrsHoused(db);
      case Renumber(ids, t4, t6) => MigrateHoused(db, ids, t4, t6);
      case _ =>
    }
  }

  /** In every reachable table all addresses are hosts of the current overlay networks. */
  lemma {:induction false} EveryAddressHoused(net4: Prefix, net6: Option<Prefix>, txs: seq<Tx>)
    ensures Housed(Run(net4, net6, txs))
  {
    if txs != [] {
      EveryAddressHoused(net4, net6, txs[..|txs| - 1]);
      ApplyHoused(Run(net4, net6, txs[..|txs| - 1]), txs[|txs| - 1]);
    }
  }

  /** The unique indexes hold after every single statement of a migration of a reachable
      table, whatever the old and new networks share. */
  lemma MigrationNeverCollides(net4: Prefix, net6: Option<Prefix>, txs: seq<Tx>,
                               ids: seq<Id>, t4: Prefix, t6: Prefix, n: nat)
    requires var rows := Run(net4, net6, txs).rows; Listing(rows, ids) && n <= |ids|
    ensures var rows := Run(net4, net6, txs).rows; Distinct(StagedRows(rows, ids, n))
    ensures var rows, h4, h6 := Run(net4, net6, txs).rows, FirstHosts(t4, |ids|), FirstHosts(t6, |ids|);
            h4.Some? && h6.Some? ==> Distinct(MovedRows(rows, ids, h4.value, h6.value, n))
  {
    EveryRun(net4, net6, txs);
    var rows := Run(net4, net6, txs).rows;
    StagedDistinct(rows, ids, n);
    if FirstHosts(t4, |ids|).Some? && FirstHosts(t6, |ids|).Some? {
      MovedDistinct(rows, ids, FirstHosts(t4, |ids|).value, FirstHosts(t6, |ids|).value, n);
    }
  }

  /** A new row's address is the lowest free host, at most one past the number of rows. */
  ghost predicate LowestFree(p: Prefix, used: set<Addr>, rows: nat, a: Addr) {
    && a.Host? && p.base < a.n && p.Contains(a.n) && a !in used
    && (forall h: nat :: p.base < h < a.n ==> Host(h) in used)
    && a.n - p.base <= rows + 1
  }

  lemma NewRowIsLowest(net4: Prefix, net6: Option<Prefix>, txs: seq<Tx>, id: Id, key: Key, agent: bool, gateway: Id)
    requires var db := Run(net4, net6, txs); Insert(db, id, key, agent, gateway).Some?
    ensures var db := Run(net4, net6, txs);
            var r := Insert(db, id, key, agent, gateway).value.rows[id];
            && LowestFree(db.net4, Used4(db.rows), |db.rows|, r.ip4)
            && r.ip6.Some? == db.net6.Some?
            && (r.ip6.Some? ==> LowestFree(db.net6.value, Used6(db.rows), |db.rows|, r.ip6.value))
  {
    EveryRun(net4, net6, txs);
    InsertExactly(Run(net4, net6, txs), id, key, agent, gateway);
  }

  ghost predicate Full(p: Prefix, used: set<Addr>) {
    forall h: nat :: p.base < h && p.Contains(h) ==> Host(h) in used
  }

  /** When every host of a network is taken, and only then, no row can be added. */
  lemma InsertFailsWhenFull(db: Db, id: Id, key: Key, agent: bool, gateway: Id)
    requires Ok(db.rows)
    ensures Insert(db, id, key, agent, gateway).None? <==>
            || Full(db.net4, Used4(db.rows))
            || (db.net6.Some? && Full(db.net6.value, Used6(db.rows)))
  {
    InsertExactly(db, id, key, agent, gateway);
  }

  // ---- the chain rule over all rows -----------------------------------------------------------

  /** As Unchained, but for revoked peers too. */
  ghost predicate AllUnchained(rows: Rows)
    requires Linked(rows)
  {
    forall i :: i in rows && rows[i].exit != 0 ==> rows[rows[i].exit].exit == 0
  }

  /** An exit assignment keeps the chain rule over all rows exactly when it clears, or no row at
      all, revoked or not, exits through the peer it is for. */
  lemma ChainFreeExactly(db: Db, id: Id, exit: Id)
    requires Ok(db.rows) && AllUnchained(db.rows) && SetExit(db, id, exit).Some?
    ensures Ok(SetExit(db, id, exit).value.rows)
    ensures AllUnchained(SetExit(db, id, exit).value.rows) <==>
            exit == 0 || forall i :: i in db.rows ==> db.rows[i].exit != id
  {
    SetExitOk(db, id, exit);
    var was, now := db.rows, SetExit(db, id, exit).value.rows;
    if exit != 0 {
      if i :| i in was && was[i].exit == id {
        assert now[i].exit == id && now[id].exit == exit;
      }
    }
  }

  lemma SameExits(was: Rows, now: Rows)
    requires Linked(was) && Linked(now) && AllUnchained(was)
    requires was.Keys == now.Keys && forall i :: i in was ==> now[i].exit == was[i].exit
    ensures AllUnchained(now)
  {
  }

  lemma InsertChainFree(db: Db, id: Id, key: Key, agent: bool, gateway: Id)
    requires Ok(db.rows) && AllUnchained(db.rows) && id !in db.rows && Insert(db, id, key, agent, gateway).Some?
    requires Ok(Insert(db, id, key, agent, gateway).value.rows)
    ensures AllUnchained(Insert(db, id, key, agent, gateway).value.rows)
  {
  }

  lemma RemoveChainFree(db: Db, id: Id)
    requires Ok(db.rows) && AllUnchained(db.rows) && Remove(db, id).Some? && Ok(Remove(db, id).value.rows)
    ensures AllUnchained(Remove(db, id).value.rows)
  {
  }

  lemma MigrateChainFree(db: Db, ids: seq<Id>, t4: Prefix, t6: Prefix)
    requires Ok(db.rows) && AllUnchained(db.rows) && Listing(db.rows, ids) && Migrate(db, ids, t4, t6).Some?
    requires Ok(Migrate(db, ids, t4, t6).value.rows)
    ensures AllUnchained(Migrate(db, ids, t4, t6).value.rows)
  {
    var was, now := db.rows, Migrate(db, ids, t4, t6).value.rows;
    forall i | i in was
      ensures now[i].exit == was[i].exit
    {
      var a :| 0 <= a < |ids| && ids[a] == i;
      MovedAt(was, ids, FirstHosts(t4, |ids|).value, FirstHosts(t6, |ids|).value, |ids|, a);
    }
    SameExits(was, now);
  }

  lemma EnrollChainFree(db: Db, id: Id, key: Key)
    requires Ok(db.rows) && AllUnchained(db.rows) && id != 0 && id !in db.rows && Enroll(db, id, key, true).Some?
    requires Ok(Enroll(db, id, key, true).value.rows)
    ensures AllUnchained(Enroll(db, id, key, true).value.rows)
  {
    if Has(db.rows, key) {
      SameExits(db.rows, Enroll(db, id, key, true).value.rows);
    } else {
      InsertChainFree(db, id, key, true, 0);
    }
  }

  lemma EditOne(rows: Rows, id: Id, r: Row)
    requires Linked(rows) && AllUnchained(rows) && id in rows && r.exit == rows[id].exit && Linked(rows[id := r])
    ensures AllUnchained(rows[id := r])
  {
    SameExits(rows, rows[id := r]);
  }

  lemma EditChainFree(db: Db, tx: Tx)
    requires Ok(db.rows) && AllUnchained(db.rows) && Possible(db, tx) && Try(db, tx).Some?
    requires Ok(Try(db, tx).value.rows)
    requires tx.Revoking? || tx.Readdress? || tx.Offer? || tx.AddRule? || tx.DropRule?
    ensures AllUnchained(Try(db, tx).value.rows)
  {
    var now := Try(db, tx).value.rows;
    if now != db.rows {
      EditOne(db.rows, tx.id, now[tx.id]);
    }
  }

  /** No other transaction makes a chain. */
  lemma OthersChainFree(db: Db, tx: Tx)
    requires Ok(db.rows) && AllUnchained(db.rows) && !tx.ExitVia?
    ensures Ok(Apply(db, tx).rows) && AllUnchained(Apply(db, tx).rows)
  {
    ApplyOk(db, tx);
    if Possible(db, tx) && Try(db, tx).Some? {
      match tx
      case Enrolling(id, key, _) => EnrollChainFree(db, id, key);
      case AddStatic(id, key, gateway) => InsertChainFree(db, id, key, false, gateway);
      case Removing(id) => RemoveChainFree(db, id);
      case Renumber(ids, t4, t6) => MigrateChainFree(db, ids, t4, t6);
      case _ => EditChainFree(db, tx);
    }
  }

  // A run in which the rule over all rows breaks: peer 1 exits through 2 and is revoked, then 2
  // takes 3 as its exit.

  const SmallNet: Prefix := Prefix(0, 8)

  function Agent(key: Key, host: nat, offers: bool, exit: Id, revoked: bool): Row {
    Row(key, Host(host), None, true, 0, offers, exit, revoked)
  }

  function Three(offer2: bool, offer3: bool, exit1: Id, revoked1: bool, exit2: Id): Db {
    Db(map[1 := Agent("a", 1, false, exit1, revoked1), 2 := Agent("bb", 2, offer2, exit2, false),
           3 := Agent("ccc", 3, offer3, 0, false)], {}, SmallNet, None)
  }

  function One(): Db {
    Db(map[1 := Agent("a", 1, false, 0, false)], {}, SmallNet, None)
  }

  function Two(): Db {
    Db(map[1 := Agent("a", 1, false, 0, false), 2 := Agent("bb", 2, false, 0, false)], {}, SmallNet, None)
  }

  lemma FirstEnrolls()
    ensures Apply(Db(map[], {}, SmallNet, None), Enrolling(1, "a", true)) == One()
  {
    assert Used4(map[]) == {};
  }

  lemma SecondEnrolls()
    ensures Apply(One(), Enrolling(2, "bb", true)) == Two()
  {
    var rows := One().rows;
    assert rows[1].ip4 in Used4(rows);
    assert Used4(rows) == {Host(1)};
    assert |"a"| != |"bb"|;
  }

  lemma ThirdEnrolls()
    ensures Apply(Two(), Enrolling(3, "ccc", true)) == Three(false, false, 0, false, 0)
  {
    var rows := Two().rows;
    assert rows[1].ip4 in Used4(rows) && rows[2].ip4 in Used4(rows);
    assert Used4(rows) == {Host(1), Host(2)};
    assert FreeFrom(SmallNet, {Host(1), Host(2)}, 3) == Some(3);
    assert |"a"| != |"ccc"| && |"bb"| != |"ccc"|;
  }

  lemma BothOffer()
    ensures Apply(Three(false, false, 0, false, 0), Offer(2, true)) == Three(true, false, 0, false, 0)
    ensures Apply(Three(true, false, 0, false, 0), Offer(3, true)) == Three(true, true, 0, false, 0)
  {
  }

  lemma ExitsChange()
    ensures Apply(Three(true, true, 0, false, 0), ExitVia(1, 2)) == Three(true, true, 2, false, 0)
    ensures Apply(Three(true, true, 2, false, 0), Revoking(1)) == Three(true, true, 2, true, 0)
    ensures Apply(Three(true, true, 2, true, 0), ExitVia(2, 3)) == Three(true, true, 2, true, 3)
  {
  }

  function ChainingRun(): seq<Tx> {
    [Enrolling(1, "a", true), Enrolling(2, "bb", true), Enrolling(3, "ccc", true), Offer(2, true), Offer(3, true),
     ExitVia(1, 2), Revoking(1), ExitVia(2, 3)]
  }

  lemma RunOne(txs: seq<Tx>, n: nat)
    requires n < |txs|
    ensures Run(SmallNet, None, txs[..n + 1]) == Apply(Run(SmallNet, None, txs[..n]), txs[n])
  {
    assert txs[..n + 1][..n] == txs[..n];
  }

  /** The chain rule covers active clients only: after this run the revoked peer 1 still names
      peer 2 as its exit node, and peer 2 has one of its own. */
  lemma RevokedClientMayChain()
    ensures var rows := Run(SmallNet, None, ChainingRun()).rows;
            && Ok(rows) && 1 in rows && rows[1].revoked && rows[1].exit == 2
            && 2 in rows && rows[2].exit == 3 && !AllUnchained(rows)
  {
    var txs := ChainingRun();
    assert Run(SmallNet, None, txs[..3]) == Three(false, false, 0, false, 0) by {
      FirstEnrolls();
      SecondEnrolls();
      ThirdEnrolls();
      RunOne(txs, 0);
      RunOne(txs, 1);
      RunOne(txs, 2);
    }
    assert Run(SmallNet, None, txs[..8]) == Three(true, true, 2, true, 3) by {
      BothOffer();
      ExitsChange();
      RunOne(txs, 3);
      RunOne(txs, 4);
      RunOne(txs, 5);
      RunOne(txs, 6);
      RunOne(txs, 7);
    }
    assert txs[..8] == txs;
    EveryRun(SmallNet, None, txs);
  }

  lemma StageOne(rows: Rows, ids: seq<Id>, n: nat)
    requires Listing(rows, ids) && n < |ids|
    ensures var before := StagedRows(rows, ids, n);
            StagedRows(rows, ids, n + 1)
            == before[ids[n] := before[ids[n]].(ip4 := Staged(ids[n]), ip6 := Some(Staged(ids[n])))]
  {
    assert ids[..n + 1] == ids[..n] + [ids[n]];
  }

  lemma PlaceOne(rows: Rows, ids: seq<Id>, h4: seq<nat>, h6: seq<nat>, n: nat)
    requires Listing(rows, ids) && n < |ids| == |h4| == |h6|
    ensures var before := MovedRows(rows, ids, h4, h6, n);
            MovedRows(rows, ids, h4, h6, n + 1) == before[ids[n] := Moved(before[ids[n]], h4[n], h6[n])]
  {
  }

  ghost predicate AllDistinct(steps: seq<Rows>) {
    forall t <- steps :: Distinct(t)
  }

  lemma OneMoreDistinct(steps: seq<Rows>, t: Rows)
    requires AllDistinct(steps) && Distinct(t)
    ensures AllDistinct(steps + [t])
  {
  }

  /** The table after each of the first n staging updates. */
  ghost function StagingSteps(rows: Rows, ids: seq<Id>, n: nat): (steps: seq<Rows>)
    requires Listing(rows, ids) && n <= |ids|
    ensures |steps| == n
  {
    if n == 0 then [] else StagingSteps(rows, ids, n - 1) + [StagedRows(rows, ids, n)]
  }

  lemma {:induction false} StagingDistinct(rows: Rows, ids: seq<Id>, n: nat)
    requires Ok(rows) && Listing(rows, ids) && n <= |ids|
    ensures AllDistinct(StagingSteps(rows, ids, n))
  {
    if n > 0 {
      StagingDistinct(rows, ids, n - 1);
      StagedDistinct(rows, ids, n);
      OneMoreDistinct(StagingSteps(rows, ids, n - 1), StagedRows(rows, ids, n));
    }
  }

  /** The table after each of the first n final updates. */
  ghost function PlacingSteps(rows: Rows, ids: seq<Id>, h4: seq<nat>, h6: seq<nat>, n: nat): (steps: seq<Rows>)
    requires Listing(rows, ids) && n <= |ids| == |h4| == |h6|
    ensures |steps| == n
  {
    if n == 0 then [] else PlacingSteps(rows, ids, h4, h6, n - 1) + [MovedRows(rows, ids, h4, h6, n)]
  }

  lemma {:induction false} PlacingDistinct(rows: Rows, ids: seq<Id>, h4: seq<nat>, h6: seq<nat>, n: nat)
    requires Listing(rows, ids) && n <= |ids| == |h4| == |h6| && Rising(h4) && Rising(h6)
    ensures AllDistinct(PlacingSteps(rows, ids, h4, h6, n))
  {
    if n > 0 {
      PlacingDistinct(rows, ids, h4, h6, n - 1);
      MovedDistinct(rows, ids, h4, h6, n);
      OneMoreDistinct(PlacingSteps(rows, ids, h4, h6, n - 1), MovedRows(rows, ids, h4, h6, n));
    }
  }

  // ---- the store object -----------------------------------------------------------------

  // ---- what each transaction writes ---------------------------------------------------------

  ghost predicate NoRoom(db: Db) {
    Full(db.net4, Used4(db.rows)) || (db.net6.Some? && Full(db.net6.value, Used6(db.rows)))
  }

  /** The table gains one row, at the lowest free host of each network, that neither offers nor
      uses an exit node. */
  ghost predicate NewRow(db: Db, id: Id, key: Key, agent: bool, gateway: Id, after: Rows) {
    && id in after
    && after == db.rows[id := Row(key, after[id].ip4, after[id].ip6, agent, gateway, false, 0, false)]
    && LowestFree(db.net4, Used4(db.rows), |db.rows|, after[id].ip4)
    && after[id].ip6.Some? == db.net6.Some?
    && (db.net6.Some? ==> LowestFree(db.net6.value, Used6(db.rows), |db.rows|, after[id].ip6.value))
  }

  lemma InsertExactly(db: Db, id: Id, key: Key, agent: bool, gateway: Id)
    requires Placed(db.rows)
    ensures var r := Insert(db, id, key, agent, gateway);
            if NoRoom(db) then r.None?
            else r.Some? && r.value == db.(rows := r.value.rows) && NewRow(db, id, key, agent, gateway, r.value.rows)
  {
    AllocationIsLowest(db.net4, db.rows, Used4(db.rows));
    if db.net6.Some? {
      AllocationIsLowest(db.net6.value, db.rows, Used6(db.rows));
    }
  }

  /** A returning peer keeps its row. It gains the lowest free IPv6 host when it has none and the
      network has IPv6, and is turned away only when that network is full. */
  ghost predicate Returned(db: Db, id: Id, ok: bool, after: Rows)
    requires id in db.rows
  {
    if db.net6.None? || db.rows[id].ip6.Some? then ok && after == db.rows
    else
      && ok == !Full(db.net6.value, Used6(db.rows))
      && (!ok ==> after == db.rows)
      && (ok ==> && id in after && after == db.rows[id := db.rows[id].(ip6 := after[id].ip6)]
                 && after[id].ip6.Some?
                 && LowestFree(db.net6.value, Used6(db.rows), |db.rows|, after[id].ip6.value))
  }

  lemma ReEnrollExactly(db: Db, id: Id)
    requires Placed(db.rows) && id in db.rows
    ensures var r := ReEnroll(db, id);
            && (r.Some? ==> r.value == db.(rows := r.value.rows))
            && Returned(db, id, r.Some?, r.Or(db).rows)
  {
    if db.net6.Some? {
      AllocationIsLowest(db.net6.value, db.rows, Used6(db.rows));
    }
  }

  /** Row k of a migrated listing sits at host k + 1 of both networks and is otherwise as before. */
  ghost predicate Renumbered(was: Rows, ids: seq<Id>, t4: Prefix, t6: Prefix, after: Rows)
    requires Listing(was, ids)
  {
    && after.Keys == was.Keys
    && (forall k :: 0 <= k < |ids| ==>
          after[ids[k]] == was[ids[k]].(ip4 := Host(t4.base + 1 + k), ip6 := Some(Host(t6.base + 1 + k))))
  }

  lemma MigrateExactly(db: Db, ids: seq<Id>, t4: Prefix, t6: Prefix)
    requires Listing(db.rows, ids)
    ensures var r := Migrate(db, ids, t4, t6);
            && (r.Some? <==> |ids| == 0 || (|ids| < t4.size && |ids| < t6.size))
            && (r.Some? ==> && r.value == Db(r.value.rows, db.rules, t4, Some(t6))
                            && Renumbered(db.rows, ids, t4, t6, r.value.rows))
  {
    var r := Migrate(db, ids, t4, t6);
    if r.Some? {
      forall k | 0 <= k < |ids|
        ensures r.value.rows[ids[k]] ==
                db.rows[ids[k]].(ip4 := Host(t4.base + 1 + k), ip6 := Some(Host(t6.base + 1 + k)))
      {
        MovedAt(db.rows, ids, FirstHosts(t4, |ids|).value, FirstHosts(t6, |ids|).value, |ids|, k);
      }
    }
  }

  class PeerStore {
    var rows: Rows
    var rules: set<Rule>
    var net4: Prefix
    var net6: Option<Prefix>

    ghost function View(): Db
      reads this
    {
      Db(rows, rules, net4, net6)
    }

    constructor (network4: Prefix, network6: Option<Prefix>)
      ensures View() == Run(network4, network6, [])
    {
      rows, rules, net4, net6 := map[], {}, network4, network6;
    }

    /** The non-null values of a column, in whatever order the query yields them. */
    method Columns() returns (c4: seq<Addr>, c6: seq<Addr>)
      ensures (set a | a in c4) == Used4(rows) && (set a | a in c6) == Used6(rows)
    {
      c4, c6 := [], [];
      var left := rows.Keys;
      while left != {}
        invariant left <= rows.Keys
        invariant forall a :: a in c4 <==> exists i :: i in rows.Keys - left && rows[i].ip4 == a
        invariant forall a :: a in c6 <==> exists i :: i in rows.Keys - left && rows[i].ip6 == Some(a)
        decreases |left|
      {
        var i :| i in left;
        left := left - {i};
        c4 := c4 + [rows[i].ip4];
        if rows[i].ip6.Some? {
          c6 := c6 + [rows[i].ip6.value];
        }
      }
    }

    method AllocateBoth() returns (addrs: Option<(Addr, Option<Addr>)>)
      ensures addrs == NewAddrs(View())
    {
      var c4, c6 := Columns();
      var a4 := AllocateAddr(net4, c4);
      if a4.None? {
        return None;
      }
      if net6.None? {
        return Some((Host(a4.value), None));
      }
      var a6 := AllocateAddr(net6.value, c6);
      if a6.None? {
        return None;
      }
      return Some((Host(a4.value), Some(Host(a6.value))));
    }

    method FindKey(key: Key) returns (found: Option<Id>)
      ensures found.Some? ==> found.value in rows && rows[found.value].key == key
      ensures found.None? ==> !Has(rows, key)
    {
      var left := rows.Keys;
      while left != {}
        invariant left <= rows.Keys
        invariant forall i :: i in rows && rows[i].key == key ==> i in left
        decreases |left|
      {
        var i :| i in left;
        left := left - {i};
        if rows[i].key == key {
          return Some(i);
        }
      }
      return None;
    }

    method EnrollPeer(id: Id, key: Key, authorized: bool) returns (ok: bool)
      requires Ok(rows) && id != 0 && id !in rows
      modifies this`rows
      ensures View() == Apply(old(View()), Enrolling(id, key, authorized)) && Ok(rows)
      ensures ok == Enroll(old(View()), id, key, authorized).Some?
      ensures !authorized ==> !ok && rows == old(rows)
      ensures authorized && !Has(old(rows), key) ==>
                && ok == !NoRoom(old(View()))
                && if ok then NewRow(old(View()), id, key, true, 0, rows) else rows == old(rows)
      ensures forall j :: authorized && j in old(rows) && old(rows)[j].key == key ==>
                            Returned(old(View()), j, ok, rows)
    {
      InsertExactly(View(), id, key, true, 0);
      ApplyOk(View(), Enrolling(id, key, authorized));
      if !authorized {
        return false;
      }
      var existing := FindKey(key);
      if existing.Some? {
        ReEnrollExactly(View(), existing.value);
        ok := ReEnrollPeer(existing.value);
        return;
      }
      var addrs := AllocateBoth();
      if addrs.None? {
        return false;
      }
      rows := rows[id := Row(key, addrs.value.0, addrs.value.1, true, 0, false, 0, false)];
      return true;
    }

    method ReEnrollPeer(id: Id) returns (ok: bool)
      requires id in rows
      modifies this`rows
      ensures View() == ReEnroll(old(View()), id).Or(old(View()))
      ensures ok == ReEnroll(old(View()), id).Some?
    {
      if net6.None? || rows[id].ip6.Some? {
        return true;
      }
      var _, c6 := Columns();
      var a6 := AllocateAddr(net6.value, c6);
      if a6.None? {
        return false;
      }
      rows := rows[id := rows[id].(ip6 := Some(Host(a6.value)))];
      return true;
    }

    method CreateStaticPeer(id: Id, key: Key, gateway: Id) returns (ok: bool)
      requires Ok(rows) && id != 0 && id !in rows
      modifies this`rows
      ensures View() == Apply(old(View()), AddStatic(id, key, gateway)) && Ok(rows)
      ensures ok <==> && key != "" && gateway in old(rows) && old(rows)[gateway].agent && !old(rows)[gateway].revoked
                      && (forall i <- old(rows) :: old(rows)[i].key != key) && !NoRoom(old(View()))
      ensures if ok then NewRow(old(View()), id, key, false, gateway, rows) else rows == old(rows)
    {
      ApplyOk(View(), AddStatic(id, key, gateway));
      if key == "" || gateway !in rows || rows[gateway].revoked || !rows[gateway].agent {
        return false;
      }
      var existing := FindKey(key);
      if existing.Some? {
        return false;
      }
      InsertExactly(View(), id, key, false, gateway);
      var addrs := AllocateBoth();
      if addrs.None? {
        return false;
      }
      rows := rows[id := Row(key, addrs.value.0, addrs.value.1, false, gateway, false, 0, false)];
      return true;
    }

    method RevokePeer(id: Id) returns (ok: bool)
      requires Ok(rows)
      modifies this`rows
      ensures View() == Apply(old(View()), Revoking(id)) && Ok(rows)
      ensures ok == (id in old(rows) && !old(rows)[id].revoked)
      ensures rows == if ok then old(rows)[id := old(rows)[id].(revoked := true)] else old(rows)
    {
      ApplyOk(View(), Revoking(id));
      ok := id in rows && !rows[id].revoked;
      if ok {
        rows := rows[id := rows[id].(revoked := true)];
      }
    }

    method RemovePeer(id: Id) returns (ok: bool)
      requires Ok(rows)
      modifies this`rows, this`rules
      ensures View() == Apply(old(View()), Removing(id)) && Ok(rows)
      ensures ok == (id in old(rows) && old(rows)[id].revoked)
      ensures ok ==> rows.Keys == old(rows).Keys - {id}
      ensures ok ==> forall i <- rows ::
                       var was := old(rows)[i];
                       rows[i] == was.(gateway := if was.gateway == id then 0 else was.gateway,
                                       exit := if was.exit == id then 0 else was.exit)
      ensures ok ==> forall r :: r in rules <==> r in old(rules) && r.src != Some(id) && r.dst != Some(id)
      ensures !ok ==> rows == old(rows) && rules == old(rules)
    {
      ApplyOk(View(), Removing(id));
      ok := id in rows && rows[id].revoked;
      if ok {
        rows := map i | i in rows && i != id :: Unlink(rows[i], id);
        rules := set r | r in rules && r.src != Some(id) && r.dst != Some(id);
      }
    }

    method UpdatePeerAddress(id: Id, a4: nat, a6: Option<nat>) returns (ok: bool)
      requires Ok(rows)
      modifies this`rows
      ensures View() == Apply(old(View()), Readdress(id, a4, a6)) && Ok(rows)
      ensures ok <==> && id in old(rows) && !old(rows)[id].revoked && a6.Some? == net6.Some?
                      && net4.base < a4 < net4.base + net4.size
                      && (forall i <- old(rows) :: i != id ==> old(rows)[i].ip4 != Host(a4))
                      && (a6.Some? ==>
                            && net6.value.base < a6.value < net6.value.base + net6.value.size
                            && (forall i <- old(rows) :: i != id ==> old(rows)[i].ip6 != Some(Host(a6.value))))
      ensures rows == if !ok then old(rows)
                      else if a6.None? then old(rows)[id := old(rows)[id].(ip4 := Host(a4), ip6 := None)]
                      else old(rows)[id := old(rows)[id].(ip4 := Host(a4), ip6 := Some(Host(a6.value)))]
    {
      ApplyOk(View(), Readdress(id, a4, a6));
      if !ValidHost(net4, a4) {
        return false;
      }
      if net6.Some? {
        if a6.None? || !ValidHost(net6.value, a6.value) {
          return false;
        }
      } else if a6.Some? {
        return false;
      }
      if !Free4(rows, id, a4) || (a6.Some? && !Free6(rows, id, a6.value)) || id !in rows || rows[id].revoked {
        return false;
      }
      rows := rows[id := rows[id].(ip4 := Host(a4), ip6 := if a6.Some? then Some(Host(a6.value)) else None)];
      return true;
    }

    method SetAdvertiseExitNode(id: Id, on: bool)
      requires Ok(rows)
      modifies this`rows
      ensures View() == Apply(old(View()), Offer(id, on)) && Ok(rows)
      ensures rows == if id in old(rows) then old(rows)[id := old(rows)[id].(advertise := on)] else old(rows)
    {
      ApplyOk(View(), Offer(id, on));
      if id in rows {
        rows := rows[id := rows[id].(advertise := on)];
      }
    }

    method SetExitNode(id: Id, exit: Id) returns (ok: bool)
      requires Ok(rows)
      modifies this`rows
      ensures View() == Apply(old(View()), ExitVia(id, exit)) && Ok(rows)
      ensures ok <==> && id in old(rows) && !old(rows)[id].revoked && old(rows)[id].agent
                      && (exit != 0 ==>
                            && exit != id && exit in old(rows) && !old(rows)[exit].revoked && old(rows)[exit].agent
                            && old(rows)[exit].advertise && old(rows)[exit].exit == 0
                            && (forall i <- old(rows) :: old(rows)[i].exit == id ==> old(rows)[i].revoked))
      ensures rows == if ok then old(rows)[id := old(rows)[id].(exit := exit)] else old(rows)
    {
      ApplyOk(View(), ExitVia(id, exit));
      if (id == exit && exit != 0) || id !in rows || rows[id].revoked || !rows[id].agent {
        return false;
      }
      if exit != 0 && !MayExitVia(rows, id, exit) {
        return false;
      }
      rows := rows[id := rows[id].(exit := exit)];
      return true;
    }

    static method FirstOverlayHosts(p: Prefix, n: nat) returns (r: Option<seq<nat>>)
      ensures r == FirstHosts(p, n)
      ensures r.Some? <==> n == 0 || n < p.size
      ensures r.Some? ==> |r.value| == n && forall i :: 0 <= i < n ==> r.value[i] == p.base + 1 + i
    {
      if n == 0 {
        assert [] == seq(n, i => p.base + 1 + i);
        return Some([]);
      }
      var out: seq<nat> := [];
      var ip := p.base + 1;
      while p.Contains(ip)
        invariant |out| < n && ip == p.base + 1 + |out| && (p.size == 0 || ip <= p.base + p.size)
        invariant forall i :: 0 <= i < |out| ==> out[i] == p.base + 1 + i
        decreases p.base + p.size - ip
      {
        out := out + [ip];
        if |out| == n {
          assert out == seq(n, i => p.base + 1 + i);
          return Some(out);
        }
        ip := ip + 1;
      }
      return None;
    }

    /** Parks every listed row. `steps` holds the table after each update; the unique indexes hold
        in every one. */
    method StagePeers(ids: seq<Id>) returns (ghost steps: seq<Rows>)
      requires Ok(rows) && Listing(rows, ids)
      modifies this`rows
      ensures rows == StagedRows(old(rows), ids, |ids|)
      ensures steps == StagingSteps(old(rows), ids, |ids|) && AllDistinct(steps)
    {
      steps := [];
      for n := 0 to |ids|
        invariant rows == StagedRows(old(rows), ids, n)
        invariant steps == StagingSteps(old(rows), ids, n)
      {
        StageOne(old(rows), ids, n);
        rows := rows[ids[n] := rows[ids[n]].(ip4 := Staged(ids[n]), ip6 := Some(Staged(ids[n])))];
        steps := steps + [rows];
      }
      StagingDistinct(old(rows), ids, |ids|);
    }

    /** Gives every parked row its new hosts. `steps` holds the table after each update; the unique
        indexes hold in every one. */
    method PlacePeers(ids: seq<Id>, h4: seq<nat>, h6: seq<nat>, ghost start: Rows) returns (ghost steps: seq<Rows>)
      requires Listing(start, ids) && rows == StagedRows(start, ids, |ids|)
      requires |ids| == |h4| == |h6| && Rising(h4) && Rising(h6)
      modifies this`rows
      ensures rows == MovedRows(start, ids, h4, h6, |ids|)
      ensures steps == PlacingSteps(start, ids, h4, h6, |ids|) && AllDistinct(steps)
    {
      steps := [];
      for n := 0 to |ids|
        invariant rows == MovedRows(start, ids, h4, h6, n)
        invariant steps == PlacingSteps(start, ids, h4, h6, n)
      {
        PlaceOne(start, ids, h4, h6, n);
        rows := rows[ids[n] := Moved(rows[ids[n]], h4[n], h6[n])];
        steps := steps + [rows];
      }
      PlacingDistinct(start, ids, h4, h6, |ids|);
    }

    method ApplyNetworkMigration(ids: seq<Id>, t4: Prefix, t6: Prefix) returns (ok: bool, ghost steps: seq<Rows>)
      requires Ok(rows) && Listing(rows, ids)
      modifies this`rows, this`net4, this`net6
      ensures View() == Apply(old(View()), Renumber(ids, t4, t6)) && Ok(rows)
      ensures ok <==> |ids| == 0 || (|ids| < t4.size && |ids| < t6.size)
      ensures if ok then Renumbered(old(rows), ids, t4, t6, rows) && net4 == t4 && net6 == Some(t6)
              else View() == old(View())
      ensures |steps| == (if ok then 2 * |ids| else 0) && AllDistinct(steps)
    {
      ApplyOk(View(), Renumber(ids, t4, t6));
      MigrateExactly(View(), ids, t4, t6);
      var h4 := FirstOverlayHosts(t4, |ids|);
      var h6 := FirstOverlayHosts(t6, |ids|);
      if h4.None? || h6.None? {
        return false, [];
      }
      ghost var staged := StagePeers(ids);
      ghost var placed := PlacePeers(ids, h4.value, h6.value, old(rows));
      net4, net6 := t4, Some(t6);
      return true, staged + placed;
    }
  }
}

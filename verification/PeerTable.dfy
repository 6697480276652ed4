/** Every transaction on the peer table as an atomic step, the invariants each keeps, and the
    store object whose methods perform them. A transaction that fails gives None and changes
    nothing. Ids are chosen by the database; whether a setup key is accepted is an input. */
module PeerTable {

  import opened Wrappers
  import opened Keys
  import opened Store

  // ---- invariants -----------------------------------------------------------------------

  ghost predicate Distinct4(rows: Rows) {
    forall i, j :: i in rows && j in rows && i != j ==> rows[i].ip4 != rows[j].ip4
  }

  ghost predicate Distinct6(rows: Rows) {
    forall i, j :: i in rows && j in rows && i != j && rows[i].ip6.Some? ==> rows[i].ip6 != rows[j].ip6
  }

  /** What the unique indexes demand, revoked rows included. */
  ghost predicate Distinct(rows: Rows) {
    Distinct4(rows) && Distinct6(rows)
  }

  ghost predicate Placed(rows: Rows) {
    forall i :: i in rows ==> rows[i].ip4.Host? && (rows[i].ip6.Some? ==> rows[i].ip6.value.Host?)
  }

  ghost predicate KeysDiffer(rows: Rows) {
    forall i, j :: i in rows && j in rows && i != j ==> rows[i].key != rows[j].key
  }

  /** References name rows. Only static peers have a gateway, only agents an exit; both are agents. */
  ghost predicate Linked(rows: Rows) {
    && 0 !in rows
    && (forall i :: i in rows && rows[i].gateway != 0 ==>
          !rows[i].agent && rows[i].gateway in rows && rows[rows[i].gateway].agent)
    && (forall i :: i in rows && rows[i].exit != 0 ==>
          rows[i].agent && rows[i].exit in rows && rows[rows[i].exit].agent)
  }

  /** No active peer exits through a peer that has an exit itself, and none through itself. */
  ghost predicate Unchained(rows: Rows)
    requires Linked(rows)
  {
    && (forall i :: i in rows ==> rows[i].exit != i)
    && (forall i :: i in rows && !rows[i].revoked && rows[i].exit != 0 ==> rows[rows[i].exit].exit == 0)
  }

  ghost predicate Ok(rows: Rows) {
    && Distinct(rows) && Placed(rows) && KeysDiffer(rows)
    && Linked(rows) && Unchained(rows)
  }

  // ---- transactions ---------------------------------------------------------------------

  predicate Has(rows: Rows, key: Key) {
    exists i :: i in rows && rows[i].key == key
  }

  /** The addresses a new row gets, or None when a network is full. */
  function NewAddrs(db: Db): Option<(Addr, Option<Addr>)> {
    var a4 := Allocate(db.net4, Used4(db.rows));
    var a6 := if db.net6.Some? then Allocate(db.net6.value, Used6(db.rows)) else None;
    if a4.None? || (db.net6.Some? && a6.None?) then None
    else Some((Host(a4.value), if a6.Some? then Some(Host(a6.value)) else None))
  }

  function Insert(db: Db, id: Id, key: Key, agent: bool, gateway: Id): Option<Db> {
    var addrs := NewAddrs(db);
    if addrs.None? then None
    else Some(db.(rows := db.rows[id := Row(key, addrs.value.0, addrs.value.1, agent, gateway, false, 0, false)]))
  }

  /** A returning peer keeps its row; it gains an IPv6 address if it had none. */
  function ReEnroll(db: Db, id: Id): Option<Db>
    requires id in db.rows
  {
    if db.net6.None? || db.rows[id].ip6.Some? then Some(db)
    else
      var a6 := Allocate(db.net6.value, Used6(db.rows));
      if a6.None? then None
      else Some(db.(rows := db.rows[id := db.rows[id].(ip6 := Some(Host(a6.value)))]))
  }

  function CreateStatic(db: Db, id: Id, key: Key, gateway: Id): Option<Db> {
    if key == "" || gateway !in db.rows || db.rows[gateway].revoked || !db.rows[gateway].agent
       || Has(db.rows, key) then None
    else Insert(db, id, key, false, gateway)
  }

  function Revoke(db: Db, id: Id): Option<Db> {
    if id !in db.rows || db.rows[id].revoked then None
    else Some(db.(rows := db.rows[id := db.rows[id].(revoked := true)]))
  }

  function Unlink(r: Row, id: Id): Row {
    r.(gateway := if r.gateway == id then 0 else r.gateway, exit := if r.exit == id then 0 else r.exit)
  }

  /** Deleting a revoked row clears the references to it and drops its rules. */
  function Remove(db: Db, id: Id): Option<Db> {
    if id !in db.rows || !db.rows[id].revoked then None
    else Some(db.(rows := map i | i in db.rows && i != id :: Unlink(db.rows[i], id),
                  rules := set r | r in db.rules && r.src != Some(id) && r.dst != Some(id)))
  }

  predicate ValidHost(p: Prefix, a: nat) {
    p.Contains(a) && a != p.base
  }

  predicate Free4(rows: Rows, id: Id, a: nat) {
    forall i :: i in rows && i != id ==> rows[i].ip4 != Host(a)
  }

  predicate Free6(rows: Rows, id: Id, a: nat) {
    forall i :: i in rows && i != id ==> rows[i].ip6 != Some(Host(a))
  }

  /** a6 is None when the field is blank. */
  function UpdateAddress(db: Db, id: Id, a4: nat, a6: Option<nat>): Option<Db> {
    if !ValidHost(db.net4, a4) then None
    else if db.net6.Some? && (a6.None? || !ValidHost(db.net6.value, a6.value)) then None
    else if db.net6.None? && a6.Some? then None
    else if !Free4(db.rows, id, a4) || (a6.Some? && !Free6(db.rows, id, a6.value)) then None
    else if id !in db.rows || db.rows[id].revoked then None
    else
      var next6 := if a6.Some? then Some(Host(a6.value)) else None;
      Some(db.(rows := db.rows[id := db.rows[id].(ip4 := Host(a4), ip6 := next6)]))
  }

  function Advertise(db: Db, id: Id, on: bool): Option<Db> {
    Some(if id in db.rows then db.(rows := db.rows[id := db.rows[id].(advertise := on)]) else db)
  }

  predicate Serves(rows: Rows, id: Id) {
    exists i :: i in rows && rows[i].exit == id && !rows[i].revoked
  }

  predicate MayExitVia(rows: Rows, id: Id, exit: Id) {
    && exit in rows && !rows[exit].revoked && rows[exit].agent && rows[exit].advertise && rows[exit].exit == 0
    && !Serves(rows, id)
  }

  function SetExit(db: Db, id: Id, exit: Id): Option<Db> {
    if (id == exit && exit != 0) || id !in db.rows || db.rows[id].revoked || !db.rows[id].agent then None
    else if exit != 0 && !MayExitVia(db.rows, id, exit) then None
    else Some(db.(rows := db.rows[id := db.rows[id].(exit := exit)]))
  }

  // ---- network migration, statement by statement ------------------------------------------

  /** The rows in id order, as the plan lists them. */
  ghost predicate Listing(rows: Rows, ids: seq<Id>) {
    && (forall i, j :: 0 <= i < j < |ids| ==> ids[i] < ids[j])
    && (forall id :: id in rows <==> id in ids)
  }

  /** The first n hosts, or None when the network is too small. */
  function FirstHosts(p: Prefix, n: nat): Option<seq<nat>> {
    if n == 0 || n < p.size then Some(seq(n, i => p.base + 1 + i)) else None
  }

  /** After the first n staging updates. */
  function StagedRows(rows: Rows, ids: seq<Id>, n: nat): Rows
    requires n <= |ids| && forall id <- ids :: id in rows
  {
    map i | i in rows :: if i in ids[..n] then rows[i].(ip4 := Staged(i), ip6 := Some(Staged(i))) else rows[i]
  }

  function Moved(r: Row, h4: nat, h6: nat): Row {
    r.(ip4 := Host(h4), ip6 := Some(Host(h6)))
  }

  /** After all staging updates and the first n final ones. */
  function MovedRows(rows: Rows, ids: seq<Id>, h4: seq<nat>, h6: seq<nat>, n: nat): (r: Rows)
    requires n <= |ids| == |h4| == |h6| && forall id <- ids :: id in rows
    ensures r.Keys == rows.Keys
  {
    if n == 0 then StagedRows(rows, ids, |ids|)
    else
      var before := MovedRows(rows, ids, h4, h6, n - 1);
      before[ids[n - 1] := Moved(before[ids[n - 1]], h4[n - 1], h6[n - 1])]
  }

  ghost function Migrate(db: Db, ids: seq<Id>, t4: Prefix, t6: Prefix): Option<Db>
    requires Listing(db.rows, ids)
  {
    var h4, h6 := FirstHosts(t4, |ids|), FirstHosts(t6, |ids|);
    if h4.None? || h6.None? then None
    else Some(Db(MovedRows(db.rows, ids, h4.value, h6.value, |ids|), db.rules, t4, Some(t6)))
  }

  // ---- each transaction keeps the invariant -------------------------------------------------

  lemma NewAddrsFree(db: Db)
    requires Placed(db.rows)
    ensures var a := NewAddrs(db);
            a.Some? ==> && a.value.0.Host? && a.value.0 !in Used4(db.rows)
                        && (a.value.1.Some? ==> a.value.1.value.Host? && a.value.1.value !in Used6(db.rows))
  {
    FreeFromIsLowest(db.net4, Used4(db.rows), db.net4.base + 1);
    if db.net6.Some? {
      FreeFromIsLowest(db.net6.value, Used6(db.rows), db.net6.value.base + 1);
    }
  }

  lemma UsedMeans(rows: Rows)
    ensures forall i :: i in rows ==> rows[i].ip4 in Used4(rows)
    ensures forall i :: i in rows && rows[i].ip6.Some? ==> rows[i].ip6.value in Used6(rows)
  {
  }

  /** One row may take addresses that no other row holds. */
  lemma PutDistinct(rows: Rows, id: Id, r: Row)
    requires Distinct(rows) && Placed(rows)
    requires forall i :: i in rows && i != id ==> rows[i].ip4 != r.ip4
    requires r.ip6.Some? ==> forall i :: i in rows && i != id ==> rows[i].ip6 != r.ip6
    requires r.ip4.Host? && (r.ip6.Some? ==> r.ip6.value.Host?)
    ensures Distinct(rows[id := r]) && Placed(rows[id := r])
  {
  }

  predicate SameLinks(a: Row, b: Row) {
    a.(ip4 := b.ip4, ip6 := b.ip6) == b
  }

  /** Changing addresses alone disturbs neither keys nor references. */
  lemma AddressesOnly(was: Rows, now: Rows)
    requires KeysDiffer(was) && Linked(was) && Unchained(was)
    requires was.Keys == now.Keys && forall i :: i in was ==> SameLinks(was[i], now[i])
    ensures KeysDiffer(now) && Linked(now) && Unchained(now)
  {
  }

  lemma NewKeyDiffers(rows: Rows, id: Id, r: Row)
    requires KeysDiffer(rows) && id !in rows && !Has(rows, r.key)
    ensures KeysDiffer(rows[id := r])
  {
    assert forall i :: i in rows ==> rows[i].key != r.key;
  }

  lemma NewRowLinked(rows: Rows, id: Id, r: Row)
    requires Linked(rows) && id !in rows && id != 0 && r.exit == 0
    requires r.gateway != 0 ==> !r.agent && r.gateway in rows && rows[r.gateway].agent
    ensures Linked(rows[id := r])
  {
  }

  lemma NewRowUnchained(rows: Rows, id: Id, r: Row)
    requires Linked(rows) && Unchained(rows) && id !in rows && id != 0 && r.exit == 0
    requires Linked(rows[id := r])
    ensures Unchained(rows[id := r])
  {
    var now := rows[id := r];
    forall i | i in now && !now[i].revoked && now[i].exit != 0
      ensures now[now[i].exit].exit == 0
    {
      assert i in rows && rows[i].exit in rows;
    }
  }

  lemma InsertOk(db: Db, id: Id, key: Key, agent: bool, gateway: Id)
    requires Ok(db.rows) && id !in db.rows && id != 0 && !Has(db.rows, key)
    requires gateway != 0 ==> !agent && gateway in db.rows && db.rows[gateway].agent
    ensures var r := Insert(db, id, key, agent, gateway); r.Some? ==> Ok(r.value.rows)
  {
    var r := Insert(db, id, key, agent, gateway);
    if r.Some? {
      var row := r.value.rows[id];
      NewKeyDiffers(db.rows, id, row);
      NewRowLinked(db.rows, id, row);
      NewRowUnchained(db.rows, id, row);
      assert Distinct(db.rows[id := row]) && Placed(db.rows[id := row]) by {
        NewAddrsFree(db);
        UsedMeans(db.rows);
        PutDistinct(db.rows, id, row);
      }
    }
  }

  lemma ReEnrollOk(db: Db, id: Id)
    requires Ok(db.rows) && id in db.rows
    ensures var r := ReEnroll(db, id); r.Some? ==> Ok(r.value.rows)
  {
    var r := ReEnroll(db, id);
    if r.Some? && r.value != db {
      var row := r.value.rows[id];
      AddressesOnly(db.rows, r.value.rows);
      assert Distinct(db.rows[id := row]) && Placed(db.rows[id := row]) by {
        FreeFromIsLowest(db.net6.value, Used6(db.rows), db.net6.value.base + 1);
        UsedMeans(db.rows);
        PutDistinct(db.rows, id, row);
      }
    }
  }

  lemma RemoveOk(db: Db, id: Id)
    requires Ok(db.rows)
    ensures var r := Remove(db, id); r.Some? ==> Ok(r.value.rows)
  {
    if Remove(db, id).Some? {
      var now := Remove(db, id).value.rows;
      RemovedDistinct(db.rows, id, now);
      RemovedLinks(db.rows, id, now);
    }
  }

  lemma RemovedDistinct(was: Rows, id: Id, now: Rows)
    requires Distinct(was) && Placed(was) && KeysDiffer(was)
    requires now == map i | i in was && i != id :: Unlink(was[i], id)
    ensures Distinct(now) && Placed(now) && KeysDiffer(now)
  {
  }

  lemma RemovedLinks(was: Rows, id: Id, now: Rows)
    requires Linked(was) && Unchained(was)
    requires now == map i | i in was && i != id :: Unlink(was[i], id)
    ensures Linked(now) && Unchained(now)
  {
  }

  lemma UpdateAddressOk(db: Db, id: Id, a4: nat, a6: Option<nat>)
    requires Ok(db.rows)
    ensures var r := UpdateAddress(db, id, a4, a6); r.Some? ==> Ok(r.value.rows)
  {
    var r := UpdateAddress(db, id, a4, a6);
    if r.Some? {
      AddressesOnly(db.rows, r.value.rows);
      PutDistinct(db.rows, id, r.value.rows[id]);
    }
  }

  lemma SetExitOk(db: Db, id: Id, exit: Id)
    requires Ok(db.rows)
    ensures var r := SetExit(db, id, exit); r.Some? ==> Ok(r.value.rows)
  {
    var r := SetExit(db, id, exit);
    if r.Some? {
      PutDistinct(db.rows, id, r.value.rows[id]);
      PutKeys(db.rows, id, r.value.rows[id]);
      ExitLinks(db.rows, id, exit);
    }
  }

  lemma ExitLinks(rows: Rows, id: Id, exit: Id)
    requires Linked(rows) && Unchained(rows) && id in rows && rows[id].agent && exit != id
    requires exit == 0 || MayExitVia(rows, id, exit)
    ensures Linked(rows[id := rows[id].(exit := exit)]) && Unchained(rows[id := rows[id].(exit := exit)])
  {
  }

  lemma PutKeys(rows: Rows, id: Id, r: Row)
    requires KeysDiffer(rows) && id in rows && r.key == rows[id].key
    ensures KeysDiffer(rows[id := r])
  {
  }

  /** Offering, or being revoked, leaves references alone; a revoked row is held to less. */
  lemma FlagLinks(rows: Rows, id: Id, r: Row)
    requires Linked(rows) && Unchained(rows) && id in rows
    requires r.(advertise := rows[id].advertise, revoked := rows[id].revoked) == rows[id]
    requires rows[id].revoked ==> r.revoked
    ensures Linked(rows[id := r]) && Unchained(rows[id := r])
  {
  }

  lemma AdvertiseOk(db: Db, id: Id, on: bool)
    requires Ok(db.rows)
    ensures Advertise(db, id, on).Some? && Ok(Advertise(db, id, on).value.rows)
  {
    if id in db.rows {
      var r := db.rows[id].(advertise := on);
      PutDistinct(db.rows, id, r);
      PutKeys(db.rows, id, r);
      FlagLinks(db.rows, id, r);
    }
  }

  lemma RevokeOk(db: Db, id: Id)
    requires Ok(db.rows)
    ensures Revoke(db, id).Some? ==> Ok(Revoke(db, id).value.rows)
  {
    if id in db.rows {
      var r := db.rows[id].(revoked := true);
      PutDistinct(db.rows, id, r);
      PutKeys(db.rows, id, r);
      FlagLinks(db.rows, id, r);
    }
  }

  lemma StagedDistinct(rows: Rows, ids: seq<Id>, n: nat)
    requires Ok(rows) && Listing(rows, ids) && n <= |ids|
    ensures Distinct(StagedRows(rows, ids, n))
  {
  }

  /** After n final updates the first n rows hold their new hosts and the rest are parked. */
  lemma {:induction false} MovedAt(rows: Rows, ids: seq<Id>, h4: seq<nat>, h6: seq<nat>, n: nat, k: nat)
    requires (forall i, j :: 0 <= i < j < |ids| ==> ids[i] < ids[j]) && forall id <- ids :: id in rows
    requires n <= |ids| == |h4| == |h6| && k < |ids|
    ensures MovedRows(rows, ids, h4, h6, n)[ids[k]] ==
            if k < n then Moved(rows[ids[k]], h4[k], h6[k])
            else rows[ids[k]].(ip4 := Staged(ids[k]), ip6 := Some(Staged(ids[k])))
  {
    if n == 0 {
      assert ids[k] in ids[..|ids|];
    } else {
      MovedAt(rows, ids, h4, h6, n - 1, k);
      if k != n - 1 {
        assert ids[k] != ids[n - 1];
      }
    }
  }

  ghost predicate Rising(hosts: seq<nat>) {
    forall i, j :: 0 <= i < j < |hosts| ==> hosts[i] < hosts[j]
  }

  lemma MovedDistinct(rows: Rows, ids: seq<Id>, h4: seq<nat>, h6: seq<nat>, n: nat)
    requires Listing(rows, ids) && n <= |ids| == |h4| == |h6| && Rising(h4) && Rising(h6)
    ensures Distinct(MovedRows(rows, ids, h4, h6, n))
  {
    var r := MovedRows(rows, ids, h4, h6, n);
    forall i, j | i in r && j in r && i != j
      ensures r[i].ip4 != r[j].ip4 && r[i].ip6 != r[j].ip6
    {
      var a :| 0 <= a < |ids| && ids[a] == i;
      var b :| 0 <= b < |ids| && ids[b] == j;
      MovedApart(rows, ids, h4, h6, n, a, b);
    }
  }

  lemma MovedApart(rows: Rows, ids: seq<Id>, h4: seq<nat>, h6: seq<nat>, n: nat, a: nat, b: nat)
    requires Listing(rows, ids) && n <= |ids| == |h4| == |h6| && Rising(h4) && Rising(h6)
    requires a < |ids| && b < |ids| && a != b
    ensures var r := MovedRows(rows, ids, h4, h6, n);
            r[ids[a]].ip4 != r[ids[b]].ip4 && r[ids[a]].ip6 != r[ids[b]].ip6
  {
    MovedAt(rows, ids, h4, h6, n, a);
    MovedAt(rows, ids, h4, h6, n, b);
  }

  lemma MigrateOk(db: Db, ids: seq<Id>, t4: Prefix, t6: Prefix)
    requires Ok(db.rows) && Listing(db.rows, ids)
    ensures var r := Migrate(db, ids, t4, t6); r.Some? ==> Ok(r.value.rows)
  {
    if Migrate(db, ids, t4, t6).Some? {
      var h4, h6 := FirstHosts(t4, |ids|).value, FirstHosts(t6, |ids|).value;
      AllMoved(db.rows, ids, h4, h6);
      AddressesOnly(db.rows, MovedRows(db.rows, ids, h4, h6, |ids|));
      MovedDistinct(db.rows, ids, h4, h6, |ids|);
    }
  }

  lemma AllMoved(rows: Rows, ids: seq<Id>, h4: seq<nat>, h6: seq<nat>)
    requires Listing(rows, ids) && |ids| == |h4| == |h6|
    ensures var now := MovedRows(rows, ids, h4, h6, |ids|);
            Placed(now) && forall i :: i in rows ==> SameLinks(rows[i], now[i])
  {
    var now := MovedRows(rows, ids, h4, h6, |ids|);
    forall i | i in rows
      ensures SameLinks(rows[i], now[i])
      ensures now[i].ip4.Host? && now[i].ip6.Some? && now[i].ip6.value.Host?
    {
      var a :| 0 <= a < |ids| && ids[a] == i;
      MovedAt(rows, ids, h4, h6, |ids|, a);
    }
  }
}

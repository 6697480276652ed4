/** The control plane's peer table (internal/store) and its transactions: enrollment, static
    peers, revocation, removal, address edits, exit-node assignment and network migration.
    Failed transactions roll back. */
module Store {

  import opened Wrappers
  import opened Keys

  /** Row ids; 0 stands for NULL in the references. */
  type Id = nat

  /** An overlay address as a number, or the text a migration parks a row under. */
  datatype Addr = Host(n: nat) | Staged(id: Id)

  datatype Prefix = Prefix(base: nat, size: nat) {
    predicate Contains(n: nat) {
      base <= n < base + size
    }
  }

  datatype Row = Row(key: Key, ip4: Addr, ip6: Option<Addr>, agent: bool, gateway: Id,
                     advertise: bool, exit: Id, revoked: bool)

  type Rows = map<Id, Row>

  /** An ALLOW rule; None is "any peer". */
  datatype Rule = Rule(src: Option<Id>, dst: Option<Id>)

  datatype Db = Db(rows: Rows, rules: set<Rule>, net4: Prefix, net6: Option<Prefix>)

  // ---- address allocation ---------------------------------------------------------------

  function Used4(rows: Rows): set<Addr> {
    set id | id in rows :: rows[id].ip4
  }

  function Used6(rows: Rows): set<Addr> {
    set id | id in rows && rows[id].ip6.Some? :: rows[id].ip6.value
  }

  /** The lowest free host from n on. */
  function FreeFrom(p: Prefix, used: set<Addr>, n: nat): Option<nat>
    decreases p.base + p.size - n
  {
    if !p.Contains(n) then None else if Host(n) !in used then Some(n) else FreeFrom(p, used, n + 1)
  }

  /** A row that does not parse as an address fails the allocation. */
  function Allocate(p: Prefix, used: set<Addr>): Option<nat> {
    if exists a <- used :: a.Staged? then None else FreeFrom(p, used, p.base + 1)
  }

  lemma {:induction false} FreeFromIsLowest(p: Prefix, used: set<Addr>, n: nat)
    requires p.base <= n
    ensures var r := FreeFrom(p, used, n);
            if r.None? then forall h: nat :: n <= h && p.Contains(h) ==> Host(h) in used
            else n <= r.value && p.Contains(r.value) && Host(r.value) !in used
                 && (forall h: nat :: n <= h < r.value ==> Host(h) in used)
    decreases p.base + p.size - n
  {
    if p.Contains(n) && Host(n) in used {
      FreeFromIsLowest(p, used, n + 1);
    }
  }

  method AllocateAddr(p: Prefix, column: seq<Addr>) returns (r: Option<nat>)
    ensures r == Allocate(p, set a | a in column)
  {
    var used: set<Addr> := {};
    for i := 0 to |column|
      invariant used == set a | a in column[..i]
      invariant forall a <- used :: a.Host?
    {
      if column[i].Staged? {
        assert column[i] in (set a | a in column);
        return None;
      }
      used := used + {column[i]};
    }
    assert column[..|column|] == column;
    var ip := p.base + 1;
    while p.Contains(ip)
      invariant p.base < ip && FreeFrom(p, used, p.base + 1) == FreeFrom(p, used, ip)
      decreases p.base + p.size - ip
    {
      if Host(ip) !in used {
        return Some(ip);
      }
      ip := ip + 1;
    }
    return None;
  }

  /** The hosts base + 1 up to but not including n. */
  function HostsBelow(base: nat, n: nat): (s: set<Addr>)
    requires base < n
    ensures |s| == n - base - 1
    ensures forall h: nat :: Host(h) in s <==> base < h < n
    ensures forall a <- s :: a.Host?
  {
    if n == base + 1 then {} else HostsBelow(base, n - 1) + {Host(n - 1)}
  }

  lemma {:induction false} ImageSize(rows: Rows, ids: set<Id>)
    requires ids <= rows.Keys
    ensures |set id | id in ids :: rows[id].ip4| <= |ids|
    ensures |set id | id in ids && rows[id].ip6.Some? :: rows[id].ip6.value| <= |ids|
    decreases |ids|
  {
    if ids != {} {
      var x :| x in ids;
      var rest := ids - {x};
      ImageSize(rows, rest);
      var all4, rest4 := (set id | id in ids :: rows[id].ip4), (set id | id in rest :: rows[id].ip4);
      assert all4 == rest4 + {rows[x].ip4};
      var all6, rest6 := (set id | id in ids && rows[id].ip6.Some? :: rows[id].ip6.value),
                         (set id | id in rest && rows[id].ip6.Some? :: rows[id].ip6.value);
      assert all6 == if rows[x].ip6.Some? then rest6 + {rows[x].ip6.value} else rest6;
    }
  }

  /** An allocation is the lowest free host, and with n rows it never lies further than n + 1
      from the network address; it fails on a full network only. */
  lemma AllocationIsLowest(p: Prefix, rows: Rows, used: set<Addr>)
    requires used == Used4(rows) || used == Used6(rows)
    requires forall a <- used :: a.Host?
    ensures var r := Allocate(p, used);
            if r.None? then forall h: nat :: p.base < h && p.Contains(h) ==> Host(h) in used
            else && p.base < r.value && p.Contains(r.value) && Host(r.value) !in used
                 && (forall h: nat :: p.base < h < r.value ==> Host(h) in used)
                 && r.value - p.base <= |rows| + 1
  {
    FreeFromIsLowest(p, used, p.base + 1);
    var r := Allocate(p, used);
    if r.Some? {
      SubsetSize(HostsBelow(p.base, r.value), used);
      ImageSize(rows, rows.Keys);
    }
  }
}

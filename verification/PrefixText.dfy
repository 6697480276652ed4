/** Comparing two allowed-IP lists as sorted, comma-joined text (cmd/agent sameAllowedIPs). */
module PrefixText {

  import opened Keys

  // ---- sorting --------------------------------------------------------------------------------

  lemma {:induction false} LessTransitive(a: string, b: string, c: string)
    requires Less(a, b) && Less(b, c)
    ensures Less(a, c)
    decreases |a|
  {
    if |a| > 0 && a[0] == b[0] && b[0] == c[0] {
      LessTransitive(a[1..], b[1..], c[1..]);
    }
  }

  ghost predicate Ordered(s: seq<string>) {
    forall i, j :: 0 <= i < j < |s| ==> !Less(s[j], s[i])
  }

  function Insert(s: seq<string>, x: string): seq<string> {
    if s == [] || Less(x, s[0]) then [x] + s else [s[0]] + Insert(s[1..], x)
  }

  function Sorted(s: seq<string>): seq<string> {
    if s == [] then [] else Insert(Sorted(s[..|s| - 1]), s[|s| - 1])
  }

  lemma {:induction false} InsertKeeps(s: seq<string>, x: string)
    ensures multiset(Insert(s, x)) == multiset(s) + multiset{x}
  {
    if s != [] && !Less(x, s[0]) {
      InsertKeeps(s[1..], x);
      assert s == [s[0]] + s[1..];
    }
  }

  lemma {:induction false} InsertOrders(s: seq<string>, x: string)
    requires Ordered(s)
    ensures Ordered(Insert(s, x))
  {
    if s == [] {
    } else if Less(x, s[0]) {
      forall i | 0 <= i < |s|
        ensures !Less(s[i], x)
      {
        if Less(s[i], x) {
          LessTransitive(s[i], x, s[0]);
          LessTotal(s[0], s[0]);
        }
      }
    } else {
      InsertOrders(s[1..], x);
      var r := Insert(s[1..], x);
      forall i | 0 <= i < |r|
        ensures !Less(r[i], s[0])
      {
        InsertKeeps(s[1..], x);
        assert r[i] in multiset(r);
        assert r[i] in s[1..] || r[i] == x;
      }
    }
  }

  lemma {:induction false} SortedSorts(s: seq<string>)
    ensures Ordered(Sorted(s)) && multiset(Sorted(s)) == multiset(s)
  {
    if s != [] {
      var rest, x := s[..|s| - 1], s[|s| - 1];
      SortedSorts(rest);
      InsertOrders(Sorted(rest), x);
      InsertKeeps(Sorted(rest), x);
      assert s == rest + [x];
    }
  }

  lemma SameFirst(a: seq<string>, b: seq<string>)
    requires Ordered(a) && Ordered(b) && multiset(a) == multiset(b) && a != []
    ensures b != [] && a[0] == b[0]
  {
    assert a[0] in multiset(b);
    assert b[0] in multiset(a);
    assert !Less(a[0], b[0]) && !Less(b[0], a[0]) by {
      LessTotal(a[0], a[0]);
      LessTotal(b[0], b[0]);
    }
    LessTotal(a[0], b[0]);
  }

  lemma {:induction false} OrderedUnique(a: seq<string>, b: seq<string>)
    requires Ordered(a) && Ordered(b) && multiset(a) == multiset(b)
    ensures a == b
    decreases |a|
  {
    if a == [] {
      assert |multiset(b)| == 0;
    } else {
      SameFirst(a, b);
      assert a == [a[0]] + a[1..] && b == [b[0]] + b[1..];
      assert multiset(a[1..]) == multiset(a) - multiset{a[0]};
      assert multiset(b[1..]) == multiset(b) - multiset{b[0]};
      OrderedUnique(a[1..], b[1..]);
    }
  }

  // ---- joining --------------------------------------------------------------------------------

  function Join(s: seq<string>): string {
    if s == [] then "" else if |s| == 1 then s[0] else s[0] + "," + Join(s[1..])
  }

  /** Printed prefixes hold no comma. */
  ghost predicate CommaFree(s: seq<string>) {
    forall x <- s :: ',' !in x
  }

  lemma SameHead(x: string, u: string, y: string, v: string)
    requires ',' !in x && ',' !in y && x + "," + u == y + "," + v
    ensures x == y && u == v
  {
    var t := x + "," + u;
    assert t[|x|] == ',' && (y + "," + v)[|y|] == ',';
    assert |x| == |y|;
    assert t[..|x|] == x && (y + "," + v)[..|y|] == y;
    assert t[|x| + 1..] == u && (y + "," + v)[|y| + 1..] == v;
  }

  lemma {:induction false} JoinInjective(a: seq<string>, b: seq<string>)
    requires |a| == |b| && CommaFree(a) && CommaFree(b) && Join(a) == Join(b)
    ensures a == b
  {
    if |a| > 1 {
      SameHead(a[0], Join(a[1..]), b[0], Join(b[1..]));
      JoinInjective(a[1..], b[1..]);
      assert a == [a[0]] + a[1..] && b == [b[0]] + b[1..];
    } else if |a| == 1 {
      assert a == [a[0]] && b == [b[0]];
    }
  }

  // ---- the comparison -------------------------------------------------------------------------

  method SortStrings(s: seq<string>) returns (r: seq<string>)
    ensures Ordered(r) && multiset(r) == multiset(s)
  {
    r := [];
    for i := 0 to |s|
      invariant r == Sorted(s[..i])
    {
      assert s[..i + 1][..i] == s[..i];
      r := Insert(r, s[i]);
    }
    assert s[..|s|] == s;
    SortedSorts(s);
  }

  lemma MembersSame(a: seq<string>, b: seq<string>)
    requires multiset(a) == multiset(b) && CommaFree(a)
    ensures CommaFree(b) && |a| == |b|
  {
    assert |multiset(a)| == |a| && |multiset(b)| == |b|;
    forall x | x in b
      ensures ',' !in x
    {
      assert x in multiset(b);
      assert x in a;
    }
  }

  /** The text comparison says whether the lists hold the same prefixes equally often. */
  method SameAllowedIPs(a: seq<string>, b: seq<string>) returns (same: bool)
    requires CommaFree(a) && CommaFree(b)
    ensures same <==> multiset(a) == multiset(b)
  {
    if |a| != |b| {
      assert |multiset(a)| != |multiset(b)|;
      return false;
    }
    var x := SortStrings(a);
    var y := SortStrings(b);
    MembersSame(a, x);
    MembersSame(b, y);
    same := Join(x) == Join(y);
    if same {
      JoinInjective(x, y);
    } else if multiset(a) == multiset(b) {
      OrderedUnique(x, y);
    }
  }
}

/** Endpoint candidates for a peer (cmd/server endpointCandidates, sortCandidates and
    pairCandidates): gathered without repeats, sorted stably by falling priority, cut to six. */
module Candidates {

  import opened Wrappers
  import opened Keys
  import UdpRelay

  datatype Candidate = Candidate(endpoint: string, kind: string, priority: int)

  /** A candidate as the agent reported it. */
  datatype Reported = Reported(endpoint: string, kind: string)

  const MAX_CANDIDATES := 6

  // ---- the stable sort ----------------------------------------------------------------------

  /** Puts c behind every candidate of at least its priority. */
  function Insert(s: seq<Candidate>, c: Candidate): seq<Candidate> {
    if s == [] || s[0].priority < c.priority then [c] + s else [s[0]] + Insert(s[1..], c)
  }

  function Sorted(s: seq<Candidate>): seq<Candidate> {
    if s == [] then [] else Insert(Sorted(s[..|s| - 1]), s[|s| - 1])
  }

  predicate Descending(s: seq<Candidate>) {
    forall i, j :: 0 <= i < j < |s| ==> s[i].priority >= s[j].priority
  }

  /** The candidates of one priority, in order. */
  function Of(s: seq<Candidate>, priority: int): seq<Candidate> {
    if s == [] then []
    else if s[0].priority == priority then [s[0]] + Of(s[1..], priority)
    else Of(s[1..], priority)
  }

  lemma {:induction false} InsertKeeps(s: seq<Candidate>, c: Candidate)
    ensures multiset(Insert(s, c)) == multiset(s) + multiset{c}
  {
    if s != [] && s[0].priority >= c.priority {
      InsertKeeps(s[1..], c);
      assert s == [s[0]] + s[1..];
    }
  }

  lemma InsertMembers(s: seq<Candidate>, c: Candidate, x: Candidate)
    ensures x in Insert(s, c) <==> x in s || x == c
  {
    InsertKeeps(s, c);
    assert x in Insert(s, c) <==> x in multiset(Insert(s, c));
  }

  lemma {:induction false} InsertSorts(s: seq<Candidate>, c: Candidate)
    requires Descending(s)
    ensures Descending(Insert(s, c))
  {
    if s != [] && s[0].priority >= c.priority {
      InsertSorts(s[1..], c);
      var r := Insert(s[1..], c);
      forall i | 0 <= i < |r|
        ensures r[i].priority <= s[0].priority
      {
        InsertMembers(s[1..], c, r[i]);
      }
    }
  }

  lemma {:induction false} OfAppend(s: seq<Candidate>, c: Candidate, priority: int)
    ensures Of(s + [c], priority) == Of(s, priority) + if c.priority == priority then [c] else []
  {
    if s != [] {
      OfAppend(s[1..], c, priority);
      assert (s + [c])[1..] == s[1..] + [c];
    }
  }

  lemma {:induction false} LowerAbsent(s: seq<Candidate>, priority: int)
    requires forall c <- s :: c.priority < priority
    ensures Of(s, priority) == []
  {
    if s != [] {
      LowerAbsent(s[1..], priority);
    }
  }

  lemma {:induction false} InsertStable(s: seq<Candidate>, c: Candidate, priority: int)
    requires Descending(s)
    ensures Of(Insert(s, c), priority) == Of(s, priority) + if c.priority == priority then [c] else []
  {
    if s == [] {
    } else if s[0].priority < c.priority {
      assert ([c] + s)[1..] == s;
      if c.priority == priority {
        LowerAbsent(s, priority);
      }
    } else {
      InsertStable(s[1..], c, priority);
      assert ([s[0]] + Insert(s[1..], c))[1..] == Insert(s[1..], c);
    }
  }

  /** The sort orders by falling priority and keeps every candidate and the order of ties. */
  lemma {:induction false} SortIsStable(s: seq<Candidate>)
    ensures Descending(Sorted(s)) && multiset(Sorted(s)) == multiset(s)
    ensures forall p :: Of(Sorted(s), p) == Of(s, p)
  {
    if s != [] {
      var rest, c := s[..|s| - 1], s[|s| - 1];
      assert s == rest + [c];
      SortIsStable(rest);
      InsertSorts(Sorted(rest), c);
      InsertKeeps(Sorted(rest), c);
      forall p
        ensures Of(Sorted(s), p) == Of(s, p)
      {
        InsertStable(Sorted(rest), c, p);
        OfAppend(rest, c, p);
      }
    }
  }

  lemma {:induction false} OfMember(s: seq<Candidate>, c: Candidate)
    ensures c in s <==> c in Of(s, c.priority)
  {
    if s != [] {
      OfMember(s[1..], c);
      assert s == [s[0]] + s[1..];
    }
  }

  /** No other list is a stable descending sort of s. */
  lemma {:induction false} StableSortUnique(a: seq<Candidate>, b: seq<Candidate>)
    requires Descending(a) && Descending(b) && forall p :: Of(a, p) == Of(b, p)
    ensures a == b
    decreases |a|
  {
    if a == [] {
    } else {
      OfMember(b, a[0]);
      OfMember(a, a[0]);
      OfMember(a, b[0]);
      OfMember(b, b[0]);
      assert a[0].priority == b[0].priority;
      assert Of(a, a[0].priority)[0] == a[0] && Of(b, b[0].priority)[0] == b[0];
      forall p
        ensures Of(a[1..], p) == Of(b[1..], p)
      {
        assert Of(a, p) == if a[0].priority == p then [a[0]] + Of(a[1..], p) else Of(a[1..], p);
        assert Of(b, p) == if b[0].priority == p then [b[0]] + Of(b[1..], p) else Of(b[1..], p);
        if a[0].priority == p {
          assert Of(a, p)[1..] == Of(a[1..], p) && Of(b, p)[1..] == Of(b[1..], p);
        }
      }
      StableSortUnique(a[1..], b[1..]);
      assert a == [a[0]] + a[1..] && b == [b[0]] + b[1..];
    }
  }

  // ---- cutting and appending ------------------------------------------------------------------

  function First(s: seq<Candidate>, n: nat): seq<Candidate> {
    if |s| <= n then s else s[..n]
  }

  /** Sort and truncate. */
  function Top(s: seq<Candidate>): seq<Candidate> {
    First(Sorted(s), MAX_CANDIDATES)
  }

  lemma {:induction false} InsertFirst(s: seq<Candidate>, c: Candidate, n: nat)
    ensures First(Insert(First(s, n), c), n) == First(Insert(s, c), n)
  {
    if n > 0 && s != [] && s[0].priority >= c.priority {
      InsertFirst(s[1..], c, n - 1);
      assert First(s, n) == [s[0]] + First(s[1..], n - 1);
      assert First(s, n)[1..] == First(s[1..], n - 1);
      assert First([s[0]] + Insert(s[1..], c), n) == [s[0]] + First(Insert(s[1..], c), n - 1);
      assert First([s[0]] + Insert(First(s[1..], n - 1), c), n)
          == [s[0]] + First(Insert(First(s[1..], n - 1), c), n - 1);
    }
  }

  lemma {:induction false} SortedStays(s: seq<Candidate>)
    requires Descending(s)
    ensures Sorted(s) == s
  {
    SortIsStable(s);
    StableSortUnique(Sorted(s), s);
  }

  /** Adding one candidate to the cut list and cutting again loses nothing against sorting and
      cutting the whole list once. */
  lemma AppendThenTop(s: seq<Candidate>, c: Candidate)
    ensures Top(Top(s) + [c]) == Top(s + [c])
  {
    SortIsStable(s);
    SortedStays(Top(s));
    assert (Top(s) + [c])[..|Top(s)|] == Top(s) && (s + [c])[..|s|] == s;
    InsertFirst(Sorted(s), c, MAX_CANDIDATES);
  }

  // ---- gathering ----------------------------------------------------------------------------

  function Endpoints(s: seq<Candidate>): set<string> {
    set c | c in s :: c.endpoint
  }

  /** Blank endpoints and those already seen are skipped. */
  function Gathered(offers: seq<Candidate>): seq<Candidate> {
    if offers == [] then []
    else
      var before, c := Gathered(offers[..|offers| - 1]), offers[|offers| - 1];
      if c.endpoint == "" || c.endpoint in Endpoints(before) then before else before + [c]
  }

  /** Everything one pass over the reported candidates offers, in order. */
  function Pass(offer: Reported -> Option<Candidate>, reported: seq<Reported>): seq<Candidate> {
    if reported == [] then []
    else
      var before, o := Pass(offer, reported[..|reported| - 1]), offer(reported[|reported| - 1]);
      if o.Some? then before + [o.value] else before
  }

  /** Behind one NAT the interface addresses come first and the public address is a long shot. */
  function BehindOneNat(near: string -> bool): Reported -> Option<Candidate> {
    (r: Reported) =>
      if r.kind == "pinned" then Some(Candidate(r.endpoint, "pinned", 95))
      else if r.kind == "host" && near(r.endpoint) then Some(Candidate(r.endpoint, "host", 110))
      else if r.kind == "host6" then Some(Candidate(r.endpoint, "host6", 100))
      else if r.kind == "stun6" then Some(Candidate(r.endpoint, "stun6", 130))
      else None
  }

  function OfKind(kind: string, priority: int): Reported -> Option<Candidate> {
    (r: Reported) => if r.kind == kind then Some(Candidate(r.endpoint, kind, priority)) else None
  }

  function AcrossNats(near: string -> bool): Reported -> Option<Candidate> {
    (r: Reported) =>
      if r.kind == "host6" then Some(Candidate(r.endpoint, "host6", 85))
      else if r.kind == "host" && near(r.endpoint) then Some(Candidate(r.endpoint, "host", 110))
      else None
  }

  function Lan(lan: Option<string>, priority: int): seq<Candidate> {
    if lan.Some? then [Candidate(lan.value, "lan", priority)] else []
  }

  function OneNatOffers(reported: seq<Reported>, lan: Option<string>, public: string, near: string -> bool)
    : seq<Candidate>
  {
    Pass(BehindOneNat(near), reported) + Lan(lan, 105)
    + [Candidate(public, "stun", 85)] + Pass(OfKind("upnp", 84), reported)
  }

  function AcrossOffers(reported: seq<Reported>, lan: Option<string>, public: string, near: string -> bool)
    : seq<Candidate>
  {
    Pass(OfKind("pinned", 140), reported) + Pass(OfKind("stun6", 130), reported)
    + Pass(OfKind("upnp", 120), reported) + [Candidate(public, "stun", 90)]
    + Pass(AcrossNats(near), reported) + Lan(lan, 80)
  }

  /** All offers in the order they are made; `near` tells whether an address shares a /24. */
  function Offers(reported: seq<Reported>, lan: Option<string>, public: string, sameNat: bool,
                  near: string -> bool): seq<Candidate> {
    if sameNat then OneNatOffers(reported, lan, public, near) else AcrossOffers(reported, lan, public, near)
  }

  lemma GatheredAppend(offers: seq<Candidate>, c: Candidate)
    ensures Gathered(offers + [c]) ==
            var before := Gathered(offers);
            if c.endpoint == "" || c.endpoint in Endpoints(before) then before else before + [c]
  {
    assert (offers + [c])[..|offers|] == offers;
  }

  /** Adds one offer to the list and its endpoint to those seen. */
  method Add(out: seq<Candidate>, seen: set<string>, c: Candidate, ghost offers: seq<Candidate>)
    returns (out2: seq<Candidate>, seen2: set<string>)
    requires out == Gathered(offers) && seen == Endpoints(out)
    ensures out2 == Gathered(offers + [c]) && seen2 == Endpoints(out2)
  {
    GatheredAppend(offers, c);
    if c.endpoint == "" || c.endpoint in seen {
      return out, seen;
    }
    return out + [c], seen + {c.endpoint};
  }

  method AddPass(out: seq<Candidate>, seen: set<string>, offer: Reported -> Option<Candidate>,
                 reported: seq<Reported>, ghost offers: seq<Candidate>)
    returns (out2: seq<Candidate>, seen2: set<string>)
    requires out == Gathered(offers) && seen == Endpoints(out)
    ensures out2 == Gathered(offers + Pass(offer, reported)) && seen2 == Endpoints(out2)
  {
    out2, seen2 := out, seen;
    assert offers + [] == offers;
    for i := 0 to |reported|
      invariant out2 == Gathered(offers + Pass(offer, reported[..i])) && seen2 == Endpoints(out2)
    {
      assert reported[..i + 1][..i] == reported[..i];
      var o := offer(reported[i]);
      if o.Some? {
        assert offers + Pass(offer, reported[..i + 1]) == offers + Pass(offer, reported[..i]) + [o.value];
        out2, seen2 := Add(out2, seen2, o.value, offers + Pass(offer, reported[..i]));
      }
    }
    assert reported[..|reported|] == reported;
  }

  method AddLan(out: seq<Candidate>, seen: set<string>, lan: Option<string>, priority: int,
                ghost offers: seq<Candidate>)
    returns (out2: seq<Candidate>, seen2: set<string>)
    requires out == Gathered(offers) && seen == Endpoints(out)
    ensures out2 == Gathered(offers + Lan(lan, priority)) && seen2 == Endpoints(out2)
  {
    if lan.None? {
      assert offers + [] == offers;
      return out, seen;
    }
    out2, seen2 := Add(out, seen, Candidate(lan.value, "lan", priority), offers);
  }

  method GatherOneNat(reported: seq<Reported>, lan: Option<string>, public: string, near: string -> bool)
    returns (out: seq<Candidate>)
    ensures out == Gathered(OneNatOffers(reported, lan, public, near))
  {
    var seen: set<string>;
    ghost var offers := Pass(BehindOneNat(near), reported);
    assert [] + offers == offers;
    out, seen := AddPass([], {}, BehindOneNat(near), reported, []);
    out, seen := AddLan(out, seen, lan, 105, offers);
    offers := offers + Lan(lan, 105);
    out, seen := Add(out, seen, Candidate(public, "stun", 85), offers);
    offers := offers + [Candidate(public, "stun", 85)];
    out, seen := AddPass(out, seen, OfKind("upnp", 84), reported, offers);
  }

  method GatherAcross(reported: seq<Reported>, lan: Option<string>, public: string, near: string -> bool)
    returns (out: seq<Candidate>)
    ensures out == Gathered(AcrossOffers(reported, lan, public, near))
  {
    var seen: set<string>;
    ghost var offers := Pass(OfKind("pinned", 140), reported);
    assert [] + offers == offers;
    out, seen := AddPass([], {}, OfKind("pinned", 140), reported, []);
    out, seen := AddPass(out, seen, OfKind("stun6", 130), reported, offers);
    offers := offers + Pass(OfKind("stun6", 130), reported);
    out, seen := AddPass(out, seen, OfKind("upnp", 120), reported, offers);
    offers := offers + Pass(OfKind("upnp", 120), reported);
    out, seen := Add(out, seen, Candidate(public, "stun", 90), offers);
    offers := offers + [Candidate(public, "stun", 90)];
    out, seen := AddPass(out, seen, AcrossNats(near), reported, offers);
    offers := offers + Pass(AcrossNats(near), reported);
    out, seen := AddLan(out, seen, lan, 80, offers);
  }

  method EndpointCandidates(reported: seq<Reported>, lan: Option<string>, public: string, sameNat: bool,
                            near: string -> bool) returns (r: seq<Candidate>)
    ensures r == Top(Gathered(Offers(reported, lan, public, sameNat, near)))
  {
    var out;
    if sameNat {
      out := GatherOneNat(reported, lan, public, near);
    } else {
      out := GatherAcross(reported, lan, public, near);
    }
    r := SortCandidates(out);
  }

  /** Insertion from the back gives the stable order; see StableSortUnique. */
  method SortCandidates(s: seq<Candidate>) returns (r: seq<Candidate>)
    ensures r == Top(s)
  {
    r := [];
    for i := 0 to |s|
      invariant r == Sorted(s[..i])
    {
      assert s[..i + 1][..i] == s[..i];
      r := Insert(r, s[i]);
    }
    assert s[..|s|] == s;
    if |r| > MAX_CANDIDATES {
      r := r[..MAX_CANDIDATES];
    }
  }

  // ---- what every list satisfies --------------------------------------------------------------

  ghost predicate EndpointsDiffer(s: seq<Candidate>) {
    forall i, j :: 0 <= i < j < |s| ==> s[i].endpoint != s[j].endpoint
  }

  /** Free of repeats, falling in priority, and no longer than a probe window can try. */
  ghost predicate Good(s: seq<Candidate>) {
    EndpointsDiffer(s) && Descending(s) && |s| <= MAX_CANDIDATES
  }

  lemma {:induction false} GatheredDiffer(offers: seq<Candidate>)
    ensures EndpointsDiffer(Gathered(offers))
  {
    if offers != [] {
      GatheredDiffer(offers[..|offers| - 1]);
      var before := Gathered(offers[..|offers| - 1]);
      assert forall i :: 0 <= i < |before| ==> before[i].endpoint in Endpoints(before);
    }
  }

  /** Every non-blank endpoint offered is gathered, and nothing else is. */
  lemma {:induction false} GatheredEndpoints(offers: seq<Candidate>, e: string)
    ensures e in Endpoints(Gathered(offers)) <==> e in Endpoints(offers) && e != ""
  {
    if offers != [] {
      var rest, c := offers[..|offers| - 1], offers[|offers| - 1];
      GatheredEndpoints(rest, e);
      GatheredEndpoints(rest, c.endpoint);
      assert Endpoints(offers) == Endpoints(rest) + {c.endpoint} by {
        assert offers == rest + [c];
      }
      var before := Gathered(rest);
      assert Endpoints(before + [c]) == Endpoints(before) + {c.endpoint};
    }
  }

  lemma {:induction false} InsertDiffers(s: seq<Candidate>, c: Candidate)
    requires EndpointsDiffer(s) && forall x <- s :: x.endpoint != c.endpoint
    ensures EndpointsDiffer(Insert(s, c))
  {
    if s != [] && s[0].priority >= c.priority {
      InsertDiffers(s[1..], c);
      var r := Insert(s[1..], c);
      forall i | 0 <= i < |r|
        ensures r[i].endpoint != s[0].endpoint
      {
        InsertMembers(s[1..], c, r[i]);
      }
    }
  }

  lemma {:induction false} SortedDiffers(s: seq<Candidate>)
    requires EndpointsDiffer(s)
    ensures EndpointsDiffer(Sorted(s))
  {
    if s != [] {
      var rest, c := s[..|s| - 1], s[|s| - 1];
      SortedDiffers(rest);
      forall x | x in Sorted(rest)
        ensures x.endpoint != c.endpoint
      {
        SortIsStable(rest);
        assert x in multiset(Sorted(rest));
      }
      InsertDiffers(Sorted(rest), c);
    }
  }

  lemma TopIsGood(s: seq<Candidate>)
    requires EndpointsDiffer(s)
    ensures Good(Top(s))
  {
    SortIsStable(s);
    SortedDiffers(s);
  }

  /** Every candidate list handed out is good, whatever the agents reported. */
  lemma EveryListGood(reported: seq<Reported>, lan: Option<string>, public: string, sameNat: bool, near: string -> bool)
    ensures Good(Top(Gathered(Offers(reported, lan, public, sameNat, near))))
  {
    GatheredDiffer(Offers(reported, lan, public, sameNat, near));
    TopIsGood(Gathered(Offers(reported, lan, public, sameNat, near)));
  }

  // ---- what the priorities mean ---------------------------------------------------------------

  lemma {:induction false} PassOffers(offer: Reported -> Option<Candidate>, reported: seq<Reported>, c: Candidate)
    requires c in Pass(offer, reported)
    ensures exists r :: r in reported && offer(r) == Some(c)
  {
    var rest, last := reported[..|reported| - 1], reported[|reported| - 1];
    if offer(last) != Some(c) {
      PassOffers(offer, rest, c);
    }
  }

  lemma {:induction false} GatheredFrom(offers: seq<Candidate>, c: Candidate)
    requires c in Gathered(offers)
    ensures c in offers
  {
    if c in Gathered(offers[..|offers| - 1]) {
      GatheredFrom(offers[..|offers| - 1], c);
    }
  }

  lemma TopFrom(offers: seq<Candidate>, c: Candidate)
    requires c in Top(Gathered(offers))
    ensures c in offers
  {
    SortIsStable(Gathered(offers));
    assert c in Sorted(Gathered(offers));
    assert c in multiset(Sorted(Gathered(offers)));
    assert c in Gathered(offers);
    GatheredFrom(offers, c);
  }

  /** A public address that was discovered, not configured; behind a shared NAT it has to hairpin. */
  predicate Discovered(c: Candidate) {
    c.kind == "stun" || c.kind == "upnp"
  }

  lemma OneNatRanks(reported: seq<Reported>, lan: Option<string>, public: string, near: string -> bool, c: Candidate)
    requires c in OneNatOffers(reported, lan, public, near)
    ensures Discovered(c) <==> c.priority < 90
  {
    assert "pinned"[0] == 'p' && "host"[0] == 'h' && "stun"[0] == 's' && "upnp"[0] == 'u';
    if c in Pass(BehindOneNat(near), reported) {
      PassOffers(BehindOneNat(near), reported, c);
    } else if c in Pass(OfKind("upnp", 84), reported) {
      PassOffers(OfKind("upnp", 84), reported, c);
    }
  }

  /** Behind one NAT the discovered public addresses come after every other path. */
  lemma DiscoveredLast(reported: seq<Reported>, lan: Option<string>, public: string, near: string -> bool,
                       i: nat, j: nat)
    requires var r := Top(Gathered(OneNatOffers(reported, lan, public, near))); i < j < |r| && Discovered(r[i])
    ensures Discovered(Top(Gathered(OneNatOffers(reported, lan, public, near)))[j])
  {
    var offers := OneNatOffers(reported, lan, public, near);
    var r := Top(Gathered(offers));
    SortIsStable(Gathered(offers));
    TopFrom(offers, r[i]);
    TopFrom(offers, r[j]);
    OneNatRanks(reported, lan, public, near, r[i]);
    OneNatRanks(reported, lan, public, near, r[j]);
  }

  lemma AcrossRanks(reported: seq<Reported>, lan: Option<string>, public: string, near: string -> bool, c: Candidate)
    requires c in AcrossOffers(reported, lan, public, near)
    ensures c.kind == "pinned" <==> c.priority == 140
    ensures c.priority <= 140
  {
    assert |"pinned"| == 6;
    if c in Pass(OfKind("pinned", 140), reported) {
      PassOffers(OfKind("pinned", 140), reported, c);
    } else if c in Pass(OfKind("stun6", 130), reported) {
      PassOffers(OfKind("stun6", 130), reported, c);
    } else if c in Pass(OfKind("upnp", 120), reported) {
      PassOffers(OfKind("upnp", 120), reported, c);
    } else if c in Pass(AcrossNats(near), reported) {
      PassOffers(AcrossNats(near), reported, c);
    }
  }

  /** Across NATs an operator-pinned endpoint comes before every guess. */
  lemma PinnedFirst(reported: seq<Reported>, lan: Option<string>, public: string, near: string -> bool, i: nat, j: nat)
    requires var r := Top(Gathered(AcrossOffers(reported, lan, public, near))); i < j < |r| && r[j].kind == "pinned"
    ensures Top(Gathered(AcrossOffers(reported, lan, public, near)))[i].kind == "pinned"
  {
    var offers := AcrossOffers(reported, lan, public, near);
    var r := Top(Gathered(offers));
    SortIsStable(Gathered(offers));
    TopFrom(offers, r[i]);
    TopFrom(offers, r[j]);
    AcrossRanks(reported, lan, public, near, r[i]);
    AcrossRanks(reported, lan, public, near, r[j]);
  }

  /** The order of preference behind one NAT: paths that need no router first, the two discovered
      public addresses last. */
  ghost function OneNatRank(kind: string): nat {
    if kind == "stun6" then 0 else if kind == "host" then 1 else if kind == "lan" then 2
    else if kind == "host6" then 3 else if kind == "pinned" then 4 else if kind == "stun" then 5 else 6
  }

  /** Across NATs what the operator promised comes first and private addresses last. */
  ghost function AcrossRank(kind: string): nat {
    if kind == "pinned" then 0 else if kind == "stun6" then 1 else if kind == "upnp" then 2
    else if kind == "host" then 3 else if kind == "stun" then 4 else if kind == "host6" then 5 else 6
  }

  lemma MoreKindsDiffer()
    ensures "lan" != "stun6" && "lan" != "host" && "lan" != "host6" && "lan" != "pinned" && "lan" != "stun"
    ensures "stun" != "stun6" && "stun" != "host" && "stun" != "host6" && "stun" != "pinned"
    ensures "lan" != "upnp" && "stun" != "upnp"
  {
    assert |"lan"| == 3 && |"stun"| == 4 && |"stun6"| == 5 && |"host"| == 4 && "stun"[0] != "host"[0];
    assert |"upnp"| == 4 && "stun"[0] != "upnp"[0];
  }

  lemma OneNatPriority(reported: seq<Reported>, lan: Option<string>, public: string, near: string -> bool, c: Candidate)
    requires c in OneNatOffers(reported, lan, public, near)
    ensures c.priority == [130, 110, 105, 100, 95, 85, 84][OneNatRank(c.kind)]
  {
    KindsDiffer();
    MoreKindsDiffer();
    if c in Pass(BehindOneNat(near), reported) {
      PassOffers(BehindOneNat(near), reported, c);
    } else if c in Pass(OfKind("upnp", 84), reported) {
      PassOffers(OfKind("upnp", 84), reported, c);
    }
  }

  lemma AcrossPriority(reported: seq<Reported>, lan: Option<string>, public: string, near: string -> bool, c: Candidate)
    requires c in AcrossOffers(reported, lan, public, near)
    ensures c.priority == [140, 130, 120, 110, 90, 85, 80][AcrossRank(c.kind)]
  {
    KindsDiffer();
    MoreKindsDiffer();
    if c in Pass(OfKind("pinned", 140), reported) {
      PassOffers(OfKind("pinned", 140), reported, c);
    } else if c in Pass(OfKind("stun6", 130), reported) {
      PassOffers(OfKind("stun6", 130), reported, c);
    } else if c in Pass(OfKind("upnp", 120), reported) {
      PassOffers(OfKind("upnp", 120), reported, c);
    } else if c in Pass(AcrossNats(near), reported) {
      PassOffers(AcrossNats(near), reported, c);
    }
  }

  /** Every list handed out follows the order of preference of its case, kind by kind. */
  lemma KindsInOrder(reported: seq<Reported>, lan: Option<string>, public: string, sameNat: bool, near: string -> bool,
                     i: nat, j: nat)
    requires i < j < |Top(Gathered(Offers(reported, lan, public, sameNat, near)))|
    ensures var r := Top(Gathered(Offers(reported, lan, public, sameNat, near)));
            if sameNat then OneNatRank(r[i].kind) <= OneNatRank(r[j].kind)
            else AcrossRank(r[i].kind) <= AcrossRank(r[j].kind)
  {
    var offers := Offers(reported, lan, public, sameNat, near);
    var r := Top(Gathered(offers));
    assert r[i].priority >= r[j].priority by {
      SortIsStable(Gathered(offers));
    }
    TopFrom(offers, r[i]);
    TopFrom(offers, r[j]);
    if sameNat {
      OneNatCompare(reported, lan, public, near, r[i], r[j]);
    } else {
      AcrossCompare(reported, lan, public, near, r[i], r[j]);
    }
  }

  lemma OneNatCompare(reported: seq<Reported>, lan: Option<string>, public: string, near: string -> bool,
                      c: Candidate, d: Candidate)
    requires c in OneNatOffers(reported, lan, public, near) && d in OneNatOffers(reported, lan, public, near)
    requires c.priority >= d.priority
    ensures OneNatRank(c.kind) <= OneNatRank(d.kind)
  {
    OneNatPriority(reported, lan, public, near, c);
    OneNatPriority(reported, lan, public, near, d);
  }

  lemma AcrossCompare(reported: seq<Reported>, lan: Option<string>, public: string, near: string -> bool,
                      c: Candidate, d: Candidate)
    requires c in AcrossOffers(reported, lan, public, near) && d in AcrossOffers(reported, lan, public, near)
    requires c.priority >= d.priority
    ensures AcrossRank(c.kind) <= AcrossRank(d.kind)
  {
    AcrossPriority(reported, lan, public, near, c);
    AcrossPriority(reported, lan, public, near, d);
  }

  // ---- which addresses are candidates ---------------------------------------------------------

  lemma {:induction false} PassIncludes(offer: Reported -> Option<Candidate>, reported: seq<Reported>, r: Reported)
    requires r in reported && offer(r).Some?
    ensures offer(r).value in Pass(offer, reported)
  {
    var rest, last := reported[..|reported| - 1], reported[|reported| - 1];
    assert reported == rest + [last];
    if r in rest {
      PassIncludes(offer, rest, r);
    }
  }

  /** A reported address others can use: any but a private one of another subnet. */
  ghost predicate Usable(r: Reported, near: string -> bool) {
    || r.kind == "pinned" || r.kind == "host6" || r.kind == "stun6" || r.kind == "upnp"
    || (r.kind == "host" && near(r.endpoint))
  }

  /** The offer the candidate list makes of a usable report. */
  ghost function OfferOf(r: Reported, sameNat: bool, near: string -> bool): Reported -> Option<Candidate> {
    if sameNat then if r.kind == "upnp" then OfKind("upnp", 84) else BehindOneNat(near)
    else if r.kind == "pinned" then OfKind("pinned", 140)
    else if r.kind == "stun6" then OfKind("stun6", 130)
    else if r.kind == "upnp" then OfKind("upnp", 120)
    else AcrossNats(near)
  }

  lemma UsableOffered(reported: seq<Reported>, lan: Option<string>, public: string, sameNat: bool,
                      near: string -> bool, r: Reported)
    requires r in reported && Usable(r, near)
    ensures r.endpoint in Endpoints(Offers(reported, lan, public, sameNat, near))
  {
    KindsDiffer();
    var offer := OfferOf(r, sameNat, near);
    assert offer(r).Some? && offer(r).value.endpoint == r.endpoint;
    PassIncludes(offer, reported, r);
    assert offer(r).value in Offers(reported, lan, public, sameNat, near);
  }

  lemma OfferedFromPass(offer: Reported -> Option<Candidate>, reported: seq<Reported>, near: string -> bool,
                        c: Candidate)
    requires c in Pass(offer, reported)
    requires forall r: Reported :: offer(r).Some? ==> Usable(r, near) && offer(r).value.endpoint == r.endpoint
    ensures exists r :: r in reported && Usable(r, near) && r.endpoint == c.endpoint
  {
    PassOffers(offer, reported, c);
    var r :| r in reported && offer(r) == Some(c);
  }

  lemma OneNatFrom(reported: seq<Reported>, lan: Option<string>, public: string, near: string -> bool, c: Candidate)
    requires c in OneNatOffers(reported, lan, public, near) && c.endpoint != public && lan != Some(c.endpoint)
    ensures exists r :: r in reported && Usable(r, near) && r.endpoint == c.endpoint
  {
    if c in Pass(BehindOneNat(near), reported) {
      OfferedFromPass(BehindOneNat(near), reported, near, c);
    } else {
      OfferedFromPass(OfKind("upnp", 84), reported, near, c);
    }
  }

  lemma AcrossFrom(reported: seq<Reported>, lan: Option<string>, public: string, near: string -> bool, c: Candidate)
    requires c in AcrossOffers(reported, lan, public, near) && c.endpoint != public && lan != Some(c.endpoint)
    ensures exists r :: r in reported && Usable(r, near) && r.endpoint == c.endpoint
  {
    if c in Pass(OfKind("pinned", 140), reported) {
      OfferedFromPass(OfKind("pinned", 140), reported, near, c);
    } else if c in Pass(OfKind("stun6", 130), reported) {
      OfferedFromPass(OfKind("stun6", 130), reported, near, c);
    } else if c in Pass(OfKind("upnp", 120), reported) {
      OfferedFromPass(OfKind("upnp", 120), reported, near, c);
    } else {
      OfferedFromPass(AcrossNats(near), reported, near, c);
    }
  }

  /** Before the cut to six, an address is a candidate exactly when it is the public address, the
      LAN address, or was reported and is usable. The NATs decide the order, not the choice. */
  lemma CandidatesExactly(reported: seq<Reported>, lan: Option<string>, public: string, sameNat: bool,
                          near: string -> bool, e: string)
    ensures e in Endpoints(Gathered(Offers(reported, lan, public, sameNat, near))) <==>
            && e != ""
            && (e == public || lan == Some(e) || exists r :: r in reported && Usable(r, near) && r.endpoint == e)
  {
    var offers := Offers(reported, lan, public, sameNat, near);
    GatheredEndpoints(offers, e);
    var stun := Candidate(public, "stun", if sameNat then 85 else 90);
    assert stun in offers;
    if lan == Some(e) {
      assert Candidate(e, "lan", if sameNat then 105 else 80) in offers;
    }
    if r :| r in reported && Usable(r, near) && r.endpoint == e {
      UsableOffered(reported, lan, public, sameNat, near, r);
    }
    if e in Endpoints(offers) && e != public && lan != Some(e) {
      var c :| c in offers && c.endpoint == e;
      if sameNat {
        OneNatFrom(reported, lan, public, near, c);
      } else {
        AcrossFrom(reported, lan, public, near, c);
      }
    }
  }

  // ---- the relay-observed candidate -------------------------------------------------------------

  /** The list with the observed candidate added, unless its endpoint is listed already. */
  function WithObserved(list: seq<Candidate>, c: Candidate): seq<Candidate> {
    if c.endpoint in Endpoints(list) then list else Top(list + [c])
  }

  /** The list as it would be had the observed candidate been gathered with the others. */
  function AllAtOnce(full: seq<Candidate>, c: Candidate): seq<Candidate> {
    Top(if c.endpoint in Endpoints(full) then full else full + [c])
  }

  predicate Outranked(list: seq<Candidate>, c: Candidate) {
    |list| == MAX_CANDIDATES && list[MAX_CANDIDATES - 1].priority >= c.priority
  }

  lemma {:induction false} OutrankedDrops(s: seq<Candidate>, c: Candidate, n: nat)
    requires n <= |s| && forall i :: 0 <= i < n ==> s[i].priority >= c.priority
    ensures First(Insert(s, c), n) == First(s, n)
  {
    if n > 0 {
      OutrankedDrops(s[1..], c, n - 1);
      assert First([s[0]] + Insert(s[1..], c), n) == [s[0]] + First(Insert(s[1..], c), n - 1);
      assert First(s, n) == [s[0]] + First(s[1..], n - 1);
    }
  }

  lemma {:induction false} BetterEnters(s: seq<Candidate>, c: Candidate, n: nat)
    requires 0 < n <= |s| && s[n - 1].priority < c.priority
    ensures c in First(Insert(s, c), n)
  {
    if s[0].priority >= c.priority {
      BetterEnters(s[1..], c, n - 1);
      assert First([s[0]] + Insert(s[1..], c), n) == [s[0]] + First(Insert(s[1..], c), n - 1);
    } else {
      assert First([c] + s, n)[0] == c;
    }
  }

  lemma SameEndpoints(full: seq<Candidate>, c: Candidate)
    requires c.endpoint in Endpoints(full) && c.endpoint !in Endpoints(Top(full))
    ensures |Top(full)| == MAX_CANDIDATES
  {
    SortIsStable(full);
    var x :| x in full && x.endpoint == c.endpoint;
    assert x in multiset(Sorted(full));
    assert x in Sorted(full);
  }

  /** Adding the observed candidate to the cut list gives what gathering it with the others
      would, exactly when its endpoint was not gathered, or made the cut, or ranks too low to. */
  lemma ObservedExactly(full: seq<Candidate>, c: Candidate)
    ensures WithObserved(Top(full), c) == AllAtOnce(full, c) <==>
            c.endpoint !in Endpoints(full) || c.endpoint in Endpoints(Top(full)) || Outranked(Top(full), c)
  {
    AppendThenTop(full, c);
    SortIsStable(full);
    assert (full + [c])[..|full|] == full;
    if c.endpoint in Endpoints(Top(full)) {
      var x :| x in Top(full) && x.endpoint == c.endpoint;
      assert x in multiset(Sorted(full));
      assert x in full;
    } else if c.endpoint in Endpoints(full) {
      SameEndpoints(full, c);
      if Outranked(Top(full), c) {
        OutrankedDrops(Sorted(full), c, MAX_CANDIDATES);
      } else {
        BetterEnters(Sorted(full), c, MAX_CANDIDATES);
      }
    }
  }

  // ---- a real input on which the shortcut differs ---------------------------------------------

  function Maybe(o: Option<Candidate>): seq<Candidate> {
    if o.Some? then [o.value] else []
  }

  lemma PassOne(offer: Reported -> Option<Candidate>, reported: seq<Reported>, r: Reported)
    ensures Pass(offer, reported + [r]) == Pass(offer, reported) + Maybe(offer(r))
  {
    assert (reported + [r])[..|reported|] == reported;
  }

  lemma PassFive(offer: Reported -> Option<Candidate>, a: Reported, b: Reported, c: Reported, d: Reported, e: Reported)
    ensures Pass(offer, [a, b, c, d, e])
            == Maybe(offer(a)) + Maybe(offer(b)) + Maybe(offer(c)) + Maybe(offer(d)) + Maybe(offer(e))
  {
    PassOne(offer, [], a);
    PassOne(offer, [a], b);
    PassOne(offer, [a, b], c);
    PassOne(offer, [a, b, c], d);
    PassOne(offer, [a, b, c, d], e);
    assert [] + [a] == [a] && [a] + [b] == [a, b] && [a, b] + [c] == [a, b, c];
    assert [a, b, c] + [d] == [a, b, c, d] && [a, b, c, d] + [e] == [a, b, c, d, e];
  }

  lemma {:induction false} GatheredAll(s: seq<Candidate>)
    requires EndpointsDiffer(s) && forall c <- s :: c.endpoint != ""
    ensures Gathered(s) == s
  {
    if s != [] {
      var rest, last := s[..|s| - 1], s[|s| - 1];
      assert s == rest + [last];
      GatheredAll(rest);
    }
  }

  lemma KindsDiffer()
    ensures "pinned" != "stun6" && "pinned" != "upnp" && "pinned" != "host" && "pinned" != "host6"
    ensures "stun6" != "upnp" && "stun6" != "host" && "stun6" != "host6"
    ensures "upnp" != "host" && "upnp" != "host6" && "host" != "host6"
  {
    assert "stun6"[0] != "host6"[0] && "upnp"[0] != "host"[0];
  }

  /** The reports of a peer with one candidate of each kind that a LAN neighbour behind another
      NAT can use, endpoints e[0] to e[4]. */
  function FiveReports(e: seq<string>): seq<Reported>
    requires |e| == 7
  {
    [Reported(e[0], "pinned"), Reported(e[1], "stun6"), Reported(e[2], "upnp"),
     Reported(e[3], "host"), Reported(e[4], "host6")]
  }

  function SevenOffers(e: seq<string>): seq<Candidate>
    requires |e| == 7
  {
    [Candidate(e[0], "pinned", 140), Candidate(e[1], "stun6", 130), Candidate(e[2], "upnp", 120),
     Candidate(e[5], "stun", 90), Candidate(e[3], "host", 110), Candidate(e[4], "host6", 85),
     Candidate(e[6], "lan", 80)]
  }

  lemma OffersAreSeven(e: seq<string>, near: string -> bool)
    requires |e| == 7 && near(e[3])
    ensures AcrossOffers(FiveReports(e), Some(e[6]), e[5], near) == SevenOffers(e)
  {
    assert Pass(AcrossNats(near), FiveReports(e)) == [Candidate(e[3], "host", 110), Candidate(e[4], "host6", 85)] by {
      var r := FiveReports(e);
      KindsDiffer();
      PassFive(AcrossNats(near), r[0], r[1], r[2], r[3], r[4]);
    }
    KindPasses(e);
  }

  lemma KindPasses(e: seq<string>)
    requires |e| == 7
    ensures Pass(OfKind("pinned", 140), FiveReports(e)) == [Candidate(e[0], "pinned", 140)]
    ensures Pass(OfKind("stun6", 130), FiveReports(e)) == [Candidate(e[1], "stun6", 130)]
    ensures Pass(OfKind("upnp", 120), FiveReports(e)) == [Candidate(e[2], "upnp", 120)]
  {
    var r := FiveReports(e);
    KindsDiffer();
    PassFive(OfKind("pinned", 140), r[0], r[1], r[2], r[3], r[4]);
    PassFive(OfKind("stun6", 130), r[0], r[1], r[2], r[3], r[4]);
    PassFive(OfKind("upnp", 120), r[0], r[1], r[2], r[3], r[4]);
  }

  function Ranked(e: seq<string>): seq<Candidate>
    requires |e| == 7
  {
    [Candidate(e[0], "pinned", 140), Candidate(e[1], "stun6", 130), Candidate(e[2], "upnp", 120),
     Candidate(e[3], "host", 110), Candidate(e[5], "stun", 90), Candidate(e[4], "host6", 85),
     Candidate(e[6], "lan", 80)]
  }

  lemma InsertFourth(a: Candidate, b: Candidate, c: Candidate, d: Candidate, x: Candidate)
    requires a.priority >= x.priority && b.priority >= x.priority && c.priority >= x.priority > d.priority
    ensures Insert([a, b, c, d], x) == [a, b, c, x, d]
  {
    assert [a, b, c, d][1..] == [b, c, d] && [b, c, d][1..] == [c, d] && [c, d][1..] == [d];
    assert Insert([d], x) == [x, d];
    assert Insert([c, d], x) == [c, x, d];
    assert Insert([b, c, d], x) == [b, c, x, d];
  }

  lemma {:induction false} InsertLast(s: seq<Candidate>, x: Candidate)
    requires forall c <- s :: c.priority >= x.priority
    ensures Insert(s, x) == s + [x]
  {
    if s != [] {
      InsertLast(s[1..], x);
      assert s == [s[0]] + s[1..];
    }
  }

  lemma SevenSorted(e: seq<string>)
    requires |e| == 7
    ensures Sorted(SevenOffers(e)) == Ranked(e)
  {
    var f, r := SevenOffers(e), Ranked(e);
    SortedStays(f[..4]);
    assert f[..4] == [f[0], f[1], f[2], f[3]];
    InsertFourth(f[0], f[1], f[2], f[3], f[4]);
    assert f[..5][..4] == f[..4] && f[..6][..5] == f[..5] && f[..7][..6] == f[..6] && f[..7] == f;
    assert Sorted(f[..5]) == r[..5];
    InsertLast(r[..5], f[5]);
    assert Sorted(f[..6]) == r[..6];
    InsertLast(r[..6], f[6]);
  }

  ghost predicate SevenDiffer(e: seq<string>) {
    |e| == 7 && (forall i :: 0 <= i < 7 ==> e[i] != "") && forall i, j :: 0 <= i < j < 7 ==> e[i] != e[j]
  }

  lemma SevenGathered(e: seq<string>)
    requires SevenDiffer(e)
    ensures Gathered(SevenOffers(e)) == SevenOffers(e)
  {
    GatheredAll(SevenOffers(e));
  }

  lemma SeventhCut(e: seq<string>)
    requires SevenDiffer(e)
    ensures var top := Top(SevenOffers(e)); e[6] !in Endpoints(top) && |top| == 6 && top[5].priority == 85
    ensures e[6] in Endpoints(SevenOffers(e))
  {
    SevenSorted(e);
    assert Top(SevenOffers(e)) == Ranked(e)[..6];
    assert SevenOffers(e)[6] in SevenOffers(e);
  }

  /** The LAN address, cut as seventh, comes back when the relay observes the peer at it: the
      list with it differs from the one gathered with it. */
  lemma ObservedDiffers(e: seq<string>, near: string -> bool)
    requires SevenDiffer(e) && near(e[3])
    ensures var full := Gathered(Offers(FiveReports(e), Some(e[6]), e[5], false, near));
            WithObserved(Top(full), Candidate(e[6], "relay", 95)) != AllAtOnce(full, Candidate(e[6], "relay", 95))
  {
    OffersAreSeven(e, near);
    SevenGathered(e);
    SeventhCut(e);
    ObservedExactly(SevenOffers(e), Candidate(e[6], "relay", 95));
  }

  lemma ObservedGood(list: seq<Candidate>, c: Candidate)
    requires Good(list)
    ensures Good(WithObserved(list, c))
  {
    if c.endpoint !in Endpoints(list) {
      assert forall i :: 0 <= i < |list| ==> list[i].endpoint in Endpoints(list);
      TopIsGood(list + [c]);
    }
  }

  /** The address offered is the one latched on the port p was handed; `text` prints it. */
  method PairCandidates(out: seq<Candidate>, relay: UdpRelay.RelayServer?, self: Key, p: Key, sameNat: bool,
                        text: UdpRelay.AddrPort -> string, loopback: UdpRelay.AddrPort -> bool)
    returns (r: seq<Candidate>)
    requires Good(out) && (relay != null ==> relay.Valid())
    ensures Good(r)
    ensures relay == null || RelayPairId(self, p) !in relay.pairs ==> r == out
    ensures relay != null && RelayPairId(self, p) in relay.pairs ==>
              var src := UdpRelay.LastNamed(relay.arrived[RelayPairId(self, p)], UdpRelay.HandedLeg(p, self));
              r == if src.None? || loopback(src.value) then out
                   else WithObserved(out, Candidate(text(src.value), "relay", if sameNat then 83 else 95))
  {
    if relay == null {
      return out;
    }
    var srcA, srcB, ok := relay.Observed(RelayPairId(self, p));
    if !ok {
      return out;
    }
    UdpRelay.OfferIsHandedLeg(self, p);
    var src := if Less(self, p) then srcB else srcA;
    if src.None? || loopback(src.value) {
      return out;
    }
    var c := Candidate(text(src.value), "relay", if sameNat then 83 else 95);
    ObservedGood(out, c);
    for i := 0 to |out|
      invariant forall j :: 0 <= j < i ==> out[j].endpoint != c.endpoint
    {
      if out[i].endpoint == c.endpoint {
        assert c.endpoint in Endpoints(out);
        return out;
      }
    }
    r := SortCandidates(out + [c]);
  }
}

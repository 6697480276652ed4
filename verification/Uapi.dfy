/** Printing a device configuration for the WireGuard userspace protocol and parsing device
    text (cmd/agent/wgbackend.go). Addresses are tokens whose printing is reversible. */
module Uapi {

  import opened Wrappers
  import opened UapiText

  datatype AddrPort = AddrPort(token: nat)
  datatype Cidr = Cidr(token: nat)

  /** Printing and reading of addresses, the public key of a private one, and the whole part of a
      duration's seconds, which are computed in floating point. */
  datatype Codec = Codec(showEndpoint: AddrPort -> string, readEndpoint: string -> Option<AddrPort>,
                         showCidr: Cidr -> string, readCidr: string -> Option<Cidr>, publicOf: Key -> Key,
                         seconds: int -> int)

  ghost predicate Faithful(c: Codec) {
    && (forall d :: MIN_INT <= d <= MAX_INT ==> Rounded(d, c.seconds(d)))
    && (forall e :: c.readEndpoint(c.showEndpoint(e)) == Some(e) && '\n' !in c.showEndpoint(e))
    && (forall p :: c.readCidr(c.showCidr(p)) == Some(p) && '\n' !in c.showCidr(p))
  }

  /** Whole seconds, towards zero. */
  function Truncated(d: int): int {
    if d >= 0 then d / SECOND else -(-d / SECOND)
  }

  /** What float64 seconds cut to an integer can be: exact below 2^24 seconds, and beyond that
      perhaps rounded up to the next second, but never past it. */
  predicate Rounded(d: int, n: int) {
    && d - SECOND < n * SECOND < d + SECOND && MIN_INT <= n * SECOND <= MAX_INT
    && (-0x100_0000 * SECOND < d < 0x100_0000 * SECOND ==> n == Truncated(d))
  }

  datatype PeerConfig = PeerConfig(
    publicKey: Key, remove: bool, updateOnly: bool, psk: Option<Key>, endpoint: Option<AddrPort>,
    keepalive: Option<int>, replaceAllowed: bool, allowed: seq<Cidr>)

  datatype Config = Config(privateKey: Option<Key>, listenPort: Option<int>, fwmark: Option<int>,
                           replacePeers: bool, peers: seq<PeerConfig>)

  datatype Peer = Peer(
    publicKey: Key, psk: Key, endpoint: Option<AddrPort>, handshake: Option<(int, int)>,
    tx: int, rx: int, keepalive: int, allowed: seq<Cidr>)

  datatype Device = Device(privateKey: Key, publicKey: Key, listenPort: int, fwmark: int, peers: seq<Peer>)

  function Zeros(n: nat): (k: Key)
    ensures |k| == n
  {
    if n == 0 then [] else [0] + Zeros(n - 1)
  }

  const ZeroKey: Key := Zeros(KEY_LENGTH)

  /** What Go's types guarantee: 32-byte keys and 64-bit numbers. */
  ghost predicate TypedPeer(p: PeerConfig) {
    && |p.publicKey| == KEY_LENGTH && (p.psk.Some? ==> |p.psk.value| == KEY_LENGTH)
    && (p.keepalive.Some? ==> MIN_INT <= p.keepalive.value <= MAX_INT)
  }

  ghost predicate Typed(cfg: Config) {
    && (cfg.privateKey.Some? ==> |cfg.privateKey.value| == KEY_LENGTH)
    && (cfg.listenPort.Some? ==> MIN_INT <= cfg.listenPort.value <= MAX_INT)
    && (cfg.fwmark.Some? ==> MIN_INT <= cfg.fwmark.value <= MAX_INT)
    && forall p <- cfg.peers :: TypedPeer(p)
  }

  // ---- printing -----------------------------------------------------------------------------

  function Entry(f: Field, value: string): string {
    Name(f) + "=" + value
  }

  function When(b: bool, line: string): seq<string> {
    if b then [line] else []
  }

  function DeviceLines(cfg: Config): seq<string> {
    When(cfg.privateKey.Some?, Entry(PrivateKey, Hex(cfg.privateKey.Or([]))))
    + When(cfg.listenPort.Some?, Entry(ListenPort, Decimal(cfg.listenPort.Or(0))))
    + When(cfg.fwmark.Some?, Entry(Fwmark, Decimal(cfg.fwmark.Or(0))))
    + When(cfg.replacePeers, Entry(ReplacePeers, "true"))
  }

  function AllowedLines(c: Codec, allowed: seq<Cidr>): seq<string> {
    if allowed == [] then []
    else AllowedLines(c, allowed[..|allowed| - 1]) + [Entry(AllowedIP, c.showCidr(allowed[|allowed| - 1]))]
  }

  function EndpointLine(c: Codec, e: Option<AddrPort>): seq<string> {
    if e.Some? then [Entry(Endpoint, c.showEndpoint(e.value))] else []
  }

  function HeadLines(c: Codec, p: PeerConfig): seq<string> {
    When(p.updateOnly, Entry(UpdateOnly, "true"))
    + When(p.psk.Some?, Entry(PresharedKey, Hex(p.psk.Or([]))))
    + EndpointLine(c, p.endpoint)
  }

  function TailLines(c: Codec, p: PeerConfig): seq<string> {
    When(p.keepalive.Some?, Entry(Keepalive, Decimal(c.seconds(p.keepalive.Or(0)))))
    + When(p.replaceAllowed, Entry(ReplaceAllowed, "true"))
  }

  function PeerFields(c: Codec, p: PeerConfig): seq<string> {
    HeadLines(c, p) + TailLines(c, p) + AllowedLines(c, p.allowed)
  }

  /** A removed peer takes no other attributes. */
  function PeerLines(c: Codec, p: PeerConfig): seq<string> {
    [Entry(PublicKey, Hex(p.publicKey))] + if p.remove then [Entry(Remove, "true")] else PeerFields(c, p)
  }

  function PeersLines(c: Codec, peers: seq<PeerConfig>): seq<string> {
    if peers == [] then [] else PeersLines(c, peers[..|peers| - 1]) + PeerLines(c, peers[|peers| - 1])
  }

  function ConfigLines(c: Codec, cfg: Config): seq<string> {
    DeviceLines(cfg) + PeersLines(c, cfg.peers)
  }

  function Print(c: Codec, cfg: Config): string {
    Unlines(ConfigLines(c, cfg))
  }

  // ---- parsing ------------------------------------------------------------------------------

  /** The device so far and the seconds of the current peer's handshake. */
  datatype State = State(dev: Device, hsSec: int)

  const Start: State := State(Device(ZeroKey, ZeroKey, 0, 0, []), 0)

  function FieldOf(key: string): Option<Field> {
    if key == Name(PrivateKey) then Some(PrivateKey)
    else if key == Name(ListenPort) then Some(ListenPort)
    else if key == Name(Fwmark) then Some(Fwmark)
    else if key == Name(PublicKey) then Some(PublicKey)
    else if key == Name(PresharedKey) then Some(PresharedKey)
    else if key == Name(Endpoint) then Some(Endpoint)
    else if key == Name(HandshakeSec) then Some(HandshakeSec)
    else if key == Name(HandshakeNsec) then Some(HandshakeNsec)
    else if key == Name(TxBytes) then Some(TxBytes)
    else if key == Name(RxBytes) then Some(RxBytes)
    else if key == Name(Keepalive) then Some(Keepalive)
    else if key == Name(AllowedIP) then Some(AllowedIP)
    else None
  }

  /** Fields the parser passes over, like any unknown one. */
  predicate Ignored(f: Field) {
    f in {ReplacePeers, Remove, UpdateOnly, ReplaceAllowed, Errno, ProtocolVersion}
  }

  /** 64-bit wrap-around. */
  function Wrap(n: int): int {
    (n - MIN_INT) % (MAX_INT - MIN_INT + 1) + MIN_INT
  }

  /** One field of the current peer. */
  function PeerField(c: Codec, p: Peer, hsSec: int, f: Field, v: string): Option<(Peer, int)> {
    match f
    case PresharedKey =>
      var k := ParseKey(v); if k.None? then None else Some((p.(psk := k.value), hsSec))
    case Endpoint =>
      var e := c.readEndpoint(v); if e.None? then None else Some((p.(endpoint := e), hsSec))
    case HandshakeSec =>
      var n := ParseInt(v);
      if n.None? then None
      else Some((if n.value != 0 then p.(handshake := Some((n.value, 0))) else p, n.value))
    case HandshakeNsec =>
      var n := ParseInt(v);
      if n.None? then None
      else Some((if hsSec != 0 || n.value != 0 then p.(handshake := Some((hsSec, n.value))) else p, hsSec))
    case TxBytes =>
      var n := ParseInt(v); if n.None? then None else Some((p.(tx := n.value), hsSec))
    case RxBytes =>
      var n := ParseInt(v); if n.None? then None else Some((p.(rx := n.value), hsSec))
    case Keepalive =>
      var n := ParseInt(v); if n.None? then None else Some((p.(keepalive := Wrap(n.value * SECOND)), hsSec))
    case AllowedIP =>
      var a := c.readCidr(v); if a.None? then None else Some((p.(allowed := p.allowed + [a.value]), hsSec))
    case _ => Some((p, hsSec))
  }

  function FreshPeer(k: Key): Peer {
    Peer(k, ZeroKey, None, None, 0, 0, 0, [])
  }

  function WithLast(dev: Device, p: Peer): Device
    requires dev.peers != []
  {
    dev.(peers := dev.peers[|dev.peers| - 1 := p])
  }

  function SetField(c: Codec, st: State, f: Field, v: string): Option<State> {
    match f
    case PrivateKey =>
      var k := ParseKey(v);
      if k.None? then None
      else Some(st.(dev := st.dev.(privateKey := k.value, publicKey := c.publicOf(k.value))))
    case ListenPort =>
      var n := ParseInt(v); if n.None? then None else Some(st.(dev := st.dev.(listenPort := n.value)))
    case Fwmark =>
      var n := ParseInt(v); if n.None? then None else Some(st.(dev := st.dev.(fwmark := n.value)))
    case PublicKey =>
      var k := ParseKey(v);
      if k.None? then None else Some(State(st.dev.(peers := st.dev.peers + [FreshPeer(k.value)]), 0))
    case _ =>
      if st.dev.peers == [] then Some(st)
      else
        var r := PeerField(c, st.dev.peers[|st.dev.peers| - 1], st.hsSec, f, v);
        if r.None? then None else Some(State(WithLast(st.dev, r.value.0), r.value.1))
  }

  /** One line; blank lines, lines without an equals sign and unknown fields change nothing. */
  function Apply(c: Codec, st: State, line: string): Option<State> {
    var kv := Cut(line);
    if kv.None? then Some(st)
    else
      var f := FieldOf(kv.value.0);
      if f.None? then Some(st) else SetField(c, st, f.value, kv.value.1)
  }

  function ParseFrom(c: Codec, st: State, lines: seq<string>): Option<State> {
    if lines == [] then Some(st)
    else
      var before := ParseFrom(c, st, lines[..|lines| - 1]);
      if before.None? then None else Apply(c, before.value, lines[|lines| - 1])
  }

  function Parse(c: Codec, text: string): Option<Device> {
    var r := ParseFrom(c, Start, Split(text));
    if r.None? then None else Some(r.value.dev)
  }

  // ---- what printing then parsing gives -------------------------------------------------------

  /** A peer as it comes back: a removed one bare, keepalives in whole seconds. */
  function Returned(c: Codec, p: PeerConfig): Peer {
    if p.remove then FreshPeer(p.publicKey)
    else Peer(p.publicKey, p.psk.Or(ZeroKey), p.endpoint, None, 0, 0,
              c.seconds(p.keepalive.Or(0)) * SECOND, p.allowed)
  }

  function ReturnedPeers(c: Codec, peers: seq<PeerConfig>): seq<Peer> {
    if peers == [] then [] else ReturnedPeers(c, peers[..|peers| - 1]) + [Returned(c, peers[|peers| - 1])]
  }

  function ReturnedDevice(c: Codec, cfg: Config): Device {
    Device(cfg.privateKey.Or(ZeroKey), if cfg.privateKey.Some? then c.publicOf(cfg.privateKey.value) else ZeroKey,
           cfg.listenPort.Or(0), cfg.fwmark.Or(0), ReturnedPeers(c, cfg.peers))
  }

  lemma FieldOfName(f: Field)
    ensures FieldOf(Name(f)) == if Ignored(f) then None else Some(f)
  {
    forall g: Field
      ensures Name(f) == Name(g) <==> f == g
    {
      NamesDiffer(f, g);
    }
  }

  lemma ApplyEntry(c: Codec, st: State, f: Field, v: string)
    ensures Apply(c, st, Entry(f, v)) == if Ignored(f) then Some(st) else SetField(c, st, f, v)
  {
    NameClean(f);
    CutAt(Name(f), v);
    FieldOfName(f);
  }

  lemma {:induction false} ParseAppend(c: Codec, st: State, a: seq<string>, b: seq<string>)
    ensures ParseFrom(c, st, a + b) ==
            var r := ParseFrom(c, st, a); if r.None? then None else ParseFrom(c, r.value, b)
  {
    if b == [] {
      assert a + b == a;
    } else {
      ParseAppend(c, st, a, b[..|b| - 1]);
      assert (a + b)[..|a + b| - 1] == a + b[..|b| - 1];
    }
  }

  lemma ParseBoth(c: Codec, st: State, a: seq<string>, b: seq<string>, mid: State, end: State)
    requires ParseFrom(c, st, a) == Some(mid) && ParseFrom(c, mid, b) == Some(end)
    ensures ParseFrom(c, st, a + b) == Some(end)
  {
    ParseAppend(c, st, a, b);
  }

  lemma ParseThree(c: Codec, st: State, a: seq<string>, b: seq<string>, d: seq<string>,
                   s1: State, s2: State, end: State)
    requires ParseFrom(c, st, a) == Some(s1) && ParseFrom(c, s1, b) == Some(s2) && ParseFrom(c, s2, d) == Some(end)
    ensures ParseFrom(c, st, a + b + d) == Some(end)
  {
    ParseBoth(c, st, a, b, s1, s2);
    ParseBoth(c, st, a + b, d, s2, end);
  }

  lemma ParseOne(c: Codec, st: State, line: string)
    ensures ParseFrom(c, st, [line]) == Apply(c, st, line)
  {
    assert [line][..0] == [];
  }

  /** An optional line sets its field, or nothing is there to set it. */
  lemma ParseWhen(c: Codec, st: State, b: bool, f: Field, v: string)
    ensures ParseFrom(c, st, When(b, Entry(f, v))) ==
            if !b || Ignored(f) then Some(st) else SetField(c, st, f, v)
  {
    if b {
      ParseOne(c, st, Entry(f, v));
      ApplyEntry(c, st, f, v);
    }
  }

  lemma ParseDevice(c: Codec, cfg: Config)
    requires Typed(cfg)
    ensures ParseFrom(c, Start, DeviceLines(cfg)) == Some(State(ReturnedDevice(c, cfg.(peers := [])), 0))
  {
    var key, port, mark := Hex(cfg.privateKey.Or([])), Decimal(cfg.listenPort.Or(0)), Decimal(cfg.fwmark.Or(0));
    var a := When(cfg.privateKey.Some?, Entry(PrivateKey, key));
    var b := When(cfg.listenPort.Some?, Entry(ListenPort, port));
    var m := When(cfg.fwmark.Some?, Entry(Fwmark, mark));
    var r := When(cfg.replacePeers, Entry(ReplacePeers, "true"));
    var end := State(ReturnedDevice(c, cfg.(peers := [])), 0);
    var s2 := end.(dev := end.dev.(fwmark := 0));
    var s1 := s2.(dev := s2.dev.(listenPort := 0));
    assert ParseFrom(c, Start, a) == Some(s1) by {
      HexRoundTrip(cfg.privateKey.Or([]));
      ParseWhen(c, Start, cfg.privateKey.Some?, PrivateKey, key);
    }
    assert ParseFrom(c, s1, b) == Some(s2) by {
      DecimalRoundTrip(cfg.listenPort.Or(0));
      ParseWhen(c, s1, cfg.listenPort.Some?, ListenPort, port);
    }
    assert ParseFrom(c, s2, m) == Some(end) by {
      DecimalRoundTrip(cfg.fwmark.Or(0));
      ParseWhen(c, s2, cfg.fwmark.Some?, Fwmark, mark);
    }
    ParseBoth(c, Start, a, b, s1, s2);
    ParseBoth(c, Start, a + b, m, s2, end);
    ParseWhen(c, end, cfg.replacePeers, ReplacePeers, "true");
    ParseBoth(c, Start, a + b + m, r, end, end);
  }

  /** A state whose last peer is p. */
  function At(dev: Device, p: Peer): State {
    AtSec(dev, p, 0)
  }

  /** The same, with the seconds of its handshake. */
  function AtSec(dev: Device, p: Peer, sec: int): State {
    State(dev.(peers := dev.peers + [p]), sec)
  }

  /** A field line changes the last peer alone. */
  lemma ParseWhenAt(c: Codec, dev: Device, p: Peer, b: bool, f: Field, v: string, q: Peer)
    requires f !in {PrivateKey, ListenPort, Fwmark, PublicKey}
    requires if !b || Ignored(f) then q == p else PeerField(c, p, 0, f, v) == Some((q, 0))
    ensures ParseFrom(c, At(dev, p), When(b, Entry(f, v))) == Some(At(dev, q))
  {
    ParseWhen(c, At(dev, p), b, f, v);
    if b && !Ignored(f) {
      SetAt(c, dev, p, 0, f, v, q, 0);
    }
  }

  lemma SetAt(c: Codec, dev: Device, p: Peer, sec: int, f: Field, v: string, q: Peer, next: int)
    requires f !in {PrivateKey, ListenPort, Fwmark, PublicKey} && PeerField(c, p, sec, f, v) == Some((q, next))
    ensures SetField(c, AtSec(dev, p, sec), f, v) == Some(AtSec(dev, q, next))
  {
    var st := AtSec(dev, p, sec);
    assert st.dev.peers[|st.dev.peers| - 1] == p;
    assert (dev.peers + [p])[|dev.peers| := q] == dev.peers + [q];
  }

  lemma ParseLineAt(c: Codec, dev: Device, p: Peer, sec: int, f: Field, v: string, q: Peer, next: int)
    requires f !in {PrivateKey, ListenPort, Fwmark, PublicKey} && !Ignored(f)
    requires PeerField(c, p, sec, f, v) == Some((q, next))
    ensures ParseFrom(c, AtSec(dev, p, sec), [Entry(f, v)]) == Some(AtSec(dev, q, next))
  {
    ParseOne(c, AtSec(dev, p, sec), Entry(f, v));
    ApplyEntry(c, AtSec(dev, p, sec), f, v);
    SetAt(c, dev, p, sec, f, v, q, next);
  }

  lemma {:induction false} ParseAllowed(c: Codec, dev: Device, p: Peer, sec: int, allowed: seq<Cidr>)
    requires Faithful(c)
    ensures ParseFrom(c, AtSec(dev, p, sec), AllowedLines(c, allowed))
            == Some(AtSec(dev, p.(allowed := p.allowed + allowed), sec))
  {
    if allowed == [] {
      assert p.allowed + [] == p.allowed;
    } else {
      var init, last := allowed[..|allowed| - 1], allowed[|allowed| - 1];
      var q, r := p.(allowed := p.allowed + init), p.(allowed := p.allowed + allowed);
      ParseAllowed(c, dev, p, sec, init);
      assert p.allowed + init + [last] == p.allowed + allowed;
      ParseLineAt(c, dev, q, sec, AllowedIP, c.showCidr(last), r, sec);
      ParseBoth(c, AtSec(dev, p, sec), AllowedLines(c, init), [Entry(AllowedIP, c.showCidr(last))],
                AtSec(dev, q, sec), AtSec(dev, r, sec));
    }
  }

  lemma KeepaliveBack(c: Codec, d: int)
    requires Faithful(c) && MIN_INT <= d <= MAX_INT
    ensures MIN_INT <= c.seconds(d) <= MAX_INT && Wrap(c.seconds(d) * SECOND) == c.seconds(d) * SECOND
    ensures c.seconds(d) * SECOND == d <==> d % SECOND == 0
  {
    assert Rounded(d, c.seconds(d));
    NearestSecond(d, c.seconds(d));
    WrapInRange(c.seconds(d) * SECOND);
  }

  lemma WrapInRange(m: int)
    requires MIN_INT <= m <= MAX_INT
    ensures Wrap(m) == m
  {
  }

  lemma NearestSecond(d: int, n: int)
    requires d - SECOND < n * SECOND < d + SECOND && MIN_INT <= n * SECOND <= MAX_INT
    ensures MIN_INT <= n <= MAX_INT && (n * SECOND == d <==> d % SECOND == 0)
  {
    assert d == d / SECOND * SECOND + d % SECOND;
    if d % SECOND == 0 {
      assert (n - d / SECOND) * SECOND == n * SECOND - d;
    }
  }

  lemma ParseHead(c: Codec, dev: Device, p: PeerConfig)
    requires Faithful(c) && TypedPeer(p)
    ensures var p0 := FreshPeer(p.publicKey);
            ParseFrom(c, At(dev, p0), HeadLines(c, p))
            == Some(At(dev, p0.(psk := p.psk.Or(ZeroKey), endpoint := p.endpoint)))
  {
    var p0 := FreshPeer(p.publicKey);
    var p1 := p0.(psk := p.psk.Or(ZeroKey));
    var st := At(dev, p0);
    var a := When(p.updateOnly, Entry(UpdateOnly, "true"));
    var b := When(p.psk.Some?, Entry(PresharedKey, Hex(p.psk.Or([]))));
    ParseWhenAt(c, dev, p0, p.updateOnly, UpdateOnly, "true", p0);
    HexRoundTrip(p.psk.Or([]));
    ParseAppend(c, st, a, b);
    ParseWhenAt(c, dev, p0, p.psk.Some?, PresharedKey, Hex(p.psk.Or([])), p1);
    ParseAppend(c, st, a + b, EndpointLine(c, p.endpoint));
    if p.endpoint.Some? {
      ParseWhenAt(c, dev, p1, true, Endpoint, c.showEndpoint(p.endpoint.value), p1.(endpoint := p.endpoint));
    }
  }

  lemma ParseTail(c: Codec, dev: Device, p: PeerConfig, q: Peer)
    requires Faithful(c) && TypedPeer(p) && q.keepalive == 0
    ensures ParseFrom(c, At(dev, q), TailLines(c, p))
            == Some(At(dev, q.(keepalive := c.seconds(p.keepalive.Or(0)) * SECOND)))
  {
    var k := Decimal(c.seconds(p.keepalive.Or(0)));
    var r := q.(keepalive := c.seconds(p.keepalive.Or(0)) * SECOND);
    KeepaliveBack(c, p.keepalive.Or(0));
    DecimalRoundTrip(c.seconds(p.keepalive.Or(0)));
    ParseWhenAt(c, dev, q, p.keepalive.Some?, Keepalive, k, r);
    ParseAppend(c, At(dev, q), When(p.keepalive.Some?, Entry(Keepalive, k)),
                When(p.replaceAllowed, Entry(ReplaceAllowed, "true")));
    ParseWhenAt(c, dev, r, p.replaceAllowed, ReplaceAllowed, "true", r);
  }

  lemma ParseFields(c: Codec, dev: Device, p: PeerConfig)
    requires Faithful(c) && TypedPeer(p) && !p.remove
    ensures ParseFrom(c, At(dev, FreshPeer(p.publicKey)), PeerFields(c, p)) == Some(At(dev, Returned(c, p)))
  {
    var p0 := FreshPeer(p.publicKey);
    var p1 := p0.(psk := p.psk.Or(ZeroKey), endpoint := p.endpoint);
    var p2 := p1.(keepalive := c.seconds(p.keepalive.Or(0)) * SECOND);
    var head, tail, allowed := HeadLines(c, p), TailLines(c, p), AllowedLines(c, p.allowed);
    assert ParseFrom(c, At(dev, p0), head) == Some(At(dev, p1)) by {
      ParseHead(c, dev, p);
    }
    assert ParseFrom(c, At(dev, p1), tail) == Some(At(dev, p2)) by {
      ParseTail(c, dev, p, p1);
    }
    assert ParseFrom(c, At(dev, p2), allowed) == Some(At(dev, Returned(c, p))) by {
      ParseAllowed(c, dev, p2, 0, p.allowed);
      assert p2.allowed + p.allowed == p.allowed;
    }
    ParseThree(c, At(dev, p0), head, tail, allowed, At(dev, p1), At(dev, p2), At(dev, Returned(c, p)));
  }

  lemma ParsePublic(c: Codec, st: State, k: Key)
    requires |k| == KEY_LENGTH
    ensures ParseFrom(c, st, [Entry(PublicKey, Hex(k))]) == Some(At(st.dev, FreshPeer(k)))
  {
    HexRoundTrip(k);
    assert When(true, Entry(PublicKey, Hex(k))) == [Entry(PublicKey, Hex(k))];
    ParseWhen(c, st, true, PublicKey, Hex(k));
  }

  lemma ParseRemoved(c: Codec, dev: Device, p: Peer)
    ensures ParseFrom(c, At(dev, p), [Entry(Remove, "true")]) == Some(At(dev, p))
  {
    ParseWhenAt(c, dev, p, true, Remove, "true", p);
  }

  lemma ParsePeer(c: Codec, st: State, p: PeerConfig)
    requires Faithful(c) && TypedPeer(p)
    ensures ParseFrom(c, st, PeerLines(c, p)) == Some(At(st.dev, Returned(c, p)))
  {
    var head := [Entry(PublicKey, Hex(p.publicKey))];
    ParsePublic(c, st, p.publicKey);
    if p.remove {
      ParseAppend(c, st, head, [Entry(Remove, "true")]);
      ParseRemoved(c, st.dev, FreshPeer(p.publicKey));
    } else {
      ParseAppend(c, st, head, PeerFields(c, p));
      ParseFields(c, st.dev, p);
    }
  }

  lemma {:induction false} ParsePeers(c: Codec, dev: Device, peers: seq<PeerConfig>)
    requires Faithful(c) && dev.peers == [] && forall p <- peers :: TypedPeer(p)
    ensures ParseFrom(c, State(dev, 0), PeersLines(c, peers)) == Some(State(dev.(peers := ReturnedPeers(c, peers)), 0))
  {
    if peers != [] {
      var init, last := peers[..|peers| - 1], peers[|peers| - 1];
      ParsePeers(c, dev, init);
      ParseAppend(c, State(dev, 0), PeersLines(c, init), PeerLines(c, last));
      ParsePeer(c, State(dev.(peers := ReturnedPeers(c, init)), 0), last);
    }
  }

  // ---- every line is clean ----------------------------------------------------------------------

  ghost predicate CleanLines(lines: seq<string>) {
    forall l <- lines :: l != "" && '\n' !in l
  }

  lemma EntryClean(f: Field, v: string)
    requires '\n' !in v
    ensures CleanLines([Entry(f, v)])
  {
    NameClean(f);
  }

  lemma {:induction false} AllowedClean(c: Codec, allowed: seq<Cidr>)
    requires Faithful(c)
    ensures CleanLines(AllowedLines(c, allowed))
  {
    if allowed != [] {
      AllowedClean(c, allowed[..|allowed| - 1]);
      EntryClean(AllowedIP, c.showCidr(allowed[|allowed| - 1]));
    }
  }

  lemma WhenClean(b: bool, f: Field, v: string)
    requires '\n' !in v
    ensures CleanLines(When(b, Entry(f, v)))
  {
    EntryClean(f, v);
  }

  lemma FieldsClean(c: Codec, p: PeerConfig)
    requires Faithful(c) && TypedPeer(p)
    ensures CleanLines(HeadLines(c, p)) && CleanLines(TailLines(c, p))
  {
    WhenClean(p.updateOnly, UpdateOnly, "true");
    HexRoundTrip(p.psk.Or([]));
    WhenClean(p.psk.Some?, PresharedKey, Hex(p.psk.Or([])));
    if p.endpoint.Some? {
      EntryClean(Endpoint, c.showEndpoint(p.endpoint.value));
    }
    KeepaliveBack(c, p.keepalive.Or(0));
    DecimalRoundTrip(c.seconds(p.keepalive.Or(0)));
    WhenClean(p.keepalive.Some?, Keepalive, Decimal(c.seconds(p.keepalive.Or(0))));
    WhenClean(p.replaceAllowed, ReplaceAllowed, "true");
  }

  lemma PeerClean(c: Codec, p: PeerConfig)
    requires Faithful(c) && TypedPeer(p)
    ensures CleanLines(PeerLines(c, p))
  {
    HexRoundTrip(p.publicKey);
    EntryClean(PublicKey, Hex(p.publicKey));
    EntryClean(Remove, "true");
    FieldsClean(c, p);
    AllowedClean(c, p.allowed);
  }

  lemma DeviceClean(cfg: Config)
    requires Typed(cfg)
    ensures CleanLines(DeviceLines(cfg))
  {
    HexRoundTrip(cfg.privateKey.Or([]));
    DecimalRoundTrip(cfg.listenPort.Or(0));
    DecimalRoundTrip(cfg.fwmark.Or(0));
    EntryClean(PrivateKey, Hex(cfg.privateKey.Or([])));
    EntryClean(ListenPort, Decimal(cfg.listenPort.Or(0)));
    EntryClean(Fwmark, Decimal(cfg.fwmark.Or(0)));
    EntryClean(ReplacePeers, "true");
  }

  lemma {:induction false} PeersClean(c: Codec, peers: seq<PeerConfig>)
    requires Faithful(c) && forall p <- peers :: TypedPeer(p)
    ensures CleanLines(PeersLines(c, peers))
  {
    if peers != [] {
      PeersClean(c, peers[..|peers| - 1]);
      PeerClean(c, peers[|peers| - 1]);
    }
  }

  // ---- main results -----------------------------------------------------------------------------

  /** Printed text never contains a blank line, which would end the input early. */
  lemma PrintHasNoBlankLine(c: Codec, cfg: Config)
    requires Faithful(c) && Typed(cfg)
    ensures NoBlankLine(Print(c, cfg))
  {
    DeviceClean(cfg);
    PeersClean(c, cfg.peers);
    UnlinesNoBlank(ConfigLines(c, cfg));
  }

  /** Parsing printed text succeeds and gives back the device fields and the peers in order. */
  lemma ParseOfPrint(c: Codec, cfg: Config)
    requires Faithful(c) && Typed(cfg)
    ensures Parse(c, Print(c, cfg)) == Some(ReturnedDevice(c, cfg))
  {
    DeviceClean(cfg);
    PeersClean(c, cfg.peers);
    var lines := ConfigLines(c, cfg);
    SplitUnlines(lines);
    ParseDevice(c, cfg);
    var dev := ReturnedDevice(c, cfg.(peers := []));
    ParsePeers(c, dev, cfg.peers);
    ParseAppend(c, Start, DeviceLines(cfg), PeersLines(c, cfg.peers));
    ParseAppend(c, Start, lines, [""]);
    ParseOne(c, State(ReturnedDevice(c, cfg), 0), "");
  }

  /** The peer came back with everything its entry asked for. */
  ghost predicate Same(p: PeerConfig, q: Peer) {
    && q.publicKey == p.publicKey && q.psk == p.psk.Or(ZeroKey) && q.endpoint == p.endpoint
    && q.keepalive == p.keepalive.Or(0) && q.allowed == p.allowed
    && q.handshake.None? && q.tx == 0 && q.rx == 0
  }

  ghost predicate Bare(p: PeerConfig) {
    p.psk.Or(ZeroKey) == ZeroKey && p.endpoint.None? && p.keepalive.Or(0) == 0 && p.allowed == []
  }

  lemma SameExactly(c: Codec, p: PeerConfig)
    requires Faithful(c) && TypedPeer(p)
    ensures Same(p, Returned(c, p)) <==> if p.remove then Bare(p) else p.keepalive.Or(0) % SECOND == 0
  {
    KeepaliveBack(c, p.keepalive.Or(0));
  }

  lemma {:induction false} ReturnedAt(c: Codec, peers: seq<PeerConfig>, i: nat)
    requires i < |peers|
    ensures |ReturnedPeers(c, peers)| == |peers| && ReturnedPeers(c, peers)[i] == Returned(c, peers[i])
  {
    if |peers| > 1 {
      ReturnedAt(c, peers[..|peers| - 1], if i < |peers| - 1 then i else 0);
    }
  }

  /** A peer round-trips exactly when its keepalive is in whole seconds and it is not removed,
      or is removed with nothing else to say. */
  lemma PeerRoundTripsExactly(c: Codec, cfg: Config, i: nat)
    requires Faithful(c) && Typed(cfg) && i < |cfg.peers|
    ensures var p, dev := cfg.peers[i], Parse(c, Print(c, cfg));
            && dev.Some? && |dev.value.peers| == |cfg.peers|
            && (Same(p, dev.value.peers[i]) <==>
                if p.remove then Bare(p) else p.keepalive.Or(0) % SECOND == 0)
  {
    ParseOfPrint(c, cfg);
    ReturnedAt(c, cfg.peers, i);
    SameExactly(c, cfg.peers[i]);
  }

  // ---- the flags, which a device report never repeats --------------------------------------------

  lemma EntriesDiffer(f: Field, v: string, g: Field, w: string)
    ensures Entry(f, v) == Entry(g, w) ==> f == g && v == w
  {
    NameClean(f);
    NameClean(g);
    CutAt(Name(f), v);
    CutAt(Name(g), w);
    NamesDiffer(f, g);
  }

  predicate Flag(f: Field) {
    f == ReplacePeers || f == Remove || f == UpdateOnly || f == ReplaceAllowed
  }

  /** A line that sets the field; a flag is set to true. */
  ghost predicate Sets(line: string, f: Field) {
    exists v :: line == Entry(f, v) && (Flag(f) ==> v == "true")
  }

  /** Some line of the list sets the field. */
  ghost predicate Flagged(lines: seq<string>, f: Field) {
    exists l :: l in lines && Sets(l, f)
  }

  lemma WhenSets(b: bool, g: Field, w: string, f: Field)
    requires Flag(g) ==> w == "true"
    ensures Flagged(When(b, Entry(g, w)), f) <==> b && f == g
  {
    if b && f == g {
      assert Entry(g, w) in When(b, Entry(g, w)) && Sets(Entry(g, w), f);
    }
    if l :| l in When(b, Entry(g, w)) && Sets(l, f) {
      var v :| l == Entry(f, v);
      EntriesDiffer(f, v, g, w);
    }
  }

  lemma FlaggedBoth(a: seq<string>, b: seq<string>, f: Field)
    ensures Flagged(a + b, f) <==> Flagged(a, f) || Flagged(b, f)
  {
    if Flagged(a, f) {
      var l :| l in a && Sets(l, f);
      assert l in a + b;
    }
    if Flagged(b, f) {
      var l :| l in b && Sets(l, f);
      assert l in a + b;
    }
  }

  lemma {:induction false} AllowedFlags(c: Codec, allowed: seq<Cidr>, f: Field)
    ensures Flagged(AllowedLines(c, allowed), f) <==> allowed != [] && f == AllowedIP
  {
    if allowed != [] {
      var init, text := allowed[..|allowed| - 1], c.showCidr(allowed[|allowed| - 1]);
      AllowedFlags(c, init, f);
      FlaggedBoth(AllowedLines(c, init), [Entry(AllowedIP, text)], f);
      WhenSets(true, AllowedIP, text, f);
    }
  }

  lemma HeadFlags(c: Codec, p: PeerConfig, f: Field)
    ensures Flagged(HeadLines(c, p), f) <==>
            || (f == UpdateOnly && p.updateOnly) || (f == PresharedKey && p.psk.Some?)
            || (f == Endpoint && p.endpoint.Some?)
  {
    var a := When(p.updateOnly, Entry(UpdateOnly, "true"));
    var b := When(p.psk.Some?, Entry(PresharedKey, Hex(p.psk.Or([]))));
    WhenSets(p.updateOnly, UpdateOnly, "true", f);
    WhenSets(p.psk.Some?, PresharedKey, Hex(p.psk.Or([])), f);
    FlaggedBoth(a, b, f);
    FlaggedBoth(a + b, EndpointLine(c, p.endpoint), f);
    if p.endpoint.Some? {
      WhenSets(true, Endpoint, c.showEndpoint(p.endpoint.value), f);
    }
  }

  lemma TailFlags(c: Codec, p: PeerConfig, f: Field)
    ensures Flagged(TailLines(c, p), f) <==>
            (f == Keepalive && p.keepalive.Some?) || (f == ReplaceAllowed && p.replaceAllowed)
  {
    var k := Decimal(c.seconds(p.keepalive.Or(0)));
    WhenSets(p.keepalive.Some?, Keepalive, k, f);
    WhenSets(p.replaceAllowed, ReplaceAllowed, "true", f);
    FlaggedBoth(When(p.keepalive.Some?, Entry(Keepalive, k)), When(p.replaceAllowed, Entry(ReplaceAllowed, "true")), f);
  }

  /** What a peer's entry asks for when it does not remove the peer. */
  predicate Asks(p: PeerConfig, f: Field) {
    || (f == UpdateOnly && p.updateOnly) || (f == PresharedKey && p.psk.Some?)
    || (f == Endpoint && p.endpoint.Some?) || (f == Keepalive && p.keepalive.Some?)
    || (f == ReplaceAllowed && p.replaceAllowed) || (f == AllowedIP && p.allowed != [])
  }

  lemma FieldsSay(c: Codec, p: PeerConfig, f: Field)
    ensures Flagged(PeerFields(c, p), f) <==> Asks(p, f)
  {
    HeadFlags(c, p, f);
    TailFlags(c, p, f);
    AllowedFlags(c, p.allowed, f);
    FlaggedBoth(HeadLines(c, p), TailLines(c, p), f);
    FlaggedBoth(HeadLines(c, p) + TailLines(c, p), AllowedLines(c, p.allowed), f);
  }

  lemma KeyedSays(k: Key, rest: seq<string>, f: Field)
    ensures Flagged([Entry(PublicKey, Hex(k))] + rest, f) <==> f == PublicKey || Flagged(rest, f)
  {
    WhenSets(true, PublicKey, Hex(k), f);
    FlaggedBoth([Entry(PublicKey, Hex(k))], rest, f);
  }

  /** The lines of a peer say what its entry asks for and no more: a removal says only that, and
      any other entry whether it is an update and whether the routes replace the old ones. */
  lemma PeerSaysExactly(c: Codec, p: PeerConfig, f: Field)
    ensures Flagged(PeerLines(c, p), f) <==> f == PublicKey || if p.remove then f == Remove else Asks(p, f)
  {
    if p.remove {
      WhenSets(true, Remove, "true", f);
      KeyedSays(p.publicKey, [Entry(Remove, "true")], f);
    } else {
      FieldsSay(c, p, f);
      KeyedSays(p.publicKey, PeerFields(c, p), f);
    }
  }

  /** The device part says whether the peers replace the old ones. */
  lemma DeviceSaysExactly(cfg: Config, f: Field)
    ensures Flagged(DeviceLines(cfg), f) <==>
            || (f == PrivateKey && cfg.privateKey.Some?) || (f == ListenPort && cfg.listenPort.Some?)
            || (f == Fwmark && cfg.fwmark.Some?) || (f == ReplacePeers && cfg.replacePeers)
  {
    var key, port, mark := Hex(cfg.privateKey.Or([])), Decimal(cfg.listenPort.Or(0)), Decimal(cfg.fwmark.Or(0));
    var a := When(cfg.privateKey.Some?, Entry(PrivateKey, key));
    var b := When(cfg.listenPort.Some?, Entry(ListenPort, port));
    var m := When(cfg.fwmark.Some?, Entry(Fwmark, mark));
    WhenSets(cfg.privateKey.Some?, PrivateKey, key, f);
    WhenSets(cfg.listenPort.Some?, ListenPort, port, f);
    WhenSets(cfg.fwmark.Some?, Fwmark, mark, f);
    WhenSets(cfg.replacePeers, ReplacePeers, "true", f);
    FlaggedBoth(a, b, f);
    FlaggedBoth(a + b, m, f);
    FlaggedBoth(a + b + m, When(cfg.replacePeers, Entry(ReplacePeers, "true")), f);
  }

  // ---- the builder and the parsing loop ---------------------------------------------------------

  lemma {:induction false} UnlinesConcat(a: seq<string>, b: seq<string>)
    ensures Unlines(a + b) == Unlines(a) + Unlines(b)
  {
    if b == [] {
      assert a + b == a;
    } else {
      var init, last := b[..|b| - 1], b[|b| - 1];
      UnlinesConcat(a, init);
      assert (a + b)[..|a + b| - 1] == a + init;
      assert Unlines(a) + Unlines(init) + last + "\n" == Unlines(a) + Unlines(b);
    }
  }

  /** A line for the builder, when it is called for. */
  method Write(b: bool, line: string) returns (r: string)
    ensures r == Unlines(When(b, line))
  {
    if b {
      assert [line][..0] == [];
      return line + "\n";
    }
    return "";
  }

  method BuildHead(c: Codec, p: PeerConfig) returns (r: string)
    ensures r == Unlines(HeadLines(c, p))
  {
    var update := Write(p.updateOnly, Entry(UpdateOnly, "true"));
    var psk := Write(p.psk.Some?, Entry(PresharedKey, Hex(p.psk.Or([]))));
    var a := When(p.updateOnly, Entry(UpdateOnly, "true"));
    var b := When(p.psk.Some?, Entry(PresharedKey, Hex(p.psk.Or([]))));
    UnlinesConcat(a, b);
    UnlinesConcat(a + b, EndpointLine(c, p.endpoint));
    var endpoint := "";
    if p.endpoint.Some? {
      endpoint := Write(true, Entry(Endpoint, c.showEndpoint(p.endpoint.value)));
    }
    r := update + psk + endpoint;
  }

  method BuildTail(c: Codec, p: PeerConfig) returns (r: string)
    ensures r == Unlines(TailLines(c, p))
  {
    var keepalive := Write(p.keepalive.Some?, Entry(Keepalive, Decimal(c.seconds(p.keepalive.Or(0)))));
    var replace := Write(p.replaceAllowed, Entry(ReplaceAllowed, "true"));
    var a := When(p.keepalive.Some?, Entry(Keepalive, Decimal(c.seconds(p.keepalive.Or(0)))));
    var b := When(p.replaceAllowed, Entry(ReplaceAllowed, "true"));
    UnlinesConcat(a, b);
    r := keepalive + replace;
  }

  method BuildAllowed(c: Codec, allowed: seq<Cidr>) returns (r: string)
    ensures r == Unlines(AllowedLines(c, allowed))
  {
    r := "";
    for i := 0 to |allowed|
      invariant r == Unlines(AllowedLines(c, allowed[..i]))
    {
      assert allowed[..i + 1][..i] == allowed[..i];
      var line := Write(true, Entry(AllowedIP, c.showCidr(allowed[i])));
      UnlinesConcat(AllowedLines(c, allowed[..i]), [Entry(AllowedIP, c.showCidr(allowed[i]))]);
      r := r + line;
    }
    assert allowed[..|allowed|] == allowed;
  }

  method BuildPeer(c: Codec, p: PeerConfig) returns (r: string)
    ensures r == Unlines(PeerLines(c, p))
  {
    var key := Entry(PublicKey, Hex(p.publicKey));
    r := Write(true, key);
    if p.remove {
      UnlinesConcat([key], [Entry(Remove, "true")]);
      var line := Write(true, Entry(Remove, "true"));
      r := r + line;
    } else {
      UnlinesConcat([key], PeerFields(c, p));
      UnlinesConcat(HeadLines(c, p), TailLines(c, p));
      UnlinesConcat(HeadLines(c, p) + TailLines(c, p), AllowedLines(c, p.allowed));
      var head := BuildHead(c, p);
      var tail := BuildTail(c, p);
      var allowed := BuildAllowed(c, p.allowed);
      r := r + (head + tail + allowed);
    }
  }

  method BuildDevice(cfg: Config) returns (r: string)
    ensures r == Unlines(DeviceLines(cfg))
  {
    var a := When(cfg.privateKey.Some?, Entry(PrivateKey, Hex(cfg.privateKey.Or([]))));
    var b := When(cfg.listenPort.Some?, Entry(ListenPort, Decimal(cfg.listenPort.Or(0))));
    var m := When(cfg.fwmark.Some?, Entry(Fwmark, Decimal(cfg.fwmark.Or(0))));
    var key := Write(cfg.privateKey.Some?, Entry(PrivateKey, Hex(cfg.privateKey.Or([]))));
    var port := Write(cfg.listenPort.Some?, Entry(ListenPort, Decimal(cfg.listenPort.Or(0))));
    var mark := Write(cfg.fwmark.Some?, Entry(Fwmark, Decimal(cfg.fwmark.Or(0))));
    var replace := Write(cfg.replacePeers, Entry(ReplacePeers, "true"));
    UnlinesConcat(a, b);
    UnlinesConcat(a + b, m);
    UnlinesConcat(a + b + m, When(cfg.replacePeers, Entry(ReplacePeers, "true")));
    r := key + port + mark + replace;
  }

  lemma PeersStep(c: Codec, peers: seq<PeerConfig>, i: nat)
    requires i < |peers|
    ensures Unlines(PeersLines(c, peers[..i + 1]))
            == Unlines(PeersLines(c, peers[..i])) + Unlines(PeerLines(c, peers[i]))
  {
    assert peers[..i + 1][..i] == peers[..i];
    UnlinesConcat(PeersLines(c, peers[..i]), PeerLines(c, peers[i]));
  }

  method BuildPeers(c: Codec, peers: seq<PeerConfig>) returns (r: string)
    ensures r == Unlines(PeersLines(c, peers))
  {
    r := "";
    for i := 0 to |peers|
      invariant r == Unlines(PeersLines(c, peers[..i]))
    {
      PeersStep(c, peers, i);
      var one := BuildPeer(c, peers[i]);
      r := r + one;
    }
    assert peers[..|peers|] == peers;
  }

  method BuildIpcSet(c: Codec, cfg: Config) returns (r: string)
    ensures r == Print(c, cfg)
  {
    var device := BuildDevice(cfg);
    var peers := BuildPeers(c, cfg.peers);
    UnlinesConcat(DeviceLines(cfg), PeersLines(c, cfg.peers));
    r := device + peers;
  }

  lemma ParseStep(c: Codec, st: State, lines: seq<string>, i: nat)
    requires i < |lines|
    ensures ParseFrom(c, st, lines[..i + 1]) ==
            var before := ParseFrom(c, st, lines[..i]);
            if before.None? then None else Apply(c, before.value, lines[i])
  {
    assert lines[..i + 1][..i] == lines[..i];
  }

  method ParseUapi(c: Codec, text: string) returns (r: Option<Device>)
    ensures r == Parse(c, text)
  {
    var lines := Split(text);
    var st := Start;
    for i := 0 to |lines|
      invariant ParseFrom(c, Start, lines[..i]) == Some(st)
    {
      ParseStep(c, Start, lines, i);
      var next := Apply(c, st, lines[i]);
      if next.None? {
        FailureSticks(c, Start, lines, i + 1);
        return None;
      }
      st := next.value;
    }
    assert lines[..|lines|] == lines;
    return Some(st.dev);
  }

  /** The first bad line fails the whole text. */
  lemma {:induction false} FailureSticks(c: Codec, st: State, lines: seq<string>, n: nat)
    requires n <= |lines| && ParseFrom(c, st, lines[..n]).None?
    ensures ParseFrom(c, st, lines).None?
    decreases |lines|
  {
    if n < |lines| {
      assert lines[..|lines| - 1][..n] == lines[..n];
      FailureSticks(c, st, lines[..|lines| - 1], n);
    } else {
      assert lines[..n] == lines;
    }
  }
}

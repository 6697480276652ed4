/** Device text as the embedded WireGuard device reports it, with handshake times and byte
    counters, and what parsing it gives back (cmd/agent/wgbackend.go). */
module UapiGet {

  import opened Wrappers
  import opened UapiText
  import opened Uapi

  // ---- the text a device reports ----------------------------------------------------------

  function KeyLines(p: Peer): seq<string> {
    [Entry(PublicKey, Hex(p.publicKey))] + [Entry(PresharedKey, Hex(p.psk))] + [Entry(ProtocolVersion, "1")]
  }

  function SecOf(p: Peer): int {
    p.handshake.Or((0, 0)).0
  }

  function NsecOf(p: Peer): int {
    p.handshake.Or((0, 0)).1
  }

  /** A peer that never completed a handshake reports zero times. */
  function HandshakeLines(p: Peer): seq<string> {
    [Entry(HandshakeSec, Decimal(SecOf(p)))] + [Entry(HandshakeNsec, Decimal(NsecOf(p)))]
  }

  function TrafficLines(p: Peer): seq<string> {
    [Entry(TxBytes, Decimal(p.tx))] + [Entry(RxBytes, Decimal(p.rx))]
  }

  function KeepaliveLine(p: Peer): seq<string> {
    [Entry(Keepalive, Decimal(p.keepalive / SECOND))]
  }

  function ReportedPeer(c: Codec, p: Peer): seq<string> {
    KeyLines(p) + EndpointLine(c, p.endpoint) + HandshakeLines(p)
    + (TrafficLines(p) + KeepaliveLine(p) + AllowedLines(c, p.allowed))
  }

  function ReportedPeers(c: Codec, peers: seq<Peer>): seq<string> {
    if peers == [] then [] else ReportedPeers(c, peers[..|peers| - 1]) + ReportedPeer(c, peers[|peers| - 1])
  }

  function ReportedSocket(d: Device): seq<string> {
    When(d.privateKey != ZeroKey, Entry(PrivateKey, Hex(d.privateKey)))
    + When(d.listenPort != 0, Entry(ListenPort, Decimal(d.listenPort)))
    + When(d.fwmark != 0, Entry(Fwmark, Decimal(d.fwmark)))
  }

  function Reported(c: Codec, d: Device): string {
    Unlines(ReportedSocket(d) + ReportedPeers(c, d.peers))
  }

  predicate InInt(n: int) {
    MIN_INT <= n <= MAX_INT
  }

  predicate WholeSeconds(k: int) {
    InInt(k) && k % SECOND == 0
  }

  /** What a device can hold of a peer: keys of full length, 64-bit numbers, keepalives in whole
      seconds, and no handshake at the epoch itself, which stands for none. */
  ghost predicate RealPeer(p: Peer) {
    && |p.publicKey| == KEY_LENGTH && |p.psk| == KEY_LENGTH
    && InInt(p.tx) && InInt(p.rx) && WholeSeconds(p.keepalive)
    && (p.handshake.Some? ==>
          InInt(p.handshake.value.0) && InInt(p.handshake.value.1) && p.handshake.value != (0, 0))
  }

  ghost predicate RealDevice(c: Codec, d: Device) {
    && |d.privateKey| == KEY_LENGTH && InInt(d.listenPort) && InInt(d.fwmark)
    && d.publicKey == (if d.privateKey == ZeroKey then ZeroKey else c.publicOf(d.privateKey))
    && forall p <- d.peers :: RealPeer(p)
  }

  // ---- parsing it, part by part -------------------------------------------------------------

  lemma ParseKeys(c: Codec, st: State, p: Peer)
    requires RealPeer(p)
    ensures ParseFrom(c, st, KeyLines(p)) == Some(At(st.dev, FreshPeer(p.publicKey).(psk := p.psk)))
  {
    var s0, s1 := At(st.dev, FreshPeer(p.publicKey)), At(st.dev, FreshPeer(p.publicKey).(psk := p.psk));
    var a, b := [Entry(PublicKey, Hex(p.publicKey))], [Entry(PresharedKey, Hex(p.psk))];
    assert ParseFrom(c, st, a) == Some(s0) by {
      ParsePublic(c, st, p.publicKey);
    }
    assert ParseFrom(c, s0, b) == Some(s1) by {
      ParsePsk(c, st.dev, FreshPeer(p.publicKey), p.psk);
    }
    assert ParseFrom(c, s1, [Entry(ProtocolVersion, "1")]) == Some(s1) by {
      ParseWhenAt(c, st.dev, FreshPeer(p.publicKey).(psk := p.psk), true, ProtocolVersion, "1",
                  FreshPeer(p.publicKey).(psk := p.psk));
    }
    ParseThree(c, st, a, b, [Entry(ProtocolVersion, "1")], s0, s1, s1);
  }

  lemma ParsePsk(c: Codec, dev: Device, p: Peer, k: Key)
    requires |k| == KEY_LENGTH
    ensures ParseFrom(c, At(dev, p), [Entry(PresharedKey, Hex(k))]) == Some(At(dev, p.(psk := k)))
  {
    HexRoundTrip(k);
    ParseLineAt(c, dev, p, 0, PresharedKey, Hex(k), p.(psk := k), 0);
  }

  lemma ParseEndpoint(c: Codec, dev: Device, p: Peer, e: Option<AddrPort>)
    requires Faithful(c) && p.endpoint.None?
    ensures ParseFrom(c, At(dev, p), EndpointLine(c, e)) == Some(At(dev, p.(endpoint := e)))
  {
    if e.Some? {
      ParseLineAt(c, dev, p, 0, Endpoint, c.showEndpoint(e.value), p.(endpoint := e), 0);
    }
  }

  lemma ParseSec(c: Codec, dev: Device, q: Peer, sec: int)
    requires InInt(sec)
    ensures ParseFrom(c, At(dev, q), [Entry(HandshakeSec, Decimal(sec))])
            == Some(AtSec(dev, if sec != 0 then q.(handshake := Some((sec, 0))) else q, sec))
  {
    DecimalRoundTrip(sec);
    ParseLineAt(c, dev, q, 0, HandshakeSec, Decimal(sec), if sec != 0 then q.(handshake := Some((sec, 0))) else q, sec);
  }

  lemma ParseNsec(c: Codec, dev: Device, q: Peer, sec: int, nsec: int)
    requires InInt(nsec)
    ensures ParseFrom(c, AtSec(dev, q, sec), [Entry(HandshakeNsec, Decimal(nsec))])
            == Some(AtSec(dev, if sec != 0 || nsec != 0 then q.(handshake := Some((sec, nsec))) else q, sec))
  {
    DecimalRoundTrip(nsec);
    ParseLineAt(c, dev, q, sec, HandshakeNsec, Decimal(nsec),
                if sec != 0 || nsec != 0 then q.(handshake := Some((sec, nsec))) else q, sec);
  }

  lemma ParseHandshake(c: Codec, dev: Device, q: Peer, p: Peer)
    requires RealPeer(p) && q.handshake.None?
    ensures ParseFrom(c, At(dev, q), HandshakeLines(p)) == Some(AtSec(dev, q.(handshake := p.handshake), SecOf(p)))
  {
    var sec, nsec := SecOf(p), NsecOf(p);
    var q1 := if sec != 0 then q.(handshake := Some((sec, 0))) else q;
    var q2 := if sec != 0 || nsec != 0 then q1.(handshake := Some((sec, nsec))) else q1;
    ParseSec(c, dev, q, sec);
    ParseNsec(c, dev, q1, sec, nsec);
    ParseBoth(c, At(dev, q), [Entry(HandshakeSec, Decimal(sec))], [Entry(HandshakeNsec, Decimal(nsec))],
              AtSec(dev, q1, sec), AtSec(dev, q2, sec));
    assert q2 == q.(handshake := p.handshake);
  }

  lemma KeepaliveSeconds(k: int)
    requires WholeSeconds(k)
    ensures InInt(k / SECOND) && k / SECOND * SECOND == k
  {
  }

  lemma ParseTraffic(c: Codec, dev: Device, q: Peer, sec: int, p: Peer)
    requires RealPeer(p)
    ensures ParseFrom(c, AtSec(dev, q, sec), TrafficLines(p)) == Some(AtSec(dev, q.(tx := p.tx, rx := p.rx), sec))
  {
    var q1 := q.(tx := p.tx);
    var q2 := q1.(rx := p.rx);
    var a, b := [Entry(TxBytes, Decimal(p.tx))], [Entry(RxBytes, Decimal(p.rx))];
    assert ParseFrom(c, AtSec(dev, q, sec), a) == Some(AtSec(dev, q1, sec)) by {
      DecimalRoundTrip(p.tx);
      ParseLineAt(c, dev, q, sec, TxBytes, Decimal(p.tx), q1, sec);
    }
    assert ParseFrom(c, AtSec(dev, q1, sec), b) == Some(AtSec(dev, q2, sec)) by {
      DecimalRoundTrip(p.rx);
      ParseLineAt(c, dev, q1, sec, RxBytes, Decimal(p.rx), q2, sec);
    }
    ParseBoth(c, AtSec(dev, q, sec), a, b, AtSec(dev, q1, sec), AtSec(dev, q2, sec));
  }

  lemma ParseKeepalive(c: Codec, dev: Device, q: Peer, sec: int, k: int)
    requires WholeSeconds(k)
    ensures ParseFrom(c, AtSec(dev, q, sec), [Entry(Keepalive, Decimal(k / SECOND))])
            == Some(AtSec(dev, q.(keepalive := k), sec))
  {
    KeepaliveSeconds(k);
    DecimalRoundTrip(k / SECOND);
    WrapInRange(k);
    ParseLineAt(c, dev, q, sec, Keepalive, Decimal(k / SECOND), q.(keepalive := k), sec);
  }

  lemma ParseFirstHalf(c: Codec, st: State, p: Peer, q: Peer)
    requires Faithful(c) && RealPeer(p)
    requires q == FreshPeer(p.publicKey).(psk := p.psk, endpoint := p.endpoint, handshake := p.handshake)
    ensures ParseFrom(c, st, KeyLines(p) + EndpointLine(c, p.endpoint) + HandshakeLines(p))
            == Some(AtSec(st.dev, q, SecOf(p)))
  {
    var dev := st.dev;
    var p1 := FreshPeer(p.publicKey).(psk := p.psk);
    var p2 := p1.(endpoint := p.endpoint);
    ParseKeys(c, st, p);
    ParseEndpoint(c, dev, p1, p.endpoint);
    ParseHandshake(c, dev, p2, p);
    ParseThree(c, st, KeyLines(p), EndpointLine(c, p.endpoint), HandshakeLines(p),
               At(dev, p1), At(dev, p2), AtSec(dev, q, SecOf(p)));
  }

  lemma ParseSecondHalf(c: Codec, dev: Device, p: Peer, q: Peer, sec: int)
    requires Faithful(c) && RealPeer(p)
    requires q == FreshPeer(p.publicKey).(psk := p.psk, endpoint := p.endpoint, handshake := p.handshake)
    ensures ParseFrom(c, AtSec(dev, q, sec), TrafficLines(p) + KeepaliveLine(p) + AllowedLines(c, p.allowed))
            == Some(AtSec(dev, p, sec))
  {
    var q1 := q.(tx := p.tx, rx := p.rx);
    var q2 := q1.(keepalive := p.keepalive);
    ParseTraffic(c, dev, q, sec, p);
    ParseKeepalive(c, dev, q1, sec, p.keepalive);
    ParseAllowed(c, dev, q2, sec, p.allowed);
    assert q2.(allowed := q2.allowed + p.allowed) == p;
    ParseThree(c, AtSec(dev, q, sec), TrafficLines(p), KeepaliveLine(p), AllowedLines(c, p.allowed),
               AtSec(dev, q1, sec), AtSec(dev, q2, sec), AtSec(dev, p, sec));
  }

  lemma ParseReportedPeer(c: Codec, st: State, p: Peer, end: State)
    requires Faithful(c) && RealPeer(p) && end == AtSec(st.dev, p, SecOf(p))
    ensures ParseFrom(c, st, ReportedPeer(c, p)) == Some(end)
  {
    var q := FreshPeer(p.publicKey).(psk := p.psk, endpoint := p.endpoint, handshake := p.handshake);
    ParseFirstHalf(c, st, p, q);
    ParseSecondHalf(c, st.dev, p, q, SecOf(p));
    ParseBoth(c, st, KeyLines(p) + EndpointLine(c, p.endpoint) + HandshakeLines(p),
              TrafficLines(p) + KeepaliveLine(p) + AllowedLines(c, p.allowed),
              AtSec(st.dev, q, SecOf(p)), end);
  }

  /** The state once the peers are read. */
  function Upto(dev: Device, peers: seq<Peer>): State {
    State(dev.(peers := peers), if peers == [] then 0 else SecOf(peers[|peers| - 1]))
  }

  lemma UptoLast(dev: Device, peers: seq<Peer>)
    requires peers != []
    ensures var init, last := peers[..|peers| - 1], peers[|peers| - 1];
            Upto(dev, peers) == AtSec(Upto(dev, init).dev, last, SecOf(last))
  {
    assert peers[..|peers| - 1] + [peers[|peers| - 1]] == peers;
  }

  lemma {:induction false} ParseReportedPeers(c: Codec, dev: Device, peers: seq<Peer>)
    requires Faithful(c) && forall p <- peers :: RealPeer(p)
    ensures ParseFrom(c, Upto(dev, []), ReportedPeers(c, peers)) == Some(Upto(dev, peers))
  {
    if peers != [] {
      var init, last := peers[..|peers| - 1], peers[|peers| - 1];
      ParseReportedPeers(c, dev, init);
      UptoLast(dev, peers);
      ParseReportedPeer(c, Upto(dev, init), last, Upto(dev, peers));
      ParseBoth(c, Upto(dev, []), ReportedPeers(c, init), ReportedPeer(c, last), Upto(dev, init), Upto(dev, peers));
    }
  }

  lemma ParsePrivate(c: Codec, k: Key)
    requires |k| == KEY_LENGTH
    ensures ParseFrom(c, Start, When(k != ZeroKey, Entry(PrivateKey, Hex(k))))
            == Some(State(Device(k, if k == ZeroKey then ZeroKey else c.publicOf(k), 0, 0, []), 0))
  {
    HexRoundTrip(k);
    ParseWhen(c, Start, k != ZeroKey, PrivateKey, Hex(k));
  }

  lemma ParsePort(c: Codec, st: State, n: int)
    requires InInt(n) && st.dev.listenPort == 0
    ensures ParseFrom(c, st, When(n != 0, Entry(ListenPort, Decimal(n)))) == Some(st.(dev := st.dev.(listenPort := n)))
  {
    DecimalRoundTrip(n);
    ParseWhen(c, st, n != 0, ListenPort, Decimal(n));
  }

  lemma ParseMark(c: Codec, st: State, n: int)
    requires InInt(n) && st.dev.fwmark == 0
    ensures ParseFrom(c, st, When(n != 0, Entry(Fwmark, Decimal(n)))) == Some(st.(dev := st.dev.(fwmark := n)))
  {
    DecimalRoundTrip(n);
    ParseWhen(c, st, n != 0, Fwmark, Decimal(n));
  }

  lemma ParseReportedSocket(c: Codec, d: Device)
    requires RealDevice(c, d)
    ensures ParseFrom(c, Start, ReportedSocket(d)) == Some(Upto(d, []))
  {
    var s1 := State(Device(d.privateKey, d.publicKey, 0, 0, []), 0);
    var s2 := s1.(dev := s1.dev.(listenPort := d.listenPort));
    ParsePrivate(c, d.privateKey);
    ParsePort(c, s1, d.listenPort);
    ParseMark(c, s2, d.fwmark);
    ParseThree(c, Start, When(d.privateKey != ZeroKey, Entry(PrivateKey, Hex(d.privateKey))),
               When(d.listenPort != 0, Entry(ListenPort, Decimal(d.listenPort))),
               When(d.fwmark != 0, Entry(Fwmark, Decimal(d.fwmark))), s1, s2, Upto(d, []));
  }

  // ---- every line is clean --------------------------------------------------------------------

  lemma PairClean(f: Field, v: string, g: Field, w: string)
    requires '\n' !in v && '\n' !in w
    ensures CleanLines([Entry(f, v)] + [Entry(g, w)])
  {
    EntryClean(f, v);
    EntryClean(g, w);
  }

  lemma KeysClean(p: Peer)
    requires RealPeer(p)
    ensures CleanLines(KeyLines(p))
  {
    HexRoundTrip(p.publicKey);
    HexRoundTrip(p.psk);
    PairClean(PublicKey, Hex(p.publicKey), PresharedKey, Hex(p.psk));
    EntryClean(ProtocolVersion, "1");
  }

  lemma NumbersClean(p: Peer)
    requires RealPeer(p)
    ensures CleanLines(HandshakeLines(p)) && CleanLines(TrafficLines(p)) && CleanLines(KeepaliveLine(p))
  {
    DecimalRoundTrip(SecOf(p));
    DecimalRoundTrip(NsecOf(p));
    PairClean(HandshakeSec, Decimal(SecOf(p)), HandshakeNsec, Decimal(NsecOf(p)));
    DecimalRoundTrip(p.tx);
    DecimalRoundTrip(p.rx);
    PairClean(TxBytes, Decimal(p.tx), RxBytes, Decimal(p.rx));
    KeepaliveSeconds(p.keepalive);
    DecimalRoundTrip(p.keepalive / SECOND);
    EntryClean(Keepalive, Decimal(p.keepalive / SECOND));
  }

  lemma ReportedPeerClean(c: Codec, p: Peer)
    requires Faithful(c) && RealPeer(p)
    ensures CleanLines(ReportedPeer(c, p))
  {
    KeysClean(p);
    NumbersClean(p);
    AllowedClean(c, p.allowed);
    if p.endpoint.Some? {
      EntryClean(Endpoint, c.showEndpoint(p.endpoint.value));
    }
  }

  lemma {:induction false} ReportedPeersClean(c: Codec, peers: seq<Peer>)
    requires Faithful(c) && forall p <- peers :: RealPeer(p)
    ensures CleanLines(ReportedPeers(c, peers))
  {
    if peers != [] {
      ReportedPeersClean(c, peers[..|peers| - 1]);
      ReportedPeerClean(c, peers[|peers| - 1]);
    }
  }

  lemma SocketClean(c: Codec, d: Device)
    requires RealDevice(c, d)
    ensures CleanLines(ReportedSocket(d))
  {
    HexRoundTrip(d.privateKey);
    DecimalRoundTrip(d.listenPort);
    DecimalRoundTrip(d.fwmark);
    EntryClean(PrivateKey, Hex(d.privateKey));
    EntryClean(ListenPort, Decimal(d.listenPort));
    EntryClean(Fwmark, Decimal(d.fwmark));
  }

  // ---- the round trip ---------------------------------------------------------------------------

  /** Whatever a device holds, its report parses back to it: keys, endpoints, handshake times,
      with none for a peer that never had one, byte counters each in its own field, keepalives
      and routes, peer by peer and in order. */
  lemma ParseOfReport(c: Codec, d: Device)
    requires Faithful(c) && RealDevice(c, d)
    ensures Parse(c, Reported(c, d)) == Some(d)
  {
    var socket, peers := ReportedSocket(d), ReportedPeers(c, d.peers);
    SocketClean(c, d);
    ReportedPeersClean(c, d.peers);
    SplitUnlines(socket + peers);
    ParseReportedSocket(c, d);
    ParseReportedPeers(c, d, d.peers);
    ParseBoth(c, Start, socket, peers, Upto(d, []), Upto(d, d.peers));
    ParseOne(c, Upto(d, d.peers), "");
    ParseBoth(c, Start, socket + peers, [""], Upto(d, d.peers), Upto(d, d.peers));
  }
}

/** The QUIC relay leg: a WireGuard datagram travels as numbered fragments in unreliable QUIC
    datagrams and is put together again at the far end (cmd/agent/relayquic.go). An empty part
    is Go's nil slice, so a part that arrived empty looks like one that did not arrive. */
module QuicRelay {

  import opened Wrappers

  type Bytes = seq<Byte>

  const FRAGMENT_PAYLOAD: nat := 1000
  const FRAGMENT_HEADER: nat := 8
  const MAX_ASSEMBLIES: nat := 64
  const MAX_DATAGRAM: nat := 65536
  const ID_LIMIT: nat := 0x1_0000_0000

  // ---- wire format ----------------------------------------------------------------------

  datatype Fragment = Fragment(index: Byte, count: Byte, id: nat, payload: Bytes)

  function PutUint32(id: nat): (r: Bytes)
    requires id < ID_LIMIT
    ensures |r| == 4
  {
    [id / 0x100_0000, id / 0x1_0000 % 256, id / 256 % 256, id % 256]
  }

  function Uint32(b: Bytes): nat
    requires |b| == 4
  {
    var w: seq<int> := b;
    w[0] * 0x100_0000 + w[1] * 0x1_0000 + w[2] * 256 + w[3]
  }

  lemma Uint32RoundTrip(id: nat)
    requires id < ID_LIMIT
    ensures Uint32(PutUint32(id)) == id
  {
    var hi, mid, lo := id / 256, id / 0x1_0000, id / 0x100_0000;
    assert id == hi * 256 + id % 256;
    assert hi == mid * 256 + hi % 256;
    assert mid == lo * 256 + mid % 256;
  }

  function Encode(f: Fragment): (r: Bytes)
    requires f.id < ID_LIMIT
    ensures |r| == FRAGMENT_HEADER + |f.payload|
  {
    ['W' as int, 'Q' as int, f.index, f.count] + PutUint32(f.id) + f.payload
  }

  function Parse(frame: Bytes): (r: Option<Fragment>)
    ensures r.Some? ==> r.value.index < r.value.count
  {
    if |frame| < FRAGMENT_HEADER || frame[0] != 'W' as int || frame[1] != 'Q' as int then None
    else if frame[3] == 0 || frame[2] >= frame[3] then None
    else Some(Fragment(frame[2], frame[3], Uint32(frame[4..8]), frame[8..]))
  }

  lemma FrameRoundTrip(f: Fragment)
    requires f.id < ID_LIMIT && f.index < f.count
    ensures Parse(Encode(f)) == Some(f)
  {
    var frame := Encode(f);
    assert frame[4..8] == PutUint32(f.id);
    assert frame[8..] == f.payload;
    Uint32RoundTrip(f.id);
  }

  lemma PutUint32OfUint32(b: Bytes)
    requires |b| == 4
    ensures Uint32(b) < ID_LIMIT && PutUint32(Uint32(b)) == b
  {
    var id := Uint32(b);
    var w: seq<int> := b;
    var hi, mid := (w[0] * 256 + w[1]) * 256 + w[2], w[0] * 256 + w[1];
    assert id == hi * 256 + w[3] && hi == mid * 256 + w[2];
    assert id / 256 == hi && id % 256 == w[3];
    assert hi / 256 == mid && hi % 256 == w[2];
    assert mid / 256 == w[0] && mid % 256 == w[1];
    assert id / 0x1_0000 == mid && id / 0x100_0000 == w[0];
  }

  /** A frame is taken exactly when it is long enough, starts with the marker WQ and numbers a part
      below the count; what is taken encodes back to the frame. */
  lemma ParseExactly(frame: Bytes)
    ensures Parse(frame).Some? <==> |frame| >= 8 && frame[0] == 87 && frame[1] == 81 && frame[2] < frame[3]
    ensures Parse(frame).Some? ==> Parse(frame).value.id < ID_LIMIT && Encode(Parse(frame).value) == frame
  {
    if Parse(frame).Some? {
      PutUint32OfUint32(frame[4..8]);
      assert frame == frame[..4] + frame[4..8] + frame[8..];
      assert frame[..4] == ['W' as int, 'Q' as int, frame[2], frame[3]];
    }
  }

  // ---- sending --------------------------------------------------------------------------

  function Count(n: nat): nat {
    (n + FRAGMENT_PAYLOAD - 1) / FRAGMENT_PAYLOAD
  }

  /** Part k of a datagram. */
  function Slice(d: Bytes, k: nat): (part: Bytes)
    requires k < Count(|d|)
    ensures 0 < |part| <= FRAGMENT_PAYLOAD
  {
    d[k * FRAGMENT_PAYLOAD .. Min((k + 1) * FRAGMENT_PAYLOAD, |d|)]
  }

  predicate Sendable(d: Bytes) {
    0 < Count(|d|) < 256
  }

  /** Datagrams of 1 to 255000 bytes are sent, in as many frames as 1000-byte parts fill. */
  lemma SendableExactly(d: Bytes)
    ensures Sendable(d) <==> 1 <= |d| <= 255_000
    ensures (Count(|d|) - 1) * 1000 < |d| <= Count(|d|) * 1000 || |d| == 0
  {
  }

  function FrameOf(d: Bytes, id: nat, k: nat): Bytes
    requires id < ID_LIMIT && Sendable(d) && k < Count(|d|)
  {
    Encode(Fragment(k, Count(|d|), id, Slice(d, k)))
  }

  /** The frames of one datagram; none when it is empty or needs more than 255. */
  function Frames(d: Bytes, id: nat): seq<Bytes>
    requires id < ID_LIMIT
  {
    if Sendable(d) then seq(Count(|d|), k requires 0 <= k < Count(|d|) => FrameOf(d, id, k)) else []
  }

  /** Fills one frame buffer: header, big-endian id, payload. */
  method FillFrame(buf: array<Byte>, lo: nat, hi: nat, i: Byte, count: Byte, id: nat) returns (frame: array<Byte>)
    requires lo <= hi <= buf.Length && id < ID_LIMIT
    ensures fresh(frame) && frame[..] == Encode(Fragment(i, count, id, buf[lo..hi]))
    ensures frame.Length == 8 + hi - lo && frame[..4] == [87, 81, i, count] && frame[8..] == buf[lo..hi]
    ensures id == frame[4] as int * 0x100_0000 + frame[5] as int * 0x1_0000 + frame[6] as int * 256 + frame[7] as int
  {
    frame := new Byte[FRAGMENT_HEADER + hi - lo];
    frame[0], frame[1], frame[2], frame[3] := 'W' as int, 'Q' as int, i, count;
    var be := PutUint32(id);
    Uint32RoundTrip(id);
    frame[4], frame[5], frame[6], frame[7] := be[0], be[1], be[2], be[3];
    forall k | 0 <= k < hi - lo {
      frame[FRAGMENT_HEADER + k] := buf[lo + k];
    }
  }

  method UdpToQuic(buf: array<Byte>, n: nat, id: nat) returns (frames: seq<Bytes>)
    requires n <= buf.Length && id < ID_LIMIT
    ensures frames == Frames(buf[..n], id)
  {
    frames := [];
    var count := (n + FRAGMENT_PAYLOAD - 1) / FRAGMENT_PAYLOAD;
    if count == 0 || count > 255 {
      return;
    }
    ghost var d := buf[..n];
    for i := 0 to count
      invariant |frames| == i && buf[..n] == d
      invariant forall k :: 0 <= k < i ==> frames[k] == FrameOf(d, id, k)
    {
      var lo := i * FRAGMENT_PAYLOAD;
      var hi := Min(lo + FRAGMENT_PAYLOAD, n);
      var frame := FillFrame(buf, lo, hi, i, count, id);
      assert buf[lo..hi] == Slice(d, i);
      frames := frames + [frame[..]];
    }
  }

  // ---- receiving ------------------------------------------------------------------------

  datatype Assembly = Assembly(parts: seq<Bytes>, seen: nat)

  type Table = map<nat, Assembly>

  function Join(parts: seq<Bytes>): Bytes {
    if parts == [] then [] else Join(parts[..|parts| - 1]) + parts[|parts| - 1]
  }

  ghost function AnyOf(t: Table, victim: nat): (gone: nat)
    requires |t| > 0
    ensures gone in t && (victim in t ==> gone == victim)
  {
    if victim in t then victim else var v :| v in t; v
  }

  /** Makes room for an unknown id: a full table loses an arbitrary assembly, here the
      victim if the table holds it. */
  ghost function Admit(t: Table, f: Fragment, victim: nat): (u: Table)
    ensures f.id in u
  {
    if f.id in t then t
    else
      var t := if |t| >= MAX_ASSEMBLIES then t - {AnyOf(t, victim)} else t;
      t[f.id := Assembly(seq(f.count, _ => []), 0)]
  }

  /** A fragment of a new datagram costs another one its parts exactly when 64 are under way. */
  lemma AdmitsExactly(t: Table, f: Fragment, victim: nat)
    requires f.id !in t
    ensures var u := Admit(t, f, victim);
            && f.id in u && u[f.id] == Assembly(seq(f.count, _ => []), 0)
            && (forall i :: i in u && i != f.id ==> i in t && u[i] == t[i])
            && |u| == if |t| < 64 then |t| + 1 else |t|
  {
  }

  /** Files one fragment whose assembly is on the table, and writes the datagram out when it
      is complete. */
  ghost function File(t: Table, f: Fragment): (Table, Option<Bytes>)
    requires f.id in t
  {
    var a := t[f.id];
    if |a.parts| != f.count || f.index >= |a.parts| || a.parts[f.index] != [] then (t, None)
    else
      var b := Assembly(a.parts[f.index := f.payload], a.seen + 1);
      if b.seen != f.count then (t[f.id := b], None)
      else
        var packet := Join(b.parts);
        (t - {f.id}, if |packet| <= MAX_DATAGRAM then Some(packet) else None)
  }

  ghost function Receive(t: Table, frame: Bytes, victim: nat): (Table, Option<Bytes>) {
    match Parse(frame)
    case None => (t, None)
    case Some(f) => File(Admit(t, f, victim), f)
  }

  method JoinParts(parts: seq<Bytes>) returns (packet: Bytes)
    ensures packet == Join(parts)
  {
    packet := [];
    for i := 0 to |parts|
      invariant packet == Join(parts[..i])
    {
      packet := packet + parts[i];
      assert parts[..i + 1][..i] == parts[..i];
    }
    assert parts[..|parts|] == parts;
  }

  class Reassembler {
    var assemblies: Table

    constructor ()
      ensures assemblies == map[]
    {
      assemblies := map[];
    }

    /** One turn of the receiving pump. The victim is whatever id the map yields first. */
    method QuicToUdp(frame: Bytes) returns (out: Option<Bytes>, ghost victim: nat)
      modifies this
      ensures (assemblies, out) == Receive(old(assemblies), frame, victim)
    {
      out, victim := None, 0;
      if |frame| < FRAGMENT_HEADER || frame[0] != 'W' as int || frame[1] != 'Q' as int {
        return;
      }
      var idx, count := frame[2], frame[3];
      if count == 0 || idx >= count {
        return;
      }
      var id := Uint32(frame[4..8]);
      if id !in assemblies {
        if |assemblies| >= MAX_ASSEMBLIES {
          var gone :| gone in assemblies.Keys;
          victim := gone;
          assemblies := assemblies - {gone};
        }
        assemblies := assemblies[id := Assembly(seq(count, _ => []), 0)];
      }
      var a := assemblies[id];
      if |a.parts| != count || a.parts[idx] != [] {
        return;
      }
      a := Assembly(a.parts[idx := frame[8..]], a.seen + 1);
      assert (assemblies[id := a]) - {id} == assemblies - {id};
      assemblies := assemblies[id := a];
      if a.seen != count {
        return;
      }
      var packet := JoinParts(a.parts);
      assemblies := assemblies - {id};
      if |packet| <= MAX_DATAGRAM {
        out := Some(packet);
      }
    }
  }
}

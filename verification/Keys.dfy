/** Public keys as text, their byte-wise order, and what is derived from an unordered pair of
    them: the relay pair id, the preshared key, and the relay port each side is handed. */
module Keys {

  type Key = string

  /** The string order of Go: byte by byte, a proper prefix first. */
  predicate Less(a: Key, b: Key) {
    |b| > 0 && (|a| == 0 || a[0] < b[0] || (a[0] == b[0] && Less(a[1..], b[1..])))
  }

  lemma {:induction false} LessTotal(a: Key, b: Key)
    ensures Less(a, b) || a == b || Less(b, a)
    ensures !(Less(a, b) && Less(b, a))
    ensures !Less(a, a)
    decreases |a|
  {
    if |a| > 0 && |b| > 0 {
      LessTotal(a[1..], b[1..]);
      assert a == [a[0]] + a[1..] && b == [b[0]] + b[1..];
    }
    if |a| > 0 {
      LessTotal(a[1..], a[1..]);
    }
  }

  /** The pair identifier hashes the two keys in order. The hash is taken as injective, so the
      ordered pair itself stands for it. */
  datatype PairId = PairId(lo: Key, hi: Key)

  function RelayPairId(a: Key, b: Key): PairId {
    if Less(b, a) then PairId(b, a) else PairId(a, b)
  }

  /** Both ends of a pair compute the same identifier, and only the same two keys do. */
  lemma PairIdSymmetric(a: Key, b: Key, c: Key, d: Key)
    ensures RelayPairId(a, b) == RelayPairId(c, d) <==> (a == c && b == d) || (a == d && b == c)
  {
    LessTotal(a, b);
    LessTotal(c, d);
  }

  /** The preshared key of a pair; `kdf` stands for HKDF over the master secret. */
  function DerivePairKey(kdf: (Key, Key) -> Key, a: Key, b: Key): Key {
    if Less(b, a) then kdf(b, a) else kdf(a, b)
  }

  /** No two ordered pairs derive the same key. */
  ghost predicate Injective(kdf: (Key, Key) -> Key) {
    forall a, b, c, d :: kdf(a, b) == kdf(c, d) ==> a == c && b == d
  }

  /** Two pairs of peers share a preshared key exactly when they are the same two peers. */
  lemma PairKeysDiffer(kdf: (Key, Key) -> Key, a: Key, b: Key, c: Key, d: Key)
    requires Injective(kdf)
    ensures DerivePairKey(kdf, a, b) == DerivePairKey(kdf, c, d) <==> (a == c && b == d) || (a == d && b == c)
  {
    PairKeyIsOfPair(kdf, a, b);
    PairKeyIsOfPair(kdf, c, d);
    PairIdSymmetric(a, b, c, d);
  }

  /** The key is derived from the two public keys in their order, as the pair identifier is. */
  lemma PairKeyIsOfPair(kdf: (Key, Key) -> Key, a: Key, b: Key)
    ensures var id := RelayPairId(a, b);
            && DerivePairKey(kdf, a, b) == kdf(id.lo, id.hi)
            && (id.lo == id.hi || Less(id.lo, id.hi))
  {
    LessTotal(a, b);
  }

  lemma PairKeySymmetric(kdf: (Key, Key) -> Key, a: Key, b: Key)
    ensures DerivePairKey(kdf, a, b) == DerivePairKey(kdf, b, a)
  {
    LessTotal(a, b);
  }
}

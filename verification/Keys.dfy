/** The flat key space of the storage: how keys are built by concatenation, and when they stay apart. */
module Keys {
  import opened Decimal
  import opened Records

  const PENDING_PREFIX := "submitted_txs"
  const UNSUCCESSFUL_PREFIX := "unsuccessful_txs"
  const CACHED_PREFIX := "cached_txs"

  /** The places of the five logical maps. */
  datatype Slot =
    | HeightSlot(query: Uint64)
    | StatusSlot(key: TxKey)
    | PendingSlot(neutronHash: string)
    | UnsuccessfulSlot(key: TxKey)
    | CachedSlot(key: TxKey)

  function HeightKey(q: Uint64): string {
    FormatUint(q)
  }

  function StatusKey(q: Uint64, hash: string): string {
    FormatUint(q) + hash
  }

  function PendingKey(neutronHash: string): string {
    PENDING_PREFIX + neutronHash
  }

  function UnsuccessfulKey(q: Uint64, hash: string): string {
    UNSUCCESSFUL_PREFIX + StatusKey(q, hash)
  }

  function CachedKey(q: Uint64, hash: string): string {
    CACHED_PREFIX + StatusKey(q, hash)
  }

  function SlotKey(s: Slot): string {
    match s
    case HeightSlot(q) => HeightKey(q)
    case StatusSlot(k) => StatusKey(k.query, k.hash)
    case PendingSlot(n) => PendingKey(n)
    case UnsuccessfulSlot(k) => UnsuccessfulKey(k.query, k.hash)
    case CachedSlot(k) => CachedKey(k.query, k.hash)
  }

  /** Two different (query, hash) pairs, the first with the longer hash, share a key exactly when
      the first query's digits, extended by the surplus of its hash, read as the second query. */
  lemma StatusKeysCollideExactly(q1: Uint64, h1: string, q2: Uint64, h2: string)
    requires |h2| <= |h1|
    ensures StatusKey(q1, h1) == StatusKey(q2, h2) <==>
            var d := |h1| - |h2|;
            h1[d..] == h2 && FormatUint(q1) + h1[..d] == FormatUint(q2)
  {
    var d := |h1| - |h2|;
    var k1, k2 := StatusKey(q1, h1), StatusKey(q2, h2);
    assert k1 == (FormatUint(q1) + h1[..d]) + h1[d..];
    if k1 == k2 {
      var cut := |k1| - |h2|;
      assert k1[cut..] == h1[d..] && k2[cut..] == h2;
      assert k1[..cut] == FormatUint(q1) + h1[..d] && k2[..cut] == FormatUint(q2);
    }
  }

  lemma FixedLengthSeparates(q1: Uint64, h1: string, q2: Uint64, h2: string)
    requires |h1| == |h2| && StatusKey(q1, h1) == StatusKey(q2, h2)
    ensures q1 == q2 && h1 == h2
  {
    StatusKeysCollideExactly(q1, h1, q2, h2);
    assert h1[0..] == h1 && FormatUint(q1) + h1[..0] == FormatUint(q1);
    FormatInjective(q1, q2);
  }

  /** With free lengths keys do collide: (1, "2x") and (12, "x"). */
  lemma FreeLengthsCollide()
    ensures StatusKey(1, "2x") == StatusKey(12, "x")
  {
    assert FormatUint(1) == "1";
    assert FormatUint(12) == FormatUint(1) + "2";
  }

  lemma KeyShapes(s: Slot)
    ensures s.HeightSlot? || s.StatusSlot? ==> IsDigit(SlotKey(s)[0])
    ensures s.HeightSlot? ==> |SlotKey(s)| <= 20
    ensures s.StatusSlot? ==> 64 < |SlotKey(s)|
    ensures s.PendingSlot? ==> SlotKey(s)[0] == 's'
    ensures s.UnsuccessfulSlot? ==> SlotKey(s)[0] == 'u'
    ensures s.CachedSlot? ==> SlotKey(s)[0] == 'c'
  {
    if s.HeightSlot? {
      Uint64TextIsShort(s.query);
    }
  }

  /** No two places of the five maps share a key. */
  lemma SlotKeysInjective(a: Slot, b: Slot)
    requires SlotKey(a) == SlotKey(b)
    ensures a == b
  {
    KeyShapes(a);
    KeyShapes(b);
    match a
    case HeightSlot(q) => FormatInjective(q, b.query);
    case StatusSlot(k) => FixedLengthSeparates(k.query, k.hash, b.key.query, b.key.hash);
    case PendingSlot(n) =>
      assert SlotKey(a)[|PENDING_PREFIX|..] == n && SlotKey(b)[|PENDING_PREFIX|..] == b.neutronHash;
    case UnsuccessfulSlot(k) =>
      assert SlotKey(a)[|UNSUCCESSFUL_PREFIX|..] == StatusKey(k.query, k.hash);
      assert SlotKey(b)[|UNSUCCESSFUL_PREFIX|..] == StatusKey(b.key.query, b.key.hash);
      FixedLengthSeparates(k.query, k.hash, b.key.query, b.key.hash);
    case CachedSlot(k) =>
      assert SlotKey(a)[|CACHED_PREFIX|..] == StatusKey(k.query, k.hash);
      assert SlotKey(b)[|CACHED_PREFIX|..] == StatusKey(b.key.query, b.key.hash);
      FixedLengthSeparates(k.query, k.hash, b.key.query, b.key.hash);
  }

  /** A prefix scan meets a key of the store exactly when the key belongs to the scanned map. */
  lemma PrefixPicksOneMap(s: Slot)
    ensures PENDING_PREFIX <= SlotKey(s) <==> s.PendingSlot?
    ensures UNSUCCESSFUL_PREFIX <= SlotKey(s) <==> s.UnsuccessfulSlot?
  {
    KeyShapes(s);
    assert s.PendingSlot? ==> SlotKey(s)[..|PENDING_PREFIX|] == PENDING_PREFIX;
    assert s.UnsuccessfulSlot? ==> SlotKey(s)[..|UNSUCCESSFUL_PREFIX|] == UNSUCCESSFUL_PREFIX;
  }
}

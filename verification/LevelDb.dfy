/** The storage over one flat key space, and the proof that it behaves as five independent maps. */
module LevelDb {
  import opened Decimal
  import opened Records
  import opened Keys

  /** A stored value; JSON encoding is taken as the identity on records. */
  datatype Stored =
    | Text(digits: string)
    | StatusRecord(status: StatusInfo)
    | PendingRecord(pending: PendingInfo)
    | UnsuccessfulRecord(unsuccessful: UnsuccessfulInfo)
    | CachedRecord(tx: Transaction)

  type Database = map<string, Stored>

  // ----- the calls, on the flat key space -----

  function FlatSetTxStatus(
    db: Database, k: TxKey, neutronHash: string, info: StatusInfo, tx: Option<Transaction>, now: int): Database
  {
    var q, hash := k.query, k.hash;
    var d1 := db[StatusKey(q, hash) := StatusRecord(info)];
    var d2 := if tx.Some? then d1[CachedKey(q, hash) := CachedRecord(tx.value)] else d1;
    var d3 :=
      if info.status.Submitted? then d2[PendingKey(neutronHash) := PendingRecord(PendingInfo(q, hash, neutronHash))]
      else if info.status.Committed? || info.status.ErrorOnCommit? then d2 - {PendingKey(neutronHash)}
      else d2;
    var d4 :=
      if IsError(info.status)
      then d3[UnsuccessfulKey(q, hash) :=
              UnsuccessfulRecord(UnsuccessfulInfo(q, hash, neutronHash, now, info.status, info.message))]
      else d3;
    if info.status.Committed? then d4 - {UnsuccessfulKey(q, hash)} - {CachedKey(q, hash)} else d4
  }

  function FlatHeight(db: Database, q: Uint64): Option<Option<Uint64>> {
    if HeightKey(q) !in db then Some(None)
    else if !db[HeightKey(q)].Text? then None
    else match ParseUint(db[HeightKey(q)].digits) {
      case None => None
      case Some(height) => Some(Some(height))
    }
  }

  function FlatCachedTx(db: Database, q: Uint64, hash: string): Option<Transaction> {
    if CachedKey(q, hash) in db && db[CachedKey(q, hash)].CachedRecord? then Some(db[CachedKey(q, hash)].tx) else None
  }

  function FlatScan(db: Database, prefix: string): set<Stored> {
    set key | key in db && prefix <= key :: db[key]
  }

  /** The iterator's contract: every key under the prefix once, in whatever order. */
  ghost predicate Iterates(order: seq<string>, db: Database, prefix: string) {
    && (forall key :: key in order <==> key in db && prefix <= key)
    && (forall i, j :: 0 <= i < j < |order| ==> order[i] != order[j])
  }

  class LevelDBStorage {
    var db: Database

    constructor ()
      ensures db == map[]
    {
      db := map[];
    }

    /** `budget` is the number of LevelDB operations that succeed before one fails. */
    method SetTxStatus(
      q: Uint64, hash: TxHash, neutronHash: string, info: StatusInfo, tx: Option<Transaction>, now: int, budget: nat)
      returns (ok: bool)
      modifies this
      ensures ok ==> db == FlatSetTxStatus(old(db), TxKey(q, hash), neutronHash, info, tx, now)
      ensures !ok ==> db == old(db)
      ensures 7 <= budget ==> ok
    {
      var left := budget;
      if left == 0 { return false; }
      left := left - 1;
      var t := db;

      if left == 0 { return false; }
      left := left - 1;
      t := t[StatusKey(q, hash) := StatusRecord(info)];

      if tx.Some? {
        if left == 0 { return false; }
        left := left - 1;
        t := t[CachedKey(q, hash) := CachedRecord(tx.value)];
      }

      if info.status.Submitted? {
        if left == 0 { return false; }
        left := left - 1;
        t := t[PendingKey(neutronHash) := PendingRecord(PendingInfo(q, hash, neutronHash))];
      } else if info.status.Committed? || info.status.ErrorOnCommit? {
        if left == 0 { return false; }
        left := left - 1;
        t := t - {PendingKey(neutronHash)};
      }

      if info.status.ErrorOnCommit? || info.status.ErrorOnSubmit? {
        if left == 0 { return false; }
        left := left - 1;
        t := t[UnsuccessfulKey(q, hash) :=
               UnsuccessfulRecord(UnsuccessfulInfo(q, hash, neutronHash, now, info.status, info.message))];
      }

      if info.status.Committed? {
        if left == 0 { return false; }
        left := left - 1;
        t := t - {UnsuccessfulKey(q, hash)};
        if left == 0 { return false; }
        left := left - 1;
        t := t - {CachedKey(q, hash)};
      }

      if left == 0 { return false; }
      db := t;
      ok := true;
    }

    method SetLastQueryHeight(q: Uint64, height: Uint64, budget: nat) returns (ok: bool)
      modifies this
      ensures ok == (0 < budget)
      ensures db == if ok then old(db)[HeightKey(q) := Text(FormatUint(height))] else old(db)
    {
      ok := 0 < budget;
      if ok { db := db[HeightKey(q) := Text(FormatUint(height))]; }
    }

    method GetAllPendingTxs(order: seq<string>) returns (txs: Option<seq<PendingInfo>>)
      requires Iterates(order, db, PENDING_PREFIX)
      ensures txs.None? <==> exists key :: key in order && !db[key].PendingRecord?
      ensures txs.Some? ==>
                && |txs.value| == |order|
                && forall i :: 0 <= i < |order| ==> db[order[i]] == PendingRecord(txs.value[i])
    {
      var out := [];
      for i := 0 to |order|
        invariant |out| == i
        invariant forall j :: 0 <= j < i ==> db[order[j]] == PendingRecord(out[j])
      {
        if !db[order[i]].PendingRecord? { return None; }
        out := out + [db[order[i]].pending];
      }
      txs := Some(out);
    }

    method GetAllUnsuccessfulTxs(order: seq<string>) returns (txs: Option<seq<UnsuccessfulInfo>>)
      requires Iterates(order, db, UNSUCCESSFUL_PREFIX)
      ensures txs.None? <==> exists key :: key in order && !db[key].UnsuccessfulRecord?
      ensures txs.Some? ==>
                && |txs.value| == |order|
                && forall i :: 0 <= i < |order| ==> db[order[i]] == UnsuccessfulRecord(txs.value[i])
    {
      var out := [];
      for i := 0 to |order|
        invariant |out| == i
        invariant forall j :: 0 <= j < i ==> db[order[j]] == UnsuccessfulRecord(out[j])
      {
        if !db[order[i]].UnsuccessfulRecord? { return None; }
        out := out + [db[order[i]].unsuccessful];
      }
      txs := Some(out);
    }
  }

  // ----- the five maps behind the flat key space -----

  function Entry(m: Maps, s: Slot): Option<Stored> {
    match s
    case HeightSlot(q) => if q in m.heights then Some(Text(FormatUint(m.heights[q]))) else None
    case StatusSlot(k) => if k in m.statuses then Some(StatusRecord(m.statuses[k])) else None
    case PendingSlot(n) => if n in m.pending then Some(PendingRecord(m.pending[n])) else None
    case UnsuccessfulSlot(k) => if k in m.unsuccessful then Some(UnsuccessfulRecord(m.unsuccessful[k])) else None
    case CachedSlot(k) => if k in m.cached then Some(CachedRecord(m.cached[k])) else None
  }

  function Lookup(db: Database, key: string): Option<Stored> {
    if key in db then Some(db[key]) else None
  }

  ghost predicate IsSlotKey(key: string) {
    exists s :: SlotKey(s) == key
  }

  ghost predicate Represents(db: Database, m: Maps) {
    && (forall s: Slot :: Lookup(db, SlotKey(s)) == Entry(m, s))
    && (forall key :: key in db ==> IsSlotKey(key))
  }

  lemma PutRepresents(db: Database, m: Maps, s: Slot, v: Stored, m': Maps)
    requires Represents(db, m)
    requires Entry(m', s) == Some(v)
    requires forall s' :: s' != s ==> Entry(m', s') == Entry(m, s')
    ensures Represents(db[SlotKey(s) := v], m')
  {
    forall s': Slot ensures Lookup(db[SlotKey(s) := v], SlotKey(s')) == Entry(m', s') {
      assert Lookup(db, SlotKey(s')) == Entry(m, s');
      if SlotKey(s') == SlotKey(s) { SlotKeysInjective(s', s); }
    }
  }

  lemma DeleteRepresents(db: Database, m: Maps, s: Slot, m': Maps)
    requires Represents(db, m)
    requires Entry(m', s) == None
    requires forall s' :: s' != s ==> Entry(m', s') == Entry(m, s')
    ensures Represents(db - {SlotKey(s)}, m')
  {
    forall s': Slot ensures Lookup(db - {SlotKey(s)}, SlotKey(s')) == Entry(m', s') {
      assert Lookup(db, SlotKey(s')) == Entry(m, s');
      LookupAfterDelete(db, SlotKey(s), SlotKey(s'));
      if SlotKey(s') == SlotKey(s) { SlotKeysInjective(s', s); }
    }
  }

  lemma LookupAfterDelete(db: Database, key: string, key': string)
    ensures Lookup(db - {key}, key') == if key' == key then None else Lookup(db, key')
  {
  }

  lemma PutStatus(db: Database, m: Maps, k: TxKey, info: StatusInfo)
    requires Represents(db, m)
    ensures Represents(db[StatusKey(k.query, k.hash) := StatusRecord(info)], m.(statuses := m.statuses[k := info]))
  {
    PutRepresents(db, m, StatusSlot(k), StatusRecord(info), m.(statuses := m.statuses[k := info]));
  }

  lemma PutCached(db: Database, m: Maps, k: TxKey, tx: Transaction)
    requires Represents(db, m)
    ensures Represents(db[CachedKey(k.query, k.hash) := CachedRecord(tx)], m.(cached := m.cached[k := tx]))
  {
    PutRepresents(db, m, CachedSlot(k), CachedRecord(tx), m.(cached := m.cached[k := tx]));
  }

  lemma DeleteCached(db: Database, m: Maps, k: TxKey)
    requires Represents(db, m)
    ensures Represents(db - {CachedKey(k.query, k.hash)}, m.(cached := m.cached - {k}))
  {
    DeleteRepresents(db, m, CachedSlot(k), m.(cached := m.cached - {k}));
  }

  lemma PutPending(db: Database, m: Maps, n: string, p: PendingInfo)
    requires Represents(db, m)
    ensures Represents(db[PendingKey(n) := PendingRecord(p)], m.(pending := m.pending[n := p]))
  {
    PutRepresents(db, m, PendingSlot(n), PendingRecord(p), m.(pending := m.pending[n := p]));
  }

  lemma DeletePending(db: Database, m: Maps, n: string)
    requires Represents(db, m)
    ensures Represents(db - {PendingKey(n)}, m.(pending := m.pending - {n}))
  {
    DeleteRepresents(db, m, PendingSlot(n), m.(pending := m.pending - {n}));
  }

  lemma PutUnsuccessful(db: Database, m: Maps, k: TxKey, u: UnsuccessfulInfo)
    requires Represents(db, m)
    ensures Represents(db[UnsuccessfulKey(k.query, k.hash) := UnsuccessfulRecord(u)],
                       m.(unsuccessful := m.unsuccessful[k := u]))
  {
    PutRepresents(db, m, UnsuccessfulSlot(k), UnsuccessfulRecord(u), m.(unsuccessful := m.unsuccessful[k := u]));
  }

  lemma DeleteUnsuccessful(db: Database, m: Maps, k: TxKey)
    requires Represents(db, m)
    ensures Represents(db - {UnsuccessfulKey(k.query, k.hash)}, m.(unsuccessful := m.unsuccessful - {k}))
  {
    DeleteRepresents(db, m, UnsuccessfulSlot(k), m.(unsuccessful := m.unsuccessful - {k}));
  }

  lemma SetTxStatusRefines(
    db: Database, m: Maps, k: TxKey, neutronHash: string, info: StatusInfo, tx: Option<Transaction>, now: int)
    requires Represents(db, m)
    ensures Represents(FlatSetTxStatus(db, k, neutronHash, info, tx, now),
                       SetTxStatus(m, k, neutronHash, info, tx, now))
  {
    PutStatus(db, m, k, info);
    var d1, a1 := db[StatusKey(k.query, k.hash) := StatusRecord(info)], m.(statuses := m.statuses[k := info]);
    var d2, a2 := d1, a1;
    if tx.Some? {
      PutCached(d1, a1, k, tx.value);
      d2, a2 := d1[CachedKey(k.query, k.hash) := CachedRecord(tx.value)], a1.(cached := a1.cached[k := tx.value]);
    }
    match info.status {
      case Submitted =>
        PutPending(d2, a2, neutronHash, PendingInfo(k.query, k.hash, neutronHash));
      case ErrorOnSubmit =>
        PutUnsuccessful(d2, a2, k,
                        UnsuccessfulInfo(k.query, k.hash, neutronHash, now, info.status, info.message));
      case ErrorOnCommit =>
        DeletePending(d2, a2, neutronHash);
        PutUnsuccessful(d2 - {PendingKey(neutronHash)}, a2.(pending := a2.pending - {neutronHash}), k,
                        UnsuccessfulInfo(k.query, k.hash, neutronHash, now, info.status, info.message));
      case Committed =>
        DeletePending(d2, a2, neutronHash);
        var d3, a3 := d2 - {PendingKey(neutronHash)}, a2.(pending := a2.pending - {neutronHash});
        DeleteUnsuccessful(d3, a3, k);
        var d4, a4 := d3 - {UnsuccessfulKey(k.query, k.hash)}, a3.(unsuccessful := a3.unsuccessful - {k});
        DeleteCached(d4, a4, k);
        assert a4.cached - {k} == m.cached - {k};
    }
  }

  lemma SetLastQueryHeightRefines(db: Database, m: Maps, q: Uint64, height: Uint64)
    requires Represents(db, m)
    ensures Represents(db[HeightKey(q) := Text(FormatUint(height))], SetLastQueryHeight(m, q, height))
  {
    PutRepresents(db, m, HeightSlot(q), Text(FormatUint(height)), SetLastQueryHeight(m, q, height));
  }

  lemma HeightRefines(db: Database, m: Maps, q: Uint64)
    requires Represents(db, m)
    ensures FlatHeight(db, q) == Some(if q in m.heights then Some(m.heights[q]) else None)
  {
    assert Lookup(db, SlotKey(HeightSlot(q))) == Entry(m, HeightSlot(q));
    if q in m.heights { FormatThenParse(m.heights[q]); }
  }

  /** A cache key in the store belongs to a cached transaction. */
  lemma CachedKeyIsCached(db: Database, m: Maps, q: Uint64, text: string) returns (k: TxKey)
    requires Represents(db, m) && CachedKey(q, text) in db
    ensures k in m.cached && StatusKey(k.query, k.hash) == StatusKey(q, text)
    ensures db[CachedKey(q, text)] == CachedRecord(m.cached[k])
  {
    var key := CachedKey(q, text);
    assert IsSlotKey(key);
    var s :| SlotKey(s) == key;
    KeyShapes(s);
    assert Lookup(db, SlotKey(s)) == Entry(m, s);
    assert key[0] == 'c' && s.CachedSlot?;
    k := s.key;
    assert SlotKey(s)[|CACHED_PREFIX|..] == StatusKey(k.query, k.hash);
    assert key[|CACHED_PREFIX|..] == StatusKey(q, text);
  }

  /** A cached tx is found under any text whose key coincides with that of a cached (query, hash);
      for a text of the fixed length that is the pair itself. */
  lemma CachedTxRefines(db: Database, m: Maps, q: Uint64, text: string)
    requires Represents(db, m)
    ensures FlatCachedTx(db, q, text).Some? <==>
            exists k :: k in m.cached && StatusKey(k.query, k.hash) == StatusKey(q, text)
    ensures |text| == 64 ==>
              FlatCachedTx(db, q, text) == if TxKey(q, text) in m.cached then Some(m.cached[TxKey(q, text)]) else None
  {
    forall k: TxKey ensures Lookup(db, CachedKey(k.query, k.hash)) == Entry(m, CachedSlot(k)) {
      assert Lookup(db, SlotKey(CachedSlot(k))) == Entry(m, CachedSlot(k));
    }
    if CachedKey(q, text) in db {
      var k := CachedKeyIsCached(db, m, q, text);
    }
  }

  lemma PendingScanRefines(db: Database, m: Maps)
    requires Represents(db, m)
    ensures FlatScan(db, PENDING_PREFIX) == set n | n in m.pending :: PendingRecord(m.pending[n])
  {
    forall n | n in m.pending ensures PendingRecord(m.pending[n]) in FlatScan(db, PENDING_PREFIX) {
      PrefixPicksOneMap(PendingSlot(n));
      assert Lookup(db, SlotKey(PendingSlot(n))) == Entry(m, PendingSlot(n));
    }
    forall key | key in db && PENDING_PREFIX <= key
      ensures exists n :: n in m.pending && db[key] == PendingRecord(m.pending[n])
    {
      assert IsSlotKey(key);
      var s :| SlotKey(s) == key;
      PrefixPicksOneMap(s);
      assert Lookup(db, SlotKey(s)) == Entry(m, s);
    }
  }

  lemma UnsuccessfulScanRefines(db: Database, m: Maps)
    requires Represents(db, m)
    ensures FlatScan(db, UNSUCCESSFUL_PREFIX) == set k | k in m.unsuccessful :: UnsuccessfulRecord(m.unsuccessful[k])
  {
    forall k | k in m.unsuccessful ensures UnsuccessfulRecord(m.unsuccessful[k]) in FlatScan(db, UNSUCCESSFUL_PREFIX) {
      PrefixPicksOneMap(UnsuccessfulSlot(k));
      assert Lookup(db, SlotKey(UnsuccessfulSlot(k))) == Entry(m, UnsuccessfulSlot(k));
    }
    forall key | key in db && UNSUCCESSFUL_PREFIX <= key
      ensures exists k :: k in m.unsuccessful && db[key] == UnsuccessfulRecord(m.unsuccessful[k])
    {
      assert IsSlotKey(key);
      var s :| SlotKey(s) == key;
      PrefixPicksOneMap(s);
      assert Lookup(db, SlotKey(s)) == Entry(m, s);
    }
  }

  /** The two prefix scans return exactly the pending and the unsuccessful map. */
  lemma ScanRefines(db: Database, m: Maps)
    requires Represents(db, m)
    ensures FlatScan(db, PENDING_PREFIX) == set n | n in m.pending :: PendingRecord(m.pending[n])
    ensures FlatScan(db, UNSUCCESSFUL_PREFIX) == set k | k in m.unsuccessful :: UnsuccessfulRecord(m.unsuccessful[k])
  {
    PendingScanRefines(db, m);
    UnsuccessfulScanRefines(db, m);
  }

  /** values lists the map: keys are its keys, each once, with their values at the same positions. */
  ghost predicate Lists<K(!new), V>(values: seq<V>, keys: seq<K>, m: map<K, V>) {
    && |keys| == |values|
    && (forall k :: k in keys <==> k in m)
    && (forall i :: 0 <= i < |keys| ==> keys[i] in m && values[i] == m[keys[i]])
    && (forall i, j :: 0 <= i < j < |keys| ==> keys[i] != keys[j])
  }

  ghost function SlotOf(key: string): (s: Slot)
    requires IsSlotKey(key)
    ensures SlotKey(s) == key
  {
    var s :| SlotKey(s) == key;
    s
  }

  lemma ScannedSlot(db: Database, m: Maps, key: string)
    requires Represents(db, m) && key in db
    ensures IsSlotKey(key) && Some(db[key]) == Entry(m, SlotOf(key))
    ensures PENDING_PREFIX <= key <==> SlotOf(key).PendingSlot?
    ensures UNSUCCESSFUL_PREFIX <= key <==> SlotOf(key).UnsuccessfulSlot?
  {
    PrefixPicksOneMap(SlotOf(key));
    assert Lookup(db, SlotKey(SlotOf(key))) == Entry(m, SlotOf(key));
  }

  lemma SlotIsScanned(db: Database, m: Maps, order: seq<string>, prefix: string, s: Slot)
    requires Represents(db, m) && Iterates(order, db, prefix)
    requires Entry(m, s).Some? && prefix <= SlotKey(s)
    ensures SlotKey(s) in order && SlotOf(SlotKey(s)) == s
  {
    assert Lookup(db, SlotKey(s)) == Entry(m, s);
    SlotKeysInjective(SlotOf(SlotKey(s)), s);
  }

  /** The pending scan never fails to decode and lists exactly the pending map. */
  lemma PendingScanListsMap(db: Database, m: Maps, order: seq<string>, txs: seq<PendingInfo>)
    returns (keys: seq<string>)
    requires Represents(db, m) && Iterates(order, db, PENDING_PREFIX)
    requires |txs| == |order|
    requires forall i :: 0 <= i < |order| && db[order[i]].PendingRecord? ==> txs[i] == db[order[i]].pending
    ensures forall key :: key in order ==> db[key].PendingRecord?
    ensures Lists(txs, keys, m.pending)
  {
    forall key | key in order
      ensures key in db && IsSlotKey(key) && SlotOf(key).PendingSlot? && Some(db[key]) == Entry(m, SlotOf(key))
    {
      ScannedSlot(db, m, key);
    }
    keys := seq(|order|, i requires 0 <= i < |order| => assert order[i] in order; SlotOf(order[i]).neutronHash);
    forall i | 0 <= i < |order| ensures keys[i] in m.pending && txs[i] == m.pending[keys[i]] {
      assert order[i] in order;
    }
    forall n | n in m.pending ensures n in keys {
      PrefixPicksOneMap(PendingSlot(n));
      SlotIsScanned(db, m, order, PENDING_PREFIX, PendingSlot(n));
      var i :| 0 <= i < |order| && order[i] == SlotKey(PendingSlot(n));
      assert keys[i] == n;
    }
    forall i, j | 0 <= i < j < |order| ensures keys[i] != keys[j] {
      assert order[i] in order && order[j] in order;
      assert SlotKey(SlotOf(order[i])) != SlotKey(SlotOf(order[j]));
    }
  }

  /** The unsuccessful scan never fails to decode and lists exactly the unsuccessful map. */
  lemma UnsuccessfulScanListsMap(db: Database, m: Maps, order: seq<string>, txs: seq<UnsuccessfulInfo>)
    returns (keys: seq<TxKey>)
    requires Represents(db, m) && Iterates(order, db, UNSUCCESSFUL_PREFIX)
    requires |txs| == |order|
    requires forall i :: 0 <= i < |order| && db[order[i]].UnsuccessfulRecord? ==> txs[i] == db[order[i]].unsuccessful
    ensures forall key :: key in order ==> db[key].UnsuccessfulRecord?
    ensures Lists(txs, keys, m.unsuccessful)
  {
    forall key | key in order
      ensures key in db && IsSlotKey(key) && SlotOf(key).UnsuccessfulSlot? && Some(db[key]) == Entry(m, SlotOf(key))
    {
      ScannedSlot(db, m, key);
    }
    keys := seq(|order|, i requires 0 <= i < |order| => assert order[i] in order; SlotOf(order[i]).key);
    forall i | 0 <= i < |order| ensures keys[i] in m.unsuccessful && txs[i] == m.unsuccessful[keys[i]] {
      assert order[i] in order;
    }
    forall k | k in m.unsuccessful ensures k in keys {
      PrefixPicksOneMap(UnsuccessfulSlot(k));
      SlotIsScanned(db, m, order, UNSUCCESSFUL_PREFIX, UnsuccessfulSlot(k));
      var i :| 0 <= i < |order| && order[i] == SlotKey(UnsuccessfulSlot(k));
      assert keys[i] == k;
    }
    forall i, j | 0 <= i < j < |order| ensures keys[i] != keys[j] {
      assert order[i] in order && order[j] in order;
      assert SlotKey(SlotOf(order[i])) != SlotKey(SlotOf(order[j]));
    }
  }

  // ----- whole histories of calls -----

  datatype Call =
    | SetStatus(key: TxKey, neutronHash: string, info: StatusInfo, tx: Option<Transaction>, now: int)
    | SetHeight(query: Uint64, height: Uint64)
    | GetHeight(query: Uint64)
    | TxExists(key: TxKey)
    | GetCachedTx(key: TxKey)
    | AllPending
    | AllUnsuccessful

  datatype Reply =
    | Done
    | Failed
    | Height(found: Option<Uint64>)
    | Exists(answer: bool)
    | Cached(found_tx: Option<Transaction>)
    | Listed(records: set<Stored>)

  function FlatCall(db: Database, c: Call): (Database, Reply) {
    match c
    case SetStatus(k, n, info, tx, now) => (FlatSetTxStatus(db, k, n, info, tx, now), Done)
    case SetHeight(q, height) => (db[HeightKey(q) := Text(FormatUint(height))], Done)
    case GetHeight(q) => (db, if FlatHeight(db, q).Some? then Height(FlatHeight(db, q).value) else Failed)
    case TxExists(k) => (db, Exists(StatusKey(k.query, k.hash) in db))
    case GetCachedTx(k) => (db, Cached(FlatCachedTx(db, k.query, k.hash)))
    case AllPending => (db, Listed(FlatScan(db, PENDING_PREFIX)))
    case AllUnsuccessful => (db, Listed(FlatScan(db, UNSUCCESSFUL_PREFIX)))
  }

  /** The same call on five separate maps: no keys, no text, no prefixes. */
  function MapsCall(m: Maps, c: Call): (Maps, Reply) {
    match c
    case SetStatus(k, n, info, tx, now) => (SetTxStatus(m, k, n, info, tx, now), Done)
    case SetHeight(q, height) => (SetLastQueryHeight(m, q, height), Done)
    case GetHeight(q) => (m, Height(if q in m.heights then Some(m.heights[q]) else None))
    case TxExists(k) => (m, Exists(k in m.statuses))
    case GetCachedTx(k) => (m, Cached(if k in m.cached then Some(m.cached[k]) else None))
    case AllPending => (m, Listed(set n | n in m.pending :: PendingRecord(m.pending[n])))
    case AllUnsuccessful => (m, Listed(set k | k in m.unsuccessful :: UnsuccessfulRecord(m.unsuccessful[k])))
  }

  function FlatHistory(db: Database, calls: seq<Call>): (Database, seq<Reply>)
    decreases |calls|
  {
    if calls == [] then (db, [])
    else
      var (db1, reply) := FlatCall(db, calls[0]);
      var (db2, replies) := FlatHistory(db1, calls[1..]);
      (db2, [reply] + replies)
  }

  function MapsHistory(m: Maps, calls: seq<Call>): (Maps, seq<Reply>)
    decreases |calls|
  {
    if calls == [] then (m, [])
    else
      var (m1, reply) := MapsCall(m, calls[0]);
      var (m2, replies) := MapsHistory(m1, calls[1..]);
      (m2, [reply] + replies)
  }

  lemma CallRefines(db: Database, m: Maps, c: Call)
    requires Represents(db, m)
    ensures FlatCall(db, c).1 == MapsCall(m, c).1
    ensures Represents(FlatCall(db, c).0, MapsCall(m, c).0)
  {
    match c
    case SetStatus(k, n, info, tx, now) => SetTxStatusRefines(db, m, k, n, info, tx, now);
    case SetHeight(q, height) => SetLastQueryHeightRefines(db, m, q, height);
    case GetHeight(q) => HeightRefines(db, m, q);
    case TxExists(k) => assert Lookup(db, SlotKey(StatusSlot(k))) == Entry(m, StatusSlot(k));
    case GetCachedTx(k) => CachedTxRefines(db, m, k.query, k.hash);
    case _ => ScanRefines(db, m);
  }

  /** Every history of calls on the flat key space gets the replies that five separate maps would give. */
  lemma {:induction false} HistoryRefines(db: Database, m: Maps, calls: seq<Call>)
    requires Represents(db, m)
    ensures FlatHistory(db, calls).1 == MapsHistory(m, calls).1
    ensures Represents(FlatHistory(db, calls).0, MapsHistory(m, calls).0)
    decreases |calls|
  {
    if calls != [] {
      CallRefines(db, m, calls[0]);
      HistoryRefines(FlatCall(db, calls[0]).0, MapsCall(m, calls[0]).0, calls[1..]);
    }
  }

  lemma EmptyRepresents()
    ensures Represents(map[], EMPTY_MAPS)
  {
  }
}

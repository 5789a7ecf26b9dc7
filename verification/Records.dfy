/** The records the relayer stores, and the five logical maps its storage stands for. */
module Records {
  import opened Decimal

  /** Lower-case hex of a SHA-256 digest. Only its fixed length matters here. */
  type TxHash = s: string | |s| == 64
    witness "0000000000000000000000000000000000000000000000000000000000000000"

  /** A transaction of the target chain; its data is represented by the hash of the data. */
  datatype Transaction = Transaction(hash: TxHash, height: Uint64)

  datatype TxKey = TxKey(query: Uint64, hash: TxHash)

  datatype Status = Submitted | ErrorOnSubmit | Committed | ErrorOnCommit

  datatype StatusInfo = StatusInfo(status: Status, message: string)

  datatype PendingInfo = PendingInfo(query: Uint64, hash: TxHash, neutronHash: string) {
    function Key(): TxKey {
      TxKey(query, hash)
    }
  }

  datatype UnsuccessfulInfo =
    UnsuccessfulInfo(query: Uint64, hash: TxHash, neutronHash: string, errorTime: int, status: Status, message: string)

  predicate IsError(status: Status) {
    status.ErrorOnSubmit? || status.ErrorOnCommit?
  }

  datatype Maps = Maps(
    heights: map<Uint64, Uint64>,
    statuses: map<TxKey, StatusInfo>,
    pending: map<string, PendingInfo>,
    unsuccessful: map<TxKey, UnsuccessfulInfo>,
    cached: map<TxKey, Transaction>)

  const EMPTY_MAPS := Maps(map[], map[], map[], map[], map[])

  /** The height stored for a query; 0 if there is none. */
  function StoredHeight(heights: map<Uint64, Uint64>, q: Uint64): Uint64 {
    if q in heights then heights[q] else 0
  }

  /** What one successful SetTxStatus transaction does to the five maps. */
  function SetTxStatus(
    m: Maps, k: TxKey, neutronHash: string, info: StatusInfo, tx: Option<Transaction>, now: int): Maps
  {
    Maps(
      m.heights,
      m.statuses[k := info],
      match info.status {
        case Submitted => m.pending[neutronHash := PendingInfo(k.query, k.hash, neutronHash)]
        case ErrorOnSubmit => m.pending
        case _ => m.pending - {neutronHash}
      },
      match info.status {
        case Submitted => m.unsuccessful
        case Committed => m.unsuccessful - {k}
        case _ => m.unsuccessful[k := UnsuccessfulInfo(k.query, k.hash, neutronHash, now, info.status, info.message)]
      },
      if info.status.Committed? then m.cached - {k}
      else if tx.Some? then m.cached[k := tx.value]
      else m.cached)
  }

  function SetLastQueryHeight(m: Maps, q: Uint64, height: Uint64): Maps {
    m.(heights := m.heights[q := height])
  }
}

/** KV queries: the minimum update period, the heights of the values, and the header that proves them. */
module KvQueries {
  import opened Decimal
  import opened Spacing
  import opened Records
  import TrustedHeaders

  /** A proven value and the height the node answered for. */
  datatype StorageValue = StorageValue(key: string, value: string, at: int)

  /** The target chain's node: for an asked height and key, the value and the height answered for. */
  type Node = (int, string) -> Option<StorageValue>

  /** Go's conversion from int64 to uint64. */
  function ToUint64(n: int): Uint64 {
    n % TWO_TO_64
  }

  /** A proof at Tendermint height h is of the state at height h - 1; height 0 asks for the latest state. */
  function AskedHeight(height: int): Option<int> {
    if height != 0 && height <= 2 then None else if height != 0 then Some(height - 1) else Some(0)
  }

  method QueryTendermintProof(node: Node, height: int, key: string) returns (r: Option<(StorageValue, Uint64)>)
    ensures r.Some? ==> AskedHeight(height).Some? && node(AskedHeight(height).value, key) == Some(r.value.0)
                        && r.value.1 == ToUint64(r.value.0.at + 1)
    ensures r.None? ==> AskedHeight(height).None? || node(AskedHeight(height).value, key).None?
  {
    var h := height;
    if h != 0 && h <= 2 { return None; }
    if h != 0 { h := h - 1; }
    var answer := node(h, key);
    if answer.None? { return None; }
    r := Some((answer.value, ToUint64(answer.value.at + 1)));
  }

  /** The node proves a value for every key. */
  predicate AllProven(node: Node, latest: int, keys: seq<string>) {
    forall i :: 0 <= i < |keys| ==> AskedHeight(latest).Some? && node(AskedHeight(latest).value, keys[i]).Some?
  }

  /** The values in the order of the keys; the height is that of the last one, or 0 without keys. */
  method GetStorageValues(node: Node, latest: int, keys: seq<string>) returns (r: Option<(seq<StorageValue>, Uint64)>)
    ensures r.Some? ==>
              var (values, height) := r.value;
              && |values| == |keys|
              && (forall i :: 0 <= i < |keys| ==>
                    AskedHeight(latest).Some? && node(AskedHeight(latest).value, keys[i]) == Some(values[i]))
              && height == (if keys == [] then 0 else ToUint64(values[|keys| - 1].at + 1))
    ensures r.Some? <==> AllProven(node, latest, keys)
  {
    var values: seq<StorageValue>, height: Uint64 := [], 0;
    for i := 0 to |keys|
      invariant |values| == i
      invariant forall j :: 0 <= j < i ==>
                  AskedHeight(latest).Some? && node(AskedHeight(latest).value, keys[j]) == Some(values[j])
      invariant height == if i == 0 then 0 else ToUint64(values[i - 1].at + 1)
    {
      var answer := QueryTendermintProof(node, latest, keys[i]);
      if answer.None? { return None; }
      values, height := values + [answer.value.0], answer.value.1;
    }
    r := Some((values, height));
  }

  /** The height of the block that proves the last value, or 0 without keys or values. */
  function ProofHeight(node: Node, latest: int, keys: seq<string>): Uint64 {
    if keys == [] || AskedHeight(latest).None? then 0
    else match node(AskedHeight(latest).value, keys[|keys| - 1])
      case None => 0
      case Some(value) => ToUint64(value.at + 1)
  }

  // ----- the minimum update period -----

  predicate OnTime(heights: map<Uint64, Uint64>, period: Uint64, q: Uint64, current: Uint64) {
    period == 0 || WrappingAdd(StoredHeight(heights, q), period) <= current
  }

  function AfterAccepted(
    heights: map<Uint64, Uint64>, period: Uint64, q: Uint64, current: Uint64): map<Uint64, Uint64>
  {
    if period == 0 then heights else heights[q := current]
  }

  datatype Outcome =
    | Skipped
    | Failed
    | Submitted(remoteHeight: Uint64, header: TrustedHeaders.Header, values: seq<StorageValue>)

  class KVProcessor {
    const minPeriod: Uint64
    var heights: map<Uint64, Uint64>  // persists across restarts

    constructor (minPeriod: Uint64, heights: map<Uint64, Uint64>)
      ensures this.minPeriod == minPeriod && this.heights == heights
    {
      this.minPeriod, this.heights := minPeriod, heights;
    }

    method IsQueryOnTime(q: Uint64, current: Uint64, readOk: bool, writeOk: bool) returns (ok: bool)
      modifies this
      ensures ok <==> OnTime(old(heights), minPeriod, q, current) && (minPeriod == 0 || (readOk && writeOk))
      ensures heights == if ok then AfterAccepted(old(heights), minPeriod, q, current) else old(heights)
    {
      if minPeriod == 0 { return true; }
      if !readOk { return false; }
      var previous := StoredHeight(heights, q);
      if WrappingAdd(previous, minPeriod) <= current {
        if !writeOk { return false; }
        heights := heights[q := current];
        return true;
      }
      return false;
    }

    /** `fetch` is the trusted header fetcher: what it returns for a height is as TrustedHeaders.Fetch ensures. */
    method ProcessAndSubmit(
      latest: Option<int>, q: Uint64, keys: seq<string>, node: Node, fetch: Uint64 -> Option<TrustedHeaders.Header>,
      readOk: bool, writeOk: bool, submits: bool)
      returns (r: Outcome)
      requires forall h: Uint64 :: fetch(h).Some? ==> fetch(h).value.height == h && fetch(h).value.trustedHeight < h
      modifies this
      ensures r.Skipped? <==> latest.None? || !OnTime(old(heights), minPeriod, q, ToUint64(latest.value))
                              || (minPeriod != 0 && !(readOk && writeOk))
      ensures heights == if r.Skipped? then old(heights)
                         else AfterAccepted(old(heights), minPeriod, q, ToUint64(latest.value))
      // what is on time is submitted when all values are proven, a header is found and the chain takes it
      ensures r.Submitted? <==>
                && !r.Skipped? && submits && AllProven(node, latest.value, keys)
                && fetch(ProofHeight(node, latest.value, keys)).Some?
      ensures r.Submitted? ==>
                && r.header == fetch(ProofHeight(node, latest.value, keys)).value
                && forall i :: 0 <= i < |r.values| ==>
                     i < |keys| && AskedHeight(latest.value).Some?
                     && node(AskedHeight(latest.value).value, keys[i]) == Some(r.values[i])
      // a query with no keys is never submitted
      ensures keys == [] ==> !r.Submitted?
      // the header is of the height after the last value's, and the trusted height is below it
      ensures r.Submitted? ==>
                && |r.values| == |keys| && r.header.height == ToUint64(r.values[|keys| - 1].at + 1)
                && ToUint64(r.remoteHeight + 1) == r.header.height && r.header.trustedHeight < r.header.height
      // if the node answers at the asked height, all values share the height the header proves
      ensures r.Submitted? && 3 <= latest.value < TWO_TO_64 && AnswersAsked(node) ==>
                && r.header.height == latest.value && r.remoteHeight + 1 == latest.value
                && forall i :: 0 <= i < |r.values| ==> r.values[i].at == r.remoteHeight
    {
      if latest.None? { return Skipped; }
      var onTime := IsQueryOnTime(q, ToUint64(latest.value), readOk, writeOk);
      if !onTime { return Skipped; }
      var proofs := GetStorageValues(node, latest.value, keys);
      if proofs.None? { return Failed; }
      var (values, height) := proofs.value;
      var header := fetch(height);
      if header.None? || !submits { return Failed; }
      assert height == ProofHeight(node, latest.value, keys);
      r := Outcome.Submitted(ToUint64(height - 1), header.value, values);
    }
  }

  ghost predicate AnswersAsked(node: Node) {
    forall h, key :: h != 0 && node(h, key).Some? ==> node(h, key).value.at == h
  }

  /** Exactly when the next accepted update is sure to be a period later: when the sum does not overflow. */
  lemma NextUpdateIsSpacedExactly(heights: map<Uint64, Uint64>, period: Uint64, q: Uint64)
    requires 0 < period
    ensures (forall current: Uint64 ::
               OnTime(heights, period, q, current) ==> StoredHeight(heights, q) + period <= current)
            <==> StoredHeight(heights, q) + period < TWO_TO_64
  {
    assert OnTime(heights, period, q, WrappingAdd(StoredHeight(heights, q), period));
  }

  // ----- the throttle over whole runs and restarts -----

  /** An attempt to update a query when the target chain stands at a height; a failed storage call refuses it. */
  datatype Attempt = Attempt(query: Uint64, current: Uint64, storageOk: bool)

  predicate Accepts(heights: map<Uint64, Uint64>, period: Uint64, a: Attempt) {
    a.storageOk && OnTime(heights, period, a.query, a.current)
  }

  ghost function HeightsAfter(
    heights: map<Uint64, Uint64>, period: Uint64, attempts: seq<Attempt>): map<Uint64, Uint64>
  {
    if attempts == [] then heights
    else
      var before := HeightsAfter(heights, period, attempts[..|attempts| - 1]);
      var a := attempts[|attempts| - 1];
      if Accepts(before, period, a) then AfterAccepted(before, period, a.query, a.current) else before
  }

  /** The heights of the accepted updates of a query, in order. */
  ghost function Accepted(
    heights: map<Uint64, Uint64>, period: Uint64, attempts: seq<Attempt>, q: Uint64): seq<Uint64>
  {
    if attempts == [] then []
    else
      var front, a := attempts[..|attempts| - 1], attempts[|attempts| - 1];
      Accepted(heights, period, front, q)
      + if a.query == q && Accepts(HeightsAfter(heights, period, front), period, a) then [a.current] else []
  }

  /** What is known of the accepted heights of a query, given its first and its present stored height. */
  ghost predicate Throttled(accepted: seq<Uint64>, first: Uint64, stored: Uint64, period: Uint64) {
    && Spaced(accepted, period)
    && stored == (if accepted == [] then first else accepted[|accepted| - 1])
    && first + |accepted| * period <= stored
  }

  lemma OneMoreAccepted(accepted: seq<Uint64>, first: Uint64, stored: Uint64, period: Uint64, current: Uint64)
    requires Throttled(accepted, first, stored, period) && stored + period <= current
    ensures Throttled(accepted + [current], first, current, period)
  {
    assert (|accepted| + 1) * period == |accepted| * period + period;
  }

  lemma AttemptStep(before: map<Uint64, Uint64>, period: Uint64, a: Attempt, q: Uint64)
    requires 0 < period && StoredHeight(before, a.query) + period < TWO_TO_64
    ensures var after :=
              if Accepts(before, period, a) then AfterAccepted(before, period, a.query, a.current) else before;
            if a.query == q && Accepts(before, period, a)
            then StoredHeight(before, q) + period <= a.current && StoredHeight(after, q) == a.current
            else StoredHeight(after, q) == StoredHeight(before, q)
  {
  }

  /** Accepted updates of a query are at least the period apart, the stored height is that of the last of them, and k of
      them need k periods. Restarts change nothing: the heights are all the state there is. */
  lemma {:induction false} ThrottleHolds(
    heights: map<Uint64, Uint64>, period: Uint64, attempts: seq<Attempt>, q: Uint64)
    requires 0 < period
    requires forall i :: 0 <= i < |attempts| ==> attempts[i].current + period < TWO_TO_64
    requires forall p: Uint64 :: StoredHeight(heights, p) + period < TWO_TO_64
    ensures Throttled(Accepted(heights, period, attempts, q), StoredHeight(heights, q),
                      StoredHeight(HeightsAfter(heights, period, attempts), q), period)
    ensures StoredHeight(HeightsAfter(heights, period, attempts), q) + period < TWO_TO_64
    decreases |attempts|
  {
    if attempts != [] {
      var front, a := attempts[..|attempts| - 1], attempts[|attempts| - 1];
      ThrottleHolds(heights, period, front, q);
      ThrottleHolds(heights, period, front, a.query);
      var before := HeightsAfter(heights, period, front);
      AttemptStep(before, period, a, q);
      if a.query == q && Accepts(before, period, a) {
        OneMoreAccepted(Accepted(heights, period, front, q), StoredHeight(heights, q), StoredHeight(before, q),
                        period, a.current);
      } else {
        assert Accepted(heights, period, front, q) + [] == Accepted(heights, period, front, q);
      }
    }
  }

  /** From a fresh database, k accepted updates imply that the last accepted height is at least k periods. */
  lemma KAcceptancesNeedKPeriods(period: Uint64, attempts: seq<Attempt>, q: Uint64)
    requires 0 < period && forall i :: 0 <= i < |attempts| ==> attempts[i].current + period < TWO_TO_64
    ensures var accepted := Accepted(map[], period, attempts, q);
            accepted != [] ==> |accepted| * period <= accepted[|accepted| - 1]
  {
    ThrottleHolds(map[], period, attempts, q);
  }
}

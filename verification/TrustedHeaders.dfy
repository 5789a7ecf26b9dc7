/** The search for a trusted consensus state, and the header built on it (ICS 007, Headers). */
module TrustedHeaders {
  import opened Decimal
  import opened Pages

  /** A consensus state as the chain lists it; times are in nanoseconds. */
  datatype ConsensusState = ConsensusState(revision: Uint64, height: Uint64, timestamp: int, wellTyped: bool)

  datatype Search = Found(state: ConsensusState) | NotFound | Broken

  datatype Header = Header(height: Uint64, trustedRevision: Uint64, trustedHeight: Uint64, validatorsOf: Uint64)

  const SUBMISSION_MARGIN := 5 * 60 * 1_000_000_000

  predicate Suitable(cs: ConsensusState, revision: Uint64, trustingPeriod: int, height: Uint64, now: int) {
    cs.revision == revision && cs.height < height && now < cs.timestamp + trustingPeriod - SUBMISSION_MARGIN
  }

  /** The search ends at a state that cannot be read or that is suitable. */
  predicate Ends(cs: ConsensusState, revision: Uint64, trustingPeriod: int, height: Uint64, now: int) {
    !cs.wellTyped || Suitable(cs, revision, trustingPeriod, height, now)
  }

  /** Position n, checked at clock(n), is the first at which the search ends. */
  ghost predicate FirstEnd(
    states: seq<ConsensusState>, revision: Uint64, trustingPeriod: int, height: Uint64, clock: nat -> int, n: nat)
  {
    && n < |states|
    && Ends(states[n], revision, trustingPeriod, height, clock(n))
    && forall m :: 0 <= m < n ==> !Ends(states[m], revision, trustingPeriod, height, clock(m))
  }

  ghost predicate NoEnd(
    states: seq<ConsensusState>, revision: Uint64, trustingPeriod: int, height: Uint64, clock: nat -> int, before: nat)
  {
    forall n :: 0 <= n < before && n < |states| ==> !Ends(states[n], revision, trustingPeriod, height, clock(n))
  }

  lemma NoEndLonger(
    all: seq<ConsensusState>, revision: Uint64, trustingPeriod: int, height: Uint64, clock: nat -> int,
    n: nat, states: seq<ConsensusState>)
    requires NoEnd(all, revision, trustingPeriod, height, clock, n) && n + |states| <= |all|
    requires forall j :: 0 <= j < |states| ==>
               all[n + j] == states[j] && !Ends(states[j], revision, trustingPeriod, height, clock(n + j))
    ensures NoEnd(all, revision, trustingPeriod, height, clock, n + |states|)
  {
    forall m | 0 <= m < n + |states| ensures !Ends(all[m], revision, trustingPeriod, height, clock(m)) {
      if n <= m { assert all[n + (m - n)] == states[m - n]; }
    }
  }

  /** Where page i lies in the concatenation, when it begins at position n. */
  lemma PageLies(pages: seq<Page<ConsensusState>>, i: nat, all: seq<ConsensusState>, n: nat)
    requires i < |pages| && n <= |all| && all[n..] == Concatenated(pages[i..])
    ensures pages[i].Unreachable? ==> n == |all|
    ensures pages[i].Page? ==>
              && n + |pages[i].items| <= |all|
              && (forall j :: 0 <= j < |pages[i].items| ==> all[n + j] == pages[i].items[j])
              && all[n + |pages[i].items|..] == Concatenated(pages[i + 1..])
  {
    assert pages[i..][0] == pages[i] && pages[i..][1..] == pages[i + 1..];
    if pages[i].Page? {
      var states := pages[i].items;
      assert all[n..] == states + Concatenated(pages[i + 1..]);
      forall j | 0 <= j < |states| ensures all[n + j] == states[j] {
        assert all[n + j] == all[n..][j];
      }
      assert all[n + |states|..] == all[n..][|states|..];
    }
  }

  /** The search comes to no suitable state: there is none, or one that cannot be read comes first. */
  ghost predicate NoneTrusted(
    states: seq<ConsensusState>, revision: Uint64, trustingPeriod: int, height: Uint64, clock: nat -> int)
  {
    || NoEnd(states, revision, trustingPeriod, height, clock, |states|)
    || exists n: nat :: FirstEnd(states, revision, trustingPeriod, height, clock, n) && !states[n].wellTyped
  }

  class TrustedHeaderFetcher {
    const revision: Uint64

    constructor (revision: Uint64)
      ensures this.revision == revision
    {
      this.revision := revision;
    }

    /** The states of one page; the first of them has position `n` in the search. */
    method ScanPage(states: seq<ConsensusState>, trustingPeriod: int, height: Uint64, clock: nat -> int, n: nat)
      returns (r: Search, ghost k: nat)
      ensures k <= |states|
      ensures forall j :: 0 <= j < k ==> !Ends(states[j], revision, trustingPeriod, height, clock(n + j))
      ensures r.NotFound? <==> k == |states|
      ensures !r.NotFound? ==> k < |states| && Ends(states[k], revision, trustingPeriod, height, clock(n + k))
      ensures !r.NotFound? ==> (r.Found? <==> states[k].wellTyped) && (r.Found? ==> r.state == states[k])
    {
      for j := 0 to |states|
        invariant forall i :: 0 <= i < j ==> !Ends(states[i], revision, trustingPeriod, height, clock(n + i))
      {
        if !states[j].wellTyped { return Broken, j; }
        if Suitable(states[j], revision, trustingPeriod, height, clock(n + j)) { return Found(states[j]), j; }
      }
      return NotFound, |states|;
    }

    /** Scans the states page by page; `clock(n)` is the time when the n-th state is looked at. The result is the first
        suitable state of the concatenated pages, unless a state before it cannot be read; there is none exactly when
        all pages were scanned and no state is suitable. */
    method GetTrustedHeight(
      pages: seq<Page<ConsensusState>>, trustingPeriod: Option<int>, height: Uint64, clock: nat -> int)
      returns (r: Search, ghost at: nat)
      requires 0 < |pages| && Chained(pages)
      ensures trustingPeriod.None? ==> r.Broken?
      ensures trustingPeriod.Some? && r.Found? ==>
                && FirstEnd(Concatenated(pages), revision, trustingPeriod.value, height, clock, at)
                && r.state == Concatenated(pages)[at] && r.state.wellTyped
      ensures trustingPeriod.Some? && r.NotFound? ==>
                && AllReachable(pages)
                && NoEnd(Concatenated(pages), revision, trustingPeriod.value, height, clock, |Concatenated(pages)|)
      ensures trustingPeriod.Some? && r.Broken? ==>
                || (NoEnd(Concatenated(pages), revision, trustingPeriod.value, height, clock, |Concatenated(pages)|)
                    && !AllReachable(pages))
                || (FirstEnd(Concatenated(pages), revision, trustingPeriod.value, height, clock, at)
                    && !Concatenated(pages)[at].wellTyped)
    {
      at := 0;
      if trustingPeriod.None? { return Broken, 0; }
      var n: nat, i: nat := 0, 0;
      ghost var all := Concatenated(pages);
      while i < |pages|
        invariant i <= |pages| && n <= |all| && forall k :: 0 <= k < i ==> pages[k].Page?
        invariant all[n..] == Concatenated(pages[i..])
        invariant NoEnd(all, revision, trustingPeriod.value, height, clock, n)
      {
        PageLies(pages, i, all, n);
        if pages[i].Unreachable? { return Broken, 0; }
        ghost var k;
        r, k := ScanPage(pages[i].items, trustingPeriod.value, height, clock, n);
        NoEndLonger(all, revision, trustingPeriod.value, height, clock, n, pages[i].items[..k]);
        if !r.NotFound? { return r, n + k; }
        n, i := n + |pages[i].items|, i + 1;
        if !pages[i - 1].more { break; }
      }
      assert Concatenated(pages[i..]) == [];
      r := NotFound;
    }

    /** A header for the height, with the trusted height found for it and the validators of the height after that. */
    method Fetch(
      pages: seq<Page<ConsensusState>>, trustingPeriod: Option<int>, height: Uint64, clock: nat -> int,
      lightHeader: Uint64 -> bool)
      returns (header: Option<Header>)
      requires 0 < |pages| && Chained(pages)
      // no header without a trusted height, or when a light header is missing
      ensures header.None? <==>
                || trustingPeriod.None?
                || NoneTrusted(Concatenated(pages), revision, trustingPeriod.value, height, clock)
                || exists n: nat ::
                     && FirstEnd(Concatenated(pages), revision, trustingPeriod.value, height, clock, n)
                     && !(lightHeader(height) && lightHeader(Concatenated(pages)[n].height + 1))
      ensures header.Some? ==>
                && header.value.height == height && header.value.trustedRevision == revision
                && header.value.trustedHeight < height
                && header.value.validatorsOf == header.value.trustedHeight + 1 <= height
                && trustingPeriod.Some?
                && exists n :: 0 <= n < |Concatenated(pages)|
                     && Concatenated(pages)[n].height == header.value.trustedHeight
                     && clock(n) < Concatenated(pages)[n].timestamp + trustingPeriod.value - SUBMISSION_MARGIN
    {
      ghost var at;
      var r;
      r, at := GetTrustedHeight(pages, trustingPeriod, height, clock);
      if !r.Found? { return None; }
      if !lightHeader(height) || !lightHeader(r.state.height + 1) { return None; }
      header := Some(Header(height, r.state.revision, r.state.height, r.state.height + 1));
    }
  }

  /** No state lies below height 0, so nothing is ever trusted for it. */
  lemma NothingTrustedForZero(
    states: seq<ConsensusState>, revision: Uint64, trustingPeriod: int, clock: nat -> int, n: nat)
    requires FirstEnd(states, revision, trustingPeriod, 0, clock, n)
    ensures !states[n].wellTyped
  {
  }

  /** With states and clock unchanged, a search that succeeds for a height succeeds for every greater one, at the same
      or an earlier position. In particular the header of the next block can be trusted when a block's can. */
  lemma SuccessCarriesUp(
    states: seq<ConsensusState>, revision: Uint64, trustingPeriod: int, height: Uint64, higher: Uint64, now: int,
    n: nat)
    returns (m: nat)
    requires FirstEnd(states, revision, trustingPeriod, height, _ => now, n) && states[n].wellTyped && height <= higher
    ensures FirstEnd(states, revision, trustingPeriod, higher, _ => now, m) && m <= n && states[m].wellTyped
    ensures Suitable(states[m], revision, trustingPeriod, higher, now)
  {
    m := 0;
    while !Ends(states[m], revision, trustingPeriod, higher, now)
      invariant m <= n && forall k :: 0 <= k < m ==> !Ends(states[k], revision, trustingPeriod, higher, now)
      decreases n - m
    {
      m := m + 1;
    }
    assert m < n ==> !Ends(states[m], revision, trustingPeriod, height, (_ => now)(m));
  }
}

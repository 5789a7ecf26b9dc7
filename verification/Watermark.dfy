/** The per-query height watermark passes no matching transaction without a record, unless a search is cancelled. */
module Watermark {
  import opened Decimal
  import opened Records
  import opened Protocol
  import Sub = Submissions
  import opened AtMostOnce

  function Stored(s: State, q: Uint64): Uint64 {
    StoredHeight(s.core.maps.heights, q)
  }

  function InitialHeight(s: State, q: Uint64): Uint64 {
    if q in s.initial then s.initial[q] else 0
  }

  /** Every match above `low` and at or below `high` has a status record. */
  ghost predicate RecordedBetween(txs: seq<Transaction>, low: Uint64, high: Uint64, q: Uint64, records: set<TxKey>) {
    forall i :: 0 <= i < |txs| && low < txs[i].height <= high ==> TxKey(q, txs[i].hash) in records
  }

  /** Watermark safety: no match above its query's initial height and at or below its stored height lacks a record. */
  ghost predicate Safe(s: State) {
    forall q :: q in s.matches && q in s.initial ==>
      RecordedBetween(s.matches[q], s.initial[q], Stored(s, q), q, s.core.maps.statuses.Keys)
  }

  ghost predicate HeightsPlaced(s: State) {
    forall q :: q in s.matches ==>
      && (q in s.initial <==> q in s.core.maps.heights)
      && InitialHeight(s, q) <= Stored(s, q) <= Covered(s, q)
      && Ascending(s.matches[q])
  }

  /** The loop's bookkeeping within a pass, against the query's matches, stored height and covered height. */
  ghost predicate PassPlaced(p: Pass, busy: bool, txs: seq<Transaction>, stored: Uint64, covered: Uint64) {
    && p.start <= p.pos <= p.fetched <= |txs|
    && (busy ==> p.pos < p.fetched)
    && SplitsAt(txs, p.floor, p.start)
    && p.last == (if p.pos == p.start then 0 else txs[p.pos - 1].height)
    && (p.start < p.fetched ==> txs[p.fetched - 1].height <= covered)
    && (p.search.Complete? && p.start < p.fetched ==>
          forall i :: p.fetched <= i < |txs| ==> txs[p.fetched - 1].height < txs[i].height)
    // the stored height stays below the block in progress
    && p.floor <= stored
    && (if busy then stored < txs[p.pos].height
        else if p.start < p.pos then stored < txs[p.pos - 1].height
        else stored == p.floor)
  }

  /** Everything the loop has gone through is recorded. */
  ghost predicate PassRecorded(p: Pass, txs: seq<Transaction>, low: Uint64, records: set<TxKey>) {
    forall i :: 0 <= i < p.pos && i < |txs| && low < txs[i].height ==> TxKey(p.query, txs[i].hash) in records
  }

  ghost predicate PassInv(s: State) {
    !s.pc.Idle? ==>
      var p := s.pc.pass;
      && p.query in s.matches && p.query in s.initial
      && s.initial[p.query] <= p.floor
      && PassPlaced(p, !s.pc.Looping?, s.matches[p.query], Stored(s, p.query), Covered(s, p.query))
  }

  ghost predicate RelayPlaced(s: State) {
    && (s.pc.Submitting? <==> Sub.Relay in s.core.jobs)
    && (s.pc.Submitting? ==>
          && s.pc.pass.pos < |Matches(s, s.pc.pass.query)|
          && s.core.jobs[Sub.Relay].query == s.pc.pass.query
          && s.core.jobs[Sub.Relay].tx == InHand(s))
  }

  /** Holds in every run. */
  ghost predicate LoopInv(s: State) {
    HeightsPlaced(s) && PassInv(s) && RelayPlaced(s)
  }

  /** Holds in every run without a cancelled search: the watermark is safe, and so is the pass in progress. */
  ghost predicate Kept(s: State) {
    && Safe(s)
    && (!s.pc.Idle? && s.pc.pass.query in s.initial ==>
          PassRecorded(s.pc.pass, Matches(s, s.pc.pass.query), s.initial[s.pc.pass.query], s.core.maps.statuses.Keys))
  }

  // ----- each step -----

  /** What the submission machine may do to what the loop relies on. */
  lemma CoreStep(c: Sub.Core, a: Sub.Act)
    requires Sub.Enabled(c, a)
    ensures c.maps.statuses.Keys <= Sub.Next(c, a).maps.statuses.Keys
    ensures Sub.Next(c, a).maps.heights
            == if a.WriteHeight? then c.maps.heights[a.query := a.height] else c.maps.heights
    ensures a.Record? && a.ok ==> c.jobs[a.who].Key() in Sub.Next(c, a).maps.statuses
  {
  }

  lemma GrowPass(p: Pass, busy: bool, txs: seq<Transaction>, stored: Uint64, covered: Uint64, tx: Transaction)
    requires PassPlaced(p, busy, txs, stored, covered) && stored <= covered < tx.height
    ensures PassPlaced(p, busy, txs + [tx], stored, covered)
  {
  }

  lemma FetchPass(
    p: Pass, busy: bool, txs: seq<Transaction>, stored: Uint64, covered: Uint64, upto: nat, lastPage: bool)
    requires PassPlaced(p, busy, txs, stored, covered) && Ascending(txs)
    requires p.fetched <= upto <= |txs| && (lastPage ==> upto == |txs|)
    ensures PassPlaced(p.(fetched := upto, search := if lastPage then Complete else Running), busy, txs, stored,
                       if p.start < upto then Max(covered, txs[upto - 1].height) else covered)
  {
  }

  lemma StopPass(p: Pass, busy: bool, txs: seq<Transaction>, stored: Uint64, covered: Uint64, upto: nat, how: Search)
    requires PassPlaced(p, busy, txs, stored, covered) && Ascending(txs)
    requires p.pos + (if busy then 1 else 0) <= upto <= p.fetched && !how.Complete?
    ensures PassPlaced(p.(fetched := upto, search := how), busy, txs, stored, covered)
  {
  }

  /** The search goroutine changes only the search part of the pass and the covered height. */
  lemma SearchMoves(s: State, p': Pass, covered: map<Uint64, Uint64>)
    requires LoopInv(s) && !s.pc.Idle?
    requires p' == s.pc.pass.(fetched := p'.fetched, search := p'.search)
    requires covered == s.covered
             || (p'.query in covered && covered == s.covered[p'.query := covered[p'.query]]
                 && Covered(s, p'.query) <= covered[p'.query])
    requires PassPlaced(p', !s.pc.Looping?, s.matches[p'.query], Stored(s, p'.query),
                        if p'.query in covered then covered[p'.query] else 0)
    ensures LoopInv(s.(pc := s.pc.(pass := p'), covered := covered))
  {
  }

  lemma GrowKeepsKept(s: State, q: Uint64, tx: Transaction)
    requires LoopInv(s) && Kept(s) && q in s.matches && Covered(s, q) < tx.height
    ensures Kept(s.(matches := s.matches[q := s.matches[q] + [tx]]))
  {
    var s' := s.(matches := s.matches[q := s.matches[q] + [tx]]);
    forall q' | q' in s'.matches && q' in s'.initial
      ensures RecordedBetween(s'.matches[q'], s'.initial[q'], Stored(s', q'), q', s'.core.maps.statuses.Keys)
    {
      assert RecordedBetween(s.matches[q'], s.initial[q'], Stored(s, q'), q', s.core.maps.statuses.Keys);
    }
  }

  lemma GrowKeepsLoop(s: State, q: Uint64, tx: Transaction)
    requires LoopInv(s) && q in s.matches && Covered(s, q) < tx.height && Ascending(s.matches[q] + [tx])
    ensures LoopInv(s.(matches := s.matches[q := s.matches[q] + [tx]]))
  {
    if !s.pc.Idle? && s.pc.pass.query == q {
      GrowPass(s.pc.pass, !s.pc.Looping?, s.matches[q], Stored(s, q), Covered(s, q), tx);
    }
  }

  lemma GrowStep(s: State, q: Uint64, tx: Transaction)
    requires LoopInv(s) && Enabled(s, Grow(q, tx))
    ensures LoopInv(Next(s, Grow(q, tx)))
    ensures Kept(s) ==> Kept(Next(s, Grow(q, tx)))
  {
    assert Ascending(s.matches[q] + [tx]);
    GrowKeepsLoop(s, q, tx);
    if Kept(s) { GrowKeepsKept(s, q, tx); }
    assert Next(s, Grow(q, tx)) == s.(matches := s.matches[q := s.matches[q] + [tx]]);
  }

  lemma FetchKeeps(s: State, upto: nat, lastPage: bool)
    requires LoopInv(s) && !s.pc.Idle? && s.pc.pass.fetched <= upto <= |Matches(s, s.pc.pass.query)|
    requires lastPage ==> upto == |Matches(s, s.pc.pass.query)|
    ensures var p := s.pc.pass;
            var covered := if p.start < upto
                           then s.covered[p.query := Max(Covered(s, p.query), Matches(s, p.query)[upto - 1].height)]
                           else s.covered;
            var p' := p.(fetched := upto, search := if lastPage then Complete else Running);
            LoopInv(s.(pc := s.pc.(pass := p'), covered := covered))
  {
    var p := s.pc.pass;
    assert Ascending(s.matches[p.query]);
    FetchPass(p, !s.pc.Looping?, s.matches[p.query], Stored(s, p.query), Covered(s, p.query), upto, lastPage);
    SearchMoves(s, p.(fetched := upto, search := if lastPage then Complete else Running),
                if p.start < upto
                then s.covered[p.query := Max(Covered(s, p.query), Matches(s, p.query)[upto - 1].height)]
                else s.covered);
  }

  lemma SearchKeepsKept(s: State, pc': Pc, covered: map<Uint64, Uint64>)
    requires Kept(s) && (pc'.Idle? <==> s.pc.Idle?)
    requires !s.pc.Idle? ==> pc'.pass == s.pc.pass.(fetched := pc'.pass.fetched, search := pc'.pass.search)
    ensures Kept(s.(pc := pc', covered := covered))
  {
  }

  lemma FetchNext(s: State, upto: nat, lastPage: bool)
    requires Enabled(s, Fetch(upto, lastPage))
    ensures var p := s.pc.pass;
            var covered := if p.start < upto
                           then s.covered[p.query := Max(Covered(s, p.query), Matches(s, p.query)[upto - 1].height)]
                           else s.covered;
            var p' := p.(fetched := upto, search := if lastPage then Complete else Running);
            Next(s, Fetch(upto, lastPage)) == s.(pc := s.pc.(pass := p'), covered := covered)
  {
  }

  lemma FetchStep(s: State, upto: nat, lastPage: bool)
    requires LoopInv(s) && Enabled(s, Fetch(upto, lastPage))
    ensures LoopInv(Next(s, Fetch(upto, lastPage)))
    ensures Kept(s) ==> Kept(Next(s, Fetch(upto, lastPage)))
  {
    var s' := Next(s, Fetch(upto, lastPage));
    FetchNext(s, upto, lastPage);
    FetchKeeps(s, upto, lastPage);
    if Kept(s) { SearchKeepsKept(s, s'.pc, s'.covered); }
  }

  lemma StopStep(s: State, upto: nat, how: Search)
    requires LoopInv(s) && !s.pc.Idle? && Delivered(s.pc) <= upto <= s.pc.pass.fetched && !how.Complete?
    ensures var s' := s.(pc := s.pc.(pass := s.pc.pass.(fetched := upto, search := how)));
            LoopInv(s') && (Kept(s) ==> Kept(s'))
  {
    var p := s.pc.pass;
    assert Ascending(s.matches[p.query]);
    StopPass(p, !s.pc.Looping?, s.matches[p.query], Stored(s, p.query), Covered(s, p.query), upto, how);
    SearchMoves(s, p.(fetched := upto, search := how), s.covered);
  }

  lemma InitialiseKeeps(s: State, q: Uint64, height: Uint64, core': Sub.Core)
    requires LoopInv(s) && s.pc.Idle? && q in s.matches && q !in s.core.maps.heights
    requires core' == s.core.(maps := SetLastQueryHeight(s.core.maps, q, height))
    ensures var s' := s.(core := core', covered := s.covered[q := Max(Covered(s, q), height)],
                         initial := s.initial[q := height]);
            LoopInv(s') && (Kept(s) ==> Kept(s'))
  {
  }

  lemma StartIndexExists(txs: seq<Transaction>, floor: Uint64) returns (from: nat)
    requires Ascending(txs)
    ensures SplitsAt(txs, floor, from)
  {
    from := 0;
    while from < |txs| && txs[from].height <= floor
      invariant from <= |txs|
      invariant forall i :: 0 <= i < from ==> txs[i].height <= floor
    {
      from := from + 1;
    }
  }

  lemma StartKeeps(s: State, q: Uint64, from: nat)
    requires LoopInv(s) && s.pc.Idle? && q in s.matches && q in s.core.maps.heights
    requires SplitsAt(s.matches[q], s.core.maps.heights[q], from)
    ensures var s' := s.(pc := Looping(Pass(q, s.core.maps.heights[q], from, from, 0, from, Running)));
            LoopInv(s') && (Kept(s) ==> Kept(s'))
  {
    assert Kept(s) ==> RecordedBetween(s.matches[q], s.initial[q], Stored(s, q), q, s.core.maps.statuses.Keys);
  }

  /** No match the loop has not gone through belongs to the block in progress and lacks a record. */
  ghost predicate BlockFinished(p: Pass, txs: seq<Transaction>, records: set<TxKey>) {
    forall i :: p.pos <= i < |txs| && txs[i].height <= p.last ==> TxKey(p.query, txs[i].hash) in records
  }

  /** Moving the watermark to a block that is finished keeps it safe. */
  lemma MarkIsSafe(p: Pass, txs: seq<Transaction>, low: Uint64, records: set<TxKey>)
    requires PassRecorded(p, txs, low, records) && p.pos <= |txs|
    requires BlockFinished(p, txs, records)
    ensures RecordedBetween(txs, low, p.last, p.query, records)
  {
  }

  /** The watermark write keeps the bookkeeping. */
  lemma WriteKeepsLoop(s: State, core': Sub.Core, pc': Pc)
    requires LoopInv(s) && s.pc.Looping? && 0 < s.pc.pass.last
    requires core' == s.core.(maps := SetLastQueryHeight(s.core.maps, s.pc.pass.query, s.pc.pass.last))
    requires pc' == Idle || (pc' == Marked(s.pc.pass) && s.pc.pass.pos < s.pc.pass.fetched && MarksBlock(s))
    ensures LoopInv(s.(core := core', pc := pc'))
  {
    var p := s.pc.pass;
    var txs := s.matches[p.query];
    assert Ascending(txs);
    assert txs[p.pos - 1].height <= txs[p.fetched - 1].height;
  }

  /** It is safe when the block it marks is finished. */
  lemma WriteKeepsKept(s: State, core': Sub.Core, pc': Pc)
    requires LoopInv(s) && Kept(s) && s.pc.Looping? && (pc' == Idle || pc' == Marked(s.pc.pass))
    requires core' == s.core.(maps := SetLastQueryHeight(s.core.maps, s.pc.pass.query, s.pc.pass.last))
    requires BlockFinished(s.pc.pass, s.matches[s.pc.pass.query], s.core.maps.statuses.Keys)
    ensures Kept(s.(core := core', pc := pc'))
  {
    var p, s' := s.pc.pass, s.(core := core', pc := pc');
    MarkIsSafe(p, s.matches[p.query], s.initial[p.query], s.core.maps.statuses.Keys);
    forall q | q in s'.matches && q in s'.initial
      ensures RecordedBetween(s'.matches[q], s'.initial[q], Stored(s', q), q, s'.core.maps.statuses.Keys)
    {
      assert RecordedBetween(s.matches[q], s.initial[q], Stored(s, q), q, s.core.maps.statuses.Keys);
    }
  }

  /** The loop is through with the match in hand, which has a record now. */
  lemma MatchIsDone(s: State, core': Sub.Core)
    requires LoopInv(s) && !s.pc.Idle? && !s.pc.Looping?
    requires core'.maps.heights == s.core.maps.heights && s.core.maps.statuses.Keys <= core'.maps.statuses.Keys
    requires TxKey(s.pc.pass.query, InHand(s).hash) in core'.maps.statuses && Sub.Relay !in core'.jobs
    ensures var s' := s.(core := core', pc := Advance(s));
            LoopInv(s') && (Kept(s) ==> Kept(s'))
  {
    var p, s' := s.pc.pass, s.(core := core', pc := Advance(s));
    assert Ascending(s.matches[p.query]);
    assert PassPlaced(p, true, s.matches[p.query], Stored(s, p.query), Covered(s, p.query));
    if Kept(s) { KeepsSafe(s, core', Advance(s)); }
  }

  lemma KeepsSafe(s: State, core': Sub.Core, pc': Pc)
    requires Safe(s)
    requires core'.maps.heights == s.core.maps.heights && s.core.maps.statuses.Keys <= core'.maps.statuses.Keys
    ensures Safe(s.(core := core', pc := pc'))
  {
    var s' := s.(core := core', pc := pc');
    forall q | q in s'.matches && q in s'.initial
      ensures RecordedBetween(s'.matches[q], s'.initial[q], Stored(s', q), q, s'.core.maps.statuses.Keys)
    {
      assert RecordedBetween(s.matches[q], s.initial[q], Stored(s, q), q, s.core.maps.statuses.Keys);
    }
  }

  /** Other actors, and failures of the loop, leave the loop's bookkeeping as it is or end the pass. */
  lemma OthersMove(s: State, core': Sub.Core, pc': Pc)
    requires LoopInv(s)
    requires core'.maps.heights == s.core.maps.heights && s.core.maps.statuses.Keys <= core'.maps.statuses.Keys
    requires RelayPlaced(s.(core := core', pc := pc'))
    requires pc' == s.pc || pc' == Idle || (s.pc.Marked? && pc' == Submitting(s.pc.pass))
             || (s.pc.Looping? && pc' == Marked(s.pc.pass) && s.pc.pass.pos < s.pc.pass.fetched)
    ensures LoopInv(s.(core := core', pc := pc'))
    ensures Kept(s) ==> Kept(s.(core := core', pc := pc'))
  {
    if !s.pc.Idle? { assert Ascending(s.matches[s.pc.pass.query]); }
    if Kept(s) { KeepsSafe(s, core', pc'); }
  }

  /** A KV query's height is not a TX query's height. */
  lemma KvKeeps(s: State, q: Uint64, core': Sub.Core)
    requires LoopInv(s) && q !in s.matches
    requires core'.maps.heights.Keys == s.core.maps.heights.Keys + {q}
    requires forall q' :: q' in s.core.maps.heights && q' != q ==> core'.maps.heights[q'] == s.core.maps.heights[q']
    requires core'.maps.statuses == s.core.maps.statuses && core'.jobs == s.core.jobs
    ensures LoopInv(s.(core := core'))
    ensures Kept(s) ==> Kept(s.(core := core'))
  {
    var s' := s.(core := core');
    forall q' | Kept(s) && q' in s'.matches && q' in s'.initial
      ensures RecordedBetween(s'.matches[q'], s'.initial[q'], Stored(s', q'), q', s'.core.maps.statuses.Keys)
    {
      assert RecordedBetween(s.matches[q'], s.initial[q'], Stored(s, q'), q', s.core.maps.statuses.Keys);
    }
  }

  lemma ActorStep(s: State, act: Sub.Act)
    requires LoopInv(s) && Enabled(s, Actor(act))
    ensures LoopInv(Next(s, Actor(act)))
    ensures Kept(s) ==> Kept(Next(s, Actor(act)))
  {
    var s' := Next(s, Actor(act));
    CoreStep(s.core, act);
    assert s' == s.(core := s'.core, pc := s'.pc);
    if act.Record? && act.who.Relay? && act.ok {
      MatchIsDone(s, s'.core);
    } else {
      OthersMove(s, s'.core, s'.pc);
    }
  }

  lemma MarkStep(s: State, ok: bool)
    requires LoopInv(s) && Enabled(s, Mark(ok))
    ensures LoopInv(Next(s, Mark(ok)))
    ensures Kept(s) ==> Kept(Next(s, Mark(ok)))
  {
    var s' := Next(s, Mark(ok));
    assert s' == s.(core := s'.core, pc := s'.pc);
    if MarksBlock(s) && ok {
      assert Ascending(s.matches[s.pc.pass.query]);
      WriteKeepsLoop(s, s'.core, s'.pc);
      if Kept(s) { WriteKeepsKept(s, s'.core, s'.pc); }
    } else {
      OthersMove(s, s'.core, s'.pc);
    }
  }

  lemma LookStep(s: State, ok: bool)
    requires LoopInv(s) && Enabled(s, Look(ok))
    ensures LoopInv(Next(s, Look(ok)))
    ensures Kept(s) ==> Kept(Next(s, Look(ok)))
  {
    var s' := Next(s, Look(ok));
    assert s' == s.(core := s'.core, pc := s'.pc);
    if ok && TxKey(s.pc.pass.query, InHand(s).hash) in s.core.maps.statuses {
      MatchIsDone(s, s'.core);
    } else {
      OthersMove(s, s'.core, s'.pc);
    }
  }

  /** If the action writes the watermark at the close of a search, the block it marks is finished. */
  ghost predicate ClosesClean(s: State, a: Action)
    requires Enabled(s, a)
  {
    a == Close(true) && WritesAtClose(s) ==>
      BlockFinished(s.pc.pass, Matches(s, s.pc.pass.query), s.core.maps.statuses.Keys)
  }

  lemma CloseStep(s: State, ok: bool)
    requires LoopInv(s) && Enabled(s, Close(ok))
    ensures LoopInv(Next(s, Close(ok)))
    ensures Kept(s) && ClosesClean(s, Close(ok)) ==> Kept(Next(s, Close(ok)))
  {
    var s' := Next(s, Close(ok));
    assert s' == s.(core := s'.core, pc := s'.pc);
    if WritesAtClose(s) && ok {
      WriteKeepsLoop(s, s'.core, s'.pc);
      if Kept(s) && ClosesClean(s, Close(ok)) { WriteKeepsKept(s, s'.core, s'.pc); }
    } else {
      OthersMove(s, s'.core, s'.pc);
    }
  }

  /** A search that returned everything leaves no block unfinished. */
  lemma CompleteSearchClosesClean(s: State, a: Action)
    requires LoopInv(s) && Enabled(s, a) && (a.Close? ==> !s.pc.pass.search.Cancelled?)
    ensures ClosesClean(s, a)
  {
  }

  lemma PassStep(s: State, a: Action)
    requires LoopInv(s) && Enabled(s, a)
    requires a.Fetch? || a.BreakSearch? || a.CancelSearch? || a.Start?
    ensures LoopInv(Next(s, a))
    ensures Kept(s) ==> Kept(Next(s, a))
  {
    var s' := Next(s, a);
    match a {
      case Fetch(upto, lastPage) => FetchStep(s, upto, lastPage);
      case BreakSearch(upto) => StopStep(s, upto, Broken);
      case CancelSearch(upto) => StopStep(s, upto, Cancelled);
      case Start(q, from) => StartKeeps(s, q, from);
    }
    assert !a.Fetch? ==> s' == s.(pc := s'.pc);
  }

  lemma HeightStep(s: State, a: Action)
    requires LoopInv(s) && Enabled(s, a) && (a.Initialise? || a.KvHeight?)
    ensures LoopInv(Next(s, a))
    ensures Kept(s) ==> Kept(Next(s, a))
  {
    var s' := Next(s, a);
    match a {
      case Initialise(q, height) => InitialiseKeeps(s, q, height, s'.core);
      case KvHeight(q, height) => KvKeeps(s, q, s'.core);
    }
    assert a.KvHeight? ==> s' == s.(core := s'.core);
  }

  ghost predicate Uncancelled(s: State) {
    !s.pc.Idle? ==> !s.pc.pass.search.Cancelled?
  }

  lemma StepKeepsUncancelled(s: State, a: Action)
    requires Enabled(s, a) && Uncancelled(s) && !a.CancelSearch?
    ensures Uncancelled(Next(s, a))
  {
  }

  lemma StepKeepsWatermark(s: State, a: Action)
    requires LoopInv(s) && Enabled(s, a)
    ensures LoopInv(Next(s, a))
    ensures Kept(s) && ClosesClean(s, a) ==> Kept(Next(s, a))
  {
    match a
    case Grow(q, tx) => GrowStep(s, q, tx);
    case Initialise(q, height) => HeightStep(s, a);
    case KvHeight(q, height) => HeightStep(s, a);
    case Mark(ok) => MarkStep(s, ok);
    case Look(ok) => LookStep(s, ok);
    case Close(ok) => CloseStep(s, ok);
    case Actor(act) => ActorStep(s, act);
    case _ => PassStep(s, a);
  }

  /** The loop's bookkeeping holds in every state of every run from a fresh database. */
  lemma {:induction false} LoopInvHolds(s: State, actions: seq<Action>)
    requires Initial(s) && Valid(s, actions)
    ensures LoopInv(Exec(s, actions))
    decreases |actions|
  {
    if actions != [] {
      var n := |actions| - 1;
      LoopInvHolds(s, actions[..n]);
      StepKeepsWatermark(Exec(s, actions[..n]), actions[n]);
    }
  }

  ghost predicate AllCloseClean(s: State, actions: seq<Action>)
    requires Valid(s, actions)
    decreases |actions|
  {
    actions == [] ||
    var n := |actions| - 1;
    AllCloseClean(s, actions[..n]) && ClosesClean(Exec(s, actions[..n]), actions[n])
  }

  ghost predicate SafeThroughout(s: State, actions: seq<Action>)
    requires Valid(s, actions)
    decreases |actions|
  {
    Safe(Exec(s, actions)) && (actions != [] ==> SafeThroughout(s, actions[..|actions| - 1]))
  }

  lemma {:induction false} CleanRunIsKept(s: State, actions: seq<Action>)
    requires Initial(s) && Valid(s, actions) && AllCloseClean(s, actions)
    ensures SafeThroughout(s, actions) && Kept(Exec(s, actions))
    decreases |actions|
  {
    if actions != [] {
      var n := |actions| - 1;
      CleanRunIsKept(s, actions[..n]);
      LoopInvHolds(s, actions[..n]);
      StepKeepsWatermark(Exec(s, actions[..n]), actions[n]);
    }
  }

  /** Exactly when the watermark is safe in every state of a run from a fresh database, over all queries, passes,
      interleavings, failures and restarts: no closing write marks a block that still has a match without a record. */
  lemma {:induction false} WatermarkIsSafeExactly(s: State, actions: seq<Action>)
    requires Initial(s) && Valid(s, actions)
    ensures SafeThroughout(s, actions) <==> AllCloseClean(s, actions)
    decreases |actions|
  {
    if AllCloseClean(s, actions) {
      CleanRunIsKept(s, actions);
    } else {
      var n := |actions| - 1;
      WatermarkIsSafeExactly(s, actions[..n]);
      if AllCloseClean(s, actions[..n]) {
        CleanRunIsKept(s, actions[..n]);
        LoopInvHolds(s, actions[..n]);
        UncleanCloseIsUnsafe(Exec(s, actions[..n]), actions[n]);
      }
    }
  }

  /** A closing write that marks an unfinished block passes the match that has no record. */
  lemma UncleanCloseIsUnsafe(s: State, a: Action)
    requires LoopInv(s) && Enabled(s, a) && !ClosesClean(s, a)
    ensures !Safe(Next(s, a))
  {
    var p, s' := s.pc.pass, Next(s, a);
    var txs := s.matches[p.query];
    var i :| p.pos <= i < |txs| && txs[i].height <= p.last && TxKey(p.query, txs[i].hash) !in s.core.maps.statuses;
    assert s.initial[p.query] < txs[i].height;
    assert s'.matches[p.query][i] == txs[i] && Stored(s', p.query) == p.last;
    assert TxKey(p.query, txs[i].hash) !in s'.core.maps.statuses.Keys;
  }

  /** Without a cancelled search the watermark is safe in every state of every run. */
  lemma {:induction false} WatermarkIsSafe(s: State, actions: seq<Action>)
    requires Initial(s) && Valid(s, actions) && NoCancel(actions)
    ensures SafeThroughout(s, actions) && AllCloseClean(s, actions)
    ensures Uncancelled(Exec(s, actions))
    decreases |actions|
  {
    if actions != [] {
      var n := |actions| - 1;
      assert NoCancel(actions[..n]);
      WatermarkIsSafe(s, actions[..n]);
      LoopInvHolds(s, actions[..n]);
      CompleteSearchClosesClean(Exec(s, actions[..n]), actions[n]);
      StepKeepsUncancelled(Exec(s, actions[..n]), actions[n]);
    }
    CleanRunIsKept(s, actions);
  }

  /** A stored height never moves down. */
  lemma WatermarkNeverFalls(s: State, a: Action, q: Uint64)
    requires LoopInv(s) && Enabled(s, a) && q in s.matches && q in s.core.maps.heights
    ensures q in Next(s, a).core.maps.heights && Stored(s, q) <= Stored(Next(s, a), q)
  {
    if CoreAct(s, a).Some? {
      CoreStep(s.core, CoreAct(s, a).value);
    }
  }

  // ----- a submission error that stops the relayer -----

  /** While a match is being submitted its transaction has no record, the stored height is strictly below it, and every
      later search of the query returns it again: an error that stops the relayer leaves its work retryable. */
  lemma CriticalStopLeavesWorkRetryable(s: State, from: nat)
    requires LoopInv(s) && JobsPlaced(s.core) && s.pc.Submitting?
    ensures !(TxKey(s.pc.pass.query, InHand(s).hash) in s.core.maps.statuses)
    ensures Stored(s, s.pc.pass.query) < InHand(s).height
    ensures SplitsAt(s.matches[s.pc.pass.query], Stored(s, s.pc.pass.query), from) ==> from <= s.pc.pass.pos
  {
  }
}

/** The search goroutine against the running system: all it does to the pass are the search steps of the machine. */
module SearchSteps {
  import opened Decimal
  import opened Records
  import opened Protocol
  import opened PagedSearch
  import opened World
  import opened Watermark

  /** The channels are closed, or the relay loop has left the pass and reads them no more. */
  datatype Ending = Closed(how: Closing) | Abandoned

  function SearchOf(how: Closing): Search {
    match how
    case Complete => Search.Complete
    case Failed => Broken
    case Cancelled => Search.Cancelled
  }

  /** The search of the pass begun in s has fetched `out` and goes on in t. */
  ghost predicate Feeding(s: State, t: State, out: seq<Transaction>) {
    && !s.pc.Idle? && !t.pc.Idle?
    && var p, p' := s.pc.pass, t.pc.pass;
    && p'.query == p.query && p'.start == p.start && p'.search.Running?
    && p.query in s.matches && p.query in t.matches && s.matches[p.query] <= t.matches[p.query]
    && Fetched(t, out)
  }

  /** What was fetched are the matches from the start of the pass on. */
  ghost predicate Fetched(t: State, out: seq<Transaction>) {
    && !t.pc.Idle?
    && var p, txs := t.pc.pass, Matches(t, t.pc.pass.query);
    p.start + |out| == p.fetched <= |txs| && out == txs[p.start..p.fetched]
  }

  lemma FeedingGoesOn(s: State, t: State, u: State, out: seq<Transaction>)
    requires Feeding(s, t, out) && Stable(Searcher, t, u) && !u.pc.Idle?
    ensures Feeding(s, u, out)
  {
  }

  lemma SlicesJoin(txs: seq<Transaction>, a: nat, b: nat, c: nat)
    requires a <= b <= c <= |txs|
    ensures txs[a..b] + txs[b..c] == txs[a..c]
  {
  }

  lemma FetchStepFacts(t: State, upto: nat, last: bool)
    requires !t.pc.Idle? && t.pc.pass.search.Running?
    requires t.pc.pass.fetched <= upto <= |Matches(t, t.pc.pass.query)|
    requires last ==> upto == |Matches(t, t.pc.pass.query)|
    ensures Enabled(t, Fetch(upto, last))
    ensures var u := Next(t, Fetch(upto, last));
            && !u.pc.Idle? && u.matches == t.matches
            && u.pc.pass == t.pc.pass.(fetched := upto, search := if last then Search.Complete else Running)
  {
  }

  function NextMatches(t: State, n: nat): seq<Transaction>
    requires !t.pc.Idle? && t.pc.pass.fetched + n <= |Matches(t, t.pc.pass.query)|
  {
    Matches(t, t.pc.pass.query)[t.pc.pass.fetched..t.pc.pass.fetched + n]
  }

  /** From t to u, n more matches were fetched: now `longer` instead of `out`. */
  ghost predicate FetchedOn(
    t: State, u: State, out: seq<Transaction>, longer: seq<Transaction>, n: nat, last: bool)
  {
    && Fetched(t, out) && Fetched(u, longer) && |longer| == |out| + n && u.matches == t.matches
    && u.pc.pass == t.pc.pass.(fetched := t.pc.pass.fetched + n, search := if last then Search.Complete else Running)
  }

  lemma FetchedMore(t: State, u: State, out: seq<Transaction>, n: nat, last: bool)
    requires Fetched(t, out) && !u.pc.Idle? && u.matches == t.matches
    requires t.pc.pass.fetched + n <= |Matches(t, t.pc.pass.query)|
    requires var search := if last then Search.Complete else Running;
             u.pc.pass == t.pc.pass.(fetched := t.pc.pass.fetched + n, search := search)
    ensures FetchedOn(t, u, out, out + NextMatches(t, n), n, last)
  {
    var p := t.pc.pass;
    SlicesJoin(Matches(t, p.query), p.start, p.fetched, p.fetched + n);
  }

  lemma FetchedFeeding(s: State, t: State, u: State, out: seq<Transaction>, longer: seq<Transaction>, n: nat)
    requires Feeding(s, t, out) && FetchedOn(t, u, out, longer, n, false)
    ensures Feeding(s, u, longer)
  {
  }

  lemma StopFacts(t: State, out: seq<Transaction>)
    requires LoopInv(t) && !t.pc.Idle? && t.pc.pass.search.Running? && Fetched(t, out)
    ensures Enabled(t, BreakSearch(t.pc.pass.fetched)) && Enabled(t, CancelSearch(t.pc.pass.fetched))
    ensures var u := Next(t, BreakSearch(t.pc.pass.fetched));
            !u.pc.Idle? && u.matches == t.matches && u.pc.pass == t.pc.pass.(search := Broken) && Fetched(u, out)
    ensures var u := Next(t, CancelSearch(t.pc.pass.fetched));
            && !u.pc.Idle? && u.matches == t.matches && u.pc.pass == t.pc.pass.(search := Search.Cancelled)
            && Fetched(u, out)
  {
  }

  method Now(w: World)
    requires w.Valid() && w.me == Searcher
    modifies w
    ensures w.Valid() && Stable(Searcher, old(w.s), w.s) && old(w.trace) <= w.trace
    ensures Did(w.history) == Did(old(w.history))
    ensures if old(w.others) == [] then w.others == [] && w.s == old(w.s) else |w.others| < |old(w.others)|
  {
    w.Others();
  }

  /** Goes through the transactions of a page until a proof fails or a cancellation is noticed. */
  method Deliver(count: nat, base: nat, proofFails: nat -> bool, cancels: nat -> bool)
    returns (n: nat, cut: Option<Closing>)
    ensures n <= count && (cut.None? <==> n == count)
    ensures forall i :: base <= i < base + n ==> !proofFails(i) && !cancels(i)
    ensures cut == Some(Failed) ==> proofFails(base + n)
    ensures cut == Some(Closing.Cancelled) ==> cancels(base + n)
    ensures cut != Some(Closing.Complete)
  {
    n := 0;
    while n < count
      invariant n <= count && forall i :: base <= i < base + n ==> !proofFails(i) && !cancels(i)
    {
      if proofFails(base + n) { return n, Some(Failed); }
      if cancels(base + n) { return n, Some(Closing.Cancelled); }
      n := n + 1;
    }
    cut := None;
  }

  method FetchSome(w: World, ghost s: State, out: seq<Transaction>, n: nat, last: bool)
    returns (longer: seq<Transaction>)
    requires w.Valid() && w.me == Searcher && Feeding(s, w.s, out)
    requires w.s.pc.pass.fetched + n <= |w.s.matches[w.s.pc.pass.query]|
    requires last ==> w.s.pc.pass.fetched + n == |w.s.matches[w.s.pc.pass.query]|
    modifies w
    ensures w.Valid() && old(w.trace) <= w.trace && w.others == old(w.others)
    ensures FetchedOn(old(w.s), w.s, out, longer, n, last)
    ensures Did(w.history) == Did(old(w.history)) + [Fetch(w.s.pc.pass.fetched, last)]
  {
    var p := w.s.pc.pass;
    ghost var before := w.s;
    longer := out + NextMatches(w.s, n);
    FetchStepFacts(w.s, p.fetched + n, last);
    w.Step(Fetch(p.fetched + n, last));
    FetchedMore(before, w.s, out, n, last);
  }

  function StopAction(how: Closing, fetched: nat): Action {
    if how.Failed? then BreakSearch(fetched) else CancelSearch(fetched)
  }

  /** Pages that are not the last are delivered. */
  predicate OnlyFetches(steps: seq<Action>) {
    forall i :: 0 <= i < |steps| ==> steps[i].Fetch? && !steps[i].lastPage
  }

  /** The search's own steps until it ended while page p was asked for or sent: every page sent is a fetching step, only
      a complete search fetches a last page, and an early end is one breaking or cancelling step after the fetching. */
  predicate StepsUntil(steps: seq<Action>, p: nat, ending: Ending) {
    if ending.Abandoned? then OnlyFetches(steps) && |steps| <= p
    else
      && steps != [] && OnlyFetches(steps[..|steps| - 1])
      && var last := steps[|steps| - 1];
      match ending.how
      case Complete => |steps| == p && last.Fetch? && last.lastPage
      case Failed => p <= |steps| <= p + 1 && last.BreakSearch?
      case Cancelled => |steps| == p + 1 && last.CancelSearch?
  }

  lemma StepsJoin(before: seq<Action>, steps: seq<Action>, p: nat, ending: Ending)
    requires OnlyFetches(before) && StepsUntil(steps, 1, ending) && 0 < p && |before| == p - 1
    ensures StepsUntil(before + steps, p, ending)
  {
    if ending.Closed? { assert (before + steps)[..|before + steps| - 1] == before + steps[..|steps| - 1]; }
  }

  /** The channels are closed early. */
  method Stop(w: World, ghost s: State, out: seq<Transaction>, how: Closing)
    requires w.Valid() && w.me == Searcher && Feeding(s, w.s, out) && !how.Complete?
    modifies w
    ensures w.Valid() && old(w.trace) <= w.trace && Fetched(w.s, out) && w.s.matches == old(w.s).matches
    ensures !w.s.pc.Idle? && w.s.pc.pass == old(w.s).pc.pass.(search := SearchOf(how))
    ensures Did(w.history) == Did(old(w.history)) + [StopAction(how, old(w.s).pc.pass.fetched)]
  {
    StopFacts(w.s, out) by { LoopInvHolds(w.start, w.trace); }
    if how.Failed? {
      w.Step(BreakSearch(w.s.pc.pass.fetched));
    } else {
      w.Step(CancelSearch(w.s.pc.pass.fetched));
    }
  }

  /** Part of a page was sent when the channels are closed early. */
  method CutShort(w: World, ghost s: State, out: seq<Transaction>, n: nat, how: Closing)
    returns (longer: seq<Transaction>, ending: Ending, ghost steps: seq<Action>)
    requires w.Valid() && w.me == Searcher && Feeding(s, w.s, out)
    requires w.s.pc.pass.fetched + n <= |w.s.matches[w.s.pc.pass.query]|
    requires !how.Complete?
    modifies w
    ensures w.Valid() && old(w.trace) <= w.trace && |longer| == |out| + n
    ensures Did(w.history) == Did(old(w.history)) + steps && StepsUntil(steps, 1, ending)
    ensures if ending.Abandoned? then w.s.pc.Idle? else ending == Closed(how) && ClosedAs(s, w.s, longer, how)
  {
    ghost var before := w.s;
    longer := FetchSome(w, s, out, n, false);
    FetchedFeeding(s, before, w.s, out, longer, n);
    ghost var fetch, more := Fetch(w.s.pc.pass.fetched, false), [];
    ending, more := WaitAndStop(w, s, longer, how);
    Append(Did(old(w.history)), [fetch], more);
    steps := [fetch] + more;
    CutSteps(fetch, more, ending);
  }

  lemma CutSteps(fetch: Action, more: seq<Action>, ending: Ending)
    requires fetch.Fetch? && !fetch.lastPage
    requires if ending.Abandoned? then more == []
             else !ending.how.Complete? && exists n :: more == [StopAction(ending.how, n)]
    ensures StepsUntil([fetch] + more, 1, ending)
  {
    if ending.Closed? { assert ([fetch] + more)[..|[fetch] + more| - 1] == [fetch]; }
  }

  method WaitAndStop(w: World, ghost s: State, out: seq<Transaction>, how: Closing)
    returns (ending: Ending, ghost steps: seq<Action>)
    requires w.Valid() && w.me == Searcher && Feeding(s, w.s, out) && !how.Complete?
    modifies w
    ensures w.Valid() && old(w.trace) <= w.trace && Did(w.history) == Did(old(w.history)) + steps
    ensures if ending.Abandoned? then steps == [] && w.s.pc.Idle?
            else ending == Closed(how) && ClosedAs(s, w.s, out, how) && exists n :: steps == [StopAction(how, n)]
  {
    ghost var before := w.s;
    Now(w);
    if w.s.pc.Idle? { return Abandoned, []; }
    FeedingGoesOn(s, before, w.s, out);
    before := w.s;
    Stop(w, s, out, how);
    EarlyClose(s, before, w.s, out, how);
    ending, steps := Closed(how), [StopAction(how, before.pc.pass.fetched)];
  }

  /** Where the search stands when page p is to be asked for. */
  ghost predicate AtPage(s: State, t: State, out: seq<Transaction>, p: nat) {
    && 0 < p && |out| == (p - 1) * PER_PAGE && Feeding(s, t, out)
    && (1 < p ==> |out| < |t.matches[t.pc.pass.query]| - t.pc.pass.start)
  }

  /** What is known when the channels are closed in t. */
  ghost predicate ClosedAs(s: State, t: State, out: seq<Transaction>, how: Closing) {
    && !s.pc.Idle? && Fetched(t, out) && t.pc.pass.search == SearchOf(how)
    && t.pc.pass.query == s.pc.pass.query && t.pc.pass.start == s.pc.pass.start
    && (how.Complete? ==> |Matches(s, s.pc.pass.query)| <= s.pc.pass.start + |out|)
  }

  method AwaitPage(w: World, ghost s: State, out: seq<Transaction>, p: nat)
    requires w.Valid() && w.me == Searcher && AtPage(s, w.s, out, p)
    modifies w
    ensures w.Valid() && old(w.trace) <= w.trace && (!w.s.pc.Idle? ==> AtPage(s, w.s, out, p))
    ensures Did(w.history) == Did(old(w.history))
    ensures if old(w.others) == [] then w.others == [] && w.s == old(w.s) else |w.others| < |old(w.others)|
  {
    ghost var before := w.s;
    Now(w);
    if !w.s.pc.Idle? { FeedingGoesOn(s, before, w.s, out); }
  }

  lemma PageSize(list: seq<Transaction>, p: nat)
    requires 0 < p && (1 < p ==> (p - 1) * PER_PAGE < |list|)
    ensures PageOf(list, p).Some?
    ensures (p - 1) * PER_PAGE + |PageOf(list, p).value| == if |list| <= p * PER_PAGE then |list| else p * PER_PAGE
  {
  }

  lemma PageGoesOn(s: State, t: State, u: State, out: seq<Transaction>, longer: seq<Transaction>, p: nat)
    requires AtPage(s, t, out, p) && FetchedOn(t, u, out, longer, PER_PAGE, false)
    requires p * PER_PAGE < |t.matches[t.pc.pass.query]| - t.pc.pass.start
    ensures AtPage(s, u, longer, p + 1)
  {
    FetchedFeeding(s, t, u, out, longer, PER_PAGE);
  }

  lemma LastPageCloses(s: State, t: State, u: State, out: seq<Transaction>, longer: seq<Transaction>, n: nat, p: nat)
    requires AtPage(s, t, out, p) && FetchedOn(t, u, out, longer, n, true)
    requires |out| + n == |t.matches[t.pc.pass.query]| - t.pc.pass.start
    ensures ClosedAs(s, u, longer, Closing.Complete)
  {
  }

  lemma EarlyClose(s: State, t: State, u: State, out: seq<Transaction>, how: Closing)
    requires Feeding(s, t, out) && !how.Complete? && Fetched(u, out)
    requires u.pc.pass == t.pc.pass.(search := SearchOf(how))
    ensures ClosedAs(s, u, out, how)
  {
  }

  /** How a search can end in t, when `longer` was sent. */
  ghost predicate Ends(
    s: State, t: State, longer: seq<Transaction>, ending: Ending, failed: bool, cancelled: bool)
  {
    match ending
    case Abandoned => t.pc.Idle?
    case Closed(how) => ClosedAs(s, t, longer, how) && (how.Failed? ==> failed) && (how.Cancelled? ==> cancelled)
  }

  /** The node is asked for page p: how many results it returns, and whether that is all there is. */
  method AskFor(t: State, ghost s: State, out: seq<Transaction>, p: nat) returns (count: nat, last: bool)
    requires AtPage(s, t, out, p)
    ensures var size := |t.matches[t.pc.pass.query]| - t.pc.pass.start;
            (last <==> size <= p * PER_PAGE) && |out| + count == if last then size else p * PER_PAGE
  {
    var list := t.matches[t.pc.pass.query][t.pc.pass.start..];
    PageSize(list, p);
    count, last := |PageOf(list, p).value|, |list| <= p * PER_PAGE;
  }

  /** Page p is asked for now; it is sent, up to where the search is cut short. */
  method HandlePage(
    w: World, ghost s: State, out: seq<Transaction>, p: nat, proofFails: nat -> bool, cancels: nat -> bool)
    returns (longer: seq<Transaction>, ending: Option<Ending>, ghost steps: seq<Action>)
    requires w.Valid() && w.me == Searcher && AtPage(s, w.s, out, p)
    modifies w
    ensures w.Valid() && old(w.trace) <= w.trace && Did(w.history) == Did(old(w.history)) + steps
    ensures if ending.None? then OnlyFetches(steps) && |steps| == 1 else StepsUntil(steps, 1, ending.value)
    ensures ending.None? ==> AtPage(s, w.s, longer, p + 1) && Progress(old(w.s), old(w.others), w.s, w.others)
    ensures ending.Some? ==> Ends(s, w.s, longer, ending.value, proofFails(|longer|), cancels(|longer|))
  {
    var count, last := AskFor(w.s, s, out, p);
    var n, cut := Deliver(count, |out|, proofFails, cancels);
    if cut.Some? {
      var end;
      longer, end, steps := CutShort(w, s, out, n, cut.value);
      return longer, Some(end), steps;
    }
    longer, steps := SendPage(w, s, out, n, last, p);
    ending := if last then Some(Closed(Closing.Complete)) else None;
  }

  /** The whole of page p is sent. */
  method SendPage(w: World, ghost s: State, out: seq<Transaction>, n: nat, last: bool, ghost p: nat)
    returns (longer: seq<Transaction>, ghost steps: seq<Action>)
    requires w.Valid() && w.me == Searcher && AtPage(s, w.s, out, p)
    requires var size := |w.s.matches[w.s.pc.pass.query]| - w.s.pc.pass.start;
             (last <==> size <= p * PER_PAGE) && |out| + n == if last then size else p * PER_PAGE
    modifies w
    ensures w.Valid() && old(w.trace) <= w.trace && Did(w.history) == Did(old(w.history)) + steps
    ensures if last then StepsUntil(steps, 1, Closed(Closing.Complete)) else OnlyFetches(steps) && |steps| == 1
    ensures last ==> ClosedAs(s, w.s, longer, Closing.Complete)
    ensures !last ==> AtPage(s, w.s, longer, p + 1) && Progress(old(w.s), old(w.others), w.s, w.others)
  {
    ghost var before := w.s;
    longer := FetchSome(w, s, out, n, last);
    steps := [Fetch(w.s.pc.pass.fetched, last)];
    if last {
      LastPageCloses(s, before, w.s, out, longer, n, p);
    } else {
      PageGoesOn(s, before, w.s, out, longer, p);
    }
  }

  /** One round of the search: the other actors run, and page p is asked for and sent. */
  method Round(
    w: World, ghost s: State, out: seq<Transaction>, p: nat, searchFails: nat -> bool, proofFails: nat -> bool,
    cancels: nat -> bool)
    returns (longer: seq<Transaction>, ending: Option<Ending>, ghost steps: seq<Action>)
    requires w.Valid() && w.me == Searcher && AtPage(s, w.s, out, p)
    modifies w
    ensures w.Valid() && old(w.trace) <= w.trace && Did(w.history) == Did(old(w.history)) + steps
    ensures if ending.None? then OnlyFetches(steps) && |steps| == 1 else StepsUntil(steps, 1, ending.value)
    ensures ending.None? ==> AtPage(s, w.s, longer, p + 1) && Progress(old(w.s), old(w.others), w.s, w.others)
    ensures ending.Some? ==>
              Ends(s, w.s, longer, ending.value, searchFails(p) || proofFails(|longer|), cancels(|longer|))
  {
    AwaitPage(w, s, out, p);
    if w.s.pc.Idle? { return out, Some(Abandoned), []; }
    if searchFails(p) {
      steps := [StopAction(Failed, w.s.pc.pass.fetched)];
      ghost var before := w.s;
      Stop(w, s, out, Failed);
      EarlyClose(s, before, w.s, out, Failed);
      return out, Some(Closed(Failed)), steps;
    }
    longer, ending, steps := HandlePage(w, s, out, p, proofFails, cancels);
  }

  /** The script of the other actors has gone on, or more has been fetched of what there is. */
  ghost predicate Progress(s: State, others: seq<seq<Action>>, t: State, rest: seq<seq<Action>>) {
    || |rest| < |others|
    || (rest == others && t.matches == s.matches && !s.pc.Idle? && !t.pc.Idle?
        && t.pc.pass.query == s.pc.pass.query && s.pc.pass.fetched < t.pc.pass.fetched)
  }

  /** The search of a pass that has just begun. Whatever the other actors do meanwhile, every page that is delivered is
      a fetching step and every early end a breaking or cancelling one; when the channels are closed, the pass's search
      stands as they say, and what was fetched is what was sent: the matches from the start of the pass on, in order. */
  method SearchTransactions(w: World, searchFails: nat -> bool, proofFails: nat -> bool, cancels: nat -> bool)
    returns (out: seq<Transaction>, ending: Ending, pages: nat, ghost steps: seq<Action>)
    requires w.Valid() && w.me == Searcher
    requires w.s.pc.Looping? && w.s.pc.pass.search.Running? && w.s.pc.pass.fetched == w.s.pc.pass.start
    modifies w
    ensures w.Valid() && old(w.trace) <= w.trace && 0 < pages
    ensures Did(w.history) == Did(old(w.history)) + steps && StepsUntil(steps, pages, ending)
    ensures Ends(old(w.s), w.s, out, ending, searchFails(pages) || proofFails(|out|), cancels(|out|))
  {
    ghost var s := w.s;
    LoopInvHolds(w.start, w.trace);
    out, pages, steps := [], 1, [];
    while true
      invariant w.Valid() && old(w.trace) <= w.trace && AtPage(s, w.s, out, pages)
      invariant Did(w.history) == Did(old(w.history)) + steps && OnlyFetches(steps) && |steps| == pages - 1
      decreases |w.others|, |w.s.matches[w.s.pc.pass.query]| - w.s.pc.pass.fetched
    {
      var end;
      ghost var more;
      out, end, more := Round(w, s, out, pages, searchFails, proofFails, cancels);
      Append(Did(old(w.history)), steps, more);
      if end.Some? {
        StepsJoin(steps, more, pages, end.value);
        return out, end.value, pages, steps + more;
      }
      steps, pages := steps + more, pages + 1;
    }
  }
}

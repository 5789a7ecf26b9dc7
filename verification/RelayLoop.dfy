/** The relay loop as the program runs it, each storage call one step of the run. */
module RelayLoop {
  import opened Decimal
  import opened Records
  import opened Protocol
  import opened World
  import opened Watermark
  import opened TxProcessor
  import Sub = Submissions
  import TxFilter

  /** The height a query is initialised with: 0, or the latest height less the configured offset. */
  function InitialSearchHeight(offset: Uint64, latest: Uint64): Uint64 {
    if offset != 0 && offset < latest then latest - offset else 0
  }

  /** Storage calls that all succeeded, but for the last one if not ok. */
  predicate StorageRun(events: seq<Event>, ok: bool) {
    && (forall i :: 0 <= i < |events| ==> events[i] == Storage(ok || i < |events| - 1))
    && (!ok ==> events != [])
  }

  lemma StorageRunLonger(events: seq<Event>, ok: bool)
    requires StorageRun(events, true)
    ensures StorageRun(events + [Storage(ok)], ok)
  {
  }

  lemma StorageRunEnds(events: seq<Event>, ok: bool, ignored: string -> bool)
    requires StorageRun(events, ok)
    ensures Fine(events, ignored) <==> ok
    ensures !ok ==> EndsInFailure(events, ignored)
    ensures !EndsInRefusal(events, ignored) && Tried(events) == {}
    ensures forall e :: e in events ==> e.Storage?
  {
    if !ok { assert Fails(events[|events| - 1], ignored); }
  }

  /** The height of a query from which its next pass starts. */
  function FirstFloor(s: State, q: Uint64, offset: Uint64, latest: Option<Uint64>): Uint64 {
    if q in s.core.maps.heights then s.core.maps.heights[q] else InitialSearchHeight(offset, latest.GetOr(0))
  }

  /** The height to start from cannot be told: the query is new and the latest height could not be asked for. */
  predicate NoLatest(s: State, q: Uint64, offset: Uint64, latest: Option<Uint64>) {
    q !in s.core.maps.heights && offset != 0 && latest.None?
  }

  /** The stored filter is not the JSON of one, or has an unknown operator. */
  predicate Unreadable(filter: Option<seq<TxFilter.Row>>) {
    filter.None? || !TxFilter.OpsKnown(filter.value)
  }

  /** The query's height is initialised on its first use. */
  method EnsureInitialised(w: World, q: Uint64, offset: Uint64, latest: Option<Uint64>)
    returns (err: Option<GoError>, ghost events: seq<Event>)
    requires w.Valid() && w.me == RelayLoop && w.s.pc.Idle? && q in w.s.matches
    modifies w
    ensures w.Valid() && w.s.pc.Idle? && old(w.trace) <= w.trace && w.others == old(w.others)
    ensures w.log == old(w.log) + events
    ensures w.s.matches == old(w.s).matches && w.s.core.maps.statuses == old(w.s).core.maps.statuses
    ensures StorageRun(events, err.None?) || (StorageRun(events, true) && NoLatest(old(w.s), q, offset, latest))
    ensures err.None? ==> !NoLatest(old(w.s), q, offset, latest)
    ensures err.Some? ==> w.s == old(w.s) && !AsCritical(err.value)
    ensures err.None? ==> q in w.s.core.maps.heights && Stored(w.s, q) == FirstFloor(old(w.s), q, offset, latest)
    ensures q in old(w.s).core.maps.heights ==> w.s == old(w.s)
  {
    var ok := w.StorageAnswers();
    events := [Storage(ok)];
    assert StorageRun(events, ok);
    if !ok { return Some(Plain("could not get last query height from storage")), events; }
    if q in w.s.core.maps.heights { return None, events; }
    if offset != 0 && latest.None? { return Some(Plain("could not get latest target chain height")), events; }
    ok := StoreFirstHeight(w, q, if offset != 0 then InitialSearchHeight(offset, latest.value) else 0);
    Append(old(w.log), events, [Storage(ok)]);
    StorageRunLonger(events, ok);
    events := events + [Storage(ok)];
    err := if ok then None else Some(Plain("failed to set a 0 last height for an uninitialised query"));
  }

  method StoreFirstHeight(w: World, q: Uint64, height: Uint64) returns (ok: bool)
    requires w.Valid() && w.me == RelayLoop && w.s.pc.Idle? && q in w.s.matches && q !in w.s.core.maps.heights
    modifies w
    ensures w.Valid() && w.s.pc.Idle? && old(w.trace) <= w.trace && w.others == old(w.others)
    ensures w.log == old(w.log) + [Storage(ok)]
    ensures w.s.matches == old(w.s).matches && w.s.core.maps.statuses == old(w.s).core.maps.statuses
    ensures if ok then q in w.s.core.maps.heights && Stored(w.s, q) == height else w.s == old(w.s)
  {
    ok := w.StorageAnswers();
    if ok { w.Step(Initialise(q, height)); }
  }

  /** The search string for a query; `filter` is None if the stored filter is not the JSON of one. */
  method BuildTxQuery(
    w: World, q: Uint64, filter: Option<seq<TxFilter.Row>>, offset: Uint64, latest: Option<Uint64>)
    returns (err: Option<GoError>, text: string, ghost events: seq<Event>)
    requires w.Valid() && w.me == RelayLoop && w.s.pc.Idle? && q in w.s.matches
    modifies w
    ensures w.Valid() && w.s.pc.Idle? && old(w.trace) <= w.trace && w.others == old(w.others)
    ensures w.log == old(w.log) + events
    ensures w.s.matches == old(w.s).matches && w.s.core.maps.statuses == old(w.s).core.maps.statuses
    ensures || StorageRun(events, err.None?)
            || (StorageRun(events, true) && (NoLatest(old(w.s), q, offset, latest) || Unreadable(filter)))
    ensures err.None? ==> !NoLatest(old(w.s), q, offset, latest) && !Unreadable(filter)
    ensures err.Some? ==> !AsCritical(err.value)
    ensures err.None? ==>
              && q in w.s.core.maps.heights && Stored(w.s, q) == FirstFloor(old(w.s), q, offset, latest)
              && text == TxFilter.SearchString(filter.value, Stored(w.s, q))
  {
    text := "";
    err, events := EnsureInitialised(w, q, offset, latest);
    if err.Some? { return; }
    if filter.None? { return Some(Plain("could not unmarshal transactions filter")), "", events; }
    var query := TxFilter.BuildTxQuery(filter.value, w.s.core.maps.heights[q]);
    if query.None? { return Some(Plain("failed to process tx query params")), "", events; }
    text := query.value;
  }

  /** Then the search begins: for what the text says, the matches of the filter above the stored height. */
  method BeginSearch(w: World, q: Uint64, filter: seq<TxFilter.Row>, text: string)
    requires w.Valid() && w.me == RelayLoop && w.s.pc.Idle? && q in w.s.matches && q in w.s.core.maps.heights
    requires TxFilter.OpsKnown(filter) && text == TxFilter.SearchString(filter, Stored(w.s, q))
    modifies w
    ensures w.Valid() && old(w.trace) <= w.trace && w.others == old(w.others) && w.log == old(w.log)
    ensures w.s.matches == old(w.s).matches && w.s.core.maps.statuses == old(w.s).core.maps.statuses
    ensures w.s.pc.Looping? && w.s.pc.pass.query == q && w.s.pc.pass.floor == Stored(old(w.s), q)
    ensures w.s.pc.pass.pos == w.s.pc.pass.start && w.s.pc.pass.search.Running?
  {
    assert Ascending(w.s.matches[q]) by { WorldInv(w); }
    ghost var there := StartIndexExists(w.s.matches[q], w.s.core.maps.heights[q]);
    var from: nat :| SplitsAt(w.s.matches[q], w.s.core.maps.heights[q], from);
    w.Step(Start(q, from));
  }

  lemma MarkFacts(s: State, ok: bool)
    requires LoopInv(s) && s.pc.Looping? && s.pc.pass.pos < s.pc.pass.fetched
    ensures s.pc.pass.pos < |Matches(s, s.pc.pass.query)| && Enabled(s, Mark(ok))
    ensures var t := Next(s, Mark(ok));
            && t.matches == s.matches && t.core.maps.statuses == s.core.maps.statuses
            && (MarksBlock(s) && !ok ==> t.pc.Idle?)
            && (ok || !MarksBlock(s) ==> t.pc == Marked(s.pc.pass) && Onward(s, t))
  {
  }

  /** The match in hand in s has become the relay loop's job in t. */
  ghost predicate HoldsMatch(s: State, t: State) {
    && t.pc.Submitting? && Onward(s, t) && t.pc.pass.pos == s.pc.pass.pos
    && s.pc.pass.pos < |Matches(s, s.pc.pass.query)|
    && Sub.Relay in t.core.jobs && t.core.jobs[Sub.Relay] == Sub.Job(s.pc.pass.query, InHand(s), Sub.Ready)
    && t.core.jobs[Sub.Relay].Key() !in t.core.maps.statuses
  }

  lemma LookFacts(s: State, ok: bool)
    requires LoopInv(s) && s.pc.Marked?
    ensures Enabled(s, Look(ok))
    ensures var t := Next(s, Look(ok));
            && t.matches == s.matches && t.core.maps.statuses == s.core.maps.statuses
            && (t.pc.Idle? <==> !ok)
            && (!t.pc.Idle? ==>
                  (t.pc.Looping? || t.pc.Submitting?) && t.pc.pass.fetched == s.pc.pass.fetched)
            && (t.pc.Looping? ==> MatchDone(s, t))
            && (t.pc.Submitting? ==> HoldsMatch(s, t))
  {
  }

  /** The other actors run, the search goroutine among them. */
  method Await(w: World)
    requires w.Valid() && w.me == RelayLoop && !w.s.pc.Idle? && !w.s.pc.Submitting?
    modifies w
    ensures w.Valid() && old(w.trace) <= w.trace && w.s.matches.Keys == old(w.s).matches.Keys && w.log == old(w.log)
    ensures (w.s.pc.Looping? <==> old(w.s).pc.Looping?) && (w.s.pc.Marked? <==> old(w.s).pc.Marked?)
    ensures Onward(old(w.s), w.s) && w.s.pc.pass.pos == old(w.s).pc.pass.pos
    ensures w.s.core.maps.statuses.Keys == old(w.s).core.maps.statuses.Keys
    ensures if old(w.others) == [] then w.others == [] && w.s == old(w.s) else |w.others| < |old(w.others)|
  {
    w.Others();
    StableIsOnward(old(w.s), w.s);
  }

  ghost predicate InHandIsThere(s: State) {
    !s.pc.Idle? && s.pc.pass.pos < |Matches(s, s.pc.pass.query)|
  }

  /** A new block in hand marks the previous one as finished. */
  method MarkBlock(w: World) returns (ok: bool, ghost events: seq<Event>)
    requires w.Valid() && w.me == RelayLoop && w.s.pc.Looping? && w.s.pc.pass.pos < w.s.pc.pass.fetched
    modifies w
    ensures w.Valid() && old(w.trace) <= w.trace && w.others == old(w.others) && w.s.matches == old(w.s).matches
    ensures w.s.core.maps.statuses == old(w.s).core.maps.statuses
    ensures w.log == old(w.log) + events && StorageRun(events, ok)
    ensures ok ==> w.s.pc.Marked? && w.s.pc.pass == old(w.s).pc.pass && Onward(old(w.s), w.s)
    ensures !ok ==> w.s.pc.Idle?
  {
    ok, events := true, [];
    assert InHandIsThere(w.s) by { WorldInv(w); }
    if MarksBlock(w.s) {
      ok := w.StorageAnswers();
      events := [Storage(ok)];
    }
    Marks(w, ok);
  }

  method Marks(w: World, ok: bool)
    requires w.Valid() && w.me == RelayLoop && w.s.pc.Looping? && w.s.pc.pass.pos < w.s.pc.pass.fetched
    requires InHandIsThere(w.s) && (!ok ==> MarksBlock(w.s))
    modifies w
    ensures w.Valid() && old(w.trace) <= w.trace && w.others == old(w.others) && w.s.matches == old(w.s).matches
    ensures w.log == old(w.log) && w.s.core.maps.statuses == old(w.s).core.maps.statuses
    ensures if ok then w.s.pc == Marked(old(w.s).pc.pass) && Onward(old(w.s), w.s) else w.s.pc.Idle?
  {
    MarkFacts(w.s, ok) by { WorldInv(w); }
    w.Step(Mark(ok));
  }

  /** Does the match in hand have a record already? If not, it becomes a job. */
  method LookUp(w: World) returns (ok: bool)
    requires w.Valid() && w.me == RelayLoop && w.s.pc.Marked?
    modifies w
    ensures w.Valid() && old(w.trace) <= w.trace && w.others == old(w.others) && w.s.matches == old(w.s).matches
    ensures w.log == old(w.log) + [Storage(ok)] && w.s.core.maps.statuses == old(w.s).core.maps.statuses
    ensures !ok ==> w.s.pc.Idle?
    ensures ok ==> (w.s.pc.Looping? || w.s.pc.Submitting?) && w.s.pc.pass.fetched == old(w.s).pc.pass.fetched
    ensures w.s.pc.Looping? ==> MatchDone(old(w.s), w.s)
    ensures w.s.pc.Submitting? ==> HoldsMatch(old(w.s), w.s)
  {
    ok := w.StorageAnswers();
    LookFacts(w.s, ok) by { WorldInv(w); }
    w.Step(Look(ok));
  }

  lemma SameMatchLater(s: State, t: State, u: State)
    requires Onward(s, t) && t.pc.pass.pos == s.pc.pass.pos < |Matches(s, s.pc.pass.query)|
    ensures MatchDone(t, u) ==> MatchDone(s, u)
    ensures HoldsMatch(t, u) ==> HoldsMatch(s, u)
  {
    if MatchDone(t, u) || HoldsMatch(t, u) { OnwardIsTransitive(s, t, u); }
  }

  /** A delivered match: the watermark moves if a new block begins, and unless it has a record it becomes a job. */
  method TakeMatch(w: World) returns (err: Option<GoError>, ghost events: seq<Event>)
    requires w.Valid() && w.me == RelayLoop && w.s.pc.Looping? && w.s.pc.pass.pos < w.s.pc.pass.fetched
    modifies w
    ensures w.Valid() && old(w.trace) <= w.trace && w.log == old(w.log) + events
    ensures |w.others| <= |old(w.others)| && (err.None? && old(w.others) != [] ==> |w.others| < |old(w.others)|)
    ensures w.s.matches.Keys == old(w.s).matches.Keys
    ensures w.s.core.maps.statuses.Keys == old(w.s).core.maps.statuses.Keys
    ensures StorageRun(events, err.None?) && !StopsRelayer(err)
    ensures err.None? ==>
              MatchDone(old(w.s), w.s) || HoldsMatch(old(w.s), w.s)
    ensures err.None? && old(w.others) == [] ==> w.s.pc.pass.fetched == old(w.s).pc.pass.fetched
    ensures err.Some? ==> w.s.pc.Idle?
  {
    ghost var first := w.s;
    var ok;
    ok, events := MarkAndWait(w);
    if !ok { return Some(Wrapped("failed to save last height of query", Plain("storage"))), events; }
    ghost var waited := w.s;
    ok := LookUp(w);
    StorageRunLonger(events, ok);
    Append(old(w.log), events, [Storage(ok)]);
    events := events + [Storage(ok)];
    if !ok { return Some(Wrapped("failed to check tx existence", Plain("storage"))), events; }
    SameMatchLater(first, waited, w.s);
    err := None;
  }

  method MarkAndWait(w: World) returns (ok: bool, ghost events: seq<Event>)
    requires w.Valid() && w.me == RelayLoop && w.s.pc.Looping? && w.s.pc.pass.pos < w.s.pc.pass.fetched
    modifies w
    ensures w.Valid() && old(w.trace) <= w.trace && w.log == old(w.log) + events
    ensures StorageRun(events, ok)
    ensures |w.others| <= |old(w.others)| && (ok && old(w.others) != [] ==> |w.others| < |old(w.others)|)
    ensures w.s.matches.Keys == old(w.s).matches.Keys
    ensures w.s.core.maps.statuses.Keys == old(w.s).core.maps.statuses.Keys
    ensures ok ==> w.s.pc.Marked? && Onward(old(w.s), w.s)
    ensures ok ==> w.s.pc.pass.pos == old(w.s).pc.pass.pos < |Matches(old(w.s), old(w.s).pc.pass.query)|
    ensures ok && old(w.others) == [] ==> w.s.pc.pass.fetched == old(w.s).pc.pass.fetched
    ensures !ok ==> w.s.pc.Idle?
  {
    ghost var first := w.s;
    assert InHandIsThere(first) by { WorldInv(w); }
    ok, events := MarkBlock(w);
    if !ok { return; }
    ghost var marked := w.s;
    Await(w);
    OnwardIsTransitive(first, marked, w.s);
  }

  /** What was answered about the job, in t: when all was fine its status is stored, and when the chain refused for good
      the transaction is left to be found again. */
  ghost predicate AnsweredFor(t: State, job: Sub.Job, fine: bool, events: seq<Event>, ignored: string -> bool) {
    forall e :: e in events && e.Answered? ==>
      && e.job == job
      && (fine ==> !e.reply.NoHeaders? && StoredAnswer(t, job, e.reply))
      && (Fatal(e.reply, ignored) ==> LeftRetryable(t, job))
  }

  /** What submitting the match that the relay loop holds in u comes to in t. */
  ghost predicate HeldSubmitted(u: State, t: State, err: Option<GoError>, events: seq<Event>, ignored: string -> bool)
    requires Sub.Relay in u.core.jobs
  {
    var job := u.core.jobs[Sub.Relay];
    && events != [] && Ended(err, events, ignored)
    && Tried(events) == {job.Key()} && AnsweredFor(t, job, err.None?, events, ignored)
    && if err.Some? then t.pc.Idle? else
         && t.core.maps.statuses.Keys == u.core.maps.statuses.Keys + {job.Key()}
         && Onward(u, t) && t.pc.Looping? && t.pc.pass.pos == u.pc.pass.pos + 1
  }

  /** Submits the match that the relay loop holds. */
  method SubmitHeld(w: World, ignored: string -> bool, now: int)
    returns (err: Option<GoError>, ghost events: seq<Event>)
    requires w.Valid() && w.me == RelayLoop && w.s.pc.Submitting?
    requires Sub.Relay in w.s.core.jobs && w.s.core.jobs[Sub.Relay].stage.Ready?
    modifies w
    ensures w.Valid() && old(w.trace) <= w.trace && |w.others| <= |old(w.others)| && w.log == old(w.log) + events
    ensures w.s.matches.Keys == old(w.s).matches.Keys
    ensures HeldSubmitted(old(w.s), w.s, err, events, ignored)
    ensures err.None? && old(w.others) == [] ==> w.s.pc.pass.fetched == old(w.s).pc.pass.fetched
  {
    ghost var job := w.s.core.jobs[Sub.Relay];
    var inner, reply;
    inner, reply, events := ProcessAndSubmit(w, Sub.Relay, ignored, now);
    err := if inner.Some? then Some(Wrapped("failed to process txs", inner.value)) else None;
    SubmissionEnds(inner, err, job, reply, events, ignored);
  }

  /** What handling the match in hand in s comes to in t. */
  ghost predicate MatchHandled(s: State, t: State, err: Option<GoError>, events: seq<Event>, ignored: string -> bool) {
    && Ended(err, events, ignored)
    && InHandIsThere(s)
    && AnsweredFor(t, Sub.Job(s.pc.pass.query, InHand(s), Sub.Ready), err.None?, events, ignored)
    && Tried(events) !! s.core.maps.statuses.Keys
    && (if err.None? then MatchDone(s, t) && RecordsAdded(s, t, events) else t.pc.Idle?)
  }

  lemma SkippedIsHandled(s: State, t: State, err: Option<GoError>, events: seq<Event>, ignored: string -> bool)
    requires InHandIsThere(s) && StorageRun(events, err.None?) && !StopsRelayer(err)
    requires t.core.maps.statuses.Keys == s.core.maps.statuses.Keys
    requires if err.None? then MatchDone(s, t) else t.pc.Idle?
    ensures MatchHandled(s, t, err, events, ignored)
  {
    StorageRunEnds(events, err.None?, ignored);
  }

  lemma SubmittedIsHandled(
    s: State, u: State, t: State, err: Option<GoError>, taken: seq<Event>, more: seq<Event>, ignored: string -> bool)
    requires StorageRun(taken, true) && HoldsMatch(s, u) && HeldSubmitted(u, t, err, more, ignored)
    requires u.core.maps.statuses.Keys == s.core.maps.statuses.Keys
    ensures MatchHandled(s, t, err, taken + more, ignored)
  {
    StorageRunEnds(taken, true, ignored);
    EndedLater(taken, err, more, ignored);
    EventsJoin(taken, more, ignored);
    if err.None? { OnwardIsTransitive(s, u, t); }
  }

  /** The match in hand in `first` is held now, and gets submitted. */
  method SubmitTaken(w: World, ghost first: State, ghost taken: seq<Event>, ignored: string -> bool, now: int)
    returns (err: Option<GoError>, ghost more: seq<Event>)
    requires w.Valid() && w.me == RelayLoop && HoldsMatch(first, w.s) && StorageRun(taken, true)
    requires w.s.core.maps.statuses.Keys == first.core.maps.statuses.Keys
    modifies w
    ensures w.Valid() && old(w.trace) <= w.trace && |w.others| <= |old(w.others)| && w.log == old(w.log) + more
    ensures w.s.matches.Keys == old(w.s).matches.Keys
    ensures MatchHandled(first, w.s, err, taken + more, ignored)
    ensures err.None? && old(w.others) == [] ==> w.s.pc.pass.fetched == old(w.s).pc.pass.fetched
  {
    err, more := SubmitHeld(w, ignored, now);
    SubmittedIsHandled(first, old(w.s), w.s, err, taken, more, ignored);
  }

  /** Takes a delivered match, and is done with it if it has a record. */
  method SkipOrHold(w: World, ghost ignored: string -> bool) returns (err: Option<GoError>, ghost events: seq<Event>)
    requires w.Valid() && w.me == RelayLoop && w.s.pc.Looping? && w.s.pc.pass.pos < w.s.pc.pass.fetched
    modifies w
    ensures w.Valid() && old(w.trace) <= w.trace && w.log == old(w.log) + events
    ensures |w.others| <= |old(w.others)| && (err.None? && old(w.others) != [] ==> |w.others| < |old(w.others)|)
    ensures w.s.matches.Keys == old(w.s).matches.Keys
    ensures w.s.core.maps.statuses.Keys == old(w.s).core.maps.statuses.Keys
    ensures if w.s.pc.Submitting? then err.None? && HoldsMatch(old(w.s), w.s) && StorageRun(events, true)
            else MatchHandled(old(w.s), w.s, err, events, ignored)
    ensures err.None? && old(w.others) == [] ==> w.s.pc.pass.fetched == old(w.s).pc.pass.fetched
  {
    ghost var first := w.s;
    assert InHandIsThere(first) by { WorldInv(w); }
    err, events := TakeMatch(w);
    if !w.s.pc.Submitting? { SkippedIsHandled(first, w.s, err, events, ignored); }
  }

  /** Handles one delivered match. If it has a record, it is skipped; otherwise the chain is asked for it, once, and the
      status that goes with the answer is stored. */
  method HandleMatch(w: World, ignored: string -> bool, now: int)
    returns (err: Option<GoError>, ghost events: seq<Event>)
    requires w.Valid() && w.me == RelayLoop && w.s.pc.Looping? && w.s.pc.pass.pos < w.s.pc.pass.fetched
    modifies w
    ensures w.Valid() && old(w.trace) <= w.trace && w.log == old(w.log) + events
    ensures |w.others| <= |old(w.others)| && (err.None? && old(w.others) != [] ==> |w.others| < |old(w.others)|)
    ensures w.s.matches.Keys == old(w.s).matches.Keys
    ensures MatchHandled(old(w.s), w.s, err, events, ignored)
    ensures err.None? && old(w.others) == [] ==> w.s.pc.pass.fetched == old(w.s).pc.pass.fetched
  {
    ghost var first := w.s;
    err, events := SkipOrHold(w, ignored);
    if w.s.pc.Submitting? {
      ghost var taken := events;
      ghost var more;
      err, more := SubmitTaken(w, first, taken, ignored, now);
      Append(old(w.log), taken, more);
      events := taken + more;
    }
  }

  lemma SubmissionEnds(
    inner: Option<GoError>, err: Option<GoError>, job: Sub.Job, reply: Reply, events: seq<Event>,
    ignored: string -> bool)
    requires SubmissionRun(job, reply, inner.None?, events, ignored)
    requires inner.Some? && AsCritical(inner.value) <==> Fatal(reply, ignored)
    requires err == if inner.Some? then Some(Wrapped("failed to process txs", inner.value)) else None
    ensures Ended(err, events, ignored) && Tried(events) == {job.Key()} && events != []
    ensures forall e :: e in events && e.Answered? ==> e == Answered(job, reply)
    ensures err.None? ==> !reply.NoHeaders?
  {
    assert events[0] == Answered(job, reply);
    assert inner.Some? ==> Fails(events[|events| - 1], ignored);
    assert events[0] in events;
  }

  // ----- the whole pass -----

  predicate Drained(s: State) {
    s.pc.Looping? && s.pc.pass.fetched <= s.pc.pass.pos && !s.pc.pass.search.Running?
  }

  /** Waits for the search. When nothing will happen any more, the search's next request fails. */
  method AwaitMatch(w: World)
    requires w.Valid() && w.me == RelayLoop && w.s.pc.Looping? && PassedRecorded(w.s)
    requires w.s.pc.pass.fetched <= w.s.pc.pass.pos && w.s.pc.pass.search.Running?
    modifies w
    ensures w.Valid() && old(w.trace) <= w.trace && w.s.matches.Keys == old(w.s).matches.Keys && w.log == old(w.log)
    ensures w.s.core.maps.statuses.Keys == old(w.s).core.maps.statuses.Keys
    ensures w.s.pc.Looping? && Onward(old(w.s), w.s) && PassedRecorded(w.s)
    ensures |w.others| < |old(w.others)| || (w.others == [] && Drained(w.s))
  {
    ghost var before := w.s;
    assert before.pc.pass.pos <= |Matches(before, before.pc.pass.query)| && before.pc.pass.pos <= before.pc.pass.fetched
    by { WorldInv(w); }
    if w.others == [] {
      w.Starve(w.s.pc.pass.fetched);
    } else {
      Await(w);
    }
    OnwardStaysPassed(before, w.s);
  }

  /** The pass begun in s has come to t without a failure. */
  ghost predicate PassGoesWell(s: State, t: State, events: seq<Event>, ignored: string -> bool) {
    t.pc.Looping? && Onward(s, t) && PassedRecorded(t) && RecordsAdded(s, t, events) && Fine(events, ignored)
  }

  ghost predicate PassEnds(s: State, t: State, err: Option<GoError>, events: seq<Event>, ignored: string -> bool)
    requires !s.pc.Idle?
  {
    && Ended(err, events, ignored) && Tried(events) !! s.core.maps.statuses.Keys
    && (if err.None? then PassGoesWell(s, t, events, ignored) else t.pc.Idle?)
    && (EndsInRefusal(events, ignored) ==>
          var job := events[|events| - 1].job; job.query == s.pc.pass.query && LeftRetryable(t, job))
  }

  lemma OneMoreMatch(
    s: State, t: State, u: State, events: seq<Event>, err: Option<GoError>, more: seq<Event>, ignored: string -> bool)
    requires !s.pc.Idle? && PassGoesWell(s, t, events, ignored) && MatchHandled(t, u, err, more, ignored)
    ensures PassEnds(s, u, err, events + more, ignored)
  {
    FineIsNoRefusal(events, ignored);
    EndedLater(events, err, more, ignored);
    EventsJoin(events, more, ignored);
    if err.None? {
      OnwardIsTransitive(s, t, u);
      MatchDoneIsPassed(t, u);
      FineIsNoRefusal(events + more, ignored);
    } else {
      assert (events + more)[|events + more| - 1] == more[|more| - 1] && more[|more| - 1] in more;
    }
  }

  lemma WaitedInPass(s: State, t: State, u: State, events: seq<Event>, ignored: string -> bool)
    requires PassGoesWell(s, t, events, ignored) && Onward(t, u) && PassedRecorded(u) && u.pc.Looping?
    requires u.core.maps.statuses.Keys == t.core.maps.statuses.Keys
    ensures PassGoesWell(s, u, events, ignored)
  {
    OnwardIsTransitive(s, t, u);
  }

  /** Takes delivered matches until the search is closed and drained, or handling one fails; every match taken before
      has a record then. */
  method ConsumeMatches(w: World, ignored: string -> bool, now: int)
    returns (err: Option<GoError>, ghost events: seq<Event>)
    requires w.Valid() && w.me == RelayLoop && w.s.pc.Looping? && w.s.pc.pass.pos == w.s.pc.pass.start
    modifies w
    ensures w.Valid() && old(w.trace) <= w.trace && w.s.matches.Keys == old(w.s).matches.Keys
    ensures Lawful(Me.RelayLoop, w.history)
    ensures w.log == old(w.log) + events && PassEnds(old(w.s), w.s, err, events, ignored)
    ensures err.None? ==> Drained(w.s)
  {
    err, events := None, [];
    ghost var first := w.s;
    while !Drained(w.s)
      invariant w.Valid() && old(w.trace) <= w.trace && w.s.matches.Keys == old(w.s).matches.Keys
      invariant w.log == old(w.log) + events && err == None && PassGoesWell(first, w.s, events, ignored)
      decreases |w.others|, if Drained(w.s) then 0 else 1, w.s.pc.pass.fetched - w.s.pc.pass.pos
    {
      ghost var before := w.s;
      if w.s.pc.pass.pos < w.s.pc.pass.fetched {
        ghost var more;
        err, more := HandleMatch(w, ignored, now);
        OneMoreMatch(first, before, w.s, events, err, more, ignored);
        Append(old(w.log), events, more);
        events := events + more;
        if err.Some? { return; }
      } else {
        AwaitMatch(w);
        WaitedInPass(first, before, w.s, events, ignored);
      }
    }
    FineIsNoRefusal(events, ignored);
  }

  lemma CloseFacts(s: State, ok: bool)
    requires LoopInv(s) && Drained(s)
    ensures Enabled(s, Close(ok))
    ensures var t := Next(s, Close(ok));
            && t.pc.Idle? && t.matches == s.matches && t.core.maps.statuses == s.core.maps.statuses
            && (s.pc.pass.search.Broken? ==> t.core.maps.heights == s.core.maps.heights)
            && (!s.pc.pass.search.Broken? && (WritesAtClose(s) ==> ok) ==> ClosedAt(s, t))
  {
  }

  /** The stored height after a pass: that of the last match gone through, or unchanged if there was none. */
  ghost predicate ClosedAt(s: State, t: State) {
    && !s.pc.Idle?
    && var p, txs := s.pc.pass, Matches(s, s.pc.pass.query);
    && p.start <= p.pos <= |txs| && SplitsAt(txs, p.floor, p.start)
    && Stored(t, p.query) == if p.start < p.pos then txs[p.pos - 1].height else p.floor
  }

  /** The searcher has closed the channel: its error is looked at first, then the last block is marked as finished. */
  method FinishSearch(w: World) returns (err: Option<GoError>, ghost events: seq<Event>)
    requires w.Valid() && w.me == RelayLoop && Drained(w.s)
    modifies w
    ensures w.Valid() && w.s.pc.Idle? && w.log == old(w.log) + events
    ensures exists ok :: w.trace == old(w.trace) + [Close(ok)]
    ensures w.s.matches == old(w.s).matches && w.s.core.maps.statuses == old(w.s).core.maps.statuses
    ensures StorageRun(events, err.None? || old(w.s).pc.pass.search.Broken?)
    ensures err.None? ==> !old(w.s).pc.pass.search.Broken?
    ensures err.Some? ==> err.value.Wrapped? && !AsCritical(err.value)
    ensures old(w.s).pc.pass.search.Broken? ==> events == [] && w.s.core.maps.heights == old(w.s).core.maps.heights
    ensures err.None? ==> ClosedAt(old(w.s), w.s)
  {
    ghost var drained := w.s;
    var broken, ok := w.s.pc.pass.search.Broken?, true;
    events := [];
    if WritesAtClose(w.s) {
      ok := w.StorageAnswers();
      events := [Storage(ok)];
    }
    CloseFacts(drained, ok) by { WorldInv(w); }
    w.Step(Close(ok));
    if broken {
      err := Some(Wrapped("failed to query txs", Plain("could not query new transactions to proof")));
    } else if !ok {
      err := Some(Wrapped("failed to save last height of query", Plain("storage")));
    } else {
      err := None;
    }
  }

  /** What a pass that is closed without an error has achieved: every match it was delivered has a record, the stored
      height is that of the last one, and unless the search was cancelled these are all the matches there were first. */
  ghost predicate PassAchieved(s: State, t: State, p: Pass) {
    && !p.search.Running? && !p.search.Broken?
    && var txs := Matches(t, p.query);
    && p.start <= p.pos <= |txs| && SplitsAt(txs, p.floor, p.start)
    && (forall i :: p.start <= i < p.pos ==> TxKey(p.query, txs[i].hash) in t.core.maps.statuses)
    && Stored(t, p.query) == (if p.start < p.pos then txs[p.pos - 1].height else p.floor)
    && (p.search.Complete? ==> |Matches(s, p.query)| <= p.pos)
  }

  /** The actions end with the close of a pass; this is the pass. */
  ghost function ClosedPass(s: State, actions: seq<Action>): Option<Pass>
    requires Protocol.Valid(s, actions)
  {
    if actions == [] || !actions[|actions| - 1].Close? then None
    else Some(Exec(s, actions[..|actions| - 1]).pc.pass)
  }

  /** Nothing went wrong: no answer is a failure, the starting height is known, the filter can be read, and the search
      was not broken off. */
  ghost predicate Unhindered(
    s: State, actions: seq<Action>, events: seq<Event>, task: Task, offset: Uint64, ignored: string -> bool)
    requires Protocol.Valid(s, actions) && task.TxTask?
  {
    && Fine(events, ignored)
    && !NoLatest(s, task.query, offset, task.latest)
    && !Unreadable(task.filter)
    && (ClosedPass(s, actions).Some? ==> !ClosedPass(s, actions).value.search.Broken?)
  }

  /** What handling a TX task from s did: its actions, and what the world answered meanwhile. */
  ghost predicate TxOutcome(
    s: State, actions: seq<Action>, events: seq<Event>, task: Task, offset: Uint64, ignored: string -> bool)
    requires task.TxTask?
  {
    && Protocol.Valid(s, actions)
    && var t := Exec(s, actions);
    && t.pc.Idle? && Tried(events) !! s.core.maps.statuses.Keys  // nothing that has a record is submitted again
    && (Unhindered(s, actions, events, task, offset, ignored) ==>
          && ClosedPass(s, actions).Some?
          && var p := ClosedPass(s, actions).value;
          && p.query == task.query && p.floor == FirstFloor(s, task.query, offset, task.latest)
          && PassAchieved(s, t, p) && RecordsAdded(s, t, events))
    && (!Fine(events, ignored) ==> EndsInFailure(events, ignored))
    && (EndsInRefusal(events, ignored) ==>
          var job := events[|events| - 1].job; job.query == task.query && LeftRetryable(t, job))
  }

  datatype Task =
    | KvTask(query: Uint64)
    // the filter, if it can be decoded, and the target chain's latest height, if it can be asked for
    | TxTask(query: Uint64, filter: Option<seq<TxFilter.Row>>, latest: Option<Uint64>)
    | UnknownTask(query: Uint64)

  lemma DropFirst(before: seq<Action>, trace: seq<Action>, a: Action)
    requires before <= trace
    ensures var actions := (trace + [a])[|before|..];
            actions != [] && actions[|actions| - 1] == a && actions[..|actions| - 1] == trace[|before|..]
  {
  }

  lemma EndsWithClose(s: State, actions: seq<Action>, front: seq<Action>, t: State)
    requires actions != [] && actions[|actions| - 1].Close? && actions[..|actions| - 1] == front
    requires Protocol.Valid(s, actions) && Protocol.Valid(s, front) && Exec(s, front) == t && !t.pc.Idle?
    ensures ClosedPass(s, actions) == Some(t.pc.pass)
  {
  }

  /** A run, cut after `before`, and then the close of a pass. */
  lemma ClosesPass(start: State, before: seq<Action>, trace: seq<Action>, actions: seq<Action>, a: Action)
    requires Protocol.Valid(start, trace) && before <= trace && !Exec(start, trace).pc.Idle? && a.Close?
    requires Protocol.Valid(start, before) && Protocol.Valid(Exec(start, before), actions)
    requires actions == (trace + [a])[|before|..]
    ensures ClosedPass(Exec(start, before), actions) == Some(Exec(start, trace).pc.pass)
  {
    DropFirst(before, trace, a);
    RunContinues(start, before, trace);
    EndsWithClose(Exec(start, before), actions, trace[|before|..], Exec(start, trace));
  }

  /** A drained pass that is closed without an error has achieved what it should. */
  lemma ClosedIsAchieved(
    s: State, begun: State, u: State, t: State, events: seq<Event>, last: seq<Event>, ignored: string -> bool)
    requires s.matches == begun.matches && s.core.maps.statuses == begun.core.maps.statuses
    requires begun.pc.Looping? && begun.pc.pass.search.Running?
    requires PassGoesWell(begun, u, events, ignored) && Drained(u) && !u.pc.pass.search.Broken? && Tried(last) == {}
    requires ClosedAt(u, t) && t.matches == u.matches && t.core.maps.statuses == u.core.maps.statuses
    ensures PassAchieved(s, t, u.pc.pass) && RecordsAdded(s, t, events + last)
  {
    EventsJoin(events, last, ignored);
  }

  lemma UnbuiltOutcome(
    s: State, actions: seq<Action>, events: seq<Event>, task: Task, offset: Uint64, ignored: string -> bool)
    requires task.TxTask? && Protocol.Valid(s, actions) && Exec(s, actions).pc.Idle?
    requires || StorageRun(events, false)
             || (StorageRun(events, true) && (NoLatest(s, task.query, offset, task.latest) || Unreadable(task.filter)))
    ensures TxOutcome(s, actions, events, task, offset, ignored) && !EndsInRefusal(events, ignored)
    ensures !Unhindered(s, actions, events, task, offset, ignored)
  {
    if StorageRun(events, false) {
      StorageRunEnds(events, false, ignored);
    } else {
      StorageRunEnds(events, true, ignored);
    }
  }

  lemma StoppedOutcome(
    s: State, actions: seq<Action>, begun: State, first: seq<Event>, err: Option<GoError>, more: seq<Event>,
    task: Task, offset: Uint64, ignored: string -> bool)
    requires task.TxTask? && Protocol.Valid(s, actions) && StorageRun(first, true)
    requires begun.pc.Looping? && begun.pc.pass.query == task.query
    requires s.core.maps.statuses == begun.core.maps.statuses
    requires err.Some? && PassEnds(begun, Exec(s, actions), err, more, ignored)
    ensures TxOutcome(s, actions, first + more, task, offset, ignored)
    ensures !Unhindered(s, actions, first + more, task, offset, ignored)
    ensures StopsRelayer(err) <==> EndsInRefusal(first + more, ignored)
  {
    StorageRunEnds(first, true, ignored);
    EndedLater(first, err, more, ignored);
    EventsJoin(first, more, ignored);
    assert (first + more)[|first + more| - 1] == more[|more| - 1];
  }

  /** What the query is known to have when its search begins in `begun`, after its string was built since s. */
  ghost predicate WellBegun(s: State, begun: State, task: Task, offset: Uint64)
    requires task.TxTask?
  {
    && !NoLatest(s, task.query, offset, task.latest) && !Unreadable(task.filter)
    && s.matches == begun.matches && s.core.maps.statuses == begun.core.maps.statuses
    && begun.pc.Looping? && begun.pc.pass.search.Running? && begun.pc.pass.query == task.query
    && begun.pc.pass.floor == FirstFloor(s, task.query, offset, task.latest)
  }

  lemma JoinedPassEvents(first: seq<Event>, more: seq<Event>, last: seq<Event>, stored: bool, ignored: string -> bool)
    requires StorageRun(first, true) && Fine(more, ignored) && StorageRun(last, stored)
    ensures var events := first + more + last;
            && (Fine(events, ignored) <==> stored) && (!stored ==> EndsInFailure(events, ignored))
            && !EndsInRefusal(events, ignored) && Tried(events) == Tried(more) && Tried(last) == {}
    ensures Tried(more + last) == Tried(more)
  {
    StorageRunEnds(first, true, ignored);
    StorageRunEnds(last, stored, ignored);
    EventsJoin(first, more, ignored);
    EventsJoin(first + more, last, ignored);
    EventsJoin(more, last, ignored);
    FineIsNoRefusal(first + more, ignored);
    if last == [] { assert first + more + last == first + more; }
  }

  /** The last part of the pass: from `begun`, when the search began, over u, when it was drained, to the close. */
  lemma ClosedOutcome(
    s: State, actions: seq<Action>, begun: State, u: State, first: seq<Event>, more: seq<Event>, last: seq<Event>,
    ok: bool, task: Task, offset: Uint64, ignored: string -> bool)
    requires task.TxTask? && Protocol.Valid(s, actions)
    requires Drained(u) && ClosedPass(s, actions) == Some(u.pc.pass)
    requires WellBegun(s, begun, task, offset) && StorageRun(first, true) && PassGoesWell(begun, u, more, ignored)
    requires StorageRun(last, ok || u.pc.pass.search.Broken?) && (ok ==> !u.pc.pass.search.Broken?)
    requires var t := Exec(s, actions);
             && t.pc.Idle? && t.matches == u.matches && t.core.maps.statuses == u.core.maps.statuses
             && (ok ==> ClosedAt(u, t))
    ensures TxOutcome(s, actions, first + more + last, task, offset, ignored)
    ensures Unhindered(s, actions, first + more + last, task, offset, ignored) <==> ok
    ensures !EndsInRefusal(first + more + last, ignored)
  {
    StorageRunEnds(first, true, ignored);
    JoinedPassEvents(first, more, last, ok || u.pc.pass.search.Broken?, ignored);
    if ok { ClosedIsAchieved(s, begun, u, Exec(s, actions), more, last, ignored); }
  }

  /** One pass over the search results of a TX query. Whatever the other actors do meanwhile, it only takes steps of the
      relayer's machine. There is no error exactly when nothing went wrong, and then the pass has achieved what it
      should; the error stops the relayer exactly when the chain refused a submission with an error not ignored. */
  method ProcessMessageTX(w: World, task: Task, offset: Uint64, ignored: string -> bool, now: int)
    returns (err: Option<GoError>, ghost events: seq<Event>)
    requires w.Valid() && w.me == RelayLoop && w.s.pc.Idle? && task.TxTask? && task.query in w.s.matches
    modifies w
    ensures w.Valid() && w.s.pc.Idle? && old(w.trace) <= w.trace && w.log == old(w.log) + events
    ensures Lawful(Me.RelayLoop, w.history)
    ensures w.s.matches.Keys == old(w.s).matches.Keys
    ensures TxOutcome(old(w.s), w.trace[|old(w.trace)|..], events, task, offset, ignored)
    ensures err.None? <==> Unhindered(old(w.s), w.trace[|old(w.trace)|..], events, task, offset, ignored)
    ensures StopsRelayer(err) <==> EndsInRefusal(events, ignored)
  {
    ghost var s, before := w.s, w.trace;
    var text;
    err, text, events := BuildTxQuery(w, task.query, task.filter, offset, task.latest);
    if err.Some? {
      RunSince(w, before);
      UnbuiltOutcome(s, w.trace[|before|..], events, task, offset, ignored);
      return Some(Wrapped("failed to build tx query string", err.value)), events;
    }
    ghost var more;
    err, more := SearchAndSubmit(w, s, before, events, task, text, offset, ignored, now);
    Append(old(w.log), events, more);
    events := events + more;
  }

  /** The pass itself, from its search on. The query string was built since s, when the trace was `before`. */
  method SearchAndSubmit(
    w: World, ghost s: State, ghost before: seq<Action>, ghost first: seq<Event>, task: Task, text: string,
    offset: Uint64, ignored: string -> bool, now: int)
    returns (err: Option<GoError>, ghost events: seq<Event>)
    requires w.Valid() && w.me == RelayLoop && w.s.pc.Idle?
    requires before <= w.trace && Protocol.Valid(w.start, before) && s == Exec(w.start, before)
    requires task.TxTask? && task.query in w.s.matches && task.query in w.s.core.maps.heights
    requires !NoLatest(s, task.query, offset, task.latest) && !Unreadable(task.filter)
    requires text == TxFilter.SearchString(task.filter.value, Stored(w.s, task.query))
    requires s.matches == w.s.matches && s.core.maps.statuses == w.s.core.maps.statuses
    requires StorageRun(first, true) && Stored(w.s, task.query) == FirstFloor(s, task.query, offset, task.latest)
    modifies w
    ensures w.Valid() && w.s.pc.Idle? && old(w.trace) <= w.trace && w.log == old(w.log) + events
    ensures w.s.matches.Keys == old(w.s).matches.Keys
    ensures TxOutcome(s, w.trace[|before|..], first + events, task, offset, ignored)
    ensures err.None? <==> Unhindered(s, w.trace[|before|..], first + events, task, offset, ignored)
    ensures StopsRelayer(err) <==> EndsInRefusal(first + events, ignored)
  {
    ghost var begun;
    err, begun, events := ConsumeSearch(w, s, task, text, offset, ignored, now);
    if err.Some? {
      RunSince(w, before);
      StoppedOutcome(s, w.trace[|before|..], begun, first, err, events, task, offset, ignored);
      return;
    }
    ghost var consumed, last := events, [];
    err, last := CloseSearch(w, s, before, begun, first, consumed, task, offset, ignored);
    Append(old(w.log), consumed, last);
    Append(first, consumed, last);
    events := consumed + last;
  }

  /** The search begins, in `begun`, and its matches are consumed. */
  method ConsumeSearch(
    w: World, ghost s: State, task: Task, text: string, ghost offset: Uint64, ignored: string -> bool, now: int)
    returns (err: Option<GoError>, ghost begun: State, ghost events: seq<Event>)
    requires w.Valid() && w.me == RelayLoop && w.s.pc.Idle?
    requires task.TxTask? && task.query in w.s.matches && task.query in w.s.core.maps.heights
    requires !NoLatest(s, task.query, offset, task.latest) && !Unreadable(task.filter)
    requires text == TxFilter.SearchString(task.filter.value, Stored(w.s, task.query))
    requires s.matches == w.s.matches && s.core.maps.statuses == w.s.core.maps.statuses
    requires Stored(w.s, task.query) == FirstFloor(s, task.query, offset, task.latest)
    modifies w
    ensures w.Valid() && old(w.trace) <= w.trace && w.log == old(w.log) + events
    ensures w.s.matches.Keys == old(w.s).matches.Keys
    ensures WellBegun(s, begun, task, offset) && PassEnds(begun, w.s, err, events, ignored)
    ensures err.None? ==> Drained(w.s)
  {
    BeginSearch(w, task.query, task.filter.value, text);
    begun := w.s;
    err, events := ConsumeMatches(w, ignored, now);
  }

  /** The drained pass is closed. */
  method CloseSearch(
    w: World, ghost s: State, ghost before: seq<Action>, ghost begun: State, ghost first: seq<Event>,
    ghost consumed: seq<Event>, task: Task, ghost offset: Uint64, ghost ignored: string -> bool)
    returns (err: Option<GoError>, ghost last: seq<Event>)
    requires w.Valid() && w.me == RelayLoop && Drained(w.s) && before <= w.trace
    requires Protocol.Valid(w.start, before) && s == Exec(w.start, before)
    requires task.TxTask? && WellBegun(s, begun, task, offset)
    requires StorageRun(first, true) && PassGoesWell(begun, w.s, consumed, ignored)
    modifies w
    ensures w.Valid() && w.s.pc.Idle? && old(w.trace) <= w.trace && w.log == old(w.log) + last
    ensures w.s.matches == old(w.s).matches
    ensures TxOutcome(s, w.trace[|before|..], first + consumed + last, task, offset, ignored)
    ensures err.None? <==> Unhindered(s, w.trace[|before|..], first + consumed + last, task, offset, ignored)
    ensures !StopsRelayer(err) && !EndsInRefusal(first + consumed + last, ignored)
  {
    ghost var drained, trace := w.s, w.trace;
    err, last := FinishSearch(w);
    RunSince(w, before);
    ghost var ok :| w.trace == trace + [Close(ok)];
    ClosesPass(w.start, before, trace, w.trace[|before|..], Close(ok));
    ClosedOutcome(s, w.trace[|before|..], begun, drained, first, consumed, last, err.None?, task, offset, ignored);
  }

  // ----- Run -----

  /** Tasks of other kinds submit nothing here. */
  ghost predicate Handled(leg: Leg, task: Task, offset: Uint64, ignored: string -> bool) {
    && IsRun(leg)
    && if task.TxTask? then TxOutcome(leg.before, leg.actions, leg.events, task, offset, ignored) else leg.events == []
  }

  /** From s to t the tasks were handled, one leg each, and no submission was refused with an error not ignored. */
  ghost predicate TasksHandled(
    s: State, legs: seq<Leg>, t: State, tasks: seq<Task>, offset: Uint64, ignored: string -> bool)
    decreases |legs|
  {
    if legs == [] then s == t && tasks == []
    else
      var n := |legs| - 1;
      && |tasks| == |legs| && legs[n].after == t
      && TasksHandled(s, legs[..n], legs[n].before, tasks[..n], offset, ignored)
      && Handled(legs[n], tasks[n], offset, ignored) && !EndsInRefusal(legs[n].events, ignored)
  }

  lemma OneMoreTask(
    s: State, legs: seq<Leg>, leg: Leg, tasks: seq<Task>, n: nat, offset: Uint64, ignored: string -> bool)
    requires n < |tasks| && TasksHandled(s, legs, leg.before, tasks[..n], offset, ignored)
    requires Handled(leg, tasks[n], offset, ignored) && !EndsInRefusal(leg.events, ignored)
    ensures TasksHandled(s, legs + [leg], leg.after, tasks[..n + 1], offset, ignored)
  {
    assert (legs + [leg])[..|legs|] == legs && tasks[..n + 1][..n] == tasks[..n];
  }

  method HandleTask(w: World, task: Task, offset: Uint64, ignored: string -> bool, now: int)
    returns (err: Option<GoError>, ghost leg: Leg)
    requires w.Valid() && w.me == RelayLoop && w.s.pc.Idle? && (task.TxTask? ==> task.query in w.s.matches)
    modifies w
    ensures w.Valid() && w.s.pc.Idle? && w.s.matches.Keys == old(w.s).matches.Keys
    ensures w.trace == old(w.trace) + leg.actions && w.log == old(w.log) + leg.events
    ensures leg.before == old(w.s) && leg.after == w.s && Handled(leg, task, offset, ignored)
    ensures StopsRelayer(err) <==> EndsInRefusal(leg.events, ignored)
    ensures !task.TxTask? ==> !StopsRelayer(err)
  {
    ghost var s, before, events := w.s, w.trace, [];
    if task.TxTask? {
      err, events := ProcessMessageTX(w, task, offset, ignored, now);
    } else {
      w.Others();  // KV work and the rejection of unknown types touch no TX query
      err := None;
    }
    RunSince(w, before);
    leg := Leg(s, w.trace[|before|..], events, w.s);
    assert w.trace == before + leg.actions;
  }

  /** The relayer works through its tasks, each handled as TxOutcome says. It ends with an error exactly when the chain
      refuses a submission of a TX task with an error that is not ignored, at that task, and leaves the refused
      transaction retryable. Any other failure is only logged. */
  method Run(w: World, tasks: seq<Task>, offset: Uint64, ignored: string -> bool, now: int)
    returns (err: Option<GoError>, ghost legs: seq<Leg>, ghost last: Leg)
    requires w.Valid() && w.me == RelayLoop && w.s.pc.Idle?
    requires forall t :: t in tasks && t.TxTask? ==> t.query in w.s.matches
    modifies w
    ensures w.Valid() && Lawful(Me.RelayLoop, w.history) && w.s.pc.Idle?
    ensures err.None? ==>
              && TasksHandled(old(w.s), legs, w.s, tasks, offset, ignored)
              && w.trace == old(w.trace) + ActionsOf(legs) && w.log == old(w.log) + EventsOf(legs)
    ensures err.Some? ==>
              && |legs| < |tasks| && TasksHandled(old(w.s), legs, last.before, tasks[..|legs|], offset, ignored)
              && tasks[|legs|].TxTask? && Handled(last, tasks[|legs|], offset, ignored) && last.after == w.s
              && EndsInRefusal(last.events, ignored)
              && w.trace == old(w.trace) + ActionsOf(legs) + last.actions
              && w.log == old(w.log) + EventsOf(legs) + last.events
  {
    ghost var s := w.s;
    legs, last := [], Leg(w.s, [], [], w.s);
    var done := 0;
    while done < |tasks|
      invariant w.Valid() && w.s.pc.Idle? && w.s.matches.Keys == s.matches.Keys
      invariant |legs| == done <= |tasks| && TasksHandled(s, legs, w.s, tasks[..done], offset, ignored)
      invariant w.trace == old(w.trace) + ActionsOf(legs) && w.log == old(w.log) + EventsOf(legs)
    {
      assert tasks[done] in tasks;
      err, last := HandleTask(w, tasks[done], offset, ignored, now);
      if StopsRelayer(err) { return; }
      OneMoreTask(s, legs, last, tasks, done, offset, ignored);
      OneMoreLeg(legs, last, old(w.trace), old(w.log));
      legs := legs + [last];
      done := done + 1;
    }
    assert tasks[..done] == tasks;
    err := None;
  }

  /** So a run that was not stopped had no refusal with an error that is not ignored, in any task. */
  lemma {:induction false} UnstoppedHadNoRefusal(
    s: State, legs: seq<Leg>, t: State, tasks: seq<Task>, offset: Uint64, ignored: string -> bool)
    requires TasksHandled(s, legs, t, tasks, offset, ignored)
    ensures forall e :: e in EventsOf(legs) && e.Answered? ==> !Fatal(e.reply, ignored)
    decreases |legs|
  {
    if legs != [] {
      var n := |legs| - 1;
      UnstoppedHadNoRefusal(s, legs[..n], legs[n].before, tasks[..n], offset, ignored);
      if tasks[n].TxTask? { UnrefusedHadNoRefusal(legs[n].events, ignored); }
    }
  }

  lemma UnrefusedHadNoRefusal(events: seq<Event>, ignored: string -> bool)
    requires (Fine(events, ignored) || EndsInFailure(events, ignored)) && !EndsInRefusal(events, ignored)
    ensures forall e :: e in events && e.Answered? ==> !Fatal(e.reply, ignored)
  {
    forall i | 0 <= i < |events| && events[i].Answered? ensures !Fatal(events[i].reply, ignored) {
      var failed := Fails(events[i], ignored);
      if i < |events| - 1 && EndsInFailure(events, ignored) { assert events[..|events| - 1][i] == events[i]; }
    }
  }
}

/** The submission of transactions as the program runs it, each storage call one step of the run. */
module TxProcessor {
  import opened Decimal
  import opened Records
  import opened Protocol
  import opened World
  import opened Watermark
  import opened AtMostOnce
  import opened Lifecycle
  import Sub = Submissions

  /** Go errors: plain, wrapped with %w, or the critical submission error, which wraps nothing. */
  datatype GoError =
    | Plain(text: string)
    | Wrapped(text: string, inner: GoError)
    | SubmitTxProofCritical(details: string)

  function Unwrap(e: Option<GoError>): Option<GoError> {
    if e.Some? && e.value.Wrapped? then Some(e.value.inner) else None
  }

  /** errors.As for the critical error: somewhere down the chain of wrapped errors. */
  predicate AsCritical(e: GoError) {
    match e
    case Plain(_) => false
    case Wrapped(_, inner) => AsCritical(inner)
    case SubmitTxProofCritical(_) => true
  }

  /** The test Run makes on what processMessageTX returned. */
  predicate StopsRelayer(e: Option<GoError>) {
    Unwrap(e).Some? && AsCritical(Unwrap(e).value)
  }

  /** What the invariants say about the state an actor's code sees. */
  lemma WorldInv(w: World)
    requires w.Valid()
    ensures LoopInv(w.s) && Inv(w.s.core) && JobsPlaced(w.s.core)
  {
    ReachedInv(w.start, w.trace, w.s);
  }

  // ----- what the world answered -----

  /** The chain refused with an error that is not ignored. */
  predicate Fatal(reply: Reply, ignored: string -> bool) {
    reply.RefusedByChain? && !ignored(reply.message)
  }

  predicate Fails(e: Event, ignored: string -> bool) {
    match e
    case Storage(ok) => !ok
    case Answered(_, reply) => reply.NoHeaders? || Fatal(reply, ignored)
  }

  predicate Fine(events: seq<Event>, ignored: string -> bool) {
    forall i :: 0 <= i < |events| ==> !Fails(events[i], ignored)
  }

  /** All went well up to the last answer, which was a failure. */
  predicate EndsInFailure(events: seq<Event>, ignored: string -> bool) {
    events != [] && Fine(events[..|events| - 1], ignored) && Fails(events[|events| - 1], ignored)
  }

  predicate EndsInRefusal(events: seq<Event>, ignored: string -> bool) {
    events != [] && events[|events| - 1].Answered? && Fatal(events[|events| - 1].reply, ignored)
  }

  /** The transactions for which the chain was asked. */
  function Tried(events: seq<Event>): set<TxKey> {
    set e | e in events && e.Answered? :: e.job.Key()
  }

  lemma EventsJoin(a: seq<Event>, b: seq<Event>, ignored: string -> bool)
    ensures Fine(a + b, ignored) <==> Fine(a, ignored) && Fine(b, ignored)
    ensures Fine(a, ignored) && EndsInFailure(b, ignored) ==> EndsInFailure(a + b, ignored)
    ensures b != [] ==> (EndsInRefusal(a + b, ignored) <==> EndsInRefusal(b, ignored))
    ensures Tried(a + b) == Tried(a) + Tried(b)
  {
    assert Fine(a + b, ignored) ==> Fine(b, ignored) by {
      forall i | Fine(a + b, ignored) && 0 <= i < |b| ensures !Fails(b[i], ignored) {
        assert (a + b)[|a| + i] == b[i];
      }
    }
    assert Fine(a + b, ignored) ==> Fine(a, ignored) by {
      forall i | Fine(a + b, ignored) && 0 <= i < |a| ensures !Fails(a[i], ignored) {
        assert (a + b)[i] == a[i];
      }
    }
    if b != [] { assert (a + b)[..|a + b| - 1] == a + b[..|b| - 1]; }
  }

  /** An error exactly when something failed, and at once; it stops the relayer exactly when that was a refusal. */
  predicate Ended(err: Option<GoError>, events: seq<Event>, ignored: string -> bool) {
    && (err.None? <==> Fine(events, ignored))
    && (err.Some? ==> EndsInFailure(events, ignored))
    && (StopsRelayer(err) <==> EndsInRefusal(events, ignored))
  }

  lemma EndedLater(a: seq<Event>, err: Option<GoError>, b: seq<Event>, ignored: string -> bool)
    requires Fine(a, ignored) && Ended(err, b, ignored) && (b == [] ==> !EndsInRefusal(a, ignored))
    ensures Ended(err, a + b, ignored)
  {
    EventsJoin(a, b, ignored);
    if b == [] { assert a + b == a; }
  }

  lemma FineIsNoRefusal(events: seq<Event>, ignored: string -> bool)
    requires Fine(events, ignored)
    ensures !EndsInRefusal(events, ignored)
  {
  }

  /** The records that were added are those of the transactions submitted, and none of these had a record. */
  ghost predicate RecordsAdded(s: State, t: State, events: seq<Event>) {
    && t.core.maps.statuses.Keys == s.core.maps.statuses.Keys + Tried(events)
    && Tried(events) !! s.core.maps.statuses.Keys
  }

  // ----- the pass -----

  /** The pass goes on: it has not moved back, no match or record is lost, and its search has gone on. */
  ghost predicate Onward(s: State, t: State) {
    && !s.pc.Idle? && !t.pc.Idle?
    && var p, p' := s.pc.pass, t.pc.pass;
    && p'.query == p.query && p'.floor == p.floor && p'.start == p.start && p.pos <= p'.pos
    && Matches(s, p.query) <= Matches(t, p.query)
    && s.core.maps.statuses.Keys <= t.core.maps.statuses.Keys
    && SearchGoesOn(p, p', |Matches(s, p.query)|)
  }

  lemma OnwardIsTransitive(s: State, t: State, u: State)
    requires Onward(s, t) && Onward(t, u)
    ensures Onward(s, u)
  {
  }

  lemma StableIsOnward(s: State, t: State)
    requires Stable(RelayLoop, s, t) && !s.pc.Idle?
    ensures Onward(s, t) && t.pc.pass.pos == s.pc.pass.pos
  {
  }

  /** The match in hand in s is dealt with in t: it has a record, and the loop waits for the next one. */
  ghost predicate MatchDone(s: State, t: State) {
    && Onward(s, t) && t.pc.Looping? && t.pc.pass.pos == s.pc.pass.pos + 1
    && s.pc.pass.pos < |Matches(s, s.pc.pass.query)|
    && TxKey(s.pc.pass.query, InHand(s).hash) in t.core.maps.statuses
  }

  /** Every match the pass has gone through has a record. */
  ghost predicate PassedRecorded(s: State) {
    !s.pc.Idle? ==>
      var p, txs := s.pc.pass, Matches(s, s.pc.pass.query);
      forall i :: p.start <= i < p.pos && i < |txs| ==> TxKey(p.query, txs[i].hash) in s.core.maps.statuses
  }

  lemma MatchDoneIsPassed(s: State, t: State)
    requires MatchDone(s, t) && PassedRecorded(s)
    ensures PassedRecorded(t)
  {
  }

  lemma OnwardStaysPassed(s: State, t: State)
    requires Onward(s, t) && PassedRecorded(s)
    requires t.pc.pass.pos == s.pc.pass.pos <= |Matches(s, s.pc.pass.query)|
    ensures PassedRecorded(t)
  {
  }

  function ActorOf(who: Sub.Who): Me {
    match who
    case Relay => RelayLoop
    case Web(id) => Handler(id)
  }

  /** A ready job may be dropped; a dropped job of the relay loop leaves its transaction unrecorded and above the stored
      height, to be found again. */
  lemma AbandonFacts(s: State, who: Sub.Who)
    requires LoopInv(s) && JobsPlaced(s.core) && who in s.core.jobs && s.core.jobs[who].stage.Ready?
    ensures Enabled(s, Actor(Sub.Abandon(who)))
    ensures var t := Next(s, Actor(Sub.Abandon(who)));
            && who !in t.core.jobs && t.matches == s.matches
            && t.core.maps.statuses == s.core.maps.statuses
            && (who.Relay? ==> t.pc.Idle? && LeftRetryable(t, s.core.jobs[who]))
  {
    if who.Relay? {
      assert s.core.jobs[who].tx == InHand(s);
      assert s.matches[s.pc.pass.query][s.pc.pass.pos] == InHand(s);
    }
  }

  ghost predicate LeftRetryable(t: State, job: Sub.Job) {
    && job.Key() !in t.core.maps.statuses
    && Stored(t, job.query) < job.tx.height
    && job.tx in Matches(t, job.query)
  }

  lemma AcceptFacts(s: State, who: Sub.Who, n: string)
    requires LoopInv(s) && who in s.core.jobs && s.core.jobs[who].stage.Ready?
    requires n in s.core.carried ==> s.core.carried[n] == s.core.jobs[who].Key()
    ensures Enabled(s, Actor(Sub.Accept(who, n)))
    ensures InStage(s, Next(s, Actor(Sub.Accept(who, n))), who, Sub.Accepted(n))
    ensures Next(s, Actor(Sub.Accept(who, n))).core.broadcasts == s.core.broadcasts + multiset{s.core.jobs[who].Key()}
  {
  }

  lemma RefuseFacts(s: State, who: Sub.Who, message: string)
    requires LoopInv(s) && who in s.core.jobs && s.core.jobs[who].stage.Ready?
    ensures Enabled(s, Actor(Sub.Refuse(who, message)))
    ensures InStage(s, Next(s, Actor(Sub.Refuse(who, message))), who, Sub.Refused(message))
  {
  }

  /** The job has gone from ready to finished, and nothing else about its owner has changed. */
  ghost predicate InStage(s: State, t: State, who: Sub.Who, stage: Sub.Stage) {
    && who in s.core.jobs && who in t.core.jobs && !stage.Ready?
    && t.core.jobs[who] == s.core.jobs[who].(stage := stage)
    && t.pc == s.pc && t.matches == s.matches && t.core.maps == s.core.maps
  }

  /** The status that a finished submission is recorded with. */
  function SubmitInfo(reply: Reply): StatusInfo
    requires !reply.NoHeaders?
  {
    match reply
    case AcceptedByChain => StatusInfo(Submitted, "")
    case RefusedByChain(message) => StatusInfo(ErrorOnSubmit, message)
  }

  lemma StableKeepsJob(s: State, t: State, u: State, who: Sub.Who, stage: Sub.Stage)
    requires InStage(s, t, who, stage) && Stable(ActorOf(who), t, u)
    ensures who in u.core.jobs && u.core.jobs[who] == t.core.jobs[who] && u.matches.Keys == s.matches.Keys
    ensures s.core.maps.statuses.Keys <= u.core.maps.statuses.Keys && t.core.broadcasts <= u.core.broadcasts
    ensures who.Relay? ==> s.core.maps.statuses.Keys == u.core.maps.statuses.Keys
    ensures who.Relay? && s.pc.Submitting? ==> u.pc.Submitting? && Onward(s, u) && u.pc.pass.pos == s.pc.pass.pos
  {
    if who.Relay? && s.pc.Submitting? { StableIsOnward(t, u); }
  }

  ghost predicate HasStatus(s: State, k: TxKey, info: StatusInfo) {
    k in s.core.maps.statuses && s.core.maps.statuses[k] == info
  }

  /** A pending entry, and the check of it that has been handed over. */
  ghost predicate Followed(s: State, info: PendingInfo) {
    && info.neutronHash in s.core.maps.pending && s.core.maps.pending[info.neutronHash] == info
    && info in s.core.checks
  }

  ghost predicate ListedUnsuccessful(s: State, k: TxKey, status: Status, message: string) {
    && k in s.core.maps.unsuccessful
    && s.core.maps.unsuccessful[k].status == status && s.core.maps.unsuccessful[k].message == message
  }

  ghost predicate IsCached(s: State, k: TxKey, tx: Transaction) {
    k in s.core.maps.cached && s.core.maps.cached[k] == tx
  }

  /** What storing the chain's answer to a job leaves: the status, the transaction in the cache, and for an acceptance
      the pending entry with its check handed over, for a refusal the entry in the unsuccessful list. */
  ghost predicate StoredAnswer(t: State, job: Sub.Job, reply: Reply)
    requires !reply.NoHeaders?
  {
    && HasStatus(t, job.Key(), SubmitInfo(reply)) && IsCached(t, job.Key(), job.tx)
    && match reply
       case AcceptedByChain => exists n :: Followed(t, PendingInfo(job.query, job.tx.hash, n))
       case RefusedByChain(message) => ListedUnsuccessful(t, job.Key(), ErrorOnSubmit, message)
  }

  /** The same for a finished job. */
  ghost predicate StoredJob(t: State, job: Sub.Job)
    requires !job.stage.Ready?
  {
    && HasStatus(t, job.Key(), Sub.JobInfo(job)) && IsCached(t, job.Key(), job.tx)
    && (job.stage.Accepted? ==> Followed(t, Sub.TaskOf(job)))
    && (job.stage.Refused? ==> ListedUnsuccessful(t, job.Key(), ErrorOnSubmit, job.stage.message))
  }

  predicate IsStage(reply: Reply, stage: Sub.Stage) {
    match reply
    case NoHeaders => false
    case AcceptedByChain => stage.Accepted?
    case RefusedByChain(message) => stage == Sub.Refused(message)
  }

  lemma StoredJobIsAnswer(t: State, job: Sub.Job, reply: Reply, stage: Sub.Stage)
    requires IsStage(reply, stage) && StoredJob(t, job.(stage := stage))
    ensures StoredAnswer(t, job, reply)
  {
    if reply.AcceptedByChain? {
      assert Followed(t, PendingInfo(job.query, job.tx.hash, stage.neutronHash));
    }
  }

  lemma RecordIsStored(s: State, who: Sub.Who, now: int)
    requires who in s.core.jobs && !s.core.jobs[who].stage.Ready? && Enabled(s, Actor(Sub.Record(who, true, now)))
    ensures StoredJob(Next(s, Actor(Sub.Record(who, true, now))), s.core.jobs[who])
  {
  }

  lemma RecordFacts(s: State, who: Sub.Who, ok: bool, now: int)
    requires LoopInv(s) && who in s.core.jobs && !s.core.jobs[who].stage.Ready?
    ensures Enabled(s, Actor(Sub.Record(who, ok, now)))
    ensures var t := Next(s, Actor(Sub.Record(who, ok, now)));
            && who !in t.core.jobs && t.matches == s.matches && t.core.broadcasts == s.core.broadcasts
            && t.core.maps.statuses.Keys
               == (if ok then s.core.maps.statuses.Keys + {s.core.jobs[who].Key()} else s.core.maps.statuses.Keys)
            && (who.Relay? && ok ==> s.pc.Submitting? && MatchDone(s, t) && t.pc.pass.fetched == s.pc.pass.fetched)
            && (who.Relay? && !ok ==> t.pc.Idle?)
  {
  }

  method Drop(w: World, who: Sub.Who)
    requires w.Valid() && w.me == ActorOf(who) && who in w.s.core.jobs && w.s.core.jobs[who].stage.Ready?
    modifies w
    ensures w.Valid() && old(w.trace) <= w.trace && w.others == old(w.others) && w.log == old(w.log)
    ensures who !in w.s.core.jobs && w.s.matches == old(w.s).matches
    ensures w.s.core.maps.statuses == old(w.s).core.maps.statuses
    ensures Did(w.history) == Did(old(w.history)) + [Actor(Sub.Abandon(who))]
    ensures who.Relay? ==> w.s.pc.Idle? && LeftRetryable(w.s, old(w.s).core.jobs[who])
  {
    AbandonFacts(w.s, who) by { WorldInv(w); }
    w.Step(Actor(Sub.Abandon(who)));
  }

  method Accept(w: World, who: Sub.Who) returns (n: string)
    requires w.Valid() && w.me == ActorOf(who) && who in w.s.core.jobs && w.s.core.jobs[who].stage.Ready?
    modifies w
    ensures w.Valid() && old(w.trace) <= w.trace && w.others == old(w.others) && w.log == old(w.log)
    ensures Did(w.history) == Did(old(w.history)) + [Actor(Sub.Accept(who, n))]
    ensures InStage(old(w.s), w.s, who, Sub.Accepted(n))
    ensures w.s.core.broadcasts == old(w.s).core.broadcasts + multiset{old(w.s).core.jobs[who].Key()}
  {
    FreshHashExists(w.s.core.carried);
    n :| n in w.s.core.carried ==> w.s.core.carried[n] == w.s.core.jobs[who].Key();
    AcceptFacts(w.s, who, n) by { WorldInv(w); }
    w.Step(Actor(Sub.Accept(who, n)));
  }

  method Refuse(w: World, who: Sub.Who, message: string)
    requires w.Valid() && w.me == ActorOf(who) && who in w.s.core.jobs && w.s.core.jobs[who].stage.Ready?
    modifies w
    ensures w.Valid() && old(w.trace) <= w.trace && w.others == old(w.others) && w.log == old(w.log)
    ensures Did(w.history) == Did(old(w.history)) + [Actor(Sub.Refuse(who, message))]
    ensures InStage(old(w.s), w.s, who, Sub.Refused(message))
  {
    RefuseFacts(w.s, who, message) by { WorldInv(w); }
    w.Step(Actor(Sub.Refuse(who, message)));
  }

  /** How the code takes note of the chain's answer. */
  function AnswerAct(who: Sub.Who, stage: Sub.Stage): Action
    requires !stage.Ready?
  {
    Actor(if stage.Accepted? then Sub.Accept(who, stage.neutronHash) else Sub.Refuse(who, stage.message))
  }

  /** The chain's answer is in: the transaction is accepted, or refused with an error that is ignored. */
  method Answer(w: World, who: Sub.Who, reply: Reply) returns (stage: Sub.Stage)
    requires w.Valid() && w.me == ActorOf(who) && who in w.s.core.jobs && w.s.core.jobs[who].stage.Ready?
    requires !reply.NoHeaders?
    modifies w
    ensures w.Valid() && old(w.trace) <= w.trace && w.others == old(w.others) && w.log == old(w.log)
    ensures InStage(old(w.s), w.s, who, stage) && IsStage(reply, stage)
    ensures Did(w.history) == Did(old(w.history)) + [AnswerAct(who, stage)]
    ensures reply.AcceptedByChain? ==>
              w.s.core.broadcasts == old(w.s).core.broadcasts + multiset{old(w.s).core.jobs[who].Key()}
  {
    if reply.AcceptedByChain? {
      var n := Accept(w, who);
      stage := Sub.Accepted(n);
    } else {
      Refuse(w, who, reply.message);
      stage := Sub.Refused(reply.message);
    }
  }

  method Store(w: World, who: Sub.Who, now: int) returns (ok: bool)
    requires w.Valid() && w.me == ActorOf(who) && who in w.s.core.jobs && !w.s.core.jobs[who].stage.Ready?
    modifies w
    ensures w.Valid() && old(w.trace) <= w.trace && w.others == old(w.others) && w.log == old(w.log) + [Storage(ok)]
    ensures who !in w.s.core.jobs && w.s.matches == old(w.s).matches && w.s.core.broadcasts == old(w.s).core.broadcasts
    ensures w.s.core.maps.statuses.Keys
            == old(w.s).core.maps.statuses.Keys + if ok then {old(w.s).core.jobs[who].Key()} else {}
    ensures ok ==> StoredJob(w.s, old(w.s).core.jobs[who])
    ensures Did(w.history) == Did(old(w.history)) + [Actor(Sub.Record(who, ok, now))]
    ensures who.Relay? && ok ==> MatchDone(old(w.s), w.s) && w.s.pc.pass.fetched == old(w.s).pc.pass.fetched
    ensures who.Relay? && !ok ==> w.s.pc.Idle?
  {
    ok := w.StorageAnswers();
    RecordFacts(w.s, who, ok, now) by { WorldInv(w); }
    if ok { RecordIsStored(w.s, who, now); }
    w.Step(Actor(Sub.Record(who, ok, now)));
  }

  /** The submission of the job that is ready in s is over in t; if it went well, the relay loop goes on with the next
      match, and the job's record is the only one added. */
  ghost predicate SubmissionOver(s: State, t: State, who: Sub.Who, ok: bool)
    requires who in s.core.jobs
  {
    && who !in t.core.jobs && s.matches.Keys == t.matches.Keys
    && s.core.maps.statuses.Keys <= t.core.maps.statuses.Keys
    && (who.Relay? ==>
          && t.core.maps.statuses.Keys == s.core.maps.statuses.Keys + (if ok then {s.core.jobs[who].Key()} else {})
          && if ok then Onward(s, t) && t.pc.Looping? && t.pc.pass.pos == s.pc.pass.pos + 1 else t.pc.Idle?)
  }

  /** The answer to a submission comes in, and some time later its status is stored. */
  method AnswerAndStore(w: World, who: Sub.Who, reply: Reply, now: int) returns (ok: bool)
    requires w.Valid() && w.me == ActorOf(who) && who in w.s.core.jobs && w.s.core.jobs[who].stage.Ready?
    requires !reply.NoHeaders?
    requires who.Relay? ==> w.s.pc.Submitting?
    modifies w
    ensures w.Valid() && old(w.trace) <= w.trace && |w.others| <= |old(w.others)|
    ensures w.log == old(w.log) + [Storage(ok)]
    ensures SubmissionOver(old(w.s), w.s, who, ok)
    ensures ok ==> StoredAnswer(w.s, old(w.s).core.jobs[who], reply)
    ensures exists stage :: IsStage(reply, stage)
              && Did(w.history)
                 == Did(old(w.history)) + ([AnswerAct(who, stage)] + [Actor(Sub.Record(who, ok, now))])
    ensures reply.AcceptedByChain? ==>
              old(w.s).core.broadcasts + multiset{old(w.s).core.jobs[who].Key()} <= w.s.core.broadcasts
    ensures who.Relay? && ok && old(w.others) == [] ==> w.s.pc.pass.fetched == old(w.s).pc.pass.fetched
  {
    ghost var first := w.s;
    var stage := Answer(w, who, reply);
    ghost var answered := w.s;
    w.Others();
    StableKeepsJob(first, answered, w.s, who, stage);
    ghost var before := w.s;
    ok := Store(w, who, now);
    Append(Did(old(w.history)), [AnswerAct(who, stage)], [Actor(Sub.Record(who, ok, now))]);
    if ok { StoredJobIsAnswer(w.s, first.core.jobs[who], reply, stage); }
    if who.Relay? && ok { OnwardIsTransitive(first, before, w.s); }
  }

  /** The chain is asked for the job, and the storage after it unless the chain's answer is a failure. */
  predicate SubmissionRun(job: Sub.Job, reply: Reply, ok: bool, events: seq<Event>, ignored: string -> bool) {
    if Fails(Answered(job, reply), ignored) then !ok && events == [Answered(job, reply)]
    else events == [Answered(job, reply)] + [Storage(ok)]
  }

  /** The error for a submission that ends without the chain having taken note of it. */
  function SubmitError(reply: Reply): GoError
    requires !reply.AcceptedByChain?
  {
    if reply.NoHeaders? then Wrapped("failed to prepare block", Plain("failed to prepare headers"))
    else Wrapped("failed to submit block", SubmitTxProofCritical(reply.message))
  }

  /** Submits the transaction of a ready job, as both the relay loop and the resubmit handlers do. The chain is asked
      once. If it answers with anything but a refusal that is not ignored, its answer is stored; otherwise the job is
      dropped, and then, or if the storage fails, an error is returned, which is critical exactly for such a refusal. */
  method ProcessAndSubmit(w: World, who: Sub.Who, ignored: string -> bool, now: int)
    returns (err: Option<GoError>, reply: Reply, ghost events: seq<Event>)
    requires w.Valid() && w.me == ActorOf(who) && who in w.s.core.jobs && w.s.core.jobs[who].stage.Ready?
    requires who.Relay? ==> w.s.pc.Submitting?
    modifies w
    ensures w.Valid() && old(w.trace) <= w.trace && |w.others| <= |old(w.others)| && w.log == old(w.log) + events
    ensures SubmissionRun(old(w.s).core.jobs[who], reply, err.None?, events, ignored)
    ensures err.Some? && AsCritical(err.value) <==> Fatal(reply, ignored)
    ensures err.None? ==> StoredAnswer(w.s, old(w.s).core.jobs[who], reply)
    ensures if Fails(Answered(old(w.s).core.jobs[who], reply), ignored)
            then Did(w.history) == Did(old(w.history)) + [Actor(Sub.Abandon(who))]
            else exists stage :: IsStage(reply, stage)
                   && Did(w.history)
                      == Did(old(w.history)) + ([AnswerAct(who, stage)] + [Actor(Sub.Record(who, err.None?, now))])
    ensures reply.AcceptedByChain? ==>
              old(w.s).core.broadcasts + multiset{old(w.s).core.jobs[who].Key()} <= w.s.core.broadcasts
    ensures SubmissionOver(old(w.s), w.s, who, err.None?)
    ensures who.Relay? && err.None? && old(w.others) == [] ==> w.s.pc.pass.fetched == old(w.s).pc.pass.fetched
    ensures who.Relay? && Fatal(reply, ignored) ==> LeftRetryable(w.s, old(w.s).core.jobs[who])
  {
    ghost var job := w.s.core.jobs[who];
    reply := w.ChainAnswers(w.s.core.jobs[who]);
    events := [Answered(job, reply)];
    if reply.NoHeaders? || (reply.RefusedByChain? && !ignored(reply.message)) {
      Drop(w, who);
      return Some(SubmitError(reply)), reply, events;
    }
    var ok := AnswerAndStore(w, who, reply, now);
    Append(old(w.log), events, [Storage(ok)]);
    events := events + [Storage(ok)];
    err := if ok then None else Some(Wrapped("failed to submit block", Plain("failed to store tx submit status")));
  }
}

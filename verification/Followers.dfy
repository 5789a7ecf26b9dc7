/** The two actors that follow submissions up: the background checker and the HTTP resubmission handler. */
module Followers {
  import opened Decimal
  import opened Records
  import opened Protocol
  import opened World
  import opened Lifecycle
  import opened TxProcessor
  import Sub = Submissions

  // ----- the checker -----

  /** After a restart the scan finds a check to make for every transaction whose status is still Submitted. */
  lemma ScanCoversSubmitted(c: Sub.Core, k: TxKey)
    requires Inv(c) && k in c.maps.statuses && c.maps.statuses[k].status.Submitted?
    ensures exists t :: t in Sub.Next(c, Sub.Scan).checks && t.Key() == k
                        && t.neutronHash in c.maps.pending && c.maps.pending[t.neutronHash] == t
  {
    assert IsPending(c.maps, k);
    var n :| n in c.maps.pending && c.maps.pending[n].Key() == k;
    assert c.maps.pending[n] in Sub.Next(c, Sub.Scan).checks;
  }

  lemma NothingPendingNothingSubmitted(m: Maps)
    requires Consistent(m) && m.pending == map[]
    ensures forall k :: k in m.statuses ==> !m.statuses[k].status.Submitted?
  {
    forall k | k in m.statuses ensures !m.statuses[k].status.Submitted? {
      assert m.statuses[k].status.Submitted? ==> IsPending(m, k);
    }
  }

  /** The step records a submission that the chain accepted. */
  ghost predicate Submits(s: State, a: Action) {
    && a.Actor? && a.act.Record? && a.act.ok
    && a.act.who in s.core.jobs && s.core.jobs[a.act.who].stage.Accepted?
  }

  /** No accepted submission is recorded from the n-th step on. */
  ghost predicate NothingSubmitted(start: State, trace: seq<Action>, n: nat)
    requires Protocol.Valid(start, trace)
    decreases |trace|
  {
    |trace| <= n ||
    var front := trace[..|trace| - 1];
    NothingSubmitted(start, front, n) && !Submits(Exec(start, front), trace[|trace| - 1])
  }

  lemma {:induction false} NothingSubmittedWithin(
    start: State, trace: seq<Action>, n: nat, shorter: seq<Action>, m: nat)
    requires Protocol.Valid(start, trace) && NothingSubmitted(start, trace, n) && shorter <= trace && n <= m
    ensures Protocol.Valid(start, shorter) && NothingSubmitted(start, shorter, m)
    decreases |trace|
  {
    if |trace| <= n {
      RunSplits(start, trace, |shorter|);
      assert trace[..|shorter|] == shorter;
    } else if shorter != trace {
      NothingSubmittedWithin(start, trace[..|trace| - 1], n, shorter, m);
    } else if m < |trace| {
      NothingSubmittedWithin(start, trace[..|trace| - 1], n, trace[..|trace| - 1], m);
    }
  }

  lemma StepLeavesPending(s: State, a: Action)
    requires Enabled(s, a) && ByOthers(Checker, a) && !Submits(s, a)
    ensures Next(s, a).core.maps.pending == s.core.maps.pending
  {
  }

  /** Then the other actors leave the pending queue as it is. */
  lemma {:induction false} OthersLeavePending(start: State, before: seq<Action>, trace: seq<Action>)
    requires Protocol.Valid(start, trace) && before <= trace && NothingSubmitted(start, trace, |before|)
    requires forall i :: |before| <= i < |trace| ==> ByOthers(Checker, trace[i])
    ensures Protocol.Valid(start, before)
    ensures Exec(start, trace).core.maps.pending == Exec(start, before).core.maps.pending
    decreases |trace|
  {
    if before == trace {
    } else {
      var front := trace[..|trace| - 1];
      OthersLeavePending(start, before, front);
      StepLeavesPending(Exec(start, front), trace[|trace| - 1]);
    }
  }

  /** A lookup takes note of the node's answer, if there is one. */
  function LookupAct(task: PendingInfo, answers: map<string, Sub.Verdict>): Action {
    Actor(if task.neutronHash in answers then Sub.Lookup(task, answers[task.neutronHash], true)
          else Sub.LookupFails(task))
  }

  method LookUpAnswer(w: World, task: PendingInfo, answers: map<string, Sub.Verdict>) returns (answered: bool)
    requires w.Valid() && w.me == Checker && task in w.s.core.checks && w.s.core.finding.None?
    modifies w
    ensures w.Valid() && old(w.trace) <= w.trace && w.log == old(w.log)
    ensures answered == (task.neutronHash in answers)
    ensures answered ==> w.s.core.finding == Some(Sub.Finding(task, answers[task.neutronHash]))
    ensures !answered ==> w.s.core.finding.None?
    ensures w.s.core.checks == old(w.s).core.checks - {task} && w.s.core.maps == old(w.s).core.maps
    ensures Did(w.history) == Did(old(w.history)) + [LookupAct(task, answers)]
  {
    answered := task.neutronHash in answers;
    if answered {
      w.Step(Actor(Sub.Lookup(task, answers[task.neutronHash], true)));
    } else {
      w.Step(Actor(Sub.LookupFails(task)));
    }
  }

  method UpdateStatus(w: World, now: int) returns (ok: bool)
    requires w.Valid() && w.me == Checker && w.s.core.finding.Some?
    modifies w
    ensures w.Valid() && old(w.trace) <= w.trace && w.log == old(w.log) + [Storage(ok)]
    ensures w.s.core.finding.None? && w.s.core.checks == old(w.s).core.checks
    ensures w.s.core.maps == if ok then Sub.SettleFinding(old(w.s).core.maps, old(w.s).core.finding.value, now)
                             else old(w.s).core.maps
    ensures Did(w.history) == Did(old(w.history)) + [Actor(Sub.Settle(ok, now))]
  {
    ok := w.StorageAnswers();
    w.Step(Actor(Sub.Settle(ok, now)));
  }

  method PauseChecker(w: World)
    requires w.Valid() && w.me == Checker
    modifies w
    ensures w.Valid() && old(w.trace) <= w.trace && w.log == old(w.log)
    ensures w.s.core.finding == old(w.s).core.finding && old(w.s).core.checks <= w.s.core.checks
    ensures Did(w.history) == Did(old(w.history))
    ensures NothingSubmitted(w.start, w.trace, |old(w.trace)|) ==>
              w.s.core.maps.pending == old(w.s).core.maps.pending
  {
    w.Others();
    if NothingSubmitted(w.start, w.trace, |old(w.trace)|) { OthersLeavePending(w.start, old(w.trace), w.trace); }
  }

  /** The answer to the lookup, if there was one, is asked to be stored; and once it is stored, the transaction has the
      status that goes with it. */
  ghost predicate IsChecked(t: State, task: PendingInfo, answers: map<string, Sub.Verdict>, events: seq<Event>) {
    if task.neutronHash in answers
    then
      || events == [Storage(false)]
      || (events == [Storage(true)] && HasStatus(t, task.Key(), Sub.VerdictInfo(answers[task.neutronHash])))
    else events == []
  }

  /** Looks a submitted transaction up and records what became of it: Committed if the node says that it was included,
      ErrorOnCommit with its message if it was rejected. While nothing is submitted, exactly its entry leaves the
      pending queue if the lookup is answered and the answer stored; otherwise the queue stays as it is. */
  method ProcessSubmittedTx(w: World, task: PendingInfo, answers: map<string, Sub.Verdict>, now: int)
    returns (ghost events: seq<Event>)
    requires w.Valid() && w.me == Checker && task in w.s.core.checks && w.s.core.finding.None?
    modifies w
    ensures w.Valid() && old(w.trace) <= w.trace && w.s.core.finding.None? && w.log == old(w.log) + events
    ensures old(w.s).core.checks - {task} <= w.s.core.checks
    ensures IsChecked(w.s, task, answers, events)
    ensures Did(w.history)
            == Did(old(w.history))
               + ([LookupAct(task, answers)]
                  + if events == [] then [] else [Actor(Sub.Settle(events[0] == Storage(true), now))])
    ensures NothingSubmitted(w.start, w.trace, |old(w.trace)|) ==>
              w.s.core.maps.pending == if events == [Storage(true)]
                                       then old(w.s).core.maps.pending - {task.neutronHash}
                                       else old(w.s).core.maps.pending
  {
    events := [];
    var answered := LookUpAnswer(w, task, answers);
    if answered {
      ghost var looked := w.trace;
      PauseChecker(w);
      ghost var paused := w.trace;
      var ok := UpdateStatus(w, now);
      events := [Storage(ok)];
      Append(Did(old(w.history)), [LookupAct(task, answers)], [Actor(Sub.Settle(ok, now))]);
      if NothingSubmitted(w.start, w.trace, |old(w.trace)|) {
        NothingSubmittedWithin(w.start, w.trace, |old(w.trace)|, paused, |looked|);
      }
    }
  }

  lemma ScanFacts(s: State)
    requires Inv(s.core)
    ensures Enabled(s, Actor(Sub.Scan))
    ensures var t := Next(s, Actor(Sub.Scan));
            && t.core.maps == s.core.maps && t.core.finding == s.core.finding
            && forall n :: n in t.core.maps.pending ==>
                 t.core.maps.pending[n] in t.core.checks && t.core.maps.pending[n].neutronHash == n
  {
  }

  /** Reads the pending queue. Every entry is then a check to make. */
  method ReadPending(w: World) returns (ok: bool)
    requires w.Valid() && w.me == Checker && w.s.core.finding.None?
    modifies w
    ensures w.Valid() && old(w.trace) <= w.trace && w.s.core.finding.None? && w.log == old(w.log) + [Storage(ok)]
    ensures if ok then Enabled(old(w.s), Actor(Sub.Scan)) && w.s == Next(old(w.s), Actor(Sub.Scan)) else w.s == old(w.s)
    ensures w.s.core.maps == old(w.s).core.maps
    ensures w.trace == old(w.trace) + if ok then [Actor(Sub.Scan)] else []
    ensures ok ==> forall n :: n in w.s.core.maps.pending ==>
              w.s.core.maps.pending[n] in w.s.core.checks && w.s.core.maps.pending[n].neutronHash == n
  {
    ok := w.StorageAnswers();
    if ok {
      ScanFacts(w.s) by { WorldInv(w); }
      w.Step(Actor(Sub.Scan));
    }
  }

  /** The first i entries of the order are checked: of these, those without an answer are still pending. */
  ghost predicate CheckedUpTo(pending: map<string, PendingInfo>, order: seq<string>, i: nat, answered: set<string>) {
    && i <= |order|
    && (forall n :: n in pending ==> n in order)
    && (forall j :: 0 <= j < |order| ==> (order[j] in pending <==> i <= j || order[j] !in answered))
  }

  lemma OneMoreChecked(
    pending: map<string, PendingInfo>, order: seq<string>, i: nat, answered: set<string>,
    after: map<string, PendingInfo>)
    requires CheckedUpTo(pending, order, i, answered) && i < |order|
    requires forall j, k :: 0 <= j < k < |order| ==> order[j] != order[k]
    requires after == if order[i] in answered then pending - {order[i]} else pending
    ensures CheckedUpTo(after, order, i + 1, answered)
  {
  }

  /** The storage did not fail the checker. */
  predicate AllStored(events: seq<Event>) {
    forall i :: 0 <= i < |events| ==> events[i] == Storage(true)
  }

  ghost predicate ItemChecked(
    leg: Leg, n: string, listed: map<string, PendingInfo>, answers: map<string, Sub.Verdict>)
  {
    IsRun(leg) && n in listed && IsChecked(leg.after, listed[n], answers, leg.events)
  }

  /** From s to t the listed entries were checked in the given order, one leg each. */
  ghost predicate AllChecked(
    s: State, legs: seq<Leg>, t: State, order: seq<string>, listed: map<string, PendingInfo>,
    answers: map<string, Sub.Verdict>)
    decreases |legs|
  {
    if legs == [] then s == t && order == []
    else
      var n := |legs| - 1;
      && |order| == |legs| && legs[n].after == t
      && AllChecked(s, legs[..n], legs[n].before, order[..n], listed, answers)
      && ItemChecked(legs[n], order[n], listed, answers)
  }

  lemma OneMoreCheckedLeg(
    s: State, legs: seq<Leg>, leg: Leg, order: seq<string>, n: nat, listed: map<string, PendingInfo>,
    answers: map<string, Sub.Verdict>)
    requires n < |order| && AllChecked(s, legs, leg.before, order[..n], listed, answers)
    requires ItemChecked(leg, order[n], listed, answers)
    ensures AllChecked(s, legs + [leg], leg.after, order[..n + 1], listed, answers)
  {
    assert (legs + [leg])[..|legs|] == legs && order[..n + 1][..n] == order[..n];
  }

  /** The checker's start: it reads the pending queue and checks all its entries, in the order the storage lists them.
      The other actors run meanwhile; if no accepted submission is recorded and the storage does not fail, exactly the
      entries whose lookup is not answered stay pending. If all are answered, no status stays Submitted. */
  method StartupScan(w: World, order: seq<string>, answers: map<string, Sub.Verdict>, now: int)
    returns (ok: bool, ghost legs: seq<Leg>)
    requires w.Valid() && w.me == Checker && w.s.core.finding.None?
    requires forall n :: n in order <==> n in w.s.core.maps.pending
    requires forall i, j :: 0 <= i < j < |order| ==> order[i] != order[j]
    modifies w
    ensures w.Valid() && Lawful(Checker, w.history) && w.log == old(w.log) + [Storage(ok)] + EventsOf(legs)
    ensures !ok ==> w.s == old(w.s)
    ensures ok ==>
              && w.trace == old(w.trace) + [Actor(Sub.Scan)] + ActionsOf(legs)
              && Enabled(old(w.s), Actor(Sub.Scan))
              && AllChecked(Next(old(w.s), Actor(Sub.Scan)), legs, w.s, order, old(w.s).core.maps.pending, answers)
    ensures ok && NothingSubmitted(w.start, w.trace, |old(w.trace)|) && AllStored(EventsOf(legs)) ==>
              && (forall n :: n in w.s.core.maps.pending <==> n in order && n !in answers)
              && ((forall n :: n in order ==> n in answers) ==>
                    && w.s.core.maps.pending == map[]
                    && forall k :: k in w.s.core.maps.statuses ==> !w.s.core.maps.statuses[k].status.Submitted?)
  {
    ghost var n := |w.trace|;
    var listed := w.s.core.maps.pending;
    legs := [];
    ok := ReadPending(w);
    if !ok { return; }
    legs := CheckAll(w, order, listed, answers, n, now);
    if NothingSubmitted(w.start, w.trace, n) && AllStored(EventsOf(legs)) {
      AllAreChecked(w.s.core.maps, order, answers) by { WorldInv(w); }
    }
  }

  lemma AllAreChecked(m: Maps, order: seq<string>, answers: map<string, Sub.Verdict>)
    requires Consistent(m) && CheckedUpTo(m.pending, order, |order|, answers.Keys)
    ensures forall n :: n in m.pending <==> n in order && n !in answers
    ensures (forall n :: n in order ==> n in answers) ==>
              && m.pending == map[]
              && forall k :: k in m.statuses ==> !m.statuses[k].status.Submitted?
  {
    if forall n :: n in order ==> n in answers {
      assert m.pending == map[];
      NothingPendingNothingSubmitted(m);
    }
  }

  /** The entries that were read are checked one after the other. */
  method CheckAll(
    w: World, order: seq<string>, listed: map<string, PendingInfo>, answers: map<string, Sub.Verdict>, ghost n: nat,
    now: int)
    returns (ghost legs: seq<Leg>)
    requires w.Valid() && w.me == Checker && w.s.core.finding.None? && n <= |w.trace|
    requires forall k :: k in order <==> k in listed
    requires forall i, j :: 0 <= i < j < |order| ==> order[i] != order[j]
    requires forall k :: k in listed ==> listed[k] in w.s.core.checks && listed[k].neutronHash == k
    requires listed == w.s.core.maps.pending
    modifies w
    ensures w.Valid() && w.log == old(w.log) + EventsOf(legs) && w.trace == old(w.trace) + ActionsOf(legs)
    ensures AllChecked(old(w.s), legs, w.s, order, listed, answers)
    ensures NothingSubmitted(w.start, w.trace, n) && AllStored(EventsOf(legs)) ==>
              CheckedUpTo(w.s.core.maps.pending, order, |order|, answers.Keys)
  {
    ghost var read, trace, log := w.s, w.trace, w.log;
    legs := [];
    assert forall j :: 0 <= j < |order| ==> order[j] in order;
    for i := 0 to |order|
      invariant w.Valid() && n <= |trace| && w.s.core.finding.None?
      invariant w.trace == trace + ActionsOf(legs) && w.log == log + EventsOf(legs)
      invariant |legs| == i && AllChecked(read, legs, w.s, order[..i], listed, answers)
      invariant forall j :: i <= j < |order| ==> listed[order[j]] in w.s.core.checks
      invariant NothingSubmitted(w.start, w.trace, n) && AllStored(EventsOf(legs)) ==>
                  CheckedUpTo(w.s.core.maps.pending, order, i, answers.Keys)
    {
      ghost var leg := CheckNext(w, order, i, listed, answers, n, EventsOf(legs), now);
      OneMoreCheckedLeg(read, legs, leg, order, i, listed, answers);
      OneMoreLeg(legs, leg, trace, log);
      OneMoreLeg(legs, leg, [], []);
      legs := legs + [leg];
    }
    assert order[..|order|] == order;
  }

  /** One round of the checker's start. */
  method CheckNext(
    w: World, order: seq<string>, i: nat, listed: map<string, PendingInfo>, answers: map<string, Sub.Verdict>,
    ghost n: nat, ghost events: seq<Event>, now: int)
    returns (ghost leg: Leg)
    requires w.Valid() && w.me == Checker && w.s.core.finding.None? && n <= |w.trace| && i < |order|
    requires forall j, k :: 0 <= j < k < |order| ==> order[j] != order[k]
    requires forall j :: 0 <= j < |order| ==> order[j] in listed && listed[order[j]].neutronHash == order[j]
    requires forall j :: i <= j < |order| ==> listed[order[j]] in w.s.core.checks
    requires NothingSubmitted(w.start, w.trace, n) && AllStored(events) ==>
               CheckedUpTo(w.s.core.maps.pending, order, i, answers.Keys)
    modifies w
    ensures w.Valid() && w.s.core.finding.None?
    ensures w.trace == old(w.trace) + leg.actions && w.log == old(w.log) + leg.events
    ensures leg.before == old(w.s) && leg.after == w.s && ItemChecked(leg, order[i], listed, answers)
    ensures forall j :: i + 1 <= j < |order| ==> listed[order[j]] in w.s.core.checks
    ensures NothingSubmitted(w.start, w.trace, n) && AllStored(events + leg.events) ==>
              CheckedUpTo(w.s.core.maps.pending, order, i + 1, answers.Keys)
  {
    ghost var s, before, trace := w.s, w.s.core.maps.pending, w.trace;
    ghost var more := ProcessSubmittedTx(w, listed[order[i]], answers, now);
    RunSince(w, trace);
    leg := Leg(s, w.trace[|trace|..], more, w.s);
    assert w.trace == trace + leg.actions;
    if NothingSubmitted(w.start, w.trace, n) && AllStored(events + more) {
      NothingSubmittedWithin(w.start, w.trace, n, trace, n);
      NothingSubmittedWithin(w.start, w.trace, n, w.trace, |trace|);
      assert AllStored(events) by { assert forall j :: 0 <= j < |events| ==> (events + more)[j] == events[j]; }
      assert more != [] ==> (events + more)[|events|] == more[0];
      OneMoreChecked(before, order, i, answers.Keys, w.s.core.maps.pending);
    }
  }

  // ----- the resubmission handler -----

  /** NotFound and Failed carry the position of the item at which the request ended. */
  datatype Response = Resubmitted | NotFound(failed: nat) | Failed(at: nat)

  method FetchCached(w: World, id: nat, key: TxKey)
    requires w.Valid() && w.me == Handler(id) && Sub.Web(id) !in w.s.core.jobs && key in w.s.core.maps.cached
    modifies w
    ensures w.Valid() && old(w.trace) <= w.trace && w.log == old(w.log)
    ensures w.s.core.maps == old(w.s).core.maps && w.s.core.broadcasts == old(w.s).core.broadcasts
    ensures Sub.Web(id) in w.s.core.jobs && w.s.core.jobs[Sub.Web(id)].stage.Ready?
    ensures w.s.core.jobs[Sub.Web(id)].Key() == key
  {
    assert KeyConsistent(w.s.core.maps, key) by { WorldInv(w); }
    w.Step(Actor(Sub.ReadCached(id, key)));
  }

  method Pause(w: World, id: nat)
    requires w.Valid() && w.me == Handler(id) && Sub.Web(id) !in w.s.core.jobs
    modifies w
    ensures w.Valid() && old(w.trace) <= w.trace && w.log == old(w.log) && Sub.Web(id) !in w.s.core.jobs
    ensures old(w.s).core.broadcasts <= w.s.core.broadcasts
  {
    w.Others();
  }

  /** The transaction was read from the cache, the chain was asked for it and its answer stored: in t the transaction
      has the status that goes with the answer, and if that was acceptance it has been broadcast since s. */
  ghost predicate IsResubmission(
    s: State, t: State, key: TxKey, job: Sub.Job, reply: Reply, events: seq<Event>, ignored: string -> bool)
  {
    && job.Key() == key && !Fails(Answered(job, reply), ignored)
    && events == [Storage(true)] + ([Answered(job, reply)] + [Storage(true)])
    && StoredAnswer(t, job, reply)
    && (reply.AcceptedByChain? ==> s.core.broadcasts + multiset{key} <= t.core.broadcasts)
  }

  ghost predicate ItemResubmitted(s: State, t: State, key: TxKey, events: seq<Event>, ignored: string -> bool) {
    exists job, reply :: IsResubmission(s, t, key, job, reply, events, ignored)
  }

  /** The chain was asked for the transaction and did not take it, or its answer could not be stored. */
  predicate IsFailure(key: TxKey, job: Sub.Job, reply: Reply, events: seq<Event>, ignored: string -> bool) {
    && job.Key() == key && events != [] && events[0] == Storage(true)
    && SubmissionRun(job, reply, false, events[1..], ignored)
  }

  /** The transaction could not be read from the cache, or not be submitted. */
  ghost predicate ItemFailed(key: TxKey, events: seq<Event>, ignored: string -> bool) {
    events == [Storage(false)] || exists job, reply :: IsFailure(key, job, reply, events, ignored)
  }

  /** Resubmits one requested transaction, after whatever the other actors have done in between. */
  method ResubmitOne(w: World, id: nat, key: TxKey, ignored: string -> bool, now: int)
    returns (missing: bool, err: Option<GoError>, ghost events: seq<Event>)
    requires w.Valid() && w.me == Handler(id) && Sub.Web(id) !in w.s.core.jobs
    modifies w
    ensures w.Valid() && old(w.trace) <= w.trace && w.log == old(w.log) + events && Sub.Web(id) !in w.s.core.jobs
    ensures missing ==> err.None? && events == [Storage(true)] && key !in w.s.core.maps.cached
    ensures !missing && err.None? ==> ItemResubmitted(old(w.s), w.s, key, events, ignored)
    ensures err.Some? ==> ItemFailed(key, events, ignored)
  {
    Pause(w, id);
    missing, err := false, None;
    var readable := w.StorageAnswers();
    events := [Storage(readable)];
    if !readable { return false, Some(Plain("failed to get unsuccessful tx")), events; }
    if key !in w.s.core.maps.cached { return true, None, events; }
    FetchCached(w, id, key);
    ghost var job := w.s.core.jobs[Sub.Web(id)];
    var reply;
    ghost var more;
    err, reply, more := ProcessAndSubmit(w, Sub.Web(id), ignored, now);
    Append(old(w.log), events, more);
    events := events + more;
    if err.None? {
      assert IsResubmission(old(w.s), w.s, key, job, reply, events, ignored);
    } else {
      assert events[1..] == more && IsFailure(key, job, reply, events, ignored);
    }
  }

  method HandleItem(w: World, id: nat, key: TxKey, ignored: string -> bool, now: int)
    returns (missing: bool, err: Option<GoError>, ghost leg: Leg)
    requires w.Valid() && w.me == Handler(id) && Sub.Web(id) !in w.s.core.jobs
    modifies w
    ensures w.Valid() && Sub.Web(id) !in w.s.core.jobs
    ensures w.trace == old(w.trace) + leg.actions && w.log == old(w.log) + leg.events
    ensures IsRun(leg) && leg.before == old(w.s) && leg.after == w.s
    ensures missing ==> leg.events == [Storage(true)] && key !in w.s.core.maps.cached
    ensures !missing && err.None? ==> ItemResubmitted(leg.before, leg.after, key, leg.events, ignored)
    ensures err.Some? ==> ItemFailed(key, leg.events, ignored)
  {
    ghost var s, before := w.s, w.trace;
    ghost var events;
    missing, err, events := ResubmitOne(w, id, key, ignored, now);
    RunSince(w, before);
    leg := Leg(s, w.trace[|before|..], events, w.s);
    assert w.trace == before + leg.actions;
  }

  /** From s to t the transactions were resubmitted, one leg each. */
  ghost predicate AllResubmitted(s: State, legs: seq<Leg>, t: State, txs: seq<TxKey>, ignored: string -> bool)
    decreases |legs|
  {
    if legs == [] then s == t && txs == []
    else
      var n := |legs| - 1;
      && |txs| == |legs| && legs[n].after == t && AllResubmitted(s, legs[..n], legs[n].before, txs[..n], ignored)
      && IsRun(legs[n]) && ItemResubmitted(legs[n].before, t, txs[n], legs[n].events, ignored)
  }

  lemma OneMoreItem(s: State, legs: seq<Leg>, leg: Leg, txs: seq<TxKey>, n: nat, ignored: string -> bool)
    requires n < |txs| && AllResubmitted(s, legs, leg.before, txs[..n], ignored)
    requires IsRun(leg) && ItemResubmitted(leg.before, leg.after, txs[n], leg.events, ignored)
    ensures AllResubmitted(s, legs + [leg], leg.after, txs[..n + 1], ignored)
  {
    assert (legs + [leg])[..|legs|] == legs && txs[..n + 1][..n] == txs[..n];
  }

  /** Resubmits the requested transactions one after the other. It stops at the first that is not in the cache, or for
      which the storage or the submission failed; all before it were resubmitted. */
  method ResubmitFailedTxs(w: World, id: nat, txs: seq<TxKey>, ignored: string -> bool, now: int)
    returns (r: Response, ghost legs: seq<Leg>, ghost last: Leg)
    requires w.Valid() && w.me == Handler(id) && Sub.Web(id) !in w.s.core.jobs
    modifies w
    ensures w.Valid() && Lawful(Handler(id), w.history) && Sub.Web(id) !in w.s.core.jobs
    ensures r.Resubmitted? ==>
              && AllResubmitted(old(w.s), legs, w.s, txs, ignored)
              && w.trace == old(w.trace) + ActionsOf(legs) && w.log == old(w.log) + EventsOf(legs)
    ensures !r.Resubmitted? ==>
              && r == (if r.NotFound? then NotFound(|legs|) else Failed(|legs|)) && |legs| < |txs|
              && AllResubmitted(old(w.s), legs, last.before, txs[..|legs|], ignored) && IsRun(last) && last.after == w.s
              && w.trace == old(w.trace) + ActionsOf(legs) + last.actions
              && w.log == old(w.log) + EventsOf(legs) + last.events
    ensures r.NotFound? ==> last.events == [Storage(true)] && txs[|legs|] !in w.s.core.maps.cached
    ensures r.Failed? ==> ItemFailed(txs[|legs|], last.events, ignored)
  {
    ghost var s := w.s;
    legs, last := [], Leg(w.s, [], [], w.s);
    for i := 0 to |txs|
      invariant w.Valid() && Sub.Web(id) !in w.s.core.jobs
      invariant |legs| == i && AllResubmitted(s, legs, w.s, txs[..i], ignored)
      invariant w.trace == old(w.trace) + ActionsOf(legs) && w.log == old(w.log) + EventsOf(legs)
    {
      var missing, err;
      missing, err, last := HandleItem(w, id, txs[i], ignored, now);
      if missing { return NotFound(i), legs, last; }
      if err.Some? { return Failed(i), legs, last; }
      OneMoreItem(s, legs, last, txs, i, ignored);
      OneMoreLeg(legs, last, old(w.trace), old(w.log));
      legs := legs + [last];
    }
    assert txs[..|txs|] == txs;
    r := Resubmitted;
  }
}

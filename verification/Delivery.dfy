/**
 How often what a search returns reaches the neutron chain: in which runs exactly once for every match the stored height
 has passed, and when a transaction can be broadcast again.
 */
module Delivery {
  import opened Decimal
  import opened Records
  import opened Protocol
  import opened Lifecycle
  import opened AtMostOnce
  import opened Watermark
  import Sub = Submissions

  // ----- how a stored status counts accepted broadcasts -----

  /** What a neutron transaction carried was broadcast, and so was what has a record other than a refusal. */
  ghost predicate Counted(c: Sub.Core) {
    && (forall n :: n in c.carried ==> 1 <= c.broadcasts[c.carried[n]])
    && (forall k :: k in c.maps.statuses && !c.maps.statuses[k].status.ErrorOnSubmit? ==> 1 <= c.broadcasts[k])
  }

  lemma RecordKeepsCounted(c: Sub.Core, who: Sub.Who, now: int)
    requires Counted(c) && Sub.Enabled(c, Sub.Record(who, true, now)) && JobAttributed(c.carried, c.jobs[who])
    ensures Counted(Sub.Next(c, Sub.Record(who, true, now)))
  {
  }

  lemma SettleKeepsCounted(c: Sub.Core, f: Sub.Finding, now: int)
    requires Counted(c) && TaskAttributed(c.carried, c.maps.statuses, f.task)
    ensures Counted(c.(finding := None, maps := Sub.SettleFinding(c.maps, f, now)))
  {
  }

  lemma StepKeepsCounted(c: Sub.Core, a: Sub.Act)
    requires Inv(c) && Counted(c) && Sub.Enabled(c, a)
    ensures Counted(Sub.Next(c, a))
  {
    if a.Record? && a.ok {
      assert JobAttributed(c.carried, c.jobs[a.who]);
      RecordKeepsCounted(c, a.who, a.now);
    } else if a.Settle? && a.ok {
      SettleKeepsCounted(c, c.finding.value, a.now);
    }
  }

  /** No HTTP request submits anything, and what was refused was never accepted. */
  ghost predicate RefusedOnly(c: Sub.Core) {
    && (forall who :: who in c.jobs ==> who.Relay?)
    && (forall k :: k in c.maps.statuses && c.maps.statuses[k].status.ErrorOnSubmit? ==> c.broadcasts[k] == 0)
  }

  lemma StepKeepsRefusedOnly(c: Sub.Core, a: Sub.Act)
    requires Inv(c) && JobsPlaced(c) && RefusedOnly(c) && Sub.Enabled(c, a) && Sub.Allows(Sub.Once, c, a)
    requires forall k :: Budget(c, k, 0)
    ensures RefusedOnly(Sub.Next(c, a))
  {
    if a.Record? {
      assert Budget(c, c.jobs[a.who].Key(), 0);
    }
  }

  /** The accepted broadcasts of k that its record stands for, or that are on the way to their record. */
  ghost function Due(c: Sub.Core, k: TxKey): nat {
    if k in c.maps.statuses then (if c.maps.statuses[k].status.ErrorOnSubmit? then 0 else 1)
    else if RelayAccepted(c, k) then 1
    else 0
  }

  lemma {:induction false} RecordsAreCounted(policy: Sub.Policy, acts: seq<Sub.Act>)
    requires Sub.Valid(policy, Sub.FRESH, acts)
    ensures Counted(Sub.Exec(policy, Sub.FRESH, acts))
    ensures policy.Once? ==> RefusedOnly(Sub.Exec(policy, Sub.FRESH, acts))
    decreases |acts|
  {
    if acts != [] {
      var n := |acts| - 1;
      var c := Sub.Exec(policy, Sub.FRESH, acts[..n]);
      RecordsAreCounted(policy, acts[..n]);
      BroadcastsAreConserved(policy, acts[..n], TxKey(0, seq(64, _ => '0')));
      StepKeepsCounted(c, acts[n]);
      if policy.Once? {
        forall k ensures Budget(c, k, 0) {
          BroadcastsAreConserved(policy, acts[..n], k);
          NoExcess(acts[..n], k);
        }
        StepKeepsRefusedOnly(c, acts[n]);
      }
    }
  }

  /** Without resubmission and lost broadcasts, records count broadcasts exactly: one for a transaction with a record,
      none if the record is a refusal or there is none, save for an accepted one about to be recorded. */
  lemma BroadcastsExactly(acts: seq<Sub.Act>, k: TxKey)
    requires Sub.Valid(Sub.Once, Sub.FRESH, acts)
    ensures var c := Sub.Exec(Sub.Once, Sub.FRESH, acts); c.broadcasts[k] == Due(c, k)
  {
    var c := Sub.Exec(Sub.Once, Sub.FRESH, acts);
    RecordsAreCounted(Sub.Once, acts);
    BroadcastsAreConserved(Sub.Once, acts, k);
    NoExcess(acts, k);
    if RelayAccepted(c, k) { assert JobAttributed(c.carried, c.jobs[Sub.Relay]); }
  }

  lemma {:induction false} PolicyOnlyRestricts(policy: Sub.Policy, acts: seq<Sub.Act>)
    requires Sub.Valid(policy, Sub.FRESH, acts)
    ensures Sub.Valid(Sub.Free, Sub.FRESH, acts)
    ensures Sub.Exec(Sub.Free, Sub.FRESH, acts) == Sub.Exec(policy, Sub.FRESH, acts)
    decreases |acts|
  {
    if acts != [] {
      PolicyOnlyRestricts(policy, acts[..|acts| - 1]);
    }
  }

  // ----- every match between the initial and the stored height -----

  /** The i-th match of q lies above the query's initial height, and the stored height has passed it. */
  ghost predicate Passed(s: State, q: Uint64, i: nat) {
    q in s.matches && q in s.initial && i < |s.matches[q]| && s.initial[q] < s.matches[q][i].height <= Stored(s, q)
  }

  /** Whatever else happens, in a run without a cancelled search every match that the stored height has passed has a
      record, and unless the record is a refusal the neutron chain accepted the transaction at least once. */
  lemma PassedMatchesAreDelivered(s: State, actions: seq<Action>, q: Uint64, i: nat)
    requires Initial(s) && Valid(s, actions) && NoCancel(actions) && Passed(Exec(s, actions), q, i)
    ensures var t := Exec(s, actions);
            var k := TxKey(q, t.matches[q][i].hash);
            && k in t.core.maps.statuses
            && (t.core.maps.statuses[k].status.ErrorOnSubmit? || 1 <= t.core.broadcasts[k])
  {
    var t := Exec(s, actions);
    WatermarkIsSafe(s, actions);
    assert RecordedBetween(t.matches[q], t.initial[q], Stored(t, q), q, t.core.maps.statuses.Keys);
    RunProjects(s, actions);
    RecordsAreCounted(Sub.Free, Acts(s, actions));
  }

  /** If moreover nothing is resubmitted and no accepted broadcast is lost before its record, every such match was
      accepted exactly once, or it was refused with an ignored error and never accepted. */
  lemma PassedMatchesAreDeliveredOnce(s: State, actions: seq<Action>, q: Uint64, i: nat)
    requires Initial(s) && Valid(s, actions) && NoCancel(actions) && Passed(Exec(s, actions), q, i)
    requires Sub.Valid(Sub.Once, Sub.FRESH, Acts(s, actions))
    ensures var t := Exec(s, actions);
            var k := TxKey(q, t.matches[q][i].hash);
            && k in t.core.maps.statuses
            && t.core.broadcasts[k] == if t.core.maps.statuses[k].status.ErrorOnSubmit? then 0 else 1
  {
    PassedMatchesAreDelivered(s, actions, q, i);
    RunProjects(s, actions);
    PolicyOnlyRestricts(Sub.Once, Acts(s, actions));
    BroadcastsExactly(Acts(s, actions), TxKey(q, Exec(s, actions).matches[q][i].hash));
  }

  // ----- when a transaction can be broadcast again -----

  /** The action brings k up anew: a request to resubmit it, or another match of it. */
  predicate BringsUp(a: Action, k: TxKey) {
    || (a.Actor? && a.act.ReadCached? && a.act.key == k)
    || (a.Grow? && TxKey(a.query, a.tx.hash) == k)
  }

  ghost predicate Untouched(actions: seq<Action>, k: TxKey) {
    forall i :: 0 <= i < |actions| ==> !BringsUp(actions[i], k)
  }

  /** The continuation broadcasts k once more, although nobody brings it up anew. */
  ghost predicate BroadcastsAgain(s: State, more: seq<Action>, k: TxKey) {
    Valid(s, more) && Untouched(more, k) && s.core.broadcasts[k] < Exec(s, more).core.broadcasts[k]
  }

  ghost predicate MatchAt(s: State, k: TxKey, i: int) {
    k.query in s.matches && 0 <= i < |s.matches[k.query]| && s.matches[k.query][i].hash == k.hash
  }

  /** A later search of the query still returns k. */
  ghost predicate StillFound(s: State, k: TxKey) {
    exists i :: MatchAt(s, k, i) && Stored(s, k.query) < s.matches[k.query][i].height
  }

  // (a) what is not found any more, or has a record, stays unsubmitted

  ghost predicate Finished(s: State, k: TxKey) {
    Waiting(s.core, k) == {} && (k in s.core.maps.statuses || !StillFound(s, k))
  }

  lemma NobodyWaits(c: Sub.Core, a: Sub.Act, k: TxKey)
    requires Inv(c) && Sub.Enabled(c, a) && Waiting(c, k) == {} && !(a.ReadCached? && a.key == k)
    ensures Waiting(Sub.Next(c, a), k) == {}
  {
    if a.ReadCached? {
      ReadCachedWaits(c, a.id, a.key, k);
    } else {
      assert Waiting(Sub.Next(c, a), k) <= Waiting(c, k);
    }
  }

  lemma NobodyBroadcasts(c: Sub.Core, a: Sub.Act, k: TxKey)
    requires Sub.Enabled(c, a) && Waiting(c, k) == {} && (Sub.Relay in c.jobs ==> c.jobs[Sub.Relay].Key() != k)
    ensures Sub.Next(c, a).broadcasts[k] == c.broadcasts[k]
  {
    if a.Accept? { assert a.who !in Waiting(c, k); }
  }

  lemma StoredNeverFalls(s: State, a: Action, q: Uint64)
    requires LoopInv(s) && Enabled(s, a) && q in s.matches
    ensures Stored(s, q) <= Stored(Next(s, a), q)
  {
    if q in s.core.maps.heights { WatermarkNeverFalls(s, a, q); }
  }

  lemma StaysLost(s: State, a: Action, k: TxKey)
    requires LoopInv(s) && Enabled(s, a) && !StillFound(s, k) && !BringsUp(a, k)
    ensures !StillFound(Next(s, a), k)
  {
    var t := Next(s, a);
    forall i | MatchAt(t, k, i) ensures t.matches[k.query][i].height <= Stored(t, k.query) {
      StoredNeverFalls(s, a, k.query);
      assert MatchAt(s, k, i);
    }
  }

  /** The transaction that the relay loop submits is still found. */
  lemma RelaySubmitsWhatIsFound(s: State)
    requires LoopInv(s) && Sub.Relay in s.core.jobs
    ensures StillFound(s, s.core.jobs[Sub.Relay].Key())
  {
    assert MatchAt(s, s.core.jobs[Sub.Relay].Key(), s.pc.pass.pos);
  }

  lemma StepKeepsFinished(s: State, a: Action, k: TxKey)
    requires LoopInv(s) && Inv(s.core) && JobsPlaced(s.core) && Enabled(s, a) && Finished(s, k) && !BringsUp(a, k)
    ensures Finished(Next(s, a), k) && Next(s, a).core.broadcasts[k] == s.core.broadcasts[k]
  {
    if Sub.Relay in s.core.jobs { RelaySubmitsWhatIsFound(s); }
    var act := CoreAct(s, a);
    if act.Some? {
      NobodyWaits(s.core, act.value, k);
      NobodyBroadcasts(s.core, act.value, k);
      CoreStep(s.core, act.value);
    }
    if k in s.core.maps.statuses {
      assert k in Next(s, a).core.maps.statuses.Keys;
    } else {
      StaysLost(s, a, k);
    }
  }

  lemma StepKeepsInv(s: State, a: Action)
    requires LoopInv(s) && Inv(s.core) && JobsPlaced(s.core) && Enabled(s, a)
    ensures var t := Next(s, a); LoopInv(t) && Inv(t.core) && JobsPlaced(t.core)
  {
    StepKeepsWatermark(s, a);
    var act := CoreAct(s, a);
    if act.Some? {
      StepKeepsConsistent(s.core, act.value);
      StepKeepsAttributed(s.core, act.value);
      StepKeepsJobsPlaced(s.core, act.value);
    }
  }

  lemma {:induction false} FinishedStaysFinished(s: State, more: seq<Action>, k: TxKey)
    requires LoopInv(s) && Inv(s.core) && JobsPlaced(s.core) && Finished(s, k)
    requires Valid(s, more) && Untouched(more, k)
    ensures var t := Exec(s, more);
            && LoopInv(t) && Inv(t.core) && JobsPlaced(t.core) && Finished(t, k)
            && t.core.broadcasts[k] == s.core.broadcasts[k]
    decreases |more|
  {
    if more != [] {
      var n := |more| - 1;
      FinishedStaysFinished(s, more[..n], k);
      StepKeepsInv(Exec(s, more[..n]), more[n]);
      StepKeepsFinished(Exec(s, more[..n]), more[n], k);
    }
  }

  // (b) what is still found and has no record is broadcast again after a crash

  /** The loop goes through all matches of the query of k, and has not come to the i-th yet, which is k. */
  ghost predicate Heading(s: State, k: TxKey, i: nat) {
    && s.pc.Looping? && s.pc.pass.query == k.query && MatchAt(s, k, i)
    && s.pc.pass.pos <= i && s.pc.pass.fetched == |s.matches[k.query]|
    && k !in s.core.maps.statuses && Sub.Relay !in s.core.jobs
  }

  lemma StepOn(s: State, actions: seq<Action>, a: Action, k: TxKey) returns (longer: seq<Action>)
    requires Valid(s, actions) && Untouched(actions, k) && Enabled(Exec(s, actions), a) && !BringsUp(a, k)
    ensures Valid(s, longer) && Untouched(longer, k) && Exec(s, longer) == Next(Exec(s, actions), a)
  {
    longer := Then(s, actions, a);
    assert longer == actions + [a];
  }

  lemma MarkNext(s: State, actions: seq<Action>, k: TxKey, i: nat) returns (longer: seq<Action>)
    requires Valid(s, actions) && Untouched(actions, k) && Heading(Exec(s, actions), k, i)
    ensures Valid(s, longer) && Untouched(longer, k)
    ensures var t, u := Exec(s, actions), Exec(s, longer);
            && u.pc == Marked(t.pc.pass) && u.matches == t.matches && u.core.maps.statuses == t.core.maps.statuses
            && u.core.broadcasts == t.core.broadcasts && u.core.carried == t.core.carried && u.core.jobs == t.core.jobs
  {
    longer := StepOn(s, actions, Mark(true), k);
  }

  /** The next match becomes the loop's job, or it has a record already. */
  lemma TakeNext(s: State, actions: seq<Action>, k: TxKey, i: nat) returns (longer: seq<Action>)
    requires Valid(s, actions) && Untouched(actions, k) && Heading(Exec(s, actions), k, i)
    ensures Valid(s, longer) && Untouched(longer, k)
    ensures var t, u := Exec(s, actions), Exec(s, longer);
            && u.matches == t.matches && u.core.maps.statuses == t.core.maps.statuses
            && u.core.broadcasts == t.core.broadcasts && u.core.carried == t.core.carried
            && if TxKey(k.query, InHand(t).hash) in t.core.maps.statuses
               then u.pc == Advance(t) && Sub.Relay !in u.core.jobs
               else u.pc == Submitting(t.pc.pass) && Sub.Relay in u.core.jobs
                    && u.core.jobs[Sub.Relay] == Sub.Job(k.query, InHand(t), Sub.Ready)
  {
    var marked := MarkNext(s, actions, k, i);
    longer := StepOn(s, marked, Look(true), k);
  }

  /** The chain refuses the job, and the refusal is recorded. */
  lemma RefuseNext(s: State, actions: seq<Action>, k: TxKey) returns (longer: seq<Action>)
    requires Valid(s, actions) && Untouched(actions, k)
    requires var t := Exec(s, actions);
             && t.pc.Submitting? && t.pc.pass.pos < |Matches(t, t.pc.pass.query)|
             && Sub.Relay in t.core.jobs && t.core.jobs[Sub.Relay].stage.Ready?
    ensures Valid(s, longer) && Untouched(longer, k)
    ensures var t, u := Exec(s, actions), Exec(s, longer);
            && u.pc == Advance(t) && u.matches == t.matches && u.core.broadcasts == t.core.broadcasts
            && Sub.Relay !in u.core.jobs
            && u.core.maps.statuses.Keys == t.core.maps.statuses.Keys + {t.core.jobs[Sub.Relay].Key()}
  {
    longer := StepOn(s, actions, Actor(Sub.Refuse(Sub.Relay, "")), k);
    assert Exec(s, longer).pc == Exec(s, actions).pc && Exec(s, longer).matches == Exec(s, actions).matches;
    longer := StepOn(s, longer, Actor(Sub.Record(Sub.Relay, true, 0)), k);
  }

  lemma HeadsOn(t: State, u: State, k: TxKey, i: nat)
    requires Heading(t, k, i) && InHand(t).hash != k.hash
    requires u.matches == t.matches && u.pc == Advance(t) && Sub.Relay !in u.core.jobs
    requires u.core.maps.statuses.Keys <= t.core.maps.statuses.Keys + {TxKey(k.query, InHand(t).hash)}
    ensures Heading(u, k, i) && u.pc.pass.pos == t.pc.pass.pos + 1
  {
    assert k !in u.core.maps.statuses.Keys;
  }

  /** It is passed over: it has a record, or it is refused and gets one. */
  lemma PassOver(s: State, actions: seq<Action>, k: TxKey, i: nat) returns (longer: seq<Action>)
    requires Valid(s, actions) && Untouched(actions, k) && Heading(Exec(s, actions), k, i)
    requires InHand(Exec(s, actions)).hash != k.hash
    ensures Valid(s, longer) && Untouched(longer, k)
    ensures var t, u := Exec(s, actions), Exec(s, longer);
            && Heading(u, k, i) && u.pc.pass.pos == t.pc.pass.pos + 1 && u.core.broadcasts == t.core.broadcasts
  {
    var t := Exec(s, actions);
    longer := TakeNext(s, actions, k, i);
    if Exec(s, longer).pc.Submitting? {
      assert Advance(Exec(s, longer)) == Advance(t);
      longer := RefuseNext(s, longer, k);
    }
    HeadsOn(t, Exec(s, longer), k, i);
  }

  lemma {:induction false} ReachMatch(s: State, actions: seq<Action>, k: TxKey, i: nat) returns (longer: seq<Action>)
    requires Valid(s, actions) && Untouched(actions, k) && Heading(Exec(s, actions), k, i)
    ensures Valid(s, longer) && Untouched(longer, k) && RelayAccepted(Exec(s, longer).core, k)
    ensures Exec(s, longer).core.broadcasts[k] == Exec(s, actions).core.broadcasts[k] + 1
    ensures k !in Exec(s, longer).core.maps.statuses
    decreases i - Exec(s, actions).pc.pass.pos
  {
    if InHand(Exec(s, actions)).hash == k.hash {
      longer := TakeNext(s, actions, k, i);
      FreshHashExists(Exec(s, longer).core.carried);
      var n: string :| n !in Exec(s, longer).core.carried;
      longer := StepOn(s, longer, Actor(Sub.Accept(Sub.Relay, n)), k);
    } else {
      longer := PassOver(s, actions, k, i);
      longer := ReachMatch(s, longer, k, i);
    }
  }

  /** After a crash, and with the query initialised at height 0 if it is new, its pass begins anew. */
  lemma Restart(s: State, actions: seq<Action>, k: TxKey) returns (longer: seq<Action>)
    requires Valid(s, actions) && Untouched(actions, k) && k.query in Exec(s, actions).matches
    ensures Valid(s, longer) && Untouched(longer, k)
    ensures var t, u := Exec(s, actions), Exec(s, longer);
            && u.pc.Idle? && u.core.jobs == map[] && u.matches == t.matches && k.query in u.core.maps.heights
            && Stored(u, k.query) == Stored(t, k.query) && u.core.maps.statuses == t.core.maps.statuses
            && u.core.broadcasts == t.core.broadcasts
  {
    longer := StepOn(s, actions, Actor(Sub.Crash), k);
    if k.query !in Exec(s, actions).core.maps.heights {
      longer := StepOn(s, longer, Initialise(k.query, 0), k);
    }
  }

  lemma SearchAll(s: State, actions: seq<Action>, k: TxKey, from: nat, i: nat) returns (longer: seq<Action>)
    requires Valid(s, actions) && Untouched(actions, k)
    requires var t := Exec(s, actions);
             && t.pc.Idle? && t.core.jobs == map[] && k.query in t.core.maps.heights && k !in t.core.maps.statuses
             && MatchAt(t, k, i) && from <= i && SplitsAt(t.matches[k.query], t.core.maps.heights[k.query], from)
    ensures Valid(s, longer) && Untouched(longer, k) && Heading(Exec(s, longer), k, i)
    ensures Exec(s, longer).core.broadcasts == Exec(s, actions).core.broadcasts
  {
    longer := StepOn(s, actions, Start(k.query, from), k);
    longer := StepOn(s, longer, Fetch(|Exec(s, actions).matches[k.query]|, true), k);
  }

  lemma FoundIsBroadcast(s: State, actions: seq<Action>, k: TxKey) returns (longer: seq<Action>)
    requires Valid(s, actions) && Untouched(actions, k)
    requires var t := Exec(s, actions); LoopInv(t) && k !in t.core.maps.statuses && StillFound(t, k)
    ensures Valid(s, longer) && Untouched(longer, k) && RelayAccepted(Exec(s, longer).core, k)
    ensures Exec(s, longer).core.broadcasts[k] == Exec(s, actions).core.broadcasts[k] + 1
    ensures k !in Exec(s, longer).core.maps.statuses
  {
    var t := Exec(s, actions);
    var i :| MatchAt(t, k, i) && Stored(t, k.query) < t.matches[k.query][i].height;
    var from := StartIndexExists(t.matches[k.query], Stored(t, k.query));
    longer := Restart(s, actions, k);
    longer := SearchAll(s, longer, k, from, i);
    longer := ReachMatch(s, longer, k, i);
  }

  /** The bound on broadcasts is met: crashes between an accepted broadcast and its record allow any number of them. */
  lemma {:induction false} CrashesAllowBroadcasts(s: State, k: TxKey, times: nat) returns (actions: seq<Action>)
    requires Initial(s) && StillFound(s, k)
    ensures Valid(s, actions) && Untouched(actions, k) && Exec(s, actions).core.broadcasts[k] == times
    ensures k !in Exec(s, actions).core.maps.statuses && StillFound(Exec(s, actions), k)
  {
    actions := [];
    if times != 0 {
      actions := CrashesAllowBroadcasts(s, k, times - 1);
      LoopInvHolds(s, actions);
      actions := FoundIsBroadcast(s, actions, k);
      LoopInvHolds(s, actions);
      RelaySubmitsWhatIsFound(Exec(s, actions));
    }
  }

  lemma WaitingIsBroadcast(s: State, k: TxKey) returns (more: seq<Action>)
    requires Waiting(s.core, k) != {}
    ensures BroadcastsAgain(s, more, k)
  {
    FreshHashExists(s.core.carried);
    var n: string :| n !in s.core.carried;
    var who :| who in Waiting(s.core, k);
    more := StepOn(s, [], Actor(Sub.Accept(who, n)), k);
  }

  /** Exactly when another broadcast of a transaction can follow a run of the relayer, although nobody brings it up
      anew: when it has no record and a match of it lies above the stored height, or a request for it is waiting. */
  lemma BroadcastAgainExactly(s: State, actions: seq<Action>, k: TxKey)
    requires Initial(s) && Valid(s, actions)
    ensures var t := Exec(s, actions);
            (exists more :: BroadcastsAgain(t, more, k))
            <==> (k !in t.core.maps.statuses && StillFound(t, k)) || Waiting(t.core, k) != {}
  {
    var t := Exec(s, actions);
    LoopInvHolds(s, actions);
    RunProjects(s, actions);
    BroadcastsAreConserved(Sub.Free, Acts(s, actions), k);
    if Waiting(t.core, k) != {} {
      var more := WaitingIsBroadcast(t, k);
    } else if k !in t.core.maps.statuses && StillFound(t, k) {
      var more := FoundIsBroadcast(t, [], k);
      assert BroadcastsAgain(t, more, k);
    } else {
      forall more | Valid(t, more) && Untouched(more, k) ensures !BroadcastsAgain(t, more, k) {
        FinishedStaysFinished(t, more, k);
      }
    }
  }
}

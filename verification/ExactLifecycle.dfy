/** The exact lifecycle, for resubmissions made only when nothing about the transaction is outstanding. */
module ExactLifecycle {
  import opened Decimal
  import opened Records
  import opened Submissions
  import opened Lifecycle

  predicate Decided(statuses: map<TxKey, StatusInfo>, answers: map<string, Verdict>, k: TxKey, n: string) {
    k in statuses && n in answers && statuses[k] == VerdictInfo(answers[n])
  }

  /** A check of a key is about the key's one pending entry, or repeats a check whose answer is already recorded. */
  ghost predicate Current(m: Maps, answers: map<string, Verdict>, t: PendingInfo) {
    && (forall n :: n in m.pending && m.pending[n].Key() == t.Key() ==> n == t.neutronHash)
    && (t.Key() in m.statuses && !m.statuses[t.Key()].status.Submitted? ==>
          Decided(m.statuses, answers, t.Key(), t.neutronHash))
  }

  ghost predicate Alone(c: Core, k: TxKey) {
    && (forall n :: n in c.maps.pending ==> c.maps.pending[n].Key() != k)
    && (forall t :: t in c.checks ==> t.Key() != k)
    && (c.finding.Some? ==> c.finding.value.task.Key() != k)
  }

  /** cached iff recorded and not Committed; a pending entry means Submitted, and there is one per key. */
  ghost predicate MapsExact(m: Maps) {
    && (forall k :: k in m.cached <==> k in m.statuses && !m.statuses[k].status.Committed?)
    && (forall n :: n in m.pending ==>
          m.pending[n].Key() in m.statuses && m.statuses[m.pending[n].Key()].status.Submitted?)
    && (forall n, n' :: n in m.pending && n' in m.pending && m.pending[n].Key() == m.pending[n'].Key() ==> n == n')
  }

  ghost predicate JobsExact(c: Core) {
    && (forall who :: who in c.jobs ==> Alone(c, c.jobs[who].Key()))
    && (forall who, who' :: who in c.jobs && who' in c.jobs && c.jobs[who].Key() == c.jobs[who'].Key() ==> who == who')
    && (forall who :: who in c.jobs ==> (who.Relay? <==> c.jobs[who].Key() !in c.maps.statuses))
  }

  ghost predicate ChecksExact(c: Core) {
    && (forall t :: t in c.checks ==> Current(c.maps, c.answers, t))
    && (forall t, t' :: t in c.checks && t' in c.checks && t.Key() == t'.Key() ==> t.neutronHash == t'.neutronHash)
    && (c.finding.Some? ==>
          var f := c.finding.value;
          && Current(c.maps, c.answers, f.task)
          && f.task.neutronHash in c.answers && c.answers[f.task.neutronHash] == f.verdict
          && forall t :: t in c.checks && t.Key() == f.task.Key() ==> t.neutronHash == f.task.neutronHash)
  }

  ghost predicate ExactInv(c: Core) {
    Inv(c) && MapsExact(c.maps) && JobsExact(c) && ChecksExact(c)
  }

  lemma RecordKeepsMaps(m: Maps, job: Job, now: int)
    requires MapsExact(m) && !job.stage.Ready?
    requires forall n :: n in m.pending ==> m.pending[n].Key() != job.Key()
    ensures MapsExact(RecordJob(m, job, now))
    ensures forall n :: n in RecordJob(m, job, now).pending ==>
              n in m.pending || (job.stage.Accepted? && n == job.stage.neutronHash)
  {
  }

  lemma RecordKeepsJobs(c: Core, who: Who, now: int)
    requires ExactInv(c) && Enabled(c, Record(who, true, now))
    ensures JobsExact(Next(c, Record(who, true, now)))
  {
    var c' := Next(c, Record(who, true, now));
    forall who' | who' in c'.jobs
      ensures Alone(c', c'.jobs[who'].Key()) && (who'.Relay? <==> c'.jobs[who'].Key() !in c'.maps.statuses)
    {
      OtherJobStaysAlone(c, who, who', now);
    }
  }

  lemma OtherJobStaysAlone(c: Core, who: Who, who': Who, now: int)
    requires JobsExact(c) && Enabled(c, Record(who, true, now)) && who' in c.jobs && who' != who
    ensures var c', k := Next(c, Record(who, true, now)), c.jobs[who'].Key();
            Alone(c', k) && (k in c'.maps.statuses <==> k in c.maps.statuses)
  {
    assert Alone(c, c.jobs[who'].Key());
    assert c.jobs[who'].Key() != c.jobs[who].Key();
  }

  /** A SetTxStatus for another key leaves a check current. */
  lemma CurrentElsewhere(
    m: Maps, answers: map<string, Verdict>, t: PendingInfo,
    k: TxKey, n: string, info: StatusInfo, tx: Option<Transaction>, now: int)
    requires Current(m, answers, t) && t.Key() != k
    ensures Current(SetTxStatus(m, k, n, info, tx, now), answers, t)
  {
    OtherKeysUntouched(m, k, n, info, tx, now, t.Key());
  }

  /** The check of a key just settled repeats an answer now recorded. */
  lemma CurrentSettled(m: Maps, answers: map<string, Verdict>, t: PendingInfo, f: Finding, now: int)
    requires Current(m, answers, t) && t.Key() == f.task.Key() && t.neutronHash == f.task.neutronHash
    requires f.task.neutronHash in answers && answers[f.task.neutronHash] == f.verdict
    ensures Current(SettleFinding(m, f, now), answers, t)
  {
  }

  lemma RecordKeepsOldChecks(c: Core, job: Job, now: int)
    requires ChecksExact(c) && Alone(c, job.Key()) && !job.stage.Ready?
    ensures ChecksExact(c.(maps := RecordJob(c.maps, job, now)))
  {
    forall t: PendingInfo | t.Key() != job.Key() && Current(c.maps, c.answers, t)
      ensures Current(RecordJob(c.maps, job, now), c.answers, t)
    {
      CurrentElsewhere(c.maps, c.answers, t, job.Key(), JobNeutronHash(job), JobInfo(job), Some(job.tx), now);
    }
  }

  lemma NewCheckKeepsChecks(c: Core, t: PendingInfo)
    requires ChecksExact(c) && Current(c.maps, c.answers, t)
    requires forall t' :: t' in c.checks ==> t'.Key() != t.Key()
    requires c.finding.Some? ==> c.finding.value.task.Key() != t.Key()
    ensures ChecksExact(c.(checks := c.checks + {t}))
  {
  }

  lemma RecordKeepsChecks(c: Core, who: Who, now: int)
    requires ExactInv(c) && Enabled(c, Record(who, true, now))
    ensures ChecksExact(Next(c, Record(who, true, now)))
  {
    var job, c' := c.jobs[who], Next(c, Record(who, true, now));
    assert Alone(c, job.Key());
    RecordKeepsOldChecks(c, job, now);
    var c1 := c.(maps := c'.maps);
    if job.stage.Accepted? {
      RecordKeepsMaps(c.maps, job, now);
      assert Current(c1.maps, c1.answers, TaskOf(job));
      NewCheckKeepsChecks(c1, TaskOf(job));
      assert c' == c1.(checks := c.checks + {TaskOf(job)}, jobs := c'.jobs);
    } else {
      assert c' == c1.(jobs := c'.jobs);
    }
  }

  lemma SettleKeepsMaps(m: Maps, answers: map<string, Verdict>, f: Finding, now: int)
    requires MapsExact(m) && Current(m, answers, f.task) && f.task.Key() in m.statuses
    requires f.task.neutronHash in answers && answers[f.task.neutronHash] == f.verdict
    ensures MapsExact(SettleFinding(m, f, now))
  {
  }

  lemma SettleKeepsJobs(c: Core, now: int)
    requires ExactInv(c) && Enabled(c, Settle(true, now))
    ensures JobsExact(Next(c, Settle(true, now)))
  {
    var c' := Next(c, Settle(true, now));
    assert TaskAttributed(c.carried, c.maps.statuses, c.finding.value.task);
    assert c'.maps.statuses.Keys == c.maps.statuses.Keys;
    forall who | who in c.jobs ensures Alone(c', c.jobs[who].Key()) {
      assert Alone(c, c.jobs[who].Key());
    }
  }

  lemma SettleKeepsChecks(c: Core, now: int)
    requires ExactInv(c) && Enabled(c, Settle(true, now))
    ensures ChecksExact(Next(c, Settle(true, now)))
  {
    var f := c.finding.value;
    forall t | t in c.checks ensures Current(SettleFinding(c.maps, f, now), c.answers, t) {
      if t.Key() == f.task.Key() {
        CurrentSettled(c.maps, c.answers, t, f, now);
      } else {
        CurrentElsewhere(c.maps, c.answers, t, f.task.Key(), f.task.neutronHash, VerdictInfo(f.verdict), None, now);
      }
    }
  }

  /** A check that repeats an earlier one changes no status. */
  lemma RepeatedCheckChangesNoStatus(c: Core, now: int)
    requires ExactInv(c) && c.finding.Some?
    requires !c.maps.statuses[c.finding.value.task.Key()].status.Submitted?
    ensures Next(c, Settle(true, now)).maps.statuses == c.maps.statuses
  {
    assert Current(c.maps, c.answers, c.finding.value.task);
  }

  lemma ScanKeepsChecks(c: Core)
    requires ExactInv(c)
    ensures ChecksExact(Next(c, Scan))
  {
    forall t | t in Next(c, Scan).checks && t !in c.checks ensures Current(c.maps, c.answers, t) {
      assert t.neutronHash in c.maps.pending && c.maps.pending[t.neutronHash] == t;
    }
  }

  lemma OtherStepsKeepChecks(c: Core, a: Act)
    requires ExactInv(c) && Enabled(c, a) && Allows(Disciplined, c, a)
    requires !(a.Record? && a.ok) && !(a.Settle? && a.ok)
    ensures ChecksExact(Next(c, a))
  {
    if a.Scan? {
      ScanKeepsChecks(c);
    } else {
      var c' := Next(c, a);
      forall t | t in c.checks || (c.finding.Some? && t == c.finding.value.task)
        ensures Current(c'.maps, c'.answers, t)
      {
        assert Current(c.maps, c.answers, t);
      }
    }
  }

  lemma NewJobKeepsJobs(c: Core, who: Who, job: Job)
    requires ExactInv(c) && who !in c.jobs
    requires Alone(c, job.Key()) && (forall who' :: who' in c.jobs ==> c.jobs[who'].Key() != job.Key())
    requires who.Relay? <==> job.Key() !in c.maps.statuses
    ensures JobsExact(c.(jobs := c.jobs[who := job]))
  {
    var c' := c.(jobs := c.jobs[who := job]);
    forall who' | who' in c'.jobs ensures Alone(c', c'.jobs[who'].Key()) {
      assert who' != who ==> Alone(c, c.jobs[who'].Key());
      assert who' == who ==> Alone(c, job.Key());
    }
  }

  /** Jobs stay exact when they only end, and only what was pending is checked. */
  lemma FewerJobsStayExact(c: Core, c': Core)
    requires JobsExact(c) && c'.maps.statuses == c.maps.statuses && c'.maps.pending == c.maps.pending
    requires forall who :: who in c'.jobs ==> who in c.jobs && c'.jobs[who].Key() == c.jobs[who].Key()
    requires forall t :: t in c'.checks ==> t in c.checks || exists n :: n in c.maps.pending && c.maps.pending[n] == t
    requires c'.finding.Some? ==> c'.finding == c.finding || c'.finding.value.task in c.checks
    ensures JobsExact(c')
  {
    forall who | who in c'.jobs ensures Alone(c', c'.jobs[who].Key()) {
      assert Alone(c, c.jobs[who].Key());
    }
  }

  lemma BeginKeepsJobs(c: Core, q: Uint64, tx: Transaction)
    requires ExactInv(c) && Enabled(c, Begin(q, tx))
    ensures JobsExact(Next(c, Begin(q, tx)))
  {
    NewJobKeepsJobs(c, Relay, Job(q, tx, Ready));
  }

  lemma ReadCachedKeepsJobs(c: Core, id: nat, k: TxKey)
    requires ExactInv(c) && Enabled(c, ReadCached(id, k)) && Quiet(c, k)
    ensures JobsExact(Next(c, ReadCached(id, k)))
  {
    assert KeyConsistent(c.maps, k);
    NewJobKeepsJobs(c, Web(id), Job(k.query, c.maps.cached[k], Ready));
  }

  lemma OtherStepsKeepJobs(c: Core, a: Act)
    requires JobsExact(c) && Enabled(c, a) && !a.Begin? && !a.ReadCached?
    requires !(a.Record? && a.ok) && !(a.Settle? && a.ok)
    ensures JobsExact(Next(c, a))
  {
    FewerJobsStayExact(c, Next(c, a));
  }

  lemma StepKeepsExact(c: Core, a: Act)
    requires ExactInv(c) && Enabled(c, a) && Allows(Disciplined, c, a)
    ensures ExactInv(Next(c, a))
  {
    StepKeepsConsistent(c, a);
    StepKeepsAttributed(c, a);
    if a.Record? && a.ok {
      assert Alone(c, c.jobs[a.who].Key());
      RecordKeepsMaps(c.maps, c.jobs[a.who], a.now);
      RecordKeepsJobs(c, a.who, a.now);
      RecordKeepsChecks(c, a.who, a.now);
    } else if a.Settle? && a.ok {
      assert TaskAttributed(c.carried, c.maps.statuses, c.finding.value.task);
      SettleKeepsMaps(c.maps, c.answers, c.finding.value, a.now);
      SettleKeepsJobs(c, a.now);
      SettleKeepsChecks(c, a.now);
    } else {
      if a.Begin? {
        BeginKeepsJobs(c, a.query, a.tx);
      } else if a.ReadCached? {
        ReadCachedKeepsJobs(c, a.id, a.key);
      } else {
        OtherStepsKeepJobs(c, a);
      }
      OtherStepsKeepChecks(c, a);
    }
  }

  /** In every state of every disciplined run from a fresh database the lifecycle is exact. */
  lemma {:induction false} ExactLifecycleHolds(acts: seq<Act>)
    requires Valid(Disciplined, FRESH, acts)
    ensures ExactInv(Exec(Disciplined, FRESH, acts))
    decreases |acts|
  {
    if acts != [] {
      var n := |acts| - 1;
      ExactLifecycleHolds(acts[..n]);
      StepKeepsExact(Exec(Disciplined, FRESH, acts[..n]), acts[n]);
    }
  }

  /** What the exact invariant says to the operator: cached iff recorded and not Committed; pending iff Submitted, by
      exactly one entry; and whatever is listed as unsuccessful can be fetched for resubmission. */
  lemma ExactMeaning(c: Core, k: TxKey)
    requires ExactInv(c)
    ensures k in c.maps.cached <==> k in c.maps.statuses && !c.maps.statuses[k].status.Committed?
    ensures IsPending(c.maps, k) <==> k in c.maps.statuses && c.maps.statuses[k].status.Submitted?
    ensures forall n, n' | n in c.maps.pending && n' in c.maps.pending ::
              c.maps.pending[n].Key() == c.maps.pending[n'].Key() == k ==> n == n'
    ensures k in c.maps.unsuccessful ==> k in c.maps.cached
  {
    assert KeyConsistent(c.maps, k);
  }
}

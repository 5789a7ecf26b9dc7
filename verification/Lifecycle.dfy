/** What the stored maps keep under every interleaving of submissions, checks, resubmissions, failures and crashes. */
module Lifecycle {
  import opened Decimal
  import opened Records
  import opened Submissions

  ghost predicate IsPending(m: Maps, k: TxKey) {
    exists n :: n in m.pending && m.pending[n].Key() == k
  }

  ghost predicate PendingConsistent(m: Maps) {
    && (forall k :: k in m.statuses && m.statuses[k].status.Submitted? ==> IsPending(m, k))
    && (forall n :: n in m.pending ==> m.pending[n].neutronHash == n && m.pending[n].Key() in m.statuses)
  }

  /** An error status has its unsuccessful entry; Committed has neither cache nor entry; cached means retryable. */
  ghost predicate KeyConsistent(m: Maps, k: TxKey) {
    && (k in m.statuses && IsError(m.statuses[k].status) ==>
          k in m.unsuccessful && m.unsuccessful[k].status == m.statuses[k].status
          && m.unsuccessful[k].message == m.statuses[k].message)
    && (k in m.statuses && m.statuses[k].status.Committed? ==> k !in m.cached && k !in m.unsuccessful)
    && (k in m.cached ==> k in m.statuses && !m.statuses[k].status.Committed? && m.cached[k].hash == k.hash)
    && (k in m.unsuccessful ==> k in m.statuses)
  }

  /** The stored maps agree with each other. */
  ghost predicate Consistent(m: Maps) {
    PendingConsistent(m) && forall k :: KeyConsistent(m, k)
  }

  ghost predicate TaskAttributed(carried: map<string, TxKey>, statuses: map<TxKey, StatusInfo>, t: PendingInfo) {
    t.neutronHash in carried && carried[t.neutronHash] == t.Key() && t.Key() in statuses
  }

  ghost predicate JobAttributed(carried: map<string, TxKey>, job: Job) {
    job.stage.Accepted? ==> job.stage.neutronHash in carried && carried[job.stage.neutronHash] == job.Key()
  }

  /** Every pending entry, check, finding and accepted submission speaks of what its neutron transaction carried. */
  ghost predicate Attributed(c: Core) {
    && (forall n :: n in c.maps.pending ==> n in c.carried && c.carried[n] == c.maps.pending[n].Key())
    && (forall t :: t in c.checks ==> TaskAttributed(c.carried, c.maps.statuses, t))
    && (c.finding.Some? ==> TaskAttributed(c.carried, c.maps.statuses, c.finding.value.task))
    && (forall who :: who in c.jobs ==> JobAttributed(c.carried, c.jobs[who]))
  }

  ghost predicate Inv(c: Core) {
    Consistent(c.maps) && Attributed(c)
  }

  /** The maps other than `pending` after SetTxStatus, for a key other than the one written. */
  lemma OtherKeysUntouched(m: Maps, k: TxKey, n: string, info: StatusInfo, tx: Option<Transaction>, now: int, k': TxKey)
    requires k' != k
    ensures var m' := SetTxStatus(m, k, n, info, tx, now);
            && (k' in m'.statuses <==> k' in m.statuses)
            && (k' in m.statuses ==> m'.statuses[k'] == m.statuses[k'])
            && (k' in m'.unsuccessful <==> k' in m.unsuccessful)
            && (k' in m.unsuccessful ==> m'.unsuccessful[k'] == m.unsuccessful[k'])
            && (k' in m'.cached <==> k' in m.cached)
            && (k' in m.cached ==> m'.cached[k'] == m.cached[k'])
  {
  }

  lemma SetTxStatusKeepsPending(m: Maps, k: TxKey, n: string, info: StatusInfo, tx: Option<Transaction>, now: int)
    requires PendingConsistent(m)
    requires !info.status.ErrorOnSubmit? && n in m.pending ==> m.pending[n].Key() == k
    ensures PendingConsistent(SetTxStatus(m, k, n, info, tx, now))
  {
    var m' := SetTxStatus(m, k, n, info, tx, now);
    forall k' | k' in m'.statuses && m'.statuses[k'].status.Submitted? ensures IsPending(m', k') {
      if k' == k {
        assert m'.pending[n].Key() == k;
      } else {
        var n' :| n' in m.pending && m.pending[n'].Key() == k';
        assert n' in m'.pending && m'.pending[n'].Key() == k';
      }
    }
  }

  lemma SetTxStatusKeepsConsistent(
    m: Maps, k: TxKey, n: string, info: StatusInfo, tx: Option<Transaction>, now: int)
    requires Consistent(m)
    requires !info.status.ErrorOnSubmit? && n in m.pending ==> m.pending[n].Key() == k
    requires tx.Some? ==> tx.value.hash == k.hash
    ensures Consistent(SetTxStatus(m, k, n, info, tx, now))
  {
    SetTxStatusKeepsPending(m, k, n, info, tx, now);
    var m' := SetTxStatus(m, k, n, info, tx, now);
    forall k' ensures KeyConsistent(m', k') {
      assert KeyConsistent(m, k');
      if k' != k {
        OtherKeysUntouched(m, k, n, info, tx, now, k');
      }
    }
  }

  lemma HeightsDoNotMatter(m: Maps, q: Uint64, height: Uint64)
    requires Consistent(m)
    ensures Consistent(SetLastQueryHeight(m, q, height))
  {
    var m' := SetLastQueryHeight(m, q, height);
    forall k | k in m'.statuses && m'.statuses[k].status.Submitted? ensures IsPending(m', k) {
      var n :| n in m.pending && m.pending[n].Key() == k;
      assert n in m'.pending;
    }
    forall k ensures KeyConsistent(m', k) {
      assert KeyConsistent(m, k);
    }
  }

  lemma StepKeepsConsistent(c: Core, a: Act)
    requires Inv(c) && Enabled(c, a)
    ensures Consistent(Next(c, a).maps)
  {
    match a
    case Record(who, ok, now) =>
      if ok {
        var job := c.jobs[who];
        SetTxStatusKeepsConsistent(c.maps, job.Key(), JobNeutronHash(job), JobInfo(job), Some(job.tx), now);
      }
    case Settle(ok, now) =>
      if ok {
        var f := c.finding.value;
        SetTxStatusKeepsConsistent(c.maps, f.task.Key(), f.task.neutronHash, VerdictInfo(f.verdict), None, now);
      }
    case WriteHeight(q, height) => HeightsDoNotMatter(c.maps, q, height);
    case _ =>
  }

  lemma RecordKeepsAttributed(c: Core, who: Who, now: int)
    requires Inv(c) && Enabled(c, Record(who, true, now))
    ensures Attributed(Next(c, Record(who, true, now)))
  {
    assert JobAttributed(c.carried, c.jobs[who]);
  }

  lemma SettleKeepsAttributed(c: Core, now: int)
    requires Inv(c) && Enabled(c, Settle(true, now))
    ensures Attributed(Next(c, Settle(true, now)))
  {
    assert TaskAttributed(c.carried, c.maps.statuses, c.finding.value.task);
  }

  lemma StepKeepsAttributed(c: Core, a: Act)
    requires Inv(c) && Enabled(c, a)
    ensures Attributed(Next(c, a))
  {
    if a.Record? && a.ok {
      RecordKeepsAttributed(c, a.who, a.now);
    } else if a.Settle? && a.ok {
      SettleKeepsAttributed(c, a.now);
    }
  }

  /** The invariant holds in every state of every run, whatever the policy. */
  lemma {:induction false} LifecycleHolds(policy: Policy, c: Core, acts: seq<Act>)
    requires Inv(c) && Valid(policy, c, acts)
    ensures Inv(Exec(policy, c, acts))
    decreases |acts|
  {
    if acts != [] {
      var n := |acts| - 1;
      LifecycleHolds(policy, c, acts[..n]);
      StepKeepsConsistent(Exec(policy, c, acts[..n]), acts[n]);
      StepKeepsAttributed(Exec(policy, c, acts[..n]), acts[n]);
    }
  }

  lemma FreshInv()
    ensures Inv(FRESH)
  {
  }
}

/**
 Submitting transactions and following them up, as a state machine over the stored maps. The relay loop, the HTTP
 resubmit handlers and the background checker interleave freely; every storage call is one atomic step, it may fail,
 and a crash may happen between any two steps.
 */
module Submissions {
  import opened Decimal
  import opened Records

  /** What the neutron node says about an accepted transaction. */
  datatype Verdict = Included | Rejected(message: string)

  /** A submission in progress: read for submission, accepted by the chain, or refused with an ignorable error. */
  datatype Stage = Ready | Accepted(neutronHash: string) | Refused(message: string)

  datatype Job = Job(query: Uint64, tx: Transaction, stage: Stage) {
    function Key(): TxKey {
      TxKey(query, tx.hash)
    }
  }

  /** The relay loop submits one transaction at a time; HTTP requests are served concurrently. */
  datatype Who = Relay | Web(id: nat)

  /** The checker between its lookup and its storage write. */
  datatype Finding = Finding(task: PendingInfo, verdict: Verdict)

  datatype Core = Core(
    maps: Maps,
    jobs: map<Who, Job>,
    checks: set<PendingInfo>,       // armed timers, the task channel and the checker's startup list
    finding: Option<Finding>,
    carried: map<string, TxKey>,    // what each accepted neutron transaction carried
    answers: map<string, Verdict>,  // what the node has answered so far
    broadcasts: multiset<TxKey>)    // accepted broadcasts so far

  datatype Act =
    | Begin(query: Uint64, tx: Transaction)
    | ReadCached(id: nat, key: TxKey)
    | Accept(who: Who, neutronHash: string)
    | Refuse(who: Who, message: string)
    | Abandon(who: Who)
    | Record(who: Who, ok: bool, now: int)
    | Scan
    | Lookup(task: PendingInfo, verdict: Verdict, drop: bool)
    | LookupFails(task: PendingInfo)
    | Settle(ok: bool, now: int)
    | WriteHeight(query: Uint64, height: Uint64)
    | Crash

  predicate Enabled(c: Core, a: Act) {
    match a
    case Begin(q, tx) => Relay !in c.jobs && TxKey(q, tx.hash) !in c.maps.statuses
    case ReadCached(id, k) => Web(id) !in c.jobs && k in c.maps.cached
    case Accept(who, n) =>
      // a neutron hash identifies one query and transaction
      who in c.jobs && c.jobs[who].stage.Ready? && (n in c.carried ==> c.carried[n] == c.jobs[who].Key())
    case Refuse(who, message) => who in c.jobs && c.jobs[who].stage.Ready?
    case Abandon(who) => who in c.jobs && c.jobs[who].stage.Ready?
    case Record(who, ok, now) => who in c.jobs && !c.jobs[who].stage.Ready?
    case Scan => true
    case Lookup(task, verdict, drop) => task in c.checks && c.finding.None?
    case LookupFails(task) => task in c.checks
    case Settle(ok, now) => c.finding.Some?
    case WriteHeight(q, height) => true
    case Crash => true
  }

  function JobNeutronHash(job: Job): string {
    if job.stage.Accepted? then job.stage.neutronHash else ""
  }

  function JobInfo(job: Job): StatusInfo
    requires !job.stage.Ready?
  {
    match job.stage
    case Accepted(n) => StatusInfo(Submitted, "")
    case Refused(message) => StatusInfo(ErrorOnSubmit, message)
  }

  function VerdictInfo(v: Verdict): StatusInfo {
    match v
    case Included => StatusInfo(Committed, "")
    case Rejected(message) => StatusInfo(ErrorOnCommit, message)
  }

  /** What recording a finished submission does to the stored maps. */
  function RecordJob(m: Maps, job: Job, now: int): Maps
    requires !job.stage.Ready?
  {
    SetTxStatus(m, job.Key(), JobNeutronHash(job), JobInfo(job), Some(job.tx), now)
  }

  /** What recording the checker's finding does to the stored maps. */
  function SettleFinding(m: Maps, f: Finding, now: int): Maps {
    SetTxStatus(m, f.task.Key(), f.task.neutronHash, VerdictInfo(f.verdict), None, now)
  }

  function TaskOf(job: Job): PendingInfo {
    PendingInfo(job.query, job.tx.hash, JobNeutronHash(job))
  }

  function Next(c: Core, a: Act): Core
    requires Enabled(c, a)
  {
    match a
    case Begin(q, tx) => c.(jobs := c.jobs[Relay := Job(q, tx, Ready)])
    case ReadCached(id, k) => c.(jobs := c.jobs[Web(id) := Job(k.query, c.maps.cached[k], Ready)])
    case Accept(who, n) =>
      c.(jobs := c.jobs[who := c.jobs[who].(stage := Accepted(n))],
         carried := c.carried[n := c.jobs[who].Key()],
         broadcasts := c.broadcasts + multiset{c.jobs[who].Key()})
    case Refuse(who, message) => c.(jobs := c.jobs[who := c.jobs[who].(stage := Refused(message))])
    case Abandon(who) => c.(jobs := c.jobs - {who})
    case Record(who, ok, now) =>
      if !ok then c.(jobs := c.jobs - {who})
      else c.(jobs := c.jobs - {who},
              maps := RecordJob(c.maps, c.jobs[who], now),
              checks := if c.jobs[who].stage.Accepted? then c.checks + {TaskOf(c.jobs[who])} else c.checks)
    case Scan => c.(checks := c.checks + set n | n in c.maps.pending :: c.maps.pending[n])
    case Lookup(task, verdict, drop) =>
      c.(finding := Some(Finding(task, verdict)),
         answers := c.answers[task.neutronHash := verdict],
         checks := if drop then c.checks - {task} else c.checks)
    case LookupFails(task) => c.(checks := c.checks - {task})
    case Settle(ok, now) =>
      if ok then c.(finding := None, maps := SettleFinding(c.maps, c.finding.value, now)) else c.(finding := None)
    case WriteHeight(q, height) => c.(maps := SetLastQueryHeight(c.maps, q, height))
    case Crash => c.(jobs := map[], checks := {}, finding := None)
  }

  const FRESH := Core(EMPTY_MAPS, map[], {}, None, map[], map[], multiset{})

  // ----- runs -----

  /** Which behaviours of the environment a result admits. */
  datatype Policy = Free | Disciplined | Once

  /** Nothing about k is on its way: no submission, no stored pending entry, no check. */
  ghost predicate Quiet(c: Core, k: TxKey) {
    && (forall who :: who in c.jobs ==> c.jobs[who].Key() != k)
    && (forall n :: n in c.maps.pending ==> c.maps.pending[n].Key() != k)
    && (forall t :: t in c.checks ==> t.Key() != k)
    && (c.finding.Some? ==> c.finding.value.task.Key() != k)
  }

  ghost predicate Allows(policy: Policy, c: Core, a: Act) {
    match policy
    case Free => true
    case Disciplined =>
      // resubmission only when nothing is outstanding, and the result of a neutron transaction never changes
      && (a.ReadCached? ==> Quiet(c, a.key))
      && (a.Lookup? && a.task.neutronHash in c.answers ==> c.answers[a.task.neutronHash] == a.verdict)
    case Once =>
      // no resubmission, and no crash or storage failure between an accepted broadcast and its record
      && !a.ReadCached?
      && (Relay in c.jobs && c.jobs[Relay].stage.Accepted? ==> !a.Crash? && !(a.Record? && a.who.Relay? && !a.ok))
  }

  ghost predicate Valid(policy: Policy, c: Core, acts: seq<Act>)
    decreases |acts|, 0
  {
    acts == [] ||
    var n := |acts| - 1;
    && Valid(policy, c, acts[..n])
    && Enabled(Exec(policy, c, acts[..n]), acts[n])
    && Allows(policy, Exec(policy, c, acts[..n]), acts[n])
  }

  ghost function Exec(policy: Policy, c: Core, acts: seq<Act>): Core
    requires Valid(policy, c, acts)
    decreases |acts|, 1
  {
    if acts == [] then c else Next(Exec(policy, c, acts[..|acts| - 1]), acts[|acts| - 1])
  }
}

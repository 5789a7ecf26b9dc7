/** What is on disk during a run: the flat key space that the run's storage calls leave behind. */
module Persistence {
  import opened Decimal
  import opened Records
  import opened Keys
  import opened Submissions
  import opened Lifecycle
  import L = LevelDb

  /** The storage call by which a step of an actor changes the database, if it changes it. */
  function CallOf(c: Core, a: Act): Option<L.Call>
    requires Enabled(c, a)
  {
    match a
    case Record(who, ok, now) =>
      var job := c.jobs[who];
      if ok then Some(L.SetStatus(job.Key(), JobNeutronHash(job), JobInfo(job), Some(job.tx), now)) else None
    case Settle(ok, now) =>
      var f := c.finding.value;
      if ok then Some(L.SetStatus(f.task.Key(), f.task.neutronHash, VerdictInfo(f.verdict), None, now)) else None
    case WriteHeight(q, height) => Some(L.SetHeight(q, height))
    case _ => None
  }

  /** The database after a run from an empty one. A crash leaves it as it is. */
  ghost function OnDisk(policy: Policy, acts: seq<Act>): L.Database
    requires Valid(policy, FRESH, acts)
    decreases |acts|
  {
    if acts == [] then map[]
    else
      var n := |acts| - 1;
      var before, call := OnDisk(policy, acts[..n]), CallOf(Exec(policy, FRESH, acts[..n]), acts[n]);
      if call.Some? then L.FlatCall(before, call.value).0 else before
  }

  lemma StepIsStored(c: Core, a: Act)
    requires Enabled(c, a)
    ensures Next(c, a).maps == if CallOf(c, a).Some? then L.MapsCall(c.maps, CallOf(c, a).value).0 else c.maps
  {
  }

  /** The five maps of the state machine are, at every moment of every run, what the flat database stands for. */
  lemma {:induction false} DiskFollowsRun(policy: Policy, acts: seq<Act>)
    requires Valid(policy, FRESH, acts)
    ensures L.Represents(OnDisk(policy, acts), Exec(policy, FRESH, acts).maps)
    decreases |acts|
  {
    if acts == [] {
      L.EmptyRepresents();
    } else {
      var n := |acts| - 1;
      var c := Exec(policy, FRESH, acts[..n]);
      DiskFollowsRun(policy, acts[..n]);
      StepIsStored(c, acts[n]);
      if CallOf(c, acts[n]).Some? {
        L.CallRefines(OnDisk(policy, acts[..n]), c.maps, CallOf(c, acts[n]).value);
      }
    }
  }

  lemma Reads(db: L.Database, m: Maps, k: TxKey)
    requires L.Represents(db, m)
    ensures L.Lookup(db, StatusKey(k.query, k.hash)) == L.Entry(m, StatusSlot(k))
    ensures L.Lookup(db, UnsuccessfulKey(k.query, k.hash)) == L.Entry(m, UnsuccessfulSlot(k))
    ensures L.Lookup(db, CachedKey(k.query, k.hash)) == L.Entry(m, CachedSlot(k))
  {
    assert L.Lookup(db, SlotKey(StatusSlot(k))) == L.Entry(m, StatusSlot(k));
    assert L.Lookup(db, SlotKey(UnsuccessfulSlot(k))) == L.Entry(m, UnsuccessfulSlot(k));
    assert L.Lookup(db, SlotKey(CachedSlot(k))) == L.Entry(m, CachedSlot(k));
  }

  /** A database whose records about k agree with each other. */
  ghost predicate DiskConsistent(db: L.Database, k: TxKey) {
    var status := L.Lookup(db, StatusKey(k.query, k.hash));
    var unsuccessful := L.Lookup(db, UnsuccessfulKey(k.query, k.hash));
    var cached := L.Lookup(db, CachedKey(k.query, k.hash));
    && (status.Some? ==> status.value.StatusRecord?)
    && (unsuccessful.Some? ==> unsuccessful.value.UnsuccessfulRecord?)
    && (cached.Some? ==> status.Some? && !status.value.status.status.Committed?)
    && (status.Some? && status.value.status.status.Submitted? ==>
          exists n :: L.PendingRecord(PendingInfo(k.query, k.hash, n)) in L.FlatScan(db, PENDING_PREFIX))
    && (status.Some? && IsError(status.value.status.status) ==>
          unsuccessful.Some? && unsuccessful.value.unsuccessful.status == status.value.status.status)
    && (status.Some? && status.value.status.status.Committed? ==> cached.None? && unsuccessful.None?)
  }

  lemma SubmittedIsScanned(db: L.Database, m: Maps, k: TxKey)
    requires L.Represents(db, m) && PendingConsistent(m)
    requires k in m.statuses && m.statuses[k].status.Submitted?
    ensures exists n :: L.PendingRecord(PendingInfo(k.query, k.hash, n)) in L.FlatScan(db, PENDING_PREFIX)
  {
    assert IsPending(m, k);
    var n :| n in m.pending && m.pending[n].Key() == k;
    L.ScanRefines(db, m);
    assert m.pending[n] == PendingInfo(k.query, k.hash, n);
  }

  lemma ConsistentOnDisk(db: L.Database, m: Maps, k: TxKey)
    requires L.Represents(db, m) && PendingConsistent(m) && KeyConsistent(m, k)
    ensures DiskConsistent(db, k)
  {
    Reads(db, m, k);
    if k in m.statuses && m.statuses[k].status.Submitted? { SubmittedIsScanned(db, m, k); }
  }

  /** What a restart finds on disk, whatever was going on before: the records about every (query, hash) agree, and a
      Submitted one is among those the pending scan returns. */
  lemma DiskIsConsistent(policy: Policy, acts: seq<Act>, k: TxKey)
    requires Valid(policy, FRESH, acts)
    ensures DiskConsistent(OnDisk(policy, acts), k)
  {
    DiskFollowsRun(policy, acts);
    FreshInv();
    LifecycleHolds(policy, FRESH, acts);
    ConsistentOnDisk(OnDisk(policy, acts), Exec(policy, FRESH, acts).maps, k);
  }
}

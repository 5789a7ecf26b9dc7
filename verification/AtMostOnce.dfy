/**
 How often a transaction is accepted by the neutron chain. Every accepted broadcast beyond the first is paid for by a
 resubmission request, or by a crash or storage failure between an accepted broadcast and its record; without these
 there is at most one, however often searches return the transaction.
 */
module AtMostOnce {
  import opened Decimal
  import opened Records
  import opened Submissions
  import opened Lifecycle

  ghost predicate RelayAccepted(c: Core, k: TxKey) {
    Relay in c.jobs && c.jobs[Relay].Key() == k && c.jobs[Relay].stage.Accepted?
  }

  /** The step forgets an accepted broadcast of the relay loop before it is recorded. */
  ghost predicate Loses(c: Core, a: Act, k: TxKey) {
    RelayAccepted(c, k) && (a.Crash? || (a.Record? && a.who.Relay? && !a.ok))
  }

  /** The resubmission requests for k in a run, and the accepted broadcasts of k it forgets. */
  ghost function Excess(policy: Policy, c: Core, acts: seq<Act>, k: TxKey): nat
    requires Valid(policy, c, acts)
    decreases |acts|
  {
    if acts == [] then 0
    else
      var n := |acts| - 1;
      Excess(policy, c, acts[..n], k)
      + (if (acts[n].ReadCached? && acts[n].key == k) || Loses(Exec(policy, c, acts[..n]), acts[n], k) then 1 else 0)
  }

  /** HTTP requests that may still broadcast k. */
  ghost function Waiting(c: Core, k: TxKey): set<Who> {
    set who | who in c.jobs && who.Web? && c.jobs[who].Key() == k && c.jobs[who].stage.Ready?
  }

  ghost predicate JobsPlaced(c: Core) {
    forall who :: who in c.jobs ==> (who.Relay? <==> c.jobs[who].Key() !in c.maps.statuses)
  }

  ghost predicate Budget(c: Core, k: TxKey, excess: nat) {
    c.broadcasts[k] + |Waiting(c, k)| <= excess + if k in c.maps.statuses || RelayAccepted(c, k) then 1 else 0
  }

  /** Recording a job keeps the statuses there are, and adds none but its own. */
  lemma RecordKeepsJobsPlaced(c: Core, who: Who, ok: bool, now: int)
    requires JobsPlaced(c) && Enabled(c, Record(who, ok, now))
    ensures JobsPlaced(Next(c, Record(who, ok, now)))
  {
  }

  lemma StepKeepsJobsPlaced(c: Core, a: Act)
    requires Inv(c) && JobsPlaced(c) && Enabled(c, a)
    ensures JobsPlaced(Next(c, a))
  {
    if a.ReadCached? {
      assert KeyConsistent(c.maps, a.key);
    } else if a.Record? {
      RecordKeepsJobsPlaced(c, a.who, a.ok, a.now);
    } else if a.Settle? {
      assert TaskAttributed(c.carried, c.maps.statuses, c.finding.value.task);
      assert Next(c, a).maps.statuses.Keys == c.maps.statuses.Keys;
    }
  }

  lemma Fewer(small: set<Who>, large: set<Who>)
    requires small <= large
    ensures |small| <= |large|
  {
    assert large == small + (large - small);
  }

  /** A request for k waits for one more broadcast of k, and of nothing else. */
  lemma ReadCachedWaits(c: Core, id: nat, k': TxKey, k: TxKey)
    requires Inv(c) && Enabled(c, ReadCached(id, k'))
    ensures Waiting(Next(c, ReadCached(id, k')), k) == if k' == k then Waiting(c, k) + {Web(id)} else Waiting(c, k)
  {
    assert KeyConsistent(c.maps, k');
  }

  lemma ReadCachedKeepsBudget(c: Core, id: nat, k': TxKey, k: TxKey, excess: nat)
    requires Inv(c) && Enabled(c, ReadCached(id, k')) && Budget(c, k, excess)
    ensures Budget(Next(c, ReadCached(id, k')), k, excess + if k' == k then 1 else 0)
  {
    ReadCachedWaits(c, id, k', k);
    var c' := c.(jobs := c.jobs[Web(id) := Job(k'.query, c.maps.cached[k'], Ready)]);
    assert RelayAccepted(c', k) == RelayAccepted(c, k);
  }

  lemma AcceptKeepsBudget(c: Core, who: Who, n: string, k: TxKey, excess: nat)
    requires JobsPlaced(c) && Enabled(c, Accept(who, n)) && Budget(c, k, excess)
    ensures Budget(Next(c, Accept(who, n)), k, excess)
  {
    var c' := Next(c, Accept(who, n));
    if c.jobs[who].Key() == k && who.Web? {
      assert Waiting(c, k) == Waiting(c', k) + {who};
    } else {
      assert Waiting(c', k) == Waiting(c, k);
    }
  }

  lemma RecordKeepsBudget(c: Core, who: Who, ok: bool, now: int, k: TxKey, excess: nat)
    requires Enabled(c, Record(who, ok, now)) && Budget(c, k, excess)
    ensures Budget(Next(c, Record(who, ok, now)), k,
                   excess + if Loses(c, Record(who, ok, now), k) then 1 else 0)
  {
    Fewer(Waiting(Next(c, Record(who, ok, now)), k), Waiting(c, k));
  }

  lemma StepKeepsBudget(c: Core, a: Act, k: TxKey, excess: nat)
    requires Inv(c) && JobsPlaced(c) && Enabled(c, a) && Budget(c, k, excess)
    ensures Budget(Next(c, a), k,
                   excess + if (a.ReadCached? && a.key == k) || Loses(c, a, k) then 1 else 0)
  {
    if a.ReadCached? {
      ReadCachedKeepsBudget(c, a.id, a.key, k, excess);
    } else if a.Accept? {
      AcceptKeepsBudget(c, a.who, a.neutronHash, k, excess);
    } else if a.Record? {
      RecordKeepsBudget(c, a.who, a.ok, a.now, k, excess);
    } else {
      Fewer(Waiting(Next(c, a), k), Waiting(c, k));
    }
  }

  /** Broadcasts are conserved, for every run under every policy and every (query, hash). */
  lemma {:induction false} BroadcastsAreConserved(policy: Policy, acts: seq<Act>, k: TxKey)
    requires Valid(policy, FRESH, acts)
    ensures Exec(policy, FRESH, acts).broadcasts[k] <= 1 + Excess(policy, FRESH, acts, k)
    ensures var c := Exec(policy, FRESH, acts);
            Inv(c) && JobsPlaced(c) && Budget(c, k, Excess(policy, FRESH, acts, k))
    decreases |acts|
  {
    if acts == [] {
      assert Waiting(FRESH, k) == {};
      FreshInv();
    } else {
      var n := |acts| - 1;
      BroadcastsAreConserved(policy, acts[..n], k);
      var c := Exec(policy, FRESH, acts[..n]);
      StepKeepsConsistent(c, acts[n]);
      StepKeepsAttributed(c, acts[n]);
      StepKeepsJobsPlaced(c, acts[n]);
      StepKeepsBudget(c, acts[n], k, Excess(policy, FRESH, acts[..n], k));
    }
  }

  lemma {:induction false} NoExcess(acts: seq<Act>, k: TxKey)
    requires Valid(Once, FRESH, acts)
    ensures Excess(Once, FRESH, acts, k) == 0
    decreases |acts|
  {
    if acts != [] {
      NoExcess(acts[..|acts| - 1], k);
    }
  }

  /** At most one accepted broadcast per (query, hash), across all passes, crashes and restarts. */
  lemma AtMostOneBroadcast(acts: seq<Act>, k: TxKey)
    requires Valid(Once, FRESH, acts)
    ensures Exec(Once, FRESH, acts).broadcasts[k] <= 1
  {
    BroadcastsAreConserved(Once, acts, k);
    NoExcess(acts, k);
  }

  lemma ValidSnoc(policy: Policy, c: Core, acts: seq<Act>, a: Act)
    requires Valid(policy, c, acts) && Enabled(Exec(policy, c, acts), a) && Allows(policy, Exec(policy, c, acts), a)
    ensures Valid(policy, c, acts + [a]) && Exec(policy, c, acts + [a]) == Next(Exec(policy, c, acts), a)
  {
    assert (acts + [a])[..|acts|] == acts;
  }

  /** After a crash the relay loop broadcasts whatever has no record, whether or not it did so before. */
  lemma BroadcastAfterCrash(acts: seq<Act>, q: Uint64, tx: Transaction, n: string) returns (longer: seq<Act>)
    requires Valid(Free, FRESH, acts)
    requires var c := Exec(Free, FRESH, acts);
             && TxKey(q, tx.hash) !in c.maps.statuses
             && (n in c.carried ==> c.carried[n] == TxKey(q, tx.hash))
    ensures Valid(Free, FRESH, longer)
    ensures var c, c', k := Exec(Free, FRESH, acts), Exec(Free, FRESH, longer), TxKey(q, tx.hash);
            c'.broadcasts == c.broadcasts + multiset{k} && c'.maps == c.maps && c'.carried == c.carried[n := k]
  {
    ValidSnoc(Free, FRESH, acts, Crash);
    var crashed := acts + [Crash];
    ValidSnoc(Free, FRESH, crashed, Begin(q, tx));
    var begun := crashed + [Begin(q, tx)];
    ValidSnoc(Free, FRESH, begun, Accept(Relay, n));
    longer := begun + [Accept(Relay, n)];
  }

  /** The bound is met: a crash between an accepted broadcast and its record lets a second one follow. */
  lemma CrashAllowsSecondBroadcast(q: Uint64, tx: Transaction) returns (acts: seq<Act>)
    ensures Valid(Free, FRESH, acts)
    ensures Exec(Free, FRESH, acts).broadcasts[TxKey(q, tx.hash)] == 2
  {
    var once := BroadcastAfterCrash([], q, tx, "a");
    acts := BroadcastAfterCrash(once, q, tx, "b");
  }

  // ----- when another broadcast can follow -----

  lemma {:induction false} LongerThanAll(texts: set<string>) returns (n: nat)
    ensures forall t :: t in texts ==> |t| < n
  {
    n := 0;
    if texts != {} {
      var t :| t in texts;
      var m := LongerThanAll(texts - {t});
      n := if m <= |t| then |t| + 1 else m;
      forall t' | t' in texts ensures |t'| < n {
        assert t' != t ==> t' in texts - {t};
      }
    }
  }

  lemma FreshHashExists(carried: map<string, TxKey>)
    ensures exists n: string :: n !in carried
  {
    var k := LongerThanAll(carried.Keys);
    var n := seq(k, _ => 'x');
    assert n !in carried.Keys;
  }

  ghost predicate Unrequested(acts: seq<Act>, k: TxKey) {
    forall a :: a in acts ==> !(a.ReadCached? && a.key == k)
  }

  /** k has a record and no request for it is waiting. */
  ghost predicate Settled(c: Core, k: TxKey) {
    k in c.maps.statuses && Waiting(c, k) == {}
  }

  lemma StepKeepsSettled(c: Core, a: Act, k: TxKey)
    requires Inv(c) && JobsPlaced(c) && Enabled(c, a) && Settled(c, k) && !(a.ReadCached? && a.key == k)
    ensures Settled(Next(c, a), k) && Next(c, a).broadcasts[k] == c.broadcasts[k]
  {
    if a.ReadCached? {
      ReadCachedWaits(c, a.id, a.key, k);
    } else if a.Accept? {
      assert a.who !in Waiting(c, k);
      assert Waiting(Next(c, a), k) <= Waiting(c, k);
    } else {
      assert Waiting(Next(c, a), k) <= Waiting(c, k);
    }
  }

  lemma {:induction false} SettledStaysSettled(c: Core, more: seq<Act>, k: TxKey)
    requires Inv(c) && JobsPlaced(c) && Settled(c, k) && Valid(Free, c, more) && Unrequested(more, k)
    ensures var d := Exec(Free, c, more);
            Inv(d) && JobsPlaced(d) && Settled(d, k) && d.broadcasts[k] == c.broadcasts[k]
    decreases |more|
  {
    if more != [] {
      var n := |more| - 1;
      var d := Exec(Free, c, more[..n]);
      assert Unrequested(more[..n], k) && more[n] in more;
      SettledStaysSettled(c, more[..n], k);
      StepKeepsConsistent(d, more[n]);
      StepKeepsAttributed(d, more[n]);
      StepKeepsJobsPlaced(d, more[n]);
      StepKeepsSettled(d, more[n], k);
    }
  }

  /** The continuation broadcasts k once more, without a new request for it. */
  ghost predicate BroadcastsAgain(c: Core, more: seq<Act>, k: TxKey) {
    Valid(Free, c, more) && Unrequested(more, k) && c.broadcasts[k] < Exec(Free, c, more).broadcasts[k]
  }

  lemma UnrecordedIsBroadcast(c: Core, k: TxKey) returns (more: seq<Act>)
    requires k !in c.maps.statuses
    ensures BroadcastsAgain(c, more, k)
  {
    FreshHashExists(c.carried);
    var n: string :| n !in c.carried;
    var tx := Transaction(k.hash, 0);
    ValidSnoc(Free, c, [], Crash);
    ValidSnoc(Free, c, [Crash], Begin(k.query, tx));
    ValidSnoc(Free, c, [Crash] + [Begin(k.query, tx)], Accept(Relay, n));
    more := [Crash] + [Begin(k.query, tx)] + [Accept(Relay, n)];
  }

  lemma WaitingIsBroadcast(c: Core, k: TxKey) returns (more: seq<Act>)
    requires Waiting(c, k) != {}
    ensures BroadcastsAgain(c, more, k)
  {
    FreshHashExists(c.carried);
    var n: string :| n !in c.carried;
    var who :| who in Waiting(c, k);
    ValidSnoc(Free, c, [], Accept(who, n));
    more := [] + [Accept(who, n)];
  }

  /** Exactly when, from a reachable state, another broadcast of a (query, hash) can follow without a new request: when
      it has no record, or a request for it is still waiting. */
  lemma BroadcastAgainExactly(acts: seq<Act>, k: TxKey)
    requires Valid(Free, FRESH, acts)
    ensures var c := Exec(Free, FRESH, acts);
            (exists more :: BroadcastsAgain(c, more, k)) <==> k !in c.maps.statuses || Waiting(c, k) != {}
  {
    var c := Exec(Free, FRESH, acts);
    BroadcastsAreConserved(Free, acts, k);
    if k !in c.maps.statuses {
      var more := UnrecordedIsBroadcast(c, k);
    } else if Waiting(c, k) != {} {
      var more := WaitingIsBroadcast(c, k);
    } else {
      forall more | Valid(Free, c, more) && Unrequested(more, k) ensures !BroadcastsAgain(c, more, k) {
        SettledStaysSettled(c, more, k);
      }
    }
  }
}

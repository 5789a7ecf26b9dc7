/** The subscriber: which registered queries are active, and when each of them is dispatched. */
module Subscriber {
  import opened Decimal
  import opened Pages
  import opened Spacing

  datatype RemoteHeight = RemoteHeight(revision: Uint64, height: Uint64)

  datatype RegisteredQuery =
    RegisteredQuery(
      id: Uint64, owner: string, queryType: string, updatePeriod: Uint64, last: Uint64, remote: RemoteHeight)

  type Active = map<string, RegisteredQuery>

  /** What the relayer is configured to watch; an empty registry list watches everything. */
  datatype Config = Config(types: set<string>, addresses: set<string>, ids: set<Uint64>) {
    predicate WatchesType(t: string) { t in types }
    predicate WatchesId(id: Uint64) { ids == {} || id in ids }
    predicate WatchesAddress(a: string) { addresses == {} || a in addresses }
  }

  /** A height as text. */
  datatype RestHeight = RestHeight(revision: string, height: string) {
    function Convert(): Option<RemoteHeight> {
      if ParseUint(revision).None? || ParseUint(height).None? then None
      else Some(RemoteHeight(ParseUint(revision).value, ParseUint(height).value))
    }
  }

  /** A query as the registry endpoint lists it; one without a submitted result has no remote height. */
  datatype RestQuery =
    RestQuery(
      id: string, owner: string, queryType: string, updatePeriod: string, last: string, remote: Option<RestHeight>)
  {
    function Convert(): Option<RegisteredQuery> {
      var height := if remote.Some? then remote.value.Convert() else Some(RemoteHeight(0, 0));
      if ParseUint(id).None? || ParseUint(updatePeriod).None? || ParseUint(last).None? || height.None? then None
      else Some(RegisteredQuery(ParseUint(id).value, owner, queryType, ParseUint(updatePeriod).value,
                                ParseUint(last).value, height.value))
    }
  }

  /** The attributes of a group of query events; only the number of the keys, filters and types matters. */
  datatype Event = Event(connections: nat, kvKeys: nat, filters: nat, types: nat, ids: seq<string>, owners: seq<string>)

  datatype Check = Empty | Mismatch | Matching

  function CheckEvents(e: Event): Check {
    if e.connections == 0 then Empty
    else if e.kvKeys != e.connections || e.filters != e.connections
            || |e.ids| != e.connections || e.types != e.connections
    then Mismatch
    else Matching
  }

  predicate Due(q: RegisteredQuery, height: Uint64) {
    !(q.last != 0 && height < WrappingAdd(q.last, q.updatePeriod))
  }

  // ----- what each event does, as functions -----

  function AfterBlock(active: Active, height: Uint64): Active {
    map id | id in active :: Touched(active[id], height)
  }

  function Touched(q: RegisteredQuery, height: Uint64): RegisteredQuery {
    if Due(q, height) then q.(last := height) else q
  }

  /** The tasks of a block event, when the map is iterated in the given order. */
  function DueTasks(active: Active, order: seq<string>, height: Uint64): seq<RegisteredQuery>
    requires forall i :: 0 <= i < |order| ==> order[i] in active
  {
    if order == [] then []
    else
      var id := order[|order| - 1];
      DueTasks(active, order[..|order| - 1], height) + if Due(active[id], height) then [active[id]] else []
  }

  /** What the i-th update of an event group does: None if its ID does not parse. */
  function UpdateOne(cfg: Config, active: Active, owner: string, id: string, registry: Active): Option<Active> {
    if !cfg.WatchesAddress(owner) then Some(active)
    else match ParseUint(id)
      case None => None
      case Some(n) =>
        if !cfg.WatchesId(n) || id !in registry || !cfg.WatchesType(registry[id].queryType) then Some(active)
        else Some(active[id := registry[id]])
  }

  /** How the handling of an event group ends: an ID that does not parse stops the subscriber with an error, and a
      missing owner ends the program. */
  datatype GroupEnd = Completed | Stopped | Panicked

  /** The active queries after the first n updates. */
  function AfterUpdates(cfg: Config, active: Active, e: Event, registry: Active, n: nat): (Active, GroupEnd)
    requires n <= |e.ids|
  {
    if n == 0 then (active, Completed)
    else
      var (before, end) := AfterUpdates(cfg, active, e, registry, n - 1);
      if !end.Completed? then (before, end)
      else if |e.owners| < n then (before, Panicked)
      else match UpdateOne(cfg, before, e.owners[n - 1], e.ids[n - 1], registry)
        case None => (before, Stopped)
        case Some(after) => (after, Completed)
  }

  ghost predicate Enumerates(order: seq<string>, active: Active) {
    && (forall id :: id in order <==> id in active)
    && (forall i, j :: 0 <= i < j < |order| ==> order[i] != order[j])
  }

  /** The first i queries of the order have been handled. */
  ghost predicate PartlyTouched(was: Active, active: Active, order: seq<string>, i: nat, height: Uint64) {
    && active.Keys == was.Keys
    && (forall j :: 0 <= j < |order| ==> order[j] in was)
    && (forall j :: 0 <= j < |order| && j < i ==> active[order[j]] == Touched(was[order[j]], height))
    && (forall j :: 0 <= j < |order| && i <= j ==> active[order[j]] == was[order[j]])
  }

  lemma DueTasksNext(active: Active, order: seq<string>, i: nat, height: Uint64)
    requires i < |order| && forall j :: 0 <= j < |order| ==> order[j] in active
    ensures DueTasks(active, order[..i + 1], height)
            == DueTasks(active, order[..i], height) + if Due(active[order[i]], height) then [active[order[i]]] else []
  {
    assert order[..i + 1][..i] == order[..i];
  }

  lemma AllTouched(was: Active, active: Active, order: seq<string>, height: Uint64)
    requires Enumerates(order, was) && active.Keys == was.Keys
    requires forall j :: 0 <= j < |order| ==> order[j] in was && active[order[j]] == Touched(was[order[j]], height)
    ensures active == AfterBlock(was, height)
  {
    forall id | id in active ensures active[id] == AfterBlock(was, height)[id] {
      assert id in order;
    }
  }

  class Subscriber {
    const cfg: Config
    var active: Active

    constructor (cfg: Config)
      ensures this.cfg == cfg && active == map[]
    {
      this.cfg := cfg;
      active := map[];
    }

    /** Each due query is dispatched once and remembers the height; `order` is the map's iteration order. */
    method ProcessBlockEvent(status: Option<Uint64>, order: seq<string>) returns (ok: bool, tasks: seq<RegisteredQuery>)
      requires Enumerates(order, active)
      modifies this
      ensures ok == status.Some?
      ensures !ok ==> active == old(active) && tasks == []
      ensures ok ==> active == AfterBlock(old(active), status.value)
      ensures ok ==> (forall i :: 0 <= i < |order| ==> order[i] in old(active))
                     && tasks == DueTasks(old(active), order, status.value)
    {
      if status.None? { return false, []; }
      var height := status.value;
      ghost var was := active;
      tasks := [];
      assert forall i :: 0 <= i < |order| ==> order[i] in order;
      for i := 0 to |order|
        invariant PartlyTouched(was, active, order, i, height)
        invariant tasks == DueTasks(was, order[..i], height)
      {
        var task := DispatchIfDue(was, order, i, height);
        DueTasksNext(was, order, i, height);
        tasks := tasks + task;
      }
      assert order[..|order|] == order;
      AllTouched(was, active, order, height);
      ok := true;
    }

    /** Queries before i in the order have been handled; this is the turn of the i-th. */
    method DispatchIfDue(ghost was: Active, order: seq<string>, i: nat, height: Uint64)
      returns (task: seq<RegisteredQuery>)
      requires i < |order| && PartlyTouched(was, active, order, i, height)
      requires forall j, k :: 0 <= j < k < |order| ==> order[j] != order[k]
      modifies this
      ensures PartlyTouched(was, active, order, i + 1, height)
      ensures task == if Due(was[order[i]], height) then [was[order[i]]] else []
    {
      var id := order[i];
      task := [];
      if Due(active[id], height) {
        task := [active[id]];
        active := active[id := active[id].(last := height)];
      }
    }

    /** checkEvents does not look at the owners: with fewer owners than events the program may panic. */
    method ProcessUpdateEvent(e: Event, registry: Active) returns (end: GroupEnd)
      modifies this
      ensures CheckEvents(e).Empty? ==> end.Completed? && active == old(active)
      ensures CheckEvents(e).Mismatch? ==> end.Stopped? && active == old(active)
      ensures CheckEvents(e).Matching? ==> (active, end) == AfterUpdates(cfg, old(active), e, registry, |e.ids|)
    {
      if CheckEvents(e).Empty? { return Completed; }
      if CheckEvents(e).Mismatch? { return Stopped; }
      for i := 0 to e.connections
        invariant (active, Completed) == AfterUpdates(cfg, old(active), e, registry, i)
      {
        if |e.owners| <= i {
          EndedStaysEnded(cfg, old(active), e, registry, i + 1, |e.ids|);
          return Panicked;
        }
        var owner, id := e.owners[i], e.ids[i];
        if !cfg.WatchesAddress(owner) { continue; }
        var n := ParseUint(id);
        if n.None? {
          EndedStaysEnded(cfg, old(active), e, registry, i + 1, |e.ids|);
          return Stopped;
        }
        if !cfg.WatchesId(n.value) { continue; }
        if id !in registry { continue; }
        if !cfg.WatchesType(registry[id].queryType) { continue; }
        active := active[id := registry[id]];
      }
      end := Completed;
    }

    method ProcessRemoveEvent(e: Event) returns (ok: bool)
      modifies this
      ensures ok == !CheckEvents(e).Mismatch?
      ensures active == if CheckEvents(e).Matching? then old(active) - (set id | id in e.ids) else old(active)
    {
      if CheckEvents(e).Empty? { return true; }
      if CheckEvents(e).Mismatch? { return false; }
      for i := 0 to e.connections
        invariant active == old(active) - (set id | id in e.ids[..i])
      {
        assert e.ids[..i + 1] == e.ids[..i] + [e.ids[i]];
        active := active - {e.ids[i]};
      }
      assert e.ids[..|e.ids|] == e.ids;
      ok := true;
    }

    method AddPage(ghost before: seq<RestQuery>, found: Active, queries: seq<RestQuery>) returns (out: Option<Active>)
      requires Collected(cfg, before) == Some(found)
      ensures out == Collected(cfg, before + queries)
    {
      var more := found;
      assert before + queries[..0] == before;
      for j := 0 to |queries|
        invariant Collected(cfg, before + queries[..j]) == Some(more)
      {
        CollectedStep(cfg, before, queries, j);
        var q := queries[j].Convert();
        if q.None? {
          FailedPrefix(cfg, before, queries, j + 1);
          return None;
        }
        if Watched(cfg, q.value) {
          more := more[queries[j].id := q.value];
        }
      }
      assert queries[..|queries|] == queries;
      out := Some(more);
    }

    method ReadPage(pages: seq<Page<RestQuery>>, i: nat, found: Active) returns (out: Option<Active>)
      requires i < |pages| && (forall k :: 0 <= k < i ==> pages[k].Page?)
      requires Collected(cfg, Concatenated(pages[..i])) == Some(found)
      ensures pages[i].Unreachable? ==> out == None
      ensures pages[i].Page? ==> out == Collected(cfg, Concatenated(pages[..i + 1]))
      ensures pages[i].Page? && out.None? ==> Collected(cfg, Concatenated(pages)).None?
    {
      if pages[i].Unreachable? { return None; }
      ConcatenatedStep(pages, i);
      out := AddPage(Concatenated(pages[..i]), found, pages[i].items);
      if out.None? { ListedPrefixFails(cfg, pages, i + 1); }
    }

    /** All pages of the registry, one after the other while a next one is announced; `pages` are the answers. */
    method GetNeutronRegisteredQueries(pages: seq<Page<RestQuery>>) returns (out: Option<Active>)
      requires 0 < |pages| && Chained(pages)
      ensures out == if AllReachable(pages) then Collected(cfg, Concatenated(pages)) else None
    {
      var i := 0;
      out := Some(map[]);
      while true
        invariant i < |pages| && forall k :: 0 <= k < i ==> pages[k].Page?
        invariant out.Some? && Collected(cfg, Concatenated(pages[..i])) == out
        decreases |pages| - i
      {
        out := ReadPage(pages, i, out.value);
        if out.None? { return; }
        i := i + 1;
        LastPage(pages, i);
        if !pages[i - 1].more { return; }
      }
    }
  }

  // ----- what the registry scan collects -----

  predicate Watched(cfg: Config, q: RegisteredQuery) {
    cfg.WatchesType(q.queryType) && cfg.WatchesId(q.id)
  }

  function Collected(cfg: Config, queries: seq<RestQuery>): Option<Active> {
    if queries == [] then Some(map[])
    else Extended(cfg, Collected(cfg, queries[..|queries| - 1]), queries[|queries| - 1])
  }

  /** What has been collected, with one more listed query; one that does not convert fails the scan. */
  function Extended(cfg: Config, before: Option<Active>, listed: RestQuery): Option<Active> {
    if before.None? || listed.Convert().None? then None
    else if Watched(cfg, listed.Convert().value) then Some(before.value[listed.id := listed.Convert().value])
    else before
  }

  lemma {:induction false} FailedStaysFailed(cfg: Config, queries: seq<RestQuery>, n: nat)
    requires n <= |queries| && Collected(cfg, queries[..n]).None?
    ensures Collected(cfg, queries).None?
    decreases |queries|
  {
    if n < |queries| {
      assert queries[..|queries| - 1][..n] == queries[..n];
      FailedStaysFailed(cfg, queries[..|queries| - 1], n);
    } else {
      assert queries[..n] == queries;
    }
  }

  lemma CollectedStep(cfg: Config, before: seq<RestQuery>, queries: seq<RestQuery>, j: nat)
    requires j < |queries|
    ensures Collected(cfg, before + queries[..j + 1])
            == Extended(cfg, Collected(cfg, before + queries[..j]), queries[j])
  {
    var longer := before + queries[..j + 1];
    assert longer[..|longer| - 1] == before + queries[..j];
  }

  lemma FailedPrefix(cfg: Config, before: seq<RestQuery>, queries: seq<RestQuery>, j: nat)
    requires j <= |queries| && Collected(cfg, before + queries[..j]).None?
    ensures Collected(cfg, before + queries).None?
  {
    assert (before + queries)[..|before| + j] == before + queries[..j];
    FailedStaysFailed(cfg, before + queries, |before| + j);
  }

  lemma ListedPrefixFails(cfg: Config, pages: seq<Page<RestQuery>>, i: nat)
    requires i <= |pages| && Collected(cfg, Concatenated(pages[..i])).None?
    ensures Collected(cfg, Concatenated(pages)).None?
  {
    ConcatenatedGrows(pages, i);
    assert Concatenated(pages)[..|Concatenated(pages[..i])|] == Concatenated(pages[..i]);
    FailedStaysFailed(cfg, Concatenated(pages), |Concatenated(pages[..i])|);
  }

  /** The scan fails exactly when some listed query does not convert. */
  lemma {:induction false} CollectedFailsExactly(cfg: Config, queries: seq<RestQuery>)
    ensures Collected(cfg, queries).None? <==> exists j :: 0 <= j < |queries| && queries[j].Convert().None?
    decreases |queries|
  {
    if queries != [] {
      var n := |queries| - 1;
      CollectedFailsExactly(cfg, queries[..n]);
      assert forall j :: 0 <= j < n ==> queries[..n][j] == queries[j];
    }
  }

  /** Otherwise it holds exactly the listed queries that are watched, under their own IDs. */
  lemma {:induction false} CollectedAreWatched(cfg: Config, queries: seq<RestQuery>)
    requires Collected(cfg, queries).Some?
    ensures var found := Collected(cfg, queries).value;
            forall id :: id in found ==>
              Watched(cfg, found[id]) && ParseUint(id) == Some(found[id].id) && ComesFrom(queries, id, found[id])
    ensures forall j :: 0 <= j < |queries| && queries[j].Convert().Some? && Watched(cfg, queries[j].Convert().value) ==>
              queries[j].id in Collected(cfg, queries).value
    decreases |queries|
  {
    if queries != [] {
      var n := |queries| - 1;
      CollectedAreWatched(cfg, queries[..n]);
      assert forall j :: 0 <= j < n ==> queries[..n][j] == queries[j];
      var found := Collected(cfg, queries).value;
      forall id | id in found ensures ComesFrom(queries, id, found[id]) {
        if id == queries[n].id && Watched(cfg, queries[n].Convert().value) {
          assert queries[n].Convert() == Some(found[id]);
        } else {
          assert ComesFrom(queries[..n], id, found[id]);
        }
      }
    }
  }

  ghost predicate ComesFrom(queries: seq<RestQuery>, id: string, q: RegisteredQuery) {
    exists j :: 0 <= j < |queries| && queries[j].id == id && queries[j].Convert() == Some(q)
  }

  lemma {:induction false} EndedStaysEnded(cfg: Config, active: Active, e: Event, registry: Active, m: nat, n: nat)
    requires m <= n <= |e.ids| && !AfterUpdates(cfg, active, e, registry, m).1.Completed?
    ensures AfterUpdates(cfg, active, e, registry, n) == AfterUpdates(cfg, active, e, registry, m)
  {
    if m < n {
      EndedStaysEnded(cfg, active, e, registry, m, n - 1);
    }
  }

  /** The first n updates have an owner each, and those of watched owners an ID that parses. */
  predicate Sound(cfg: Config, e: Event, n: nat)
    requires n <= |e.ids|
  {
    n <= |e.owners| && forall j :: 0 <= j < n ==> cfg.WatchesAddress(e.owners[j]) ==> ParseUint(e.ids[j]).Some?
  }

  lemma {:induction false} CompletesExactly(cfg: Config, active: Active, e: Event, registry: Active, n: nat)
    requires n <= |e.ids|
    ensures AfterUpdates(cfg, active, e, registry, n).1.Completed? <==> Sound(cfg, e, n)
  {
    if 0 < n {
      CompletesExactly(cfg, active, e, registry, n - 1);
    }
  }

  /** Exactly when handling a group of update events panics: when there are fewer owners than IDs, and nothing stops the
      subscriber at the updates that have one. */
  lemma {:induction false} PanicsExactly(cfg: Config, active: Active, e: Event, registry: Active, n: nat)
    requires n <= |e.ids|
    ensures AfterUpdates(cfg, active, e, registry, n).1.Panicked? <==> |e.owners| < n && Sound(cfg, e, |e.owners|)
  {
    if 0 < n {
      PanicsExactly(cfg, active, e, registry, n - 1);
      CompletesExactly(cfg, active, e, registry, n - 1);
    }
  }

  // ----- dispatching does not depend on the iteration order -----

  ghost function Bag(active: Active, order: seq<string>, height: Uint64): multiset<RegisteredQuery>
    requires forall i :: 0 <= i < |order| ==> order[i] in active
  {
    multiset(DueTasks(active, order, height))
  }

  lemma {:induction false} TasksOfParts(active: Active, left: seq<string>, right: seq<string>, height: Uint64)
    requires forall i :: 0 <= i < |left| ==> left[i] in active
    requires forall i :: 0 <= i < |right| ==> right[i] in active
    ensures DueTasks(active, left + right, height) == DueTasks(active, left, height) + DueTasks(active, right, height)
    decreases |right|
  {
    if right == [] {
      assert left + right == left;
    } else {
      var n := |right| - 1;
      assert (left + right)[..|left + right| - 1] == left + right[..n];
      TasksOfParts(active, left, right[..n], height);
    }
  }

  lemma BagOfParts(active: Active, left: seq<string>, right: seq<string>, height: Uint64)
    requires forall i :: 0 <= i < |left| ==> left[i] in active
    requires forall i :: 0 <= i < |right| ==> right[i] in active
    ensures Bag(active, left + right, height) == Bag(active, left, height) + Bag(active, right, height)
  {
    TasksOfParts(active, left, right, height);
  }

  lemma Split(order: seq<string>, k: nat) returns (left: seq<string>, right: seq<string>)
    requires k < |order|
    ensures order == left + ([order[k]] + right)
    ensures multiset(order) == multiset(left + right) + multiset{order[k]}
    ensures |left + right| == |order| - 1
  {
    left, right := order[..k], order[k + 1..];
  }

  lemma Cancel(a: multiset<string>, b: multiset<string>, x: string)
    requires a + multiset{x} == b + multiset{x}
    ensures a == b
  {
    assert a == a + multiset{x} - multiset{x};
    assert b == b + multiset{x} - multiset{x};
  }

  /** The tasks of a block event are the same, as a multiset, for every iteration order of the map. */
  lemma {:induction false} OrderDoesNotMatter(active: Active, one: seq<string>, other: seq<string>, height: Uint64)
    requires forall i :: 0 <= i < |one| ==> one[i] in active
    requires forall i :: 0 <= i < |other| ==> other[i] in active
    requires multiset(one) == multiset(other)
    ensures multiset(DueTasks(active, one, height)) == multiset(DueTasks(active, other, height))
    decreases |one|
  {
    if one == [] {
      assert |multiset(other)| == 0;
    } else {
      var id := one[0];
      assert id in multiset(one);
      var k :| 0 <= k < |other| && other[k] == id;
      var l1, r1 := Split(one, 0);
      var l2, r2 := Split(other, k);
      Cancel(multiset(l1 + r1), multiset(l2 + r2), id);
      MoveToFront(active, l1, id, r1, height);
      MoveToFront(active, l2, id, r2, height);
      OrderDoesNotMatter(active, l1 + r1, l2 + r2, height);
    }
  }

  lemma MoveToFront(active: Active, left: seq<string>, id: string, right: seq<string>, height: Uint64)
    requires forall i :: 0 <= i < |left + ([id] + right)| ==> (left + ([id] + right))[i] in active
    ensures id in active && forall i :: 0 <= i < |left + right| ==> (left + right)[i] in active
    ensures Bag(active, left + ([id] + right), height) == Bag(active, [id], height) + Bag(active, left + right, height)
  {
    var whole := left + ([id] + right);
    forall i | 0 <= i < |left| ensures left[i] in active { assert whole[i] == left[i]; }
    assert whole[|left|] == id;
    forall i | 0 <= i < |right| ensures right[i] in active { assert whole[|left| + 1 + i] == right[i]; }
    BagOfParts(active, left, [id] + right, height);
    BagOfParts(active, [id], right, height);
    BagOfParts(active, left, right, height);
  }

  ghost function DueIds(active: Active, order: seq<string>, height: Uint64): set<string>
    requires forall i :: 0 <= i < |order| ==> order[i] in active
  {
    set i | 0 <= i < |order| && Due(active[order[i]], height) :: order[i]
  }

  /** Those of the IDs under which the query t is filed. */
  ghost function Holders(active: Active, ids: set<string>, t: RegisteredQuery): set<string> {
    set id | id in ids && id in active && active[id] == t
  }

  /** A block event dispatches every due query exactly once, as it was before the event, and nothing else: as a multiset
      the tasks are the image of the due IDs. */
  lemma {:induction false} EachDueQueryOnce(active: Active, order: seq<string>, height: Uint64, t: RegisteredQuery)
    requires forall i :: 0 <= i < |order| ==> order[i] in active
    requires forall i, j :: 0 <= i < j < |order| ==> order[i] != order[j]
    ensures multiset(DueTasks(active, order, height))[t] == |Holders(active, DueIds(active, order, height), t)|
    decreases |order|
  {
    if order != [] {
      var n := |order| - 1;
      EachDueQueryOnce(active, order[..n], height, t);
      HoldersSnoc(active, order, height, t);
      CountSnoc(active, order, height, t);
    }
  }

  lemma CountSnoc(active: Active, order: seq<string>, height: Uint64, t: RegisteredQuery)
    requires order != [] && forall i :: 0 <= i < |order| ==> order[i] in active
    ensures var n := |order| - 1;
            multiset(DueTasks(active, order, height))[t]
            == multiset(DueTasks(active, order[..n], height))[t]
               + if Due(active[order[n]], height) && active[order[n]] == t then 1 else 0
  {
    var n := |order| - 1;
    var front, last := DueTasks(active, order[..n], height), active[order[n]];
    assert multiset(front + [last])[t] == multiset(front)[t] + if last == t then 1 else 0;
  }

  lemma HoldersSnoc(active: Active, order: seq<string>, height: Uint64, t: RegisteredQuery)
    requires order != [] && forall i :: 0 <= i < |order| ==> order[i] in active
    requires forall i, j :: 0 <= i < j < |order| ==> order[i] != order[j]
    ensures var n := |order| - 1;
            |Holders(active, DueIds(active, order, height), t)|
            == |Holders(active, DueIds(active, order[..n], height), t)|
               + if Due(active[order[n]], height) && active[order[n]] == t then 1 else 0
  {
    var n := |order| - 1;
    DueIdsSnoc(active, order, height);
    var front, whole := DueIds(active, order[..n], height), DueIds(active, order, height);
    assert order[n] !in front;
    if Due(active[order[n]], height) && active[order[n]] == t {
      assert Holders(active, whole, t) == Holders(active, front, t) + {order[n]};
    } else {
      assert Holders(active, whole, t) == Holders(active, front, t);
    }
  }

  lemma DueIdsSnoc(active: Active, order: seq<string>, height: Uint64)
    requires order != [] && forall i :: 0 <= i < |order| ==> order[i] in active
    ensures var n := |order| - 1;
            DueIds(active, order, height)
            == DueIds(active, order[..n], height) + if Due(active[order[n]], height) then {order[n]} else {}
  {
    var n := |order| - 1;
    assert forall i :: 0 <= i < n ==> order[..n][i] == order[i];
    forall id | id in DueIds(active, order[..n], height) ensures id in DueIds(active, order, height) {
      var i :| 0 <= i < n && order[..n][i] == id && Due(active[order[..n][i]], height);
      assert order[i] == id;
    }
  }

  lemma EnumerationsAreRearrangements(active: Active, one: seq<string>, other: seq<string>)
    requires Enumerates(one, active) && Enumerates(other, active)
    ensures multiset(one) == multiset(other)
  {
    forall id ensures multiset(one)[id] == multiset(other)[id] {
      OnceEach(one, id);
      OnceEach(other, id);
    }
  }

  lemma {:induction false} OnceEach(order: seq<string>, id: string)
    requires forall i, j :: 0 <= i < j < |order| ==> order[i] != order[j]
    ensures multiset(order)[id] == if id in order then 1 else 0
    decreases |order|
  {
    if order != [] {
      var n := |order| - 1;
      OnceEach(order[..n], id);
      assert order == order[..n] + [order[n]];
    }
  }

  // ----- runs of the subscriber -----

  /** An event as the subscriber takes it from its three channels, with the registry's answers at that moment. */
  datatype Ev =
    | Block(height: Uint64)
    | Updates(event: Event, registry: Active)
    | Removals(event: Event)

  /** checkEvents passes; other groups stop the subscriber or change nothing. */
  ghost predicate Processable(ev: Ev) {
    match ev
    case Block(_) => true
    case Updates(e, registry) => CheckEvents(e).Matching? && HonestRegistry(registry)
    case Removals(e) => CheckEvents(e).Matching?
  }

  /** The registry endpoint answers about the ID it was asked for. */
  ghost predicate HonestRegistry(registry: Active) {
    forall id :: id in registry ==> ParseUint(id) == Some(registry[id].id)
  }

  ghost function Step(cfg: Config, active: Active, ev: Ev): Active
    requires Processable(ev)
  {
    match ev
    case Block(height) => AfterBlock(active, height)
    case Updates(e, registry) => AfterUpdates(cfg, active, e, registry, |e.ids|).0
    case Removals(e) => active - set id | id in e.ids
  }

  ghost function Run(cfg: Config, active: Active, evs: seq<Ev>): Active
    requires forall i :: 0 <= i < |evs| ==> Processable(evs[i])
    decreases |evs|
  {
    if evs == [] then active else Step(cfg, Run(cfg, active, evs[..|evs| - 1]), evs[|evs| - 1])
  }

  /** The heights at which a run dispatches the query of the given ID, in order. */
  ghost function Dispatches(cfg: Config, active: Active, evs: seq<Ev>, id: string): seq<Uint64>
    requires forall i :: 0 <= i < |evs| ==> Processable(evs[i])
    decreases |evs|
  {
    if evs == [] then []
    else
      var n := |evs| - 1;
      var before := Run(cfg, active, evs[..n]);
      Dispatches(cfg, active, evs[..n], id)
      + if evs[n].Block? && id in before && Due(before[id], evs[n].height) then [evs[n].height] else []
  }

  /** Every active query has a watched type and ID, and is filed under the ID it was asked for. */
  ghost predicate AllWatched(cfg: Config, active: Active) {
    forall id :: id in active ==> Watched(cfg, active[id]) && ParseUint(id) == Some(active[id].id)
  }

  lemma {:induction false} UpdatesKeepWatched(cfg: Config, active: Active, e: Event, registry: Active, n: nat)
    requires AllWatched(cfg, active) && HonestRegistry(registry) && n <= |e.ids|
    ensures AllWatched(cfg, AfterUpdates(cfg, active, e, registry, n).0)
  {
    if 0 < n {
      UpdatesKeepWatched(cfg, active, e, registry, n - 1);
    }
  }

  lemma StepKeepsWatched(cfg: Config, active: Active, ev: Ev)
    requires AllWatched(cfg, active) && Processable(ev)
    ensures AllWatched(cfg, Step(cfg, active, ev))
  {
    if ev.Updates? {
      UpdatesKeepWatched(cfg, active, ev.event, ev.registry, |ev.event.ids|);
    }
  }

  /** What the initial scan collects is watched, and stays so through every run; so is every dispatched task. */
  lemma {:induction false} ActiveQueriesAreWatched(
    cfg: Config, active: Active, evs: seq<Ev>, order: seq<string>, height: Uint64)
    requires AllWatched(cfg, active) && forall i :: 0 <= i < |evs| ==> Processable(evs[i])
    ensures var now := Run(cfg, active, evs);
            && AllWatched(cfg, now)
            && ((forall i :: 0 <= i < |order| ==> order[i] in now) ==>
                  forall t :: t in DueTasks(now, order, height) ==> Watched(cfg, t))
    decreases |evs|
  {
    if evs != [] {
      var n := |evs| - 1;
      ActiveQueriesAreWatched(cfg, active, evs[..n], [], 0);
      StepKeepsWatched(cfg, Run(cfg, active, evs[..n]), evs[n]);
    }
    if forall i :: 0 <= i < |order| ==> order[i] in Run(cfg, active, evs) {
      TasksAreActive(Run(cfg, active, evs), order, height);
    }
  }

  lemma {:induction false} TasksAreActive(active: Active, order: seq<string>, height: Uint64)
    requires forall i :: 0 <= i < |order| ==> order[i] in active
    ensures forall t :: t in DueTasks(active, order, height) ==> exists id :: id in active && active[id] == t
  {
    if order != [] {
      TasksAreActive(active, order[..|order| - 1], height);
    }
  }

  lemma ScanIsWatched(cfg: Config, queries: seq<RestQuery>)
    requires Collected(cfg, queries).Some?
    ensures AllWatched(cfg, Collected(cfg, queries).value)
  {
    CollectedAreWatched(cfg, queries);
  }

  ghost predicate Mentions(ev: Ev, id: string) {
    ev.Updates? && id in ev.event.ids
  }

  lemma {:induction false} UnmentionedIsUntouched(
    cfg: Config, active: Active, e: Event, registry: Active, n: nat, id: string)
    requires n <= |e.ids| && id !in e.ids
    ensures var after := AfterUpdates(cfg, active, e, registry, n).0;
            (id in after <==> id in active) && (id in active ==> after[id] == active[id])
  {
    if 0 < n {
      UnmentionedIsUntouched(cfg, active, e, registry, n - 1, id);
      assert e.ids[n - 1] in e.ids;
    }
  }

  lemma QuietStep(cfg: Config, active: Active, ev: Ev, id: string)
    requires Processable(ev) && !Mentions(ev, id)
    ensures id in Step(cfg, active, ev) ==>
              && id in active
              && Step(cfg, active, ev)[id] == if ev.Block? then Touched(active[id], ev.height) else active[id]
  {
    if ev.Updates? {
      UnmentionedIsUntouched(cfg, active, ev.event, ev.registry, |ev.event.ids|, id);
    }
  }

  /** A query that is not active, a removed one for example, stays so until a later update event names it. */
  lemma {:induction false} RemovedStaysAbsent(cfg: Config, active: Active, evs: seq<Ev>, id: string)
    requires forall i :: 0 <= i < |evs| ==> Processable(evs[i]) && !Mentions(evs[i], id)
    requires id !in active
    ensures id !in Run(cfg, active, evs)
    decreases |evs|
  {
    if evs != [] {
      var n := |evs| - 1;
      RemovedStaysAbsent(cfg, active, evs[..n], id);
      QuietStep(cfg, Run(cfg, active, evs[..n]), evs[n], id);
    }
  }

  lemma RemovalRemoves(cfg: Config, active: Active, e: Event, id: string)
    requires Processable(Removals(e)) && id in e.ids
    ensures id !in Step(cfg, active, Removals(e))
  {
  }

  /** Positive heights, and no overflow when the period is added to them. */
  ghost predicate Plain(ev: Ev, period: Uint64) {
    ev.Block? ==> 0 < ev.height && ev.height + period < TWO_TO_64
  }

  /** While no update event names a query, its dispatches are at least its update period apart. */
  lemma {:induction false} DispatchesAreSpaced(cfg: Config, active: Active, evs: seq<Ev>, id: string, period: Uint64)
    requires forall i :: 0 <= i < |evs| ==> Processable(evs[i]) && !Mentions(evs[i], id) && Plain(evs[i], period)
    requires id in active ==> active[id].updatePeriod == period && active[id].last + period < TWO_TO_64
    ensures Spaced(Dispatches(cfg, active, evs, id), period)
    ensures var now, ds := Run(cfg, active, evs), Dispatches(cfg, active, evs, id);
            id in now ==>
              && id in active && now[id].updatePeriod == period && now[id].last + period < TWO_TO_64
              && (ds != [] ==> now[id].last == ds[|ds| - 1] && 0 < now[id].last)
    decreases |evs|
  {
    if evs != [] {
      var n := |evs| - 1;
      DispatchesAreSpaced(cfg, active, evs[..n], id, period);
      QuietStep(cfg, Run(cfg, active, evs[..n]), evs[n], id);
    }
  }

  /** k dispatches of a query span at least k - 1 update periods. */
  lemma DispatchRateIsBounded(cfg: Config, active: Active, evs: seq<Ev>, id: string, period: Uint64)
    requires forall i :: 0 <= i < |evs| ==> Processable(evs[i]) && !Mentions(evs[i], id) && Plain(evs[i], period)
    requires id in active ==> active[id].updatePeriod == period && active[id].last + period < TWO_TO_64
    ensures var ds := Dispatches(cfg, active, evs, id);
            ds != [] ==> ds[0] + (|ds| - 1) * period <= ds[|ds| - 1]
  {
    DispatchesAreSpaced(cfg, active, evs, id, period);
    if Dispatches(cfg, active, evs, id) != [] {
      SpacingAddsUp(Dispatches(cfg, active, evs, id), period);
    }
  }

  /** After a dispatch at a height, exactly when is the next one sure to be a period later, whatever block comes: when
      the period is 0, or the height is positive and the sum does not overflow. */
  lemma NextDispatchIsSpacedExactly(q: RegisteredQuery, height: Uint64)
    ensures (forall next: Uint64 :: Due(q.(last := height), next) ==> height + q.updatePeriod <= next)
            <==> q.updatePeriod == 0 || (0 < height && height + q.updatePeriod < TWO_TO_64)
  {
    var earliest := if height == 0 then 0 else WrappingAdd(height, q.updatePeriod);
    assert Due(q.(last := height), earliest);
  }

  /** The conditions are needed: at height 0 a query is dispatched at every block, whatever its period. */
  lemma HeightZeroIsNotSpaced(cfg: Config, id: string, q: RegisteredQuery)
    requires q.last == 0 && 0 < q.updatePeriod
    ensures Dispatches(cfg, map[id := q], [Block(0), Block(0)], id) == [0, 0]
  {
    var evs := [Block(0), Block(0)];
    assert evs[..1] == [Block(0)] && evs[..1][..0] == [];
    assert Run(cfg, map[id := q], evs[..1]) == AfterBlock(map[id := q], 0);
  }
}

/**
 The whole relayer as one state machine: the TX search loop of the relay and the search goroutine feeding it, on top
 of the submission machine, against a target chain whose list of matching transactions grows.
 */
module Protocol {
  import opened Decimal
  import opened Records
  import Sub = Submissions

  /** How the search goroutine stands: still paging, all pages returned, stopped with an error, cancelled. */
  datatype Search = Running | Complete | Broken | Cancelled

  /** One pass of the TX loop. Positions index the query's matches; those before `fetched` are or will be delivered. */
  datatype Pass = Pass(query: Uint64, floor: Uint64, start: nat, pos: nat, last: Uint64, fetched: nat, search: Search)

  datatype Pc =
    | Idle
    | Looping(pass: Pass)     // waiting for the next delivered match
    | Marked(pass: Pass)      // a match is in hand and the watermark has been moved if its block is a new one
    | Submitting(pass: Pass)  // the match in hand has no record and is being submitted

  datatype State = State(
    core: Sub.Core,
    matches: map<Uint64, seq<Transaction>>, // per TX query, the target chain's matching transactions
    covered: map<Uint64, Uint64>,           // the highest height a query was initialised with or a search returned
    initial: map<Uint64, Uint64>,           // the height each query was initialised with
    pc: Pc)

  datatype Action =
    | Grow(query: Uint64, tx: Transaction)
    | Fetch(upto: nat, lastPage: bool)
    | BreakSearch(upto: nat)
    | CancelSearch(upto: nat)
    | Initialise(query: Uint64, height: Uint64)
    | Start(query: Uint64, from: nat)
    | Mark(ok: bool)
    | Look(ok: bool)
    | Close(ok: bool)
    | KvHeight(query: Uint64, height: Uint64)
    | Actor(act: Sub.Act)

  function Matches(s: State, q: Uint64): seq<Transaction> {
    if q in s.matches then s.matches[q] else []
  }

  function Covered(s: State, q: Uint64): Uint64 {
    if q in s.covered then s.covered[q] else 0
  }

  function Max(a: Uint64, b: Uint64): Uint64 {
    if a < b then b else a
  }

  /** The match in the loop's hand. */
  function InHand(s: State): Transaction
    requires !s.pc.Idle? && s.pc.pass.pos < |Matches(s, s.pc.pass.query)|
  {
    Matches(s, s.pc.pass.query)[s.pc.pass.pos]
  }

  ghost predicate Ascending(txs: seq<Transaction>) {
    forall i, j :: 0 <= i < j < |txs| ==> txs[i].height <= txs[j].height
  }

  /** The matches above floor are those from position `from` on: what a search for tx.height > floor returns. */
  predicate SplitsAt(txs: seq<Transaction>, floor: Uint64, from: nat) {
    && from <= |txs|
    && (forall i :: 0 <= i < from ==> txs[i].height <= floor)
    && (forall i :: from <= i < |txs| ==> floor < txs[i].height)
  }

  /** How many matches are delivered already, counting the one in hand. */
  function Delivered(pc: Pc): nat
    requires !pc.Idle?
  {
    if pc.Looping? then pc.pass.pos else pc.pass.pos + 1
  }

  predicate MarksBlock(s: State)
    requires !s.pc.Idle? && s.pc.pass.pos < |Matches(s, s.pc.pass.query)|
  {
    0 < s.pc.pass.last < InHand(s).height
  }

  /** The final watermark write happens unless the search reported an error: a cancelled search does not. */
  predicate WritesAtClose(s: State)
    requires !s.pc.Idle?
  {
    !s.pc.pass.search.Broken? && 0 < s.pc.pass.last
  }

  predicate LoopEnabled(s: State, a: Action) {
    match a
    case Grow(q, tx) =>
      // results are in ascending order, and nothing new matches at or below a height already covered
      && q in s.matches && Covered(s, q) < tx.height
      && (s.matches[q] != [] ==> s.matches[q][|s.matches[q]| - 1].height <= tx.height)
    case Fetch(upto, lastPage) =>
      && !s.pc.Idle? && s.pc.pass.search.Running?
      && s.pc.pass.fetched <= upto <= |Matches(s, s.pc.pass.query)|
      && (lastPage ==> upto == |Matches(s, s.pc.pass.query)|)
    case BreakSearch(upto) =>
      !s.pc.Idle? && s.pc.pass.search.Running? && Delivered(s.pc) <= upto <= s.pc.pass.fetched
    case CancelSearch(upto) =>
      !s.pc.Idle? && s.pc.pass.search.Running? && Delivered(s.pc) <= upto <= s.pc.pass.fetched
    case Initialise(q, height) =>
      s.pc.Idle? && q in s.matches && q !in s.core.maps.heights
    case Start(q, from) =>
      && s.pc.Idle? && q in s.matches && q in s.core.maps.heights
      && SplitsAt(s.matches[q], s.core.maps.heights[q], from)
    case Mark(ok) => s.pc.Looping? && s.pc.pass.pos < s.pc.pass.fetched <= |Matches(s, s.pc.pass.query)|
    case Look(ok) => s.pc.Marked? && s.pc.pass.pos < |Matches(s, s.pc.pass.query)|
    case Close(ok) => s.pc.Looping? && s.pc.pass.pos == s.pc.pass.fetched && !s.pc.pass.search.Running?
    case KvHeight(q, height) => q !in s.matches
    case Actor(act) =>
      && !act.Begin? && !act.WriteHeight?
      && (ByRelay(act) ==> s.pc.Submitting? && s.pc.pass.pos < |Matches(s, s.pc.pass.query)|)
  }

  predicate ByRelay(act: Sub.Act) {
    (act.Accept? || act.Refuse? || act.Abandon? || act.Record?) && act.who.Relay?
  }

  /** The step of the submission machine that an action performs, if it performs one. */
  function CoreAct(s: State, a: Action): Option<Sub.Act>
    requires LoopEnabled(s, a)
  {
    match a
    case Initialise(q, height) => Some(Sub.WriteHeight(q, height))
    case Mark(ok) => if MarksBlock(s) && ok then Some(Sub.WriteHeight(s.pc.pass.query, s.pc.pass.last)) else None
    case Look(ok) =>
      if ok && TxKey(s.pc.pass.query, InHand(s).hash) !in s.core.maps.statuses
      then Some(Sub.Begin(s.pc.pass.query, InHand(s))) else None
    case Close(ok) => if WritesAtClose(s) && ok then Some(Sub.WriteHeight(s.pc.pass.query, s.pc.pass.last)) else None
    case KvHeight(q, height) => Some(Sub.WriteHeight(q, height))
    case Actor(act) => Some(act)
    case _ => None
  }

  predicate Enabled(s: State, a: Action) {
    && LoopEnabled(s, a)
    && (CoreAct(s, a).Some? ==> Sub.Enabled(s.core, CoreAct(s, a).value))
  }

  function Advance(s: State): Pc
    requires !s.pc.Idle? && s.pc.pass.pos < |Matches(s, s.pc.pass.query)|
  {
    Looping(s.pc.pass.(pos := s.pc.pass.pos + 1, last := InHand(s).height))
  }

  function NextPc(s: State, a: Action): Pc
    requires LoopEnabled(s, a)
  {
    match a
    case Fetch(upto, lastPage) =>
      s.pc.(pass := s.pc.pass.(fetched := upto, search := if lastPage then Complete else Running))
    case BreakSearch(upto) => s.pc.(pass := s.pc.pass.(fetched := upto, search := Broken))
    case CancelSearch(upto) => s.pc.(pass := s.pc.pass.(fetched := upto, search := Cancelled))
    case Start(q, from) => Looping(Pass(q, s.core.maps.heights[q], from, from, 0, from, Running))
    case Mark(ok) => if MarksBlock(s) && !ok then Idle else Marked(s.pc.pass)
    case Look(ok) =>
      if !ok then Idle
      else if TxKey(s.pc.pass.query, InHand(s).hash) in s.core.maps.statuses then Advance(s)
      else Submitting(s.pc.pass)
    case Close(ok) => Idle
    case Actor(act) =>
      if act.Crash? then Idle
      else if act.Abandon? && act.who.Relay? then Idle
      else if act.Record? && act.who.Relay? then (if act.ok then Advance(s) else Idle)
      else s.pc
    case _ => s.pc
  }

  function Next(s: State, a: Action): State
    requires Enabled(s, a)
  {
    State(
      if CoreAct(s, a).Some? then Sub.Next(s.core, CoreAct(s, a).value) else s.core,
      if a.Grow? then s.matches[a.query := s.matches[a.query] + [a.tx]] else s.matches,
      if a.Initialise? then s.covered[a.query := Max(Covered(s, a.query), a.height)]
      else if a.Fetch? && s.pc.pass.start < a.upto then
        var q := s.pc.pass.query;
        s.covered[q := Max(Covered(s, q), Matches(s, q)[a.upto - 1].height)]
      else s.covered,
      if a.Initialise? then s.initial[a.query := a.height] else s.initial,
      NextPc(s, a))
  }

  // ----- runs -----

  ghost predicate Valid(s: State, actions: seq<Action>)
    decreases |actions|, 0
  {
    actions == [] ||
    var n := |actions| - 1;
    Valid(s, actions[..n]) && Enabled(Exec(s, actions[..n]), actions[n])
  }

  ghost function Exec(s: State, actions: seq<Action>): State
    requires Valid(s, actions)
    decreases |actions|, 1
  {
    if actions == [] then s else Next(Exec(s, actions[..|actions| - 1]), actions[|actions| - 1])
  }

  ghost predicate NoCancel(actions: seq<Action>) {
    forall i :: 0 <= i < |actions| ==> !actions[i].CancelSearch?
  }

  /** A fresh database, against a target chain with any ascending results. */
  ghost predicate Initial(s: State) {
    && s.core == Sub.FRESH && s.covered == map[] && s.initial == map[] && s.pc == Idle
    && (forall q :: q in s.matches ==> Ascending(s.matches[q]))
  }

  /** The submission-machine steps of a run, in order. */
  ghost function Acts(s: State, actions: seq<Action>): seq<Sub.Act>
    requires Valid(s, actions)
    decreases |actions|
  {
    if actions == [] then []
    else
      var n := |actions| - 1;
      var act := CoreAct(Exec(s, actions[..n]), actions[n]);
      Acts(s, actions[..n]) + if act.Some? then [act.value] else []
  }

  /** Every run of the relayer drives its stored maps along a run of the submission machine. */
  lemma {:induction false} RunProjects(s: State, actions: seq<Action>)
    requires Valid(s, actions)
    ensures Sub.Valid(Sub.Free, s.core, Acts(s, actions))
    ensures Sub.Exec(Sub.Free, s.core, Acts(s, actions)) == Exec(s, actions).core
    decreases |actions|
  {
    if actions != [] {
      var n := |actions| - 1;
      RunProjects(s, actions[..n]);
      var act := CoreAct(Exec(s, actions[..n]), actions[n]);
      var acts := Acts(s, actions[..n]);
      if act.Some? {
        assert (acts + [act.value])[..|acts|] == acts;
      } else {
        assert acts + [] == acts;
      }
    }
  }

  lemma Then(s: State, actions: seq<Action>, a: Action) returns (longer: seq<Action>)
    requires Valid(s, actions) && Enabled(Exec(s, actions), a)
    ensures longer == actions + [a] && Valid(s, longer) && Exec(s, longer) == Next(Exec(s, actions), a)
  {
    longer := actions + [a];
    assert longer[..|actions|] == actions;
  }

  lemma FrontOfTail(actions: seq<Action>, n: nat)
    requires n < |actions|
    ensures var front, tail := actions[..|actions| - 1], actions[n..];
            && front[..n] == actions[..n] && tail != []
            && tail[..|tail| - 1] == front[n..] && tail[|tail| - 1] == actions[|actions| - 1]
  {
  }

  /** A run can be cut at any point into two. */
  lemma {:induction false} RunSplits(s: State, actions: seq<Action>, n: nat)
    requires Valid(s, actions) && n <= |actions|
    ensures Valid(s, actions[..n]) && Valid(Exec(s, actions[..n]), actions[n..])
    ensures Exec(Exec(s, actions[..n]), actions[n..]) == Exec(s, actions)
    decreases |actions|
  {
    if n == |actions| {
      assert actions[..n] == actions && actions[n..] == [];
    } else {
      RunSplits(s, actions[..|actions| - 1], n);
      FrontOfTail(actions, n);
    }
  }

  /** What comes after the beginning of a run is a run from there. */
  lemma RunContinues(s: State, front: seq<Action>, actions: seq<Action>)
    requires Valid(s, actions) && front <= actions
    ensures Valid(s, front) && Valid(Exec(s, front), actions[|front|..])
    ensures Exec(Exec(s, front), actions[|front|..]) == Exec(s, actions)
  {
    RunSplits(s, actions, |front|);
    assert actions[..|front|] == front;
  }
}

/** The running system as its actors' code sees it: a state that the code steps and the other actors step between. */
module World {
  import opened Decimal
  import opened Records
  import opened Protocol
  import opened Watermark
  import opened AtMostOnce
  import opened Lifecycle
  import Sub = Submissions

  /** Whose code is running. */
  datatype Me = RelayLoop | Handler(id: nat) | Checker | Searcher

  /** What the neutron chain answers to a submission. */
  datatype Reply = NoHeaders | AcceptedByChain | RefusedByChain(message: string)

  /** What the world outside answered to an actor: whether a storage call succeeded, how the chain took a job. */
  datatype Event = Storage(ok: bool) | Answered(job: Sub.Job, reply: Reply)

  /** The actions of `me`. */
  predicate Owns(me: Me, a: Action) {
    match me
    case RelayLoop => a.Initialise? || a.Start? || a.Mark? || a.Look? || a.Close? || (a.Actor? && ByRelay(a.act))
    case Handler(id) => a.Actor? && ByHandler(a.act, id)
    case Checker => a.Actor? && (a.act.Scan? || a.act.Lookup? || a.act.LookupFails? || a.act.Settle?)
    case Searcher => a.Fetch? || a.BreakSearch? || a.CancelSearch?
  }

  predicate ByHandler(act: Sub.Act, id: nat) {
    || (act.ReadCached? && act.id == id)
    || ((act.Accept? || act.Refuse? || act.Abandon? || act.Record?) && act.who == Sub.Web(id))
  }

  /** The actions the other actors may take while `me` runs. A crash would end `me` too; a new pass has a new search. */
  predicate ByOthers(me: Me, a: Action) {
    !Owns(me, a) && !(a.Actor? && a.act.Crash?) && !(me.Searcher? && a.Start?)
  }

  /** A search that has stopped stays as it is; one that completes has fetched all `present` matches. */
  predicate SearchGoesOn(p: Pass, p': Pass, present: nat) {
    && (!p.search.Running? ==> p'.search == p.search && p'.fetched == p.fetched)
    && (p.search.Running? && p'.search.Complete? ==> present <= p'.fetched)
  }

  ghost predicate LoopStable(s: State, t: State) {
    && (s.pc.Looping? <==> t.pc.Looping?) && (s.pc.Marked? <==> t.pc.Marked?)
    && (s.pc.Submitting? <==> t.pc.Submitting?)
    && (!s.pc.Idle? ==>
          && t.pc.pass == s.pc.pass.(fetched := t.pc.pass.fetched, search := t.pc.pass.search)
          && (Delivered(s.pc) <= s.pc.pass.fetched ==> Delivered(t.pc) <= t.pc.pass.fetched)
          && SearchGoesOn(s.pc.pass, t.pc.pass, |Matches(s, s.pc.pass.query)|))
    && (Sub.Relay in s.core.jobs <==> Sub.Relay in t.core.jobs)
    && (Sub.Relay in s.core.jobs ==> t.core.jobs[Sub.Relay] == s.core.jobs[Sub.Relay])
    && (forall q :: q in s.matches ==>
          && (q in s.core.maps.heights <==> q in t.core.maps.heights)
          && (q in s.core.maps.heights ==> t.core.maps.heights[q] == s.core.maps.heights[q]))
  }

  /** Until the relay loop leaves the pass, nobody else touches the search part of it. */
  ghost predicate SearchStable(s: State, t: State) {
    !t.pc.Idle? ==>
      !s.pc.Idle? && t.pc.pass == s.pc.pass.(pos := t.pc.pass.pos, last := t.pc.pass.last)
  }

  ghost predicate HandlerStable(id: nat, s: State, t: State) {
    && (Sub.Web(id) in s.core.jobs <==> Sub.Web(id) in t.core.jobs)
    && (Sub.Web(id) in s.core.jobs ==> t.core.jobs[Sub.Web(id)] == s.core.jobs[Sub.Web(id)])
  }

  ghost predicate CheckerStable(s: State, t: State) {
    s.core.finding == t.core.finding && s.core.checks <= t.core.checks
  }

  /** No record, match or broadcast is ever taken back. */
  ghost predicate Grown(s: State, t: State) {
    && s.core.maps.statuses.Keys <= t.core.maps.statuses.Keys
    && s.matches.Keys == t.matches.Keys
    && (forall q :: q in s.matches ==> s.matches[q] <= t.matches[q])
    && s.core.broadcasts <= t.core.broadcasts
  }

  /** What `me` may rely on across other actors' steps. */
  ghost predicate Stable(me: Me, s: State, t: State) {
    && Grown(s, t)
    && match me {
         case RelayLoop => LoopStable(s, t) && s.core.maps.statuses.Keys == t.core.maps.statuses.Keys
         case Handler(id) => HandlerStable(id, s, t)
         case Checker => CheckerStable(s, t)
         case Searcher => SearchStable(s, t)
       }
  }

  /** Only the relay loop adds records: the others submit what was read from the cache, and so has a record. */
  lemma StepKeepsKeys(c: Sub.Core, a: Sub.Act)
    requires Inv(c) && JobsPlaced(c) && Sub.Enabled(c, a) && !ByRelay(a)
    ensures Sub.Next(c, a).maps.statuses.Keys == c.maps.statuses.Keys
  {
    if a.Settle? { assert TaskAttributed(c.carried, c.maps.statuses, c.finding.value.task); }
  }

  lemma StepIsLoopStable(s: State, a: Action)
    requires Enabled(s, a) && ByOthers(RelayLoop, a)
    ensures LoopStable(s, Next(s, a))
  {
  }

  lemma StepIsHandlerStable(id: nat, s: State, a: Action)
    requires Enabled(s, a) && ByOthers(Handler(id), a)
    ensures HandlerStable(id, s, Next(s, a))
  {
  }

  lemma StepIsLoopKeys(s: State, a: Action)
    requires Inv(s.core) && JobsPlaced(s.core) && Enabled(s, a) && ByOthers(RelayLoop, a)
    ensures s.core.maps.statuses.Keys == Next(s, a).core.maps.statuses.Keys
  {
    if CoreAct(s, a).Some? { StepKeepsKeys(s.core, CoreAct(s, a).value); }
  }

  lemma StepIsSearchStable(s: State, a: Action)
    requires Enabled(s, a) && ByOthers(Searcher, a)
    ensures SearchStable(s, Next(s, a))
  {
  }

  lemma StepIsCheckerStable(s: State, a: Action)
    requires Enabled(s, a) && ByOthers(Checker, a)
    ensures CheckerStable(s, Next(s, a))
  {
  }

  lemma StepGrows(s: State, a: Action)
    requires Enabled(s, a)
    ensures Grown(s, Next(s, a))
  {
    if CoreAct(s, a).Some? { CoreStep(s.core, CoreAct(s, a).value); }
  }

  lemma OneStepIsStable(me: Me, s: State, a: Action)
    requires Inv(s.core) && JobsPlaced(s.core) && Enabled(s, a) && ByOthers(me, a)
    ensures Stable(me, s, Next(s, a))
  {
    StepGrows(s, a);
    match me {
      case RelayLoop =>
        StepIsLoopStable(s, a);
        StepIsLoopKeys(s, a);
      case Handler(id) => StepIsHandlerStable(id, s, a);
      case Checker => StepIsCheckerStable(s, a);
      case Searcher => StepIsSearchStable(s, a);
    }
  }

  lemma StableIsReflexive(me: Me, s: State)
    ensures Stable(me, s, s)
  {
  }

  lemma StableIsTransitive(me: Me, s: State, t: State, u: State)
    requires Stable(me, s, t) && Stable(me, t, u)
    ensures Stable(me, s, u)
  {
  }

  lemma Append<T>(log: seq<T>, a: seq<T>, b: seq<T>)
    ensures log + a + b == log + (a + b)
  {
  }

  // ----- what an actor was answered -----

  function StorageCalls(log: seq<Event>): nat {
    if log == [] then 0
    else StorageCalls(log[..|log| - 1]) + if log[|log| - 1].Storage? then 1 else 0
  }

  function ChainCalls(log: seq<Event>): nat {
    if log == [] then 0
    else ChainCalls(log[..|log| - 1]) + if log[|log| - 1].Answered? then 1 else 0
  }

  /** The log holds what the storage and the chain answered, call by call. */
  predicate Truthful(log: seq<Event>, storage: nat -> bool, chain: nat -> Reply) {
    log == [] ||
    var front, last := log[..|log| - 1], log[|log| - 1];
    && Truthful(front, storage, chain)
    && match last {
         case Storage(ok) => ok == storage(StorageCalls(front))
         case Answered(_, reply) => reply == chain(ChainCalls(front))
       }
  }

  lemma LogLonger(log: seq<Event>, e: Event, storage: nat -> bool, chain: nat -> Reply)
    requires Truthful(log, storage, chain)
    requires e.Storage? ==> e.ok == storage(StorageCalls(log))
    requires e.Answered? ==> e.reply == chain(ChainCalls(log))
    ensures Truthful(log + [e], storage, chain)
    ensures StorageCalls(log + [e]) == StorageCalls(log) + if e.Storage? then 1 else 0
    ensures ChainCalls(log + [e]) == ChainCalls(log) + if e.Answered? then 1 else 0
  {
    assert (log + [e])[..|log + [e]| - 1] == log;
  }

  // ----- who did what -----

  /** How a run goes on while `me` runs: by an action of `me`, or by the moves that the other actors try. When nobody
      else will move any more, a search still running fails at its next request. */
  datatype Turn = Mine(action: Action) | Theirs(moves: seq<Action>) | Starved(upto: nat)

  /** The run, and then the action if it can be taken. */
  ghost function Taken(start: State, trace: seq<Action>, a: Action): (r: seq<Action>)
    requires Protocol.Valid(start, trace)
    ensures Protocol.Valid(start, r)
  {
    assert (trace + [a])[..|trace|] == trace;
    if Enabled(Exec(start, trace), a) then trace + [a] else trace
  }

  /** The run, and then those of the other actors' moves that can be taken. */
  ghost function Played(me: Me, start: State, trace: seq<Action>, moves: seq<Action>): (r: seq<Action>)
    requires Protocol.Valid(start, trace)
    ensures Protocol.Valid(start, r)
    decreases |moves|
  {
    if moves == [] then trace
    else
      var t, a := Played(me, start, trace, moves[..|moves| - 1]), moves[|moves| - 1];
      if ByOthers(me, a) then Taken(start, t, a) else t
  }

  /** The run that a history makes of what was before. */
  ghost function TraceOf(me: Me, start: State, past: seq<Action>, history: seq<Turn>): (r: seq<Action>)
    requires Protocol.Valid(start, past)
    ensures Protocol.Valid(start, r)
    decreases |history|
  {
    if history == [] then past
    else
      var t := TraceOf(me, start, past, history[..|history| - 1]);
      match history[|history| - 1]
      case Mine(a) => Taken(start, t, a)
      case Theirs(moves) => Played(me, start, t, moves)
      case Starved(upto) => Taken(start, t, BreakSearch(upto))
  }

  /** The scripted moves of the other actors, as far as the history has come. */
  ghost function Moved(history: seq<Turn>): seq<seq<Action>> {
    if history == [] then []
    else
      var last := history[|history| - 1];
      Moved(history[..|history| - 1]) + if last.Theirs? then [last.moves] else []
  }

  /** What `me` did. */
  ghost function Did(history: seq<Turn>): seq<Action> {
    if history == [] then []
    else
      var last := history[|history| - 1];
      Did(history[..|history| - 1]) + if last.Mine? then [last.action] else []
  }

  lemma DidMore(history: seq<Turn>, turn: Turn)
    ensures Did(history + [turn]) == Did(history) + if turn.Mine? then [turn.action] else []
  {
    assert (history + [turn])[..|history|] == history;
  }

  lemma TraceMore(me: Me, start: State, past: seq<Action>, history: seq<Turn>, turn: Turn)
    requires Protocol.Valid(start, past)
    ensures TraceOf(me, start, past, history + [turn])
            == if turn.Mine? then Taken(start, TraceOf(me, start, past, history), turn.action)
               else if turn.Theirs? then Played(me, start, TraceOf(me, start, past, history), turn.moves)
               else Taken(start, TraceOf(me, start, past, history), BreakSearch(turn.upto))
  {
    assert (history + [turn])[..|history|] == history;
  }

  lemma MovedMore(history: seq<Turn>, turn: Turn)
    ensures Moved(history + [turn]) == Moved(history) + if turn.Theirs? then [turn.moves] else []
  {
    assert (history + [turn])[..|history|] == history;
  }

  /** `me` only takes its own actions, and nobody else moves after the end of the script. */
  ghost predicate Lawful(me: Me, history: seq<Turn>) {
    && (forall i :: 0 <= i < |history| && history[i].Mine? ==> Owns(me, history[i].action))
    && (forall i, j :: 0 <= i < j < |history| && history[i].Starved? ==> !history[j].Theirs?)
  }

  ghost predicate Over(history: seq<Turn>) {
    exists i :: 0 <= i < |history| && history[i].Starved?
  }

  lemma LawfulMore(me: Me, history: seq<Turn>, turn: Turn)
    requires Lawful(me, history) && (turn.Mine? ==> Owns(me, turn.action)) && (turn.Theirs? ==> !Over(history))
    ensures Lawful(me, history + [turn]) && (Over(history + [turn]) <==> Over(history) || turn.Starved?)
  {
    var longer := history + [turn];
    assert longer[|history|] == turn && forall i :: 0 <= i < |history| ==> longer[i] == history[i];
  }

  /** The trace is what the history makes of the past, by the script, and the rest of the script is still to come. */
  ghost predicate Lived(
    me: Me, start: State, past: seq<Action>, plan: seq<seq<Action>>, history: seq<Turn>, trace: seq<Action>,
    others: seq<seq<Action>>)
  {
    && Protocol.Valid(start, past) && trace == TraceOf(me, start, past, history)
    && Lawful(me, history) && Moved(history) + others == plan
    && (Over(history) ==> others == [])
  }

  lemma OwnTurn(
    me: Me, start: State, past: seq<Action>, plan: seq<seq<Action>>, history: seq<Turn>, trace: seq<Action>,
    others: seq<seq<Action>>, a: Action)
    requires Lived(me, start, past, plan, history, trace, others) && Owns(me, a)
    requires Enabled(Exec(start, trace), a)
    ensures Lived(me, start, past, plan, history + [Mine(a)], trace + [a], others)
  {
    TraceMore(me, start, past, history, Mine(a));
    MovedMore(history, Mine(a));
    LawfulMore(me, history, Mine(a));
  }

  lemma OthersTurn(
    me: Me, start: State, past: seq<Action>, plan: seq<seq<Action>>, history: seq<Turn>, trace: seq<Action>,
    others: seq<seq<Action>>)
    requires Lived(me, start, past, plan, history, trace, others) && others != []
    ensures var longer := history + [Theirs(others[0])];
            Lived(me, start, past, plan, longer, Played(me, start, trace, others[0]), others[1..])
  {
    TraceMore(me, start, past, history, Theirs(others[0]));
    MovedMore(history, Theirs(others[0]));
    LawfulMore(me, history, Theirs(others[0]));
    Append(Moved(history), [others[0]], others[1..]);
    assert [others[0]] + others[1..] == others;
  }

  lemma StarvedTurn(
    me: Me, start: State, past: seq<Action>, plan: seq<seq<Action>>, history: seq<Turn>, trace: seq<Action>, upto: nat)
    requires Lived(me, start, past, plan, history, trace, []) && Enabled(Exec(start, trace), BreakSearch(upto))
    ensures Lived(me, start, past, plan, history + [Starved(upto)], trace + [BreakSearch(upto)], [])
  {
    TraceMore(me, start, past, history, Starved(upto));
    MovedMore(history, Starved(upto));
    LawfulMore(me, history, Starved(upto));
  }

  /** The present state is reached by a run of the relayer from a fresh database. */
  ghost predicate Reached(start: State, trace: seq<Action>, s: State) {
    Initial(start) && Protocol.Valid(start, trace) && s == Exec(start, trace)
  }

  lemma ReachedNext(start: State, trace: seq<Action>, s: State, a: Action)
    requires Reached(start, trace, s) && Enabled(s, a)
    ensures Reached(start, trace + [a], Next(s, a))
  {
    assert (trace + [a])[..|trace|] == trace;
  }

  /** What the invariants say about a state that is reached. */
  lemma ReachedInv(start: State, trace: seq<Action>, s: State)
    requires Reached(start, trace, s)
    ensures LoopInv(s) && Inv(s.core) && JobsPlaced(s.core)
  {
    LoopInvHolds(start, trace);
    RunProjects(start, trace);
    BroadcastsAreConserved(Sub.Free, Acts(start, trace), TxKey(0, seq(64, _ => '0')));
  }

  class World {
    const me: Me
    var s: State
    var others: seq<seq<Action>>     // what the other actors will try to do, between this actor's steps
    const storage: nat -> bool       // whether this actor's n-th storage call succeeds
    const chain: nat -> Reply        // how the chain answers this actor's n-th submission
    var calls: nat
    var submissions: nat
    ghost const start: State
    ghost const past: seq<Action>    // what was done before this actor began
    ghost const plan: seq<seq<Action>>
    ghost var history: seq<Turn>
    ghost var trace: seq<Action>
    ghost var log: seq<Event>

    ghost predicate Valid()
      reads this
    {
      && Reached(start, trace, s)
      && Lived(me, start, past, plan, history, trace, others)
      && Truthful(log, storage, chain) && calls == StorageCalls(log) && submissions == ChainCalls(log)
    }

    constructor (
      me: Me, ghost first: State, ghost past: seq<Action>, now: State, others: seq<seq<Action>>, storage: nat -> bool,
      chain: nat -> Reply)
      requires Reached(first, past, now)
      ensures Valid() && s == now && trace == past && log == [] && history == []
      ensures this.me == me && this.start == first && this.past == past
      ensures this.others == others == plan && this.storage == storage && this.chain == chain
    {
      this.me, s, start, this.past, trace, log, history := me, now, first, past, past, [], [];
      calls, submissions := 0, 0;
      this.others, plan, this.storage, this.chain := others, others, storage, chain;
    }

    /** One atomic step of this actor. */
    method Step(a: Action)
      requires Valid() && Owns(me, a) && Enabled(s, a)
      modifies `s, `trace, `history
      ensures Valid() && s == Next(old(s), a) && trace == old(trace) + [a] && history == old(history) + [Mine(a)]
      ensures Did(history) == Did(old(history)) + [a]
    {
      DidMore(history, Mine(a));
      OwnTurn(me, start, past, plan, history, trace, others, a);
      ReachedNext(start, trace, s, a);
      s, trace, history := Next(s, a), trace + [a], history + [Mine(a)];
    }

    method StorageAnswers() returns (ok: bool)
      requires Valid()
      modifies `calls, `log
      ensures Valid() && log == old(log) + [Storage(ok)]
    {
      ok := storage(calls);
      LogLonger(log, Storage(ok), storage, chain);
      calls := calls + 1;
      log := log + [Storage(ok)];
    }

    method ChainAnswers(job: Sub.Job) returns (reply: Reply)
      requires Valid()
      modifies `submissions, `log
      ensures Valid() && log == old(log) + [Answered(job, reply)]
    {
      reply := chain(submissions);
      LogLonger(log, Answered(job, reply), storage, chain);
      submissions := submissions + 1;
      log := log + [Answered(job, reply)];
    }

    /** The other actors run. */
    method Others()
      requires Valid()
      modifies `s, `trace, `others, `history
      ensures Valid() && Stable(me, old(s), s) && old(trace) <= trace
      ensures forall i :: |old(trace)| <= i < |trace| ==> ByOthers(me, trace[i])
      ensures others == if old(others) == [] then [] else old(others)[1..]
      ensures old(others) == [] ==> s == old(s) && trace == old(trace) && history == old(history)
      ensures old(others) != [] ==> history == old(history) + [Theirs(old(others)[0])]
      ensures Did(history) == Did(old(history))
    {
      StableIsReflexive(me, s);
      if others != [] {
        ghost var played;
        OthersTurn(me, start, past, plan, history, trace, others);
        DidMore(history, Theirs(others[0]));
        s, played := Play(me, s, others[0], start, trace);
        history, trace, others := history + [Theirs(others[0])], played, others[1..];
      }
    }

    /** The search fails at its next request, as nobody will move any more. */
    method Starve(upto: nat)
      requires Valid() && others == [] && Enabled(s, BreakSearch(upto))
      modifies `s, `trace, `history
      ensures Valid() && s == Next(old(s), BreakSearch(upto)) && trace == old(trace) + [BreakSearch(upto)]
      ensures history == old(history) + [Starved(upto)] && Did(history) == Did(old(history))
    {
      DidMore(history, Starved(upto));
      StarvedTurn(me, start, past, plan, history, trace, upto);
      ReachedNext(start, trace, s, BreakSearch(upto));
      s, trace, history := Next(s, BreakSearch(upto)), trace + [BreakSearch(upto)], history + [Starved(upto)];
    }
  }

  lemma OneMoreMove(me: Me, s: State, start: State, played: seq<Action>, t: State, a: Action)
    requires Reached(start, played, t) && Stable(me, s, t) && ByOthers(me, a) && Enabled(t, a)
    ensures Reached(start, played + [a], Next(t, a)) && Stable(me, s, Next(t, a))
    ensures Taken(start, played, a) == played + [a]
  {
    ReachedInv(start, played, t);
    ReachedNext(start, played, t, a);
    OneStepIsStable(me, t, a);
    StableIsTransitive(me, s, t, Next(t, a));
  }

  /** Tries the moves of the other actors one after the other. */
  method Play(me: Me, s: State, moves: seq<Action>, ghost start: State, ghost trace: seq<Action>)
    returns (t: State, ghost played: seq<Action>)
    requires Reached(start, trace, s)
    ensures played == Played(me, start, trace, moves) && Reached(start, played, t) && Stable(me, s, t)
    ensures trace <= played && forall i :: |trace| <= i < |played| ==> ByOthers(me, played[i])
  {
    t, played := s, trace;
    StableIsReflexive(me, s);
    for i := 0 to |moves|
      invariant played == Played(me, start, trace, moves[..i]) && Reached(start, played, t) && Stable(me, s, t)
      invariant trace <= played && forall j :: |trace| <= j < |played| ==> ByOthers(me, played[j])
    {
      assert moves[..i + 1][..i] == moves[..i];
      if ByOthers(me, moves[i]) && Enabled(t, moves[i]) {
        OneMoreMove(me, s, start, played, t, moves[i]);
        t, played := Next(t, moves[i]), played + [moves[i]];
      }
    }
    assert moves[..|moves|] == moves;
  }

  // ----- what an actor does -----

  /** What was done since then is a run from there. */
  lemma RunSince(w: World, trace: seq<Action>)
    requires w.Valid() && trace <= w.trace
    ensures Protocol.Valid(w.start, trace) && Protocol.Valid(Exec(w.start, trace), w.trace[|trace|..])
    ensures Exec(Exec(w.start, trace), w.trace[|trace|..]) == w.s
  {
    RunContinues(w.start, trace, w.trace);
  }

  /** A part of what an actor does: the steps taken and the answers got meanwhile, and the states around it. */
  datatype Leg = Leg(before: State, actions: seq<Action>, events: seq<Event>, after: State)

  ghost predicate IsRun(leg: Leg) {
    Protocol.Valid(leg.before, leg.actions) && Exec(leg.before, leg.actions) == leg.after
  }

  ghost function ActionsOf(legs: seq<Leg>): seq<Action> {
    if legs == [] then [] else ActionsOf(legs[..|legs| - 1]) + legs[|legs| - 1].actions
  }

  ghost function EventsOf(legs: seq<Leg>): seq<Event> {
    if legs == [] then [] else EventsOf(legs[..|legs| - 1]) + legs[|legs| - 1].events
  }

  lemma OneMoreLeg(legs: seq<Leg>, leg: Leg, trace: seq<Action>, log: seq<Event>)
    ensures trace + ActionsOf(legs) + leg.actions == trace + ActionsOf(legs + [leg])
    ensures log + EventsOf(legs) + leg.events == log + EventsOf(legs + [leg])
  {
    assert (legs + [leg])[..|legs|] == legs;
    Append(log, EventsOf(legs), leg.events);
  }
}

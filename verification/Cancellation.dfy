/** A run in which a cancelled search breaks the watermark: two matches in one block, and it is cut off between them. */
module Cancellation {
  import opened Decimal
  import opened Records
  import opened Protocol
  import opened Watermark
  import Sub = Submissions

  lemma CutOpen(s: State, q: Uint64) returns (actions: seq<Action>)
    requires s.core == Sub.FRESH && s.pc == Idle && q in s.matches && |s.matches[q]| == 2
    requires s.covered == s.initial == map[] && 0 < s.matches[q][0].height && 0 < s.matches[q][1].height
    ensures Valid(s, actions)
    ensures Exec(s, actions) ==
            State(Sub.FRESH.(maps := SetLastQueryHeight(EMPTY_MAPS, q, 0)), s.matches, map[q := 0], map[q := 0],
                  Looping(Pass(q, 0, 0, 0, 0, 0, Running)))
  {
    actions := Then(s, [], Initialise(q, 0));
    var s1 := s.(core := s.core.(maps := SetLastQueryHeight(EMPTY_MAPS, q, 0)),
                 covered := map[q := 0], initial := map[q := 0]);
    assert Exec(s, actions) == s1;
    actions := Then(s, actions, Start(q, 0));
  }

  lemma CutSearch(s: State, before: seq<Action>, q: Uint64, pass: Pass) returns (actions: seq<Action>)
    requires Valid(s, before) && Exec(s, before).pc == Looping(pass)
    requires pass == Pass(q, 0, 0, 0, 0, 0, Running)
    requires q in Exec(s, before).matches && |Exec(s, before).matches[q]| == 2
    ensures Valid(s, actions)
    ensures var s0 := Exec(s, before);
            Exec(s, actions)
            == s0.(pc := Marked(Pass(q, 0, 0, 0, 0, 1, Cancelled)), covered := Exec(s, actions).covered)
  {
    actions := Then(s, before, Fetch(1, false));
    assert Exec(s, actions).pc == Looping(Pass(q, 0, 0, 0, 0, 1, Running));
    actions := Then(s, actions, CancelSearch(1));
    assert Exec(s, actions).pc == Looping(Pass(q, 0, 0, 0, 0, 1, Cancelled));
    actions := Then(s, actions, Mark(true));
  }

  lemma LookAtFirst(s: State, before: seq<Action>, q: Uint64, first: Transaction) returns (actions: seq<Action>)
    requires Valid(s, before)
    requires var s0 := Exec(s, before);
             && s0.pc == Marked(Pass(q, 0, 0, 0, 0, 1, Cancelled)) && q in s0.matches && |s0.matches[q]| == 2
             && s0.matches[q][0] == first && s0.core.jobs == map[] && s0.core.maps.statuses == map[]
    ensures Valid(s, actions)
    ensures var s0, s' := Exec(s, before), Exec(s, actions);
            s' == s0.(pc := Submitting(s0.pc.pass),
                      core := s0.core.(jobs := map[Sub.Relay := Sub.Job(q, first, Sub.Ready)]))
  {
    actions := Then(s, before, Look(true));
  }

  lemma AcceptFirst(s: State, before: seq<Action>, q: Uint64, first: Transaction) returns (actions: seq<Action>)
    requires Valid(s, before)
    requires var s0 := Exec(s, before);
             && s0.pc == Submitting(Pass(q, 0, 0, 0, 0, 1, Cancelled)) && q in s0.matches && |s0.matches[q]| == 2
             && s0.core.carried == map[] && s0.core.jobs == map[Sub.Relay := Sub.Job(q, first, Sub.Ready)]
    ensures Valid(s, actions)
    ensures var s0, s' := Exec(s, before), Exec(s, actions);
            && s' == s0.(core := s'.core) && s'.core.maps == s0.core.maps
            && s'.core.jobs == map[Sub.Relay := Sub.Job(q, first, Sub.Accepted(""))]
  {
    actions := Then(s, before, Actor(Sub.Accept(Sub.Relay, "")));
  }

  lemma RecordFirst(s: State, before: seq<Action>, q: Uint64, first: Transaction) returns (actions: seq<Action>)
    requires Valid(s, before)
    requires var s0 := Exec(s, before);
             && s0.pc == Submitting(Pass(q, 0, 0, 0, 0, 1, Cancelled)) && q in s0.matches && |s0.matches[q]| == 2
             && s0.matches[q][0] == first && s0.core.maps.statuses == map[]
             && s0.core.jobs == map[Sub.Relay := Sub.Job(q, first, Sub.Accepted(""))]
    ensures Valid(s, actions)
    ensures var s0, s' := Exec(s, before), Exec(s, actions);
            && s'.pc == Looping(Pass(q, 0, 0, 1, first.height, 1, Cancelled))
            && s'.core.maps.statuses.Keys == {TxKey(q, first.hash)}
            && s'.initial == s0.initial && s'.matches == s0.matches
  {
    actions := Then(s, before, Actor(Sub.Record(Sub.Relay, true, 0)));
  }

  lemma CutRun(s: State, q: Uint64, first: Transaction, second: Transaction) returns (actions: seq<Action>)
    requires 0 < first.height == second.height
    requires s == State(Sub.FRESH, map[q := [first, second]], map[], map[], Idle)
    ensures Valid(s, actions)
    ensures var s8 := Exec(s, actions);
            && s8.pc == Looping(Pass(q, 0, 0, 1, first.height, 1, Cancelled))
            && s8.core.maps.statuses.Keys == {TxKey(q, first.hash)}
            && s8.initial == map[q := 0] && s8.matches == map[q := [first, second]]
  {
    actions := CutOpen(s, q);
    actions := CutSearch(s, actions, q, Exec(s, actions).pc.pass);
    actions := LookAtFirst(s, actions, q, first);
    actions := AcceptFirst(s, actions, q, first);
    actions := RecordFirst(s, actions, q, first);
  }

  lemma CutCloses(s: State, actions: seq<Action>, q: Uint64, first: Transaction, second: Transaction)
    requires Valid(s, actions) && first.hash != second.hash && 0 < first.height == second.height
    requires var s8 := Exec(s, actions);
             && s8.pc == Looping(Pass(q, 0, 0, 1, first.height, 1, Cancelled))
             && s8.core.maps.statuses.Keys == {TxKey(q, first.hash)}
             && s8.initial == map[q := 0] && s8.matches == map[q := [first, second]]
    ensures Enabled(Exec(s, actions), Close(true)) && !Safe(Next(Exec(s, actions), Close(true)))
  {
    var s8 := Exec(s, actions);
    var s9 := Next(s8, Close(true));
    assert s9.core.maps.statuses == s8.core.maps.statuses && Stored(s9, q) == first.height;
    assert s9.matches[q][1] == second && TxKey(q, second.hash) !in s9.core.maps.statuses.Keys;
    assert !RecordedBetween(s9.matches[q], 0, first.height, q, s9.core.maps.statuses.Keys);
  }

  /** Cancelling a search between two matches of one block lets the watermark pass the second without a record. */
  lemma CancellationBreaksSafety(q: Uint64, first: Transaction, second: Transaction)
    returns (s: State, actions: seq<Action>)
    requires first.hash != second.hash && 0 < first.height == second.height
    ensures Initial(s) && Valid(s, actions) && !Safe(Exec(s, actions))
  {
    s := State(Sub.FRESH, map[q := [first, second]], map[], map[], Idle);
    actions := CutRun(s, q, first, second);
    CutCloses(s, actions, q, first, second);
    actions := Then(s, actions, Close(true));
  }
}

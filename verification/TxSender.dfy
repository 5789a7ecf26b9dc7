/** The transaction sender: which account sequence number each broadcast carries. */
module TxSender {
  import opened Decimal

  datatype Account = Account(number: Uint64, sequence: Uint64)

  datatype Simulation = Gas(needed: Uint64) | SequenceMismatch | SimulationFails

  /** CheckTx's answer: 0 accepts, 32 is an incorrect account sequence; or the broadcast itself fails. */
  datatype Broadcast = Unsent | Answered(code: nat)

  const INCORRECT_ACCOUNT_SEQUENCE := 32

  /** How the chain and the keyring behave during one send; `account` answers an account query, if one is made. */
  datatype Conditions =
    Conditions(priceOk: bool, simulation: Simulation, signs: bool, broadcast: Broadcast, account: Option<Account>)

  /** What a send does: the state it leaves, and the sequence number it carried if it was accepted. */
  datatype Result = Result(state: Account, accepted: Option<Uint64>)

  function Refreshed(state: Account, answer: Option<Account>): Account {
    answer.GetOr(state)
  }

  /** The send gets as far as the broadcast. */
  predicate Broadcasts(gasLimit: Uint64, c: Conditions) {
    c.priceOk && c.simulation.Gas? && !(0 < gasLimit < c.simulation.needed) && c.signs
  }

  /** The send runs into a sequence mismatch, in the simulation or at the broadcast, and queries the account again. */
  predicate Mismatches(gasLimit: Uint64, c: Conditions) {
    || (c.priceOk && c.simulation.SequenceMismatch?)
    || (Broadcasts(gasLimit, c) && c.broadcast == Answered(INCORRECT_ACCOUNT_SEQUENCE))
  }

  predicate Accepts(gasLimit: Uint64, c: Conditions) {
    Broadcasts(gasLimit, c) && c.broadcast == Answered(0)
  }

  function Outcome(state: Account, gasLimit: Uint64, c: Conditions): Result {
    if Accepts(gasLimit, c) then Result(state.(sequence := WrappingAdd(state.sequence, 1)), Some(state.sequence))
    else if Mismatches(gasLimit, c) then Result(Refreshed(state, c.account), None)
    else Result(state, None)
  }

  class TxSender {
    var sequence: Uint64
    var accountNumber: Uint64
    const gasLimit: Uint64

    constructor (account: Account, gasLimit: Uint64)
      ensures State() == account && this.gasLimit == gasLimit
    {
      sequence, accountNumber, this.gasLimit := account.sequence, account.number, gasLimit;
    }

    function State(): Account
      reads this
    {
      Account(accountNumber, sequence)
    }

    method RefreshAccountInfo(answer: Option<Account>) returns (ok: bool)
      modifies this
      ensures ok == answer.Some? && State() == Refreshed(old(State()), answer)
    {
      if answer.None? { return false; }
      accountNumber, sequence := answer.value.number, answer.value.sequence;
      ok := true;
    }

    method Send(c: Conditions) returns (accepted: Option<Uint64>)
      modifies this
      ensures Result(State(), accepted) == Outcome(old(State()), gasLimit, c)
    {
      if !c.priceOk { return None; }
      if !c.simulation.Gas? {
        if c.simulation.SequenceMismatch? {
          var ok := RefreshAccountInfo(c.account);
        }
        return None;
      }
      if 0 < gasLimit && gasLimit < c.simulation.needed { return None; }
      if !c.signs { return None; }
      if c.broadcast.Unsent? { return None; }
      if c.broadcast.code == 0 {
        accepted := Some(sequence);
        sequence := WrappingAdd(sequence, 1);
        return;
      }
      if c.broadcast.code == INCORRECT_ACCOUNT_SEQUENCE {
        var ok := RefreshAccountInfo(c.account);
      }
      return None;
    }
  }

  // ----- runs of serialised sends -----

  ghost function StateAfter(state: Account, gasLimit: Uint64, sends: seq<Conditions>): Account {
    if sends == [] then state
    else Outcome(StateAfter(state, gasLimit, sends[..|sends| - 1]), gasLimit, sends[|sends| - 1]).state
  }

  /** The number carried by the last send of the run, if it was accepted. */
  ghost function LastAccepted(state: Account, gasLimit: Uint64, sends: seq<Conditions>): Option<Uint64>
    requires sends != []
  {
    Outcome(StateAfter(state, gasLimit, sends[..|sends| - 1]), gasLimit, sends[|sends| - 1]).accepted
  }

  /** The sequence number the chain gave at the last successful account query of the run. */
  ghost function LastGiven(state: Account, gasLimit: Uint64, sends: seq<Conditions>): Uint64 {
    if sends == [] then state.sequence
    else
      var c := sends[|sends| - 1];
      if Mismatches(gasLimit, c) && c.account.Some? then c.account.value.sequence
      else LastGiven(state, gasLimit, sends[..|sends| - 1])
  }

  /** The broadcasts accepted since then. */
  ghost function AcceptedSince(gasLimit: Uint64, sends: seq<Conditions>): nat {
    if sends == [] then 0
    else
      var front, c := sends[..|sends| - 1], sends[|sends| - 1];
      if Mismatches(gasLimit, c) && c.account.Some? then 0
      else AcceptedSince(gasLimit, front) + if Accepts(gasLimit, c) then 1 else 0
  }

  /** After every run the sender's next number is the one the chain last gave plus the number of broadcasts accepted
      since, modulo 2^64: accepted broadcasts use up one number each and failed sends none. */
  lemma {:induction false} SequenceDiscipline(state: Account, gasLimit: Uint64, sends: seq<Conditions>)
    ensures StateAfter(state, gasLimit, sends).sequence
            == (LastGiven(state, gasLimit, sends) + AcceptedSince(gasLimit, sends)) % TWO_TO_64
    decreases |sends|
  {
    if sends != [] {
      SequenceDiscipline(state, gasLimit, sends[..|sends| - 1]);
    }
  }

  /** The n-th accepted broadcast after an account query carries the number the chain gave then plus n - 1. */
  lemma AcceptedNumbersAreConsecutive(state: Account, gasLimit: Uint64, sends: seq<Conditions>)
    requires sends != [] && LastAccepted(state, gasLimit, sends).Some?
    ensures LastAccepted(state, gasLimit, sends).value
            == (LastGiven(state, gasLimit, sends) + (AcceptedSince(gasLimit, sends) - 1)) % TWO_TO_64
    ensures 0 < AcceptedSince(gasLimit, sends)
  {
    SequenceDiscipline(state, gasLimit, sends[..|sends| - 1]);
  }

  /** After a mismatch with a successful account query the next attempt, if accepted, carries the chain's number. */
  lemma MismatchIsRepaired(state: Account, gasLimit: Uint64, sends: seq<Conditions>, c: Conditions, next: Conditions)
    requires Mismatches(gasLimit, c) && c.account.Some? && Accepts(gasLimit, next)
    ensures LastAccepted(state, gasLimit, sends + [c] + [next]) == Some(c.account.value.sequence)
  {
    var run := sends + [c];
    assert (run + [next])[..|run|] == run && run[..|sends|] == sends;
    assert StateAfter(state, gasLimit, run) == Outcome(StateAfter(state, gasLimit, sends), gasLimit, c).state;
  }
}

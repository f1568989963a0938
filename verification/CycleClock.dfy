/** The CPU's deferred-commit clock: `cycle_clock.rs`. */
module CycleClock {
  import opened Words

  /** How an IO write shares its M-cycle with the component it goes to. */
  datatype Conflict = ReadOld | ReadNew | WriteCpu | EarlyTwo | WxHold

  /** What an M-cycle does to the bus. */
  datatype Op = Read | Write(conflict: Conflict) | Internal

  /** The running position in T-cycles, and the debt not advanced yet. */
  datatype State = State(clock: nat, pending: nat)
  {
    /** The position of an access, and the state behind it. */
    function Do(op: Op): (Option<nat>, State) {
      match op
      case Read => (Some(clock + pending), State(clock + pending, 4))
      case Write(ReadOld) => (Some(clock + pending), State(clock + pending, 4))
      case Write(ReadNew) => var c := clock + Max(pending - 1, 0); (Some(c), State(c, 5))
      case Write(WriteCpu) => (Some(clock + pending + 1), State(clock + pending + 1, 3))
      case Write(EarlyTwo) => var c := clock + Max(pending - 2, 0); (Some(c), State(c, 6))
      case Write(WxHold) => (Some(clock + pending), State(clock + pending + 1, 3))
      case Internal => (None, State(clock, pending + 4))
    }

    function Flush(): State {
      State(clock + pending, 0)
    }

    /** Where the clock will be once the debt is paid. */
    function Due(): nat {
      clock + pending
    }
  }

  const PENDING_MAX := 0xFFFF_FFFF

  class Clock {
    var clock: nat
    var pending: nat

    function Value(): State
      reads this
    {
      State(clock, pending)
    }

    constructor ()
      ensures Value() == State(0, 0)
    {
      clock, pending := 0, 0;
    }

    method Read() returns (sample: nat)
      modifies this
      ensures (Some(sample), Value()) == old(Value()).Do(Op.Read)
    {
      clock := clock + pending;
      sample := clock;
      pending := 4;
    }

    method Write(conflict: Conflict) returns (commit: nat)
      modifies this
      ensures (Some(commit), Value()) == old(Value()).Do(Op.Write(conflict))
    {
      var repark;
      match conflict {
        case ReadOld =>
          clock := clock + pending;
          repark := 4;
        case ReadNew =>
          clock := clock + Max(pending - 1, 0);
          repark := 5;
        case WriteCpu =>
          clock := clock + pending + 1;
          repark := 3;
        case EarlyTwo =>
          clock := clock + Max(pending - 2, 0);
          repark := 6;
        case WxHold =>
          clock := clock + pending;
          commit := clock;
          clock := clock + 1;
          pending := 3;
          return;
      }
      commit := clock;
      pending := repark;
    }

    /** A debt beyond 32 bits is a panic. */
    method Internal()
      requires pending + 4 <= PENDING_MAX
      modifies this`pending
      ensures (None, Value()) == old(Value()).Do(Op.Internal)
    {
      pending := pending + 4;
    }

    method Flush()
      modifies this
      ensures Value() == old(Value()).Flush()
    {
      clock := clock + pending;
      pending := 0;
    }
  }

  // ----- Instructions

  /** The state in front of M-cycle n. */
  function Before(s: State, ops: seq<Op>, n: nat): State
    requires n <= |ops|
  {
    if n == 0 then s else Before(s, ops, n - 1).Do(ops[n - 1]).1
  }

  /** Where M-cycle i samples or commits, if it does. */
  function Position(s: State, ops: seq<Op>, i: nat): Option<nat>
    requires i < |ops|
  {
    Before(s, ops, i).Do(ops[i]).0
  }

  /** How far from the leading edge of its own M-cycle an access is. */
  function Delta(op: Op): int {
    match op
    case Write(ReadNew) => -1
    case Write(WriteCpu) => 1
    case Write(EarlyTwo) => -2
    case _ => 0
  }

  /** The debt an operation needs in order to commit early. */
  function Needed(op: Op): nat {
    Max(-Delta(op), 0)
  }

  /** An M-cycle adds exactly 4 if and only if there is the debt it needs, and what is missing comes
      on top; afterwards there is debt enough for any operation. */
  lemma OneMCycle(s: State, op: Op)
    ensures s.Do(op).1.Due() == s.Due() + 4 + Max(Needed(op) - s.pending, 0)
    ensures s.Do(op).1.pending >= 3
    ensures op.Internal? <==> s.Do(op).0 == None
    ensures !op.Internal? && s.pending >= Needed(op) ==> s.Do(op).0 == Some(s.Due() + Delta(op))
  {
  }

  lemma {:induction false} DebtGrows(s: State, ops: seq<Op>, n: nat)
    requires n <= |ops|
    ensures n > 0 ==> Before(s, ops, n).pending >= 3
    ensures Before(s, ops, n).Due()
         == s.Due() + 4 * n + if n > 0 then Max(Needed(ops[0]) - s.pending, 0) else 0
  {
    hide State.Do;
    if n > 0 {
      DebtGrows(s, ops, n - 1);
      OneMCycle(Before(s, ops, n - 1), ops[n - 1]);
    }
  }

  /** In an instruction from a flushed clock, the final flush has advanced it by 4 for each M-cycle if
      and only if the first is not an early write; an early one adds the T-cycles it had no debt for. */
  lemma FlushConserves(start: nat, ops: seq<Op>)
    requires ops != []
    ensures Before(State(start, 0), ops, |ops|).Flush() == State(start + 4 * |ops| + Needed(ops[0]), 0)
    ensures Before(State(start, 0), ops, |ops|).Flush().clock == start + 4 * |ops|
      <==> ops[0] != Write(ReadNew) && ops[0] != Write(EarlyTwo)
  {
    hide Before;
    DebtGrows(State(start, 0), ops, |ops|);
  }

  /** Each access is at its own place in its own M-cycle, whatever its neighbours are; only an early
      write in the first M-cycle shifts them all, itself to the leading edge. */
  lemma PositionsAreLocal(start: nat, ops: seq<Op>, i: nat)
    requires i < |ops|
    ensures Position(State(start, 0), ops, i)
         == if ops[i].Internal? then None else Some(start + 4 * i + Delta(ops[i]) + Needed(ops[0]))
  {
    if i == 0 {
      assert Before(State(start, 0), ops, 0) == State(start, 0);
    } else {
      hide State.Do, Before;
      DebtGrows(State(start, 0), ops, i);
      OneMCycle(Before(State(start, 0), ops, i), ops[i]);
    }
  }

  /** Later accesses come strictly later. */
  lemma PositionsIncrease(start: nat, ops: seq<Op>, i: nat, j: nat)
    requires i < j < |ops| && !ops[i].Internal? && !ops[j].Internal?
    ensures var p, q := Position(State(start, 0), ops, i), Position(State(start, 0), ops, j);
      p.Some? && q.Some? && p.value < q.value
  {
    hide Position;
    PositionsAreLocal(start, ops, i);
    PositionsAreLocal(start, ops, j);
  }

  /** An instruction's debt stays below the panic while it has fewer than 2^28 M-cycles. */
  lemma {:induction false} DebtIsBounded(s: State, ops: seq<Op>, n: nat)
    requires n <= |ops|
    ensures Before(s, ops, n).pending <= Max(s.pending, 6) + 4 * n
  {
    hide State.Do;
    if n > 0 {
      DebtIsBounded(s, ops, n - 1);
      OneDebt(Before(s, ops, n - 1), ops[n - 1]);
    }
  }

  lemma OneDebt(s: State, op: Op)
    ensures s.Do(op).1.pending <= Max(s.pending + 4, 6)
  {
  }
}

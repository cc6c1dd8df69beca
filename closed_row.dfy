/**
  The Closed row of the account state machine, as pure functions.

  Each of the five operations takes the account (and an amount where the
  operation has one) and yields an Effect: the account afterwards and the
  lines printed. A closed account refuses everything: every operation prints
  a fixed message (deposit and withdraw also print the account's string
  form) and leaves the account exactly as it was, so Closed is absorbing.
 */
module ClosedRow {
  import opened Accounts

  const DepositRefusal: string := "You cannot deposit on a closed account!"
  const WithdrawRefusal: string := "You cannot withdraw on a closed account!"
  const SuspendRefusal: string := "You cannot suspend closed account!"
  const ActivateRefusal: string := "You can not activate closed account!"
  const CloseRefusal: string := "Account is already closed!"

  /** What an operation leaves behind: the account and the printed lines. */
  datatype Effect = Effect(account: Snapshot, out: seq<Line>)

  /** One call of an operation of the state interface, with its argument. */
  datatype Call =
    | DepositCall(amount: real)
    | WithdrawCall(amount: real)
    | SuspendCall
    | ActivateCall
    | CloseCall

  /** The five operations, without their arguments. */
  datatype Kind = DepositKind | WithdrawKind | SuspendKind | ActivateKind | CloseKind

  datatype Option<T> = None | Some(value: T)

  function KindOf(c: Call): Kind
  {
    match c
    case DepositCall(_) => DepositKind
    case WithdrawCall(_) => WithdrawKind
    case SuspendCall => SuspendKind
    case ActivateCall => ActivateKind
    case CloseCall => CloseKind
  }

  function Kinds(calls: seq<Call>): seq<Kind>
  {
    if calls == [] then [] else [KindOf(calls[0])] + Kinds(calls[1..])
  }

  /** Deposit is refused for every amount; the account is echoed. */
  function Deposit(a: Snapshot, amount: real): (e: Effect)
    ensures e.account == a
    ensures |e.out| == 2 && e.out[0] == Text(DepositRefusal) && e.out[1] == Dump(a)
  {
    Effect(a, [Text(DepositRefusal), Dump(a)])
  }

  /** Withdraw is refused for every amount, above the balance or negative too. */
  function Withdraw(a: Snapshot, amount: real): (e: Effect)
    ensures e.account == a
    ensures |e.out| == 2 && e.out[0] == Text(WithdrawRefusal) && e.out[1] == Dump(a)
  {
    Effect(a, [Text(WithdrawRefusal), Dump(a)])
  }

  /** Suspend is refused: no transition out of Closed. */
  function Suspend(a: Snapshot): (e: Effect)
    ensures e.account == a
    ensures e.out == [Text(SuspendRefusal)]
  {
    Effect(a, [Text(SuspendRefusal)])
  }

  /** Activate is refused: no transition out of Closed. */
  function Activate(a: Snapshot): (e: Effect)
    ensures e.account == a
    ensures e.out == [Text(ActivateRefusal)]
  {
    Effect(a, [Text(ActivateRefusal)])
  }

  /** Closing a closed account is a no-op that says so. */
  function Close(a: Snapshot): (e: Effect)
    ensures e.account == a
    ensures e.out == [Text(CloseRefusal)]
  {
    Effect(a, [Text(CloseRefusal)])
  }

  /** The refusal message of each operation, as a table. */
  function Refusal(k: Kind): string
  {
    match k
    case DepositKind => DepositRefusal
    case WithdrawKind => WithdrawRefusal
    case SuspendKind => SuspendRefusal
    case ActivateKind => ActivateRefusal
    case CloseKind => CloseRefusal
  }

  /** The operations whose refusal also prints the account's string form. */
  predicate EchoesAccount(k: Kind)
  {
    k == DepositKind || k == WithdrawKind
  }

  /** Dispatch of one call to the matching operation of the Closed row. */
  function Apply(a: Snapshot, c: Call): (e: Effect)
    ensures e.account == a
    ensures e.out == [Text(Refusal(KindOf(c)))] + (if EchoesAccount(KindOf(c)) then [Dump(a)] else [])
  {
    match c
    case DepositCall(amount) => Deposit(a, amount)
    case WithdrawCall(amount) => Withdraw(a, amount)
    case SuspendCall => Suspend(a)
    case ActivateCall => Activate(a)
    case CloseCall => Close(a)
  }

  /** A sequence of calls delivered one after the other; the output accumulates. */
  function Run(a: Snapshot, calls: seq<Call>): Effect
  {
    if calls == [] then Effect(a, [])
    else
      var first := Apply(a, calls[0]);
      var rest := Run(first.account, calls[1..]);
      Effect(rest.account, first.out + rest.out)
  }

  /** The number of calls whose refusal echoes the account. */
  function EchoCount(calls: seq<Call>): nat
  {
    if calls == [] then 0
    else (if EchoesAccount(KindOf(calls[0])) then 1 else 0) + EchoCount(calls[1..])
  }

  /** The five refusal messages are pairwise different strings. */
  lemma RefusalsDistinct(k1: Kind, k2: Kind)
    ensures Refusal(k1) == Refusal(k2) <==> k1 == k2
  {
  }

  /** Close is idempotent: a second close sees the same account and prints the same line. */
  lemma CloseIdempotent(a: Snapshot)
    ensures Close(Close(a).account) == Close(a)
  {
  }

  /** Any sequence of calls leaves the account exactly as it was. */
  lemma {:induction false} RunLeavesAccount(a: Snapshot, calls: seq<Call>)
    ensures Run(a, calls).account == a
  {
    if calls != [] {
      RunLeavesAccount(Apply(a, calls[0]).account, calls[1..]);
    }
  }

  /** The context's delegation: a Closed account goes to the Closed row, any
      other account to the row `other`, which stands for the Active and
      Suspended rows and is left unconstrained. */
  function Dispatch(other: (Snapshot, Call) -> Effect, a: Snapshot, c: Call): Effect
  {
    if a.state == Closed then Apply(a, c) else other(a, c)
  }

  /** A sequence of calls delivered through the context's delegation. */
  function Deliver(other: (Snapshot, Call) -> Effect, a: Snapshot, calls: seq<Call>): Effect
    decreases |calls|
  {
    if calls == [] then Effect(a, [])
    else
      var first := Dispatch(other, a, calls[0]);
      var rest := Deliver(other, first.account, calls[1..]);
      Effect(rest.account, first.out + rest.out)
  }

  /** Closed is terminal: whatever the other rows do, a Closed account hands
      every call of any sequence to the Closed row, and ends Closed with the
      same number and balance. */
  lemma {:induction false} ClosedIsAbsorbing(other: (Snapshot, Call) -> Effect, a: Snapshot, calls: seq<Call>)
    requires a.state == Closed
    ensures Deliver(other, a, calls) == Run(a, calls)
    ensures Deliver(other, a, calls).account == a
    decreases |calls|
  {
    RunLeavesAccount(a, calls);
    if calls != [] {
      ClosedIsAbsorbing(other, Apply(a, calls[0]).account, calls[1..]);
    }
  }

  /** One line per call, plus one more for each deposit or withdraw. */
  lemma {:induction false} RunOutputLength(a: Snapshot, calls: seq<Call>)
    ensures |Run(a, calls).out| == |calls| + EchoCount(calls)
  {
    if calls != [] {
      RunOutputLength(Apply(a, calls[0]).account, calls[1..]);
    }
  }

  /** Every account string printed during a run shows the starting number and balance. */
  lemma {:induction false} RunDumpsAreStable(a: Snapshot, calls: seq<Call>)
    ensures forall i :: 0 <= i < |Run(a, calls).out| && Run(a, calls).out[i].AccountDump? ==>
      Run(a, calls).out[i] == Dump(a)
  {
    if calls != [] {
      var first := Apply(a, calls[0]);
      RunDumpsAreStable(first.account, calls[1..]);
    }
  }

  function Prepend(k: Kind, r: Option<seq<Kind>>): Option<seq<Kind>>
  {
    match r
    case None => None
    case Some(ks) => Some([k] + ks)
  }

  /** Reads back, from console output, which operations were refused. */
  function Parse(out: seq<Line>): Option<seq<Kind>>
    decreases |out|
  {
    if out == [] then Some([])
    else match out[0]
      case AccountDump(_, _) => None
      case Text(t) =>
        if t == DepositRefusal || t == WithdrawRefusal then
          if |out| >= 2 && out[1].AccountDump? then
            Prepend(if t == DepositRefusal then DepositKind else WithdrawKind, Parse(out[2..]))
          else None
        else if t == SuspendRefusal then Prepend(SuspendKind, Parse(out[1..]))
        else if t == ActivateRefusal then Prepend(ActivateKind, Parse(out[1..]))
        else if t == CloseRefusal then Prepend(CloseKind, Parse(out[1..]))
        else None
  }

  /** The output of one call, followed by any parsable output, parses to that call first. */
  lemma ParseApply(a: Snapshot, c: Call, rest: seq<Line>)
    ensures Parse(Apply(a, c).out + rest) == Prepend(KindOf(c), Parse(rest))
  {
  }

  /** The output identifies the operations: each refusal names its operation. */
  lemma {:induction false} ParseRun(a: Snapshot, calls: seq<Call>)
    ensures Parse(Run(a, calls).out) == Some(Kinds(calls))
  {
    if calls != [] {
      var first := Apply(a, calls[0]);
      ParseRun(first.account, calls[1..]);
      ParseApply(a, calls[0], Run(first.account, calls[1..]).out);
    }
  }
}

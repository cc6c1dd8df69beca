# Closed state of a bank account state machine

This project models the Closed state of a bank account that follows the
State design pattern. An account holds an account number, a balance and a
current state (Active, Suspended or Closed). Each of its five operations
(deposit, withdraw, suspend, activate, close) is handed to the current state
object. The Closed state refuses every operation with a fixed message:

- deposit and withdraw also print the account's string form;
- nothing ever writes to the account, so Closed is an absorbing state.

Modules:

- `Accounts` (account.dfy) is a minimal account context. It holds the state
  tag, an account value (`Snapshot`) and the `Account` class with its three
  fields. The console is a `Console` object whose `lines` is the sequence of
  printed lines.
- `ClosedRow` (closed_row.dfy) is the Closed row of the transition table as
  pure functions. Each operation maps an account to an `Effect`, which holds
  the account afterwards and the printed lines. `Apply` dispatches one call
  and `Run` applies a sequence of calls. The lemmas state terminality and
  describe the output.
- `ClosedState` (closed_state.dfy) is the state object itself: a class with
  no fields whose five methods append to the console. The account is not in
  any method's `modifies` clause, so Dafny checks that no method writes to it.

## Model

| member | source | states |
|---|---|---|
| ClosedRow.Deposit | ClosedState.java:3-6 | For every amount the account is unchanged. The output is exactly two lines: "You cannot deposit on a closed account!" and then the account's string form. |
| ClosedRow.Withdraw | ClosedState.java:9-12 | For every amount the account is unchanged. This includes amounts above the balance and negative amounts. The output is "You cannot withdraw on a closed account!" and then the account's string form. |
| ClosedRow.Suspend | ClosedState.java:15-17 | The account stays as it is, still Closed. The only output is "You cannot suspend closed account!". |
| ClosedRow.Activate | ClosedState.java:20-22 | The account stays as it is, still Closed. The only output is "You can not activate closed account!", worded differently from the suspend refusal. |
| ClosedRow.Close | ClosedState.java:25-27 | The account stays as it is, still Closed. The only output is "Account is already closed!". |
| ClosedRow.Apply | ClosedState.java:1-28 | Dispatches one call to the Closed row. The account is unchanged. The output is the operation's entry in the refusal-message table, followed by the account's string form exactly when the operation is deposit or withdraw. |
| ClosedRow.RefusalsDistinct | ClosedState.java:4-26 | Two operations have the same refusal message if and only if they are the same operation. |
| ClosedRow.CloseIdempotent | ClosedState.java:25-27 | A second close of the account returns the same account and prints the same single line as the first. |
| ClosedRow.RunLeavesAccount | ClosedState.java:3-27 | After any finite sequence of the five operations the account equals the starting account. |
| ClosedRow.ClosedIsAbsorbing | ClosedState.java:3-27 | Whatever the Active and Suspended rows do, a Closed account delivered any call sequence through the context's delegation hands every call to the Closed row. The run's account and output equal those of the Closed row alone, and the account ends as it started: Closed, with the same number and balance. |
| ClosedRow.RunOutputLength | ClosedState.java:3-27 | A run prints one line per call, plus one extra line for each deposit or withdraw. |
| ClosedRow.RunDumpsAreStable | ClosedState.java:3-12 | Every account string printed during a run shows the starting account number and balance. |
| ClosedRow.ParseApply | ClosedState.java:3-27 | The output of one call, followed by any further lines, reads back as that call's operation and then whatever the further lines read back as. |
| ClosedRow.ParseRun | ClosedState.java:3-27 | The console output of a run reads back as the exact sequence of operations called, so each refusal identifies its operation. |
| ClosedState.ClosedState.Deposit | ClosedState.java:3-6 | Appends the two lines of `ClosedRow.Deposit` to the console. It does not write to the account. |
| ClosedState.ClosedState.Withdraw | ClosedState.java:9-12 | Appends the two lines of `ClosedRow.Withdraw` to the console. It does not write to the account. |
| ClosedState.ClosedState.Suspend | ClosedState.java:15-17 | Appends the suspend refusal line to the console. It does not write to the account. |
| ClosedState.ClosedState.Activate | ClosedState.java:20-22 | Appends the activate refusal line to the console. It does not write to the account. |
| ClosedState.ClosedState.Close | ClosedState.java:25-27 | Appends the "already closed" line to the console. It does not write to the account. |

## Left out

- Console I/O: `System.out.println` is modelled as appending a line to `Console.lines`.
- The text of the account's string form: it is produced by `Account.toString`, which formats a double and is not part of this model. The printed line is kept as the structured `AccountDump(accountNumber, balance)`.
- Balance type: the balance is a `real` rather than a 64-bit double. The Closed row does no arithmetic on it.
- The Active and Suspended rows and the demo driver are not part of this model. `ClosedRow.Dispatch` models the `Account` context's delegation with those two rows as an unconstrained parameter. `Accounts.Account` keeps only the three fields the Closed row can reach.
- Concurrency: none exists. Every operation is one synchronous step.

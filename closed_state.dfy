/**
  The Closed state variant as the object the account delegates to.

  The variant holds no data. Each method prints on the console and writes
  nothing to the account: the account is outside every `modifies` clause,
  and each `ensures` ties the printed lines to the Closed row's function.
 */
module ClosedState {
  import opened Accounts
  import ClosedRow

  class ClosedState {

    constructor ()
    {
    }

    method Deposit(account: Account, amount: real, console: Console)
      modifies console
      ensures console.lines == old(console.lines) + ClosedRow.Deposit(account.Value(), amount).out
      ensures account.Value() == old(account.Value())
    {
      console.lines := console.lines + [Text(ClosedRow.DepositRefusal)];
      console.lines := console.lines + [Dump(account.Value())];
    }

    method Withdraw(account: Account, amount: real, console: Console)
      modifies console
      ensures console.lines == old(console.lines) + ClosedRow.Withdraw(account.Value(), amount).out
      ensures account.Value() == old(account.Value())
    {
      console.lines := console.lines + [Text(ClosedRow.WithdrawRefusal)];
      console.lines := console.lines + [Dump(account.Value())];
    }

    method Suspend(account: Account, console: Console)
      modifies console
      ensures console.lines == old(console.lines) + ClosedRow.Suspend(account.Value()).out
      ensures account.Value() == old(account.Value())
    {
      console.lines := console.lines + [Text(ClosedRow.SuspendRefusal)];
    }

    method Activate(account: Account, console: Console)
      modifies console
      ensures console.lines == old(console.lines) + ClosedRow.Activate(account.Value()).out
      ensures account.Value() == old(account.Value())
    {
      console.lines := console.lines + [Text(ClosedRow.ActivateRefusal)];
    }

    method Close(account: Account, console: Console)
      modifies console
      ensures console.lines == old(console.lines) + ClosedRow.Close(account.Value()).out
      ensures account.Value() == old(account.Value())
    {
      console.lines := console.lines + [Text(ClosedRow.CloseRefusal)];
    }
  }
}

/**
  The account context that the Closed row of the state machine works on.

  Only what the Closed row touches is modelled: the account number, the
  balance and the current state tag. Console output is a log of lines, and
  the account's string form is kept as a structured line holding the two
  fields it shows, because rendering a double as text is not part of this
  model.
 */
module Accounts {

  /** The three state variants an account can be in. */
  datatype State = Active | Suspended | Closed

  /** The value of an account at one moment: what the state rows may read. */
  datatype Snapshot = Snapshot(accountNumber: string, balance: real, state: State)

  /** One line printed on the console. */
  datatype Line =
    | Text(text: string)
    | AccountDump(accountNumber: string, balance: real)  // the account's string form

  /** The line printed for the account's string form. */
  function Dump(a: Snapshot): Line
  {
    AccountDump(a.accountNumber, a.balance)
  }

  /** The context object: identity, balance and the current state variant. */
  class Account {
    const accountNumber: string
    var balance: real
    var state: State

    constructor (accountNumber: string, balance: real, state: State)
      ensures this.accountNumber == accountNumber
      ensures this.balance == balance && this.state == state
    {
      this.accountNumber := accountNumber;
      this.balance := balance;
      this.state := state;
    }

    /** The current value of the account. */
    function Value(): Snapshot
      reads this
    {
      Snapshot(accountNumber, balance, state)
    }
  }

  /** The standard output stream, as the sequence of lines printed so far. */
  class Console {
    var lines: seq<Line>

    constructor ()
      ensures lines == []
    {
      lines := [];
    }
  }
}

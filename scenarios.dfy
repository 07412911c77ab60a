/**
 * The account-balance projection: an integer view that deposits add to and
 * withdrawals subtract from.
 */
module Scenarios {
  import opened Wrappers
  import opened Json
  import opened Storage
  import opened Views
  import opened Queries

  datatype BankEvent = Deposit(amount: int) | Withdraw(amount: int)

  /** An integer view; serde turns an integer into a JSON number. */
  function BalanceView(fromSlice: seq<byte> -> Result<int, string>): ViewType<int, BankEvent>
  {
    ViewType(
      0,
      (balance: int, e: BankEvent) => match e
        case Deposit(a) => balance + a
        case Withdraw(a) => balance - a,
      (balance: int) => Success(Number(balance)),
      fromSlice)
  }

  /**
   * Deposits of 10 and 5 and a withdrawal of 3 fold to 12, but the commit
   * of that view panics: its JSON value is a number, not a string, so
   * nothing is written.
   */
  lemma BalanceScenario(fromSlice: seq<byte> -> Result<int, string>, s: Store)
    requires Lookup(s, "balance", "acct-1") == None
    ensures Fold(BalanceView(fromSlice), 0, [Deposit(10), Deposit(5), Withdraw(3)]) == 12
    ensures Apply(BalanceView(fromSlice), s, "balance", "acct-1", [Deposit(10), Deposit(5), Withdraw(3)])
      == Failure(PayloadNotAString)
  {
  }
}

/** Option, Result and Outcome values, and the errors the engine can raise. */
module Wrappers {

  datatype Option<+T> = None | Some(value: T)

  /** The exceptions the bookkeeping code raises, one constructor per cause. */
  datatype Error =
    | BackdatedEntry       // the assertion in Journal.add_entry
    | NegativePayment      // the ValueError of AmountCounter.pay
    | CounterTooSmall      // the assertion in AmountCounter.__init__
    | AccountMismatch      // the ValueError of get_account_aging
    | UnknownAccount       // a KeyError on the configured accounts
    | UnknownAccountType   // a KeyError on the configured account types
    | UnknownRule          // a KeyError on the configured rules
    | EmptyJournal         // the IndexError of entries[-1]
    | NoPayments           // the IndexError of payments[-1]
    | AlreadyMatching      // the opening assertion of reconcile_ledger
    | Unreconciled         // the closing assertion of reconcile_ledger

  datatype Result<+T> = Success(value: T) | Failure(error: Error)

  /** The outcome of an operation that returns nothing but may fail. */
  datatype Outcome = Pass | Fail(error: Error)

  function Min(a: real, b: real): (m: real)
    ensures m <= a && m <= b
    ensures m == a || m == b
  {
    if a <= b then a else b
  }
}

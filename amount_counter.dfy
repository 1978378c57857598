/** AmountCounter: one owed amount and the payments made against it. The
    value-level functions specify the behaviour; the class keeps the same
    three fields the source mutates and is proved against them. */
module Counters {
  import opened Wrappers

  /** Balances at or below this are treated as paid off. */
  const FLOATING_PRECISION: real := 0.000001

  datatype AccountPayment = AccountPayment(amount: real, date: int)

  /** The contents of an AmountCounter. */
  datatype CounterState = CounterState(total: real, paid: real, payments: seq<AccountPayment>)

  datatype PayOutcome = PayOutcome(payment: Option<AccountPayment>, remainder: real)

  function PaymentsSum(ps: seq<AccountPayment>): real
  {
    if ps == [] then 0.0 else PaymentsSum(ps[..|ps| - 1]) + ps[|ps| - 1].amount
  }

  /** A fresh counter for `total`; the source asserts `total > FLOATING_PRECISION`. */
  function NewCounter(total: real): (c: CounterState)
    requires total > FLOATING_PRECISION
    ensures Sound(c) && !Settled(c)
  {
    CounterState(total, 0.0, [])
  }

  /** `get_balance`: what is still owed, snapped to 0 within the precision. */
  function Balance(c: CounterState): (b: real)
    ensures b >= 0.0
    ensures b == 0.0 <==> c.total - c.paid <= FLOATING_PRECISION
    ensures b != 0.0 ==> b == c.total - c.paid
  {
    var diff := c.total - c.paid;
    if diff > FLOATING_PRECISION then diff else 0.0
  }

  /** `is_paid`. */
  predicate Settled(c: CounterState) {
    Balance(c) == 0.0
  }

  /** `add`: the total grows by `amount`; nothing else changes. */
  function Increase(c: CounterState, amount: real): (c': CounterState)
    ensures amount >= 0.0 ==> Balance(c') >= Balance(c)
    ensures amount > 0.0 && !Settled(c) ==> Balance(c') == Balance(c) + amount
    ensures c'.paid == c.paid && c'.payments == c.payments
  {
    c.(total := c.total + amount)
  }

  /** `pay`: rejects a negative amount; otherwise applies as much of `amount`
      as is owed and hands back the rest. */
  function ApplyPayment(c: CounterState, amount: real, date: int): (r: Result<(CounterState, PayOutcome)>)
    ensures r.Failure? <==> amount < 0.0
    ensures r.Failure? ==> r.error == NegativePayment
  {
    if amount < 0.0 then Failure(NegativePayment)
    else
      var possible := Min(Balance(c), amount);
      if possible > 0.0 then
        var payment := AccountPayment(possible, date);
        Success((c.(paid := c.paid + possible, payments := c.payments + [payment]),
                 PayOutcome(Some(payment), amount - possible)))
      else
        Success((c, PayOutcome(None, amount)))
  }

  /** `get_paid_date`: the date of the last payment once paid, None before;
      an IndexError when a paid counter has no payments. */
  function PaidDate(c: CounterState): (r: Result<Option<int>>)
    ensures !Settled(c) ==> r == Success(None)
    ensures Settled(c) && c.payments != [] ==> r == Success(Some(c.payments[|c.payments| - 1].date))
    ensures Settled(c) && c.payments == [] ==> r == Failure(NoPayments)
  {
    if Settled(c) then
      if |c.payments| == 0 then Failure(NoPayments)
      else Success(Some(c.payments[|c.payments| - 1].date))
    else Success(None)
  }

  /** What `pay` keeps true of a counter: the payments add up to the paid
      amount, each is positive, nothing is overpaid, and a counter without
      payments is still open. */
  predicate Sound(c: CounterState) {
    && PaymentsSum(c.payments) == c.paid
    && (forall i :: 0 <= i < |c.payments| ==> c.payments[i].amount > 0.0)
    && c.paid <= c.total
    && (c.payments == [] ==> c.total > FLOATING_PRECISION)
  }

  /** The applied part and the remainder of a payment add up to the amount
      offered; the applied part is min(balance, amount); nothing becomes overpaid. */
  lemma PayConserves(c: CounterState, amount: real, date: int)
    requires amount >= 0.0
    ensures var (c', o) := ApplyPayment(c, amount, date).value;
      && c'.total == c.total
      && (c'.paid - c.paid) + o.remainder == amount
      && c'.paid - c.paid == Min(Balance(c), amount)
      && 0.0 <= o.remainder <= amount
      && (c'.paid != c.paid ==> c'.paid <= c'.total)
      && (c.paid <= c.total ==> c'.paid <= c'.total)
  {
  }

  /** An effective payment records exactly one AccountPayment; otherwise the
      counter is unchanged and the whole amount comes back. */
  lemma PayRecordsOnePayment(c: CounterState, amount: real, date: int)
    requires amount >= 0.0
    ensures var (c', o) := ApplyPayment(c, amount, date).value;
      var applied := Min(Balance(c), amount);
      && (applied > 0.0 ==>
            c'.payments == c.payments + [AccountPayment(applied, date)] && o.payment == Some(AccountPayment(applied, date)))
      && (applied == 0.0 ==> c' == c && o == PayOutcome(None, amount))
  {
  }

  /** A payment that leaves something over has paid the counter off. */
  lemma PayRemainderMeansSettled(c: CounterState, amount: real, date: int)
    requires amount >= 0.0
    ensures var (c', o) := ApplyPayment(c, amount, date).value;
      (o.remainder > 0.0 ==> Settled(c')) && (Settled(c) ==> c' == c)
      && (!Settled(c') ==> o.remainder == 0.0)
  {
  }

  lemma {:induction false} PaymentsSumAppend(ps: seq<AccountPayment>, p: AccountPayment)
    ensures PaymentsSum(ps + [p]) == PaymentsSum(ps) + p.amount
  {
    assert (ps + [p])[..|ps + [p]| - 1] == ps;
  }

  /** `pay` keeps a counter Sound. */
  lemma {:induction false} PayKeepsSound(c: CounterState, amount: real, date: int)
    requires Sound(c) && amount >= 0.0
    ensures Sound(ApplyPayment(c, amount, date).value.0)
  {
    var possible := Min(Balance(c), amount);
    if possible > 0.0 {
      PaymentsSumAppend(c.payments, AccountPayment(possible, date));
    }
  }

  /** `add` of a non-negative amount keeps a counter Sound, and re-opens a
      paid counter when the amount exceeds the precision. */
  lemma IncreaseKeepsSound(c: CounterState, amount: real)
    requires Sound(c) && amount >= 0.0
    ensures Sound(Increase(c, amount))
    ensures Settled(c) && amount > FLOATING_PRECISION ==> !Settled(Increase(c, amount))
    ensures Increase(c, amount).paid == c.paid && Increase(c, amount).payments == c.payments
  {
  }

  /** A Sound counter that is paid has at least one payment, so
      `get_paid_date` returns the date of the last one. */
  lemma SoundPaidDate(c: CounterState)
    requires Sound(c)
    ensures Settled(c) ==> c.payments != [] && PaidDate(c) == Success(Some(c.payments[|c.payments| - 1].date))
    ensures PaidDate(c).Success?
  {
  }

  class AmountCounter {
    var totalAmount: real
    var paidAmount: real
    var payments: seq<AccountPayment>

    /** The counter's contents as a value. */
    function Value(): CounterState
      reads this
    {
      CounterState(totalAmount, paidAmount, payments)
    }

    constructor (totalAmount: real)
      requires totalAmount > FLOATING_PRECISION
      ensures Value() == NewCounter(totalAmount)
    {
      this.totalAmount := totalAmount;
      this.paidAmount := 0.0;
      this.payments := [];
    }

    /** A field-by-field copy, as `deepcopy` makes of a counter. */
    constructor Copy(source: AmountCounter)
      ensures Value() == old(source.Value())
    {
      this.totalAmount := source.totalAmount;
      this.paidAmount := source.paidAmount;
      this.payments := source.payments;
    }

    method Add(amount: real)
      modifies this
      ensures Value() == Increase(old(Value()), amount)
    {
      totalAmount := totalAmount + amount;
    }

    method Pay(amount: real, date: int) returns (r: Result<PayOutcome>)
      modifies this
      ensures ApplyPayment(old(Value()), amount, date).Failure? ==>
                r == Failure(NegativePayment) && Value() == old(Value())
      ensures ApplyPayment(old(Value()), amount, date).Success? ==>
                var (c', o) := ApplyPayment(old(Value()), amount, date).value;
                r == Success(o) && Value() == c'
    {
      if amount < 0.0 {
        return Failure(NegativePayment);
      }
      var possiblePayAmount := Min(GetBalance(), amount);
      if possiblePayAmount > 0.0 {
        var payment := AccountPayment(possiblePayAmount, date);
        payments := payments + [payment];
        paidAmount := paidAmount + possiblePayAmount;
        return Success(PayOutcome(Some(payment), amount - possiblePayAmount));
      }
      return Success(PayOutcome(None, amount));
    }

    function GetBalance(): (b: real)
      reads this
      ensures b >= 0.0
      ensures b == 0.0 <==> totalAmount - paidAmount <= FLOATING_PRECISION
      ensures b != 0.0 ==> b == totalAmount - paidAmount
    {
      Balance(Value())
    }

    predicate IsPaid()
      reads this
      ensures IsPaid() <==> GetBalance() == 0.0
      ensures IsPaid() <==> totalAmount - paidAmount <= FLOATING_PRECISION
    {
      Settled(Value())
    }

    function GetPaidDate(): (r: Result<Option<int>>)
      reads this
      ensures !IsPaid() ==> r == Success(None)
      ensures IsPaid() && payments != [] ==> r == Success(Some(payments[|payments| - 1].date))
      ensures IsPaid() && payments == [] ==> r == Failure(NoPayments)
    {
      PaidDate(Value())
    }

    function GetPaidAmount(): (p: real)
      reads this
      ensures Sound(Value()) ==> p == PaymentsSum(payments) && p <= totalAmount
    {
      paidAmount
    }
  }
}

/** Aging: one account's journal entries folded into FIFO buckets. Each
    positive amount opens a bucket (an AmountCounter), each negative amount
    pays the open buckets oldest first, and what nothing absorbs is carried
    as the excess. The value-level functions specify the engine; the
    methods at the end keep the source's mutable state (a list of entries
    holding counter objects) and are proved against them. */
module Aging {
  import opened Wrappers
  import opened AccountConfig
  import opened Counters
  import opened Journals
  import opened Ledgers

  /** Reads the metadata a narration carries (the `##...##` part, parsed as
      JSON in the source); the engine treats the result as opaque. */
  type MetaReader = string -> Option<string>

  /** A bucket: the date it was opened, its counter and its metadata. */
  datatype Bucket = Bucket(date: int, counter: CounterState, meta: Option<string>)

  /** The contents of an AgingState. */
  datatype AgingValue = AgingValue(account: string, buckets: seq<Bucket>, excess: real, slNo: int)

  /** What a bucket was opened with; paying never changes it. */
  datatype Charge = Charge(date: int, amount: real, meta: Option<string>)

  function ChargeOf(b: Bucket): Charge {
    Charge(b.date, b.counter.total, b.meta)
  }

  function ChargesOf(bs: seq<Bucket>): (cs: seq<Charge>)
    ensures |cs| == |bs|
    ensures forall i :: 0 <= i < |bs| ==> cs[i] == ChargeOf(bs[i])
  {
    seq(|bs|, i requires 0 <= i < |bs| => ChargeOf(bs[i]))
  }

  function ChargeTotal(cs: seq<Charge>): real
  {
    if cs == [] then 0.0 else ChargeTotal(cs[..|cs| - 1]) + cs[|cs| - 1].amount
  }

  function PaidSum(bs: seq<Bucket>): real
  {
    if bs == [] then 0.0 else PaidSum(bs[..|bs| - 1]) + bs[|bs| - 1].counter.paid
  }

  /** The amount still owed over all buckets, less the excess carried. */
  function Owed(v: AgingValue): real
  {
    ChargeTotal(ChargesOf(v.buckets)) - PaidSum(v.buckets) - v.excess
  }

  /** Every counter is Sound; an open bucket has nothing paid in any later
      bucket; a positive excess only exists once every bucket is paid. */
  predicate Ordered(v: AgingValue)
  {
    && (forall i :: 0 <= i < |v.buckets| ==> Sound(v.buckets[i].counter))
    && Fifo(v.buckets)
    && (v.excess > 0.0 ==> forall i :: 0 <= i < |v.buckets| ==> Settled(v.buckets[i].counter))
  }

  /** Ordered, and the excess is never negative. */
  predicate WellAged(v: AgingValue)
  {
    Ordered(v) && v.excess >= 0.0
  }

  predicate Fifo(bs: seq<Bucket>)
  {
    forall i, j :: 0 <= i < j < |bs| && !Settled(bs[i].counter) ==> bs[j].counter.paid == 0.0
  }

  // ---------------------------------------------------------------------
  // Paying the buckets

  /** The payment loop of `__pay_counters`, from bucket `i` with `rem` left
      to pay: a paid-off bucket passes the rest on, an open one absorbs it
      and stops the loop. */
  function PayFrom(bs: seq<Bucket>, i: nat, rem: real, date: int): (r: (seq<Bucket>, real))
    requires i <= |bs|
    decreases |bs| - i
  {
    if rem <= 0.0 || i == |bs| then (bs, rem)
    else
      var (c, o) := ApplyPayment(bs[i].counter, rem, date).value;
      var bs' := bs[i := bs[i].(counter := c)];
      if Settled(c) then PayFrom(bs', i + 1, o.remainder, date) else (bs', o.remainder)
  }

  /** Paying changes no bucket's charge and no bucket before `i`. */
  lemma {:induction false} PayFromShape(bs: seq<Bucket>, i: nat, rem: real, date: int)
    requires i <= |bs|
    ensures var (bs', _) := PayFrom(bs, i, rem, date);
      |bs'| == |bs| && ChargesOf(bs') == ChargesOf(bs) && bs'[..i] == bs[..i]
    decreases |bs| - i
  {
    if rem > 0.0 && i < |bs| {
      var (c, o) := ApplyPayment(bs[i].counter, rem, date).value;
      PayConserves(bs[i].counter, rem, date);
      var bs' := bs[i := bs[i].(counter := c)];
      assert ChargesOf(bs') == ChargesOf(bs);
      if Settled(c) {
        PayFromShape(bs', i + 1, o.remainder, date);
      }
    }
  }

  lemma {:induction false} PaidSumUpdate(bs: seq<Bucket>, i: nat, b: Bucket)
    requires i < |bs|
    ensures PaidSum(bs[i := b]) == PaidSum(bs) - bs[i].counter.paid + b.counter.paid
  {
    var n := |bs|;
    if i == n - 1 {
      assert bs[i := b][..n - 1] == bs[..n - 1];
    } else {
      assert bs[i := b][..n - 1] == bs[..n - 1][i := b];
      PaidSumUpdate(bs[..n - 1], i, b);
    }
  }

  /** What the buckets absorb plus the remainder is what was offered; a
      non-negative amount leaves a remainder between 0 and itself, and
      nothing to pay changes nothing. */
  lemma {:induction false} PayFromConserves(bs: seq<Bucket>, i: nat, rem: real, date: int)
    requires i <= |bs|
    ensures var (bs', rem') := PayFrom(bs, i, rem, date);
      && PaidSum(bs') + rem' == PaidSum(bs) + rem
      && (rem >= 0.0 ==> 0.0 <= rem' <= rem)
      && (rem <= 0.0 ==> bs' == bs && rem' == rem)
    decreases |bs| - i
  {
    if rem > 0.0 && i < |bs| {
      var (c, o) := ApplyPayment(bs[i].counter, rem, date).value;
      PayConserves(bs[i].counter, rem, date);
      var bs' := bs[i := bs[i].(counter := c)];
      PaidSumUpdate(bs, i, bs[i].(counter := c));
      if Settled(c) {
        PayFromConserves(bs', i + 1, o.remainder, date);
      }
    }
  }

  /** A remainder is left only once every bucket from `i` on is paid off. */
  lemma {:induction false} PayFromSettles(bs: seq<Bucket>, i: nat, rem: real, date: int)
    requires i <= |bs|
    ensures var (bs', rem') := PayFrom(bs, i, rem, date);
      rem' > 0.0 ==> forall j :: i <= j < |bs'| ==> Settled(bs'[j].counter)
    decreases |bs| - i
  {
    if rem > 0.0 && i < |bs| {
      var (c, o) := ApplyPayment(bs[i].counter, rem, date).value;
      PayRemainderMeansSettled(bs[i].counter, rem, date);
      var bs' := bs[i := bs[i].(counter := c)];
      if Settled(c) {
        PayFromSettles(bs', i + 1, o.remainder, date);
        PayFromShape(bs', i + 1, o.remainder, date);
        var (bs'', _) := PayFrom(bs', i + 1, o.remainder, date);
        assert bs''[..i + 1] == bs'[..i + 1];
        assert bs''[i] == bs'[i];
      }
    }
  }

  /** Paying from the first open bucket keeps every counter Sound and keeps
      the buckets in FIFO order. */
  lemma {:induction false} PayFromKeepsOrder(bs: seq<Bucket>, i: nat, rem: real, date: int)
    requires i <= |bs|
    requires forall j :: 0 <= j < |bs| ==> Sound(bs[j].counter)
    requires Fifo(bs)
    requires forall j :: 0 <= j < i ==> Settled(bs[j].counter)
    ensures var (bs', _) := PayFrom(bs, i, rem, date);
      (forall j :: 0 <= j < |bs'| ==> Sound(bs'[j].counter)) && Fifo(bs')
    decreases |bs| - i
  {
    if rem > 0.0 && i < |bs| {
      var (c, o) := ApplyPayment(bs[i].counter, rem, date).value;
      PayKeepsSound(bs[i].counter, rem, date);
      PayRemainderMeansSettled(bs[i].counter, rem, date);
      var bs' := bs[i := bs[i].(counter := c)];
      assert Fifo(bs') by {
        forall a, b | 0 <= a < b < |bs'| && !Settled(bs'[a].counter)
          ensures bs'[b].counter.paid == 0.0
        {
          if a == i {
            assert !Settled(bs[i].counter);
          }
        }
      }
      if Settled(c) {
        PayFromKeepsOrder(bs', i + 1, o.remainder, date);
      }
    }
  }

  // ---------------------------------------------------------------------
  // One entry

  /** The side that opens buckets: credits for a CREDIT-type account, debits otherwise. */
  function PositiveAmount(bt: BalanceType, e: JournalEntry): real {
    if bt == CREDIT then e.crAmount else e.drAmount
  }

  /** The side that pays buckets off. */
  function NegativeAmount(bt: BalanceType, e: JournalEntry): real {
    if bt == CREDIT then e.drAmount else e.crAmount
  }

  /** A positive amount too small for an AmountCounter. */
  predicate TooSmall(bt: BalanceType, e: JournalEntry) {
    0.0 < PositiveAmount(bt, e) <= FLOATING_PRECISION
  }

  /** The bucket an entry opens, if any. */
  function ChargeFor(bt: BalanceType, e: JournalEntry, metaOf: MetaReader): seq<Charge> {
    if PositiveAmount(bt, e) > 0.0 then [Charge(e.date, PositiveAmount(bt, e), metaOf(e.narration))] else []
  }

  /** One pass of the entry loop of `get_account_aging`: open a bucket for
      a positive amount, pay the buckets with the excess plus the negative
      amount, keep the remainder as the new excess and remember the entry's
      serial number. */
  function Step(v: AgingValue, bt: BalanceType, e: JournalEntry, metaOf: MetaReader): (r: Result<AgingValue>)
    ensures r.Failure? <==> TooSmall(bt, e)
    ensures r.Failure? ==> r.error == CounterTooSmall
  {
    var positive := PositiveAmount(bt, e);
    var negative := NegativeAmount(bt, e);
    if 0.0 < positive <= FLOATING_PRECISION then Failure(CounterTooSmall)
    else
      var bs := if positive > 0.0 then v.buckets + [Bucket(e.date, NewCounter(positive), metaOf(e.narration))]
                else v.buckets;
      var (bs', rem) := PayFrom(bs, 0, v.excess + negative, e.date);
      Success(AgingValue(v.account, bs', rem, e.slNo))
  }

  lemma ChargeTotalAppend(cs: seq<Charge>, ds: seq<Charge>)
    ensures ChargeTotal(cs + ds) == ChargeTotal(cs) + ChargeTotal(ds)
    decreases |ds|
  {
    if ds != [] {
      assert (cs + ds)[..|cs + ds| - 1] == cs + ds[..|ds| - 1];
    } else {
      assert cs + ds == cs;
    }
  }

  lemma PaidSumAppend(bs: seq<Bucket>, b: Bucket)
    ensures PaidSum(bs + [b]) == PaidSum(bs) + b.counter.paid
  {
    assert (bs + [b])[..|bs|] == bs;
  }

  /** The buckets an entry's step pays, and with what. */
  function Opened(v: AgingValue, bt: BalanceType, e: JournalEntry, metaOf: MetaReader): seq<Bucket>
    requires !TooSmall(bt, e)
  {
    var positive := PositiveAmount(bt, e);
    if positive > 0.0 then v.buckets + [Bucket(e.date, NewCounter(positive), metaOf(e.narration))] else v.buckets
  }

  lemma StepUnfold(v: AgingValue, bt: BalanceType, e: JournalEntry, metaOf: MetaReader)
    requires !TooSmall(bt, e)
    ensures var (bs', rem) := PayFrom(Opened(v, bt, e, metaOf), 0, v.excess + NegativeAmount(bt, e), e.date);
      Step(v, bt, e, metaOf) == Success(AgingValue(v.account, bs', rem, e.slNo))
  {
  }

  /** One entry appends at most one charge, adds its negative amount to
      what is paid or carried, keeps the account and takes its serial number. */
  lemma StepFacts(v: AgingValue, bt: BalanceType, e: JournalEntry, metaOf: MetaReader)
    requires !TooSmall(bt, e)
    ensures var v' := Step(v, bt, e, metaOf).value;
      && ChargesOf(v'.buckets) == ChargesOf(v.buckets) + ChargeFor(bt, e, metaOf)
      && PaidSum(v'.buckets) + v'.excess == PaidSum(v.buckets) + v.excess + NegativeAmount(bt, e)
      && v'.account == v.account && v'.slNo == e.slNo
  {
    var bs := Opened(v, bt, e, metaOf);
    assert ChargesOf(bs) == ChargesOf(v.buckets) + ChargeFor(bt, e, metaOf);
    if PositiveAmount(bt, e) > 0.0 {
      PaidSumAppend(v.buckets, bs[|bs| - 1]);
    }
    var amount := v.excess + NegativeAmount(bt, e);
    StepUnfold(v, bt, e, metaOf);
    PayFromShape(bs, 0, amount, e.date);
    PayFromConserves(bs, 0, amount, e.date);
  }

  /** A negative amount on the side that opens buckets opens none, so the
      amount still owed moves only by the paying side, not by the entry's
      ledger effect. */
  lemma NegativeChargeDeparts(v: AgingValue, bt: BalanceType, e: JournalEntry, metaOf: MetaReader)
    requires PositiveAmount(bt, e) < 0.0
    ensures var v' := Step(v, bt, e, metaOf).value;
      && ChargesOf(v'.buckets) == ChargesOf(v.buckets)
      && Owed(v') == Owed(v) - NegativeAmount(bt, e)
      && Owed(v') != Owed(v) + PositiveAmount(bt, e) - NegativeAmount(bt, e)
  {
    StepFacts(v, bt, e, metaOf);
  }

  /** Opening a bucket keeps every counter Sound and the buckets in FIFO order. */
  lemma OpenedKeepsOrder(v: AgingValue, bt: BalanceType, e: JournalEntry, metaOf: MetaReader)
    requires !TooSmall(bt, e)
    requires Ordered(v)
    ensures var bs := Opened(v, bt, e, metaOf);
      (forall j :: 0 <= j < |bs| ==> Sound(bs[j].counter)) && Fifo(bs)
  {
  }

  /** One entry, whatever its amounts, keeps the state Ordered: paying
      nothing or a negative amount touches no bucket. */
  lemma StepKeepsOrder(v: AgingValue, bt: BalanceType, e: JournalEntry, metaOf: MetaReader)
    requires !TooSmall(bt, e)
    requires Ordered(v)
    ensures Ordered(Step(v, bt, e, metaOf).value)
  {
    var bs := Opened(v, bt, e, metaOf);
    var amount := v.excess + NegativeAmount(bt, e);
    var (bs', rem) := PayFrom(bs, 0, amount, e.date);
    StepUnfold(v, bt, e, metaOf);
    assert Step(v, bt, e, metaOf).value == AgingValue(v.account, bs', rem, e.slNo);
    OpenedKeepsOrder(v, bt, e, metaOf);
    PayFromConserves(bs, 0, amount, e.date);
    PayFromSettles(bs, 0, amount, e.date);
    PayFromKeepsOrder(bs, 0, amount, e.date);
  }

  /** On a non-negative paying amount, one entry keeps the state WellAged:
      the excess stays non-negative. */
  lemma StepKeepsWellAged(v: AgingValue, bt: BalanceType, e: JournalEntry, metaOf: MetaReader)
    requires !TooSmall(bt, e)
    requires WellAged(v) && NegativeAmount(bt, e) >= 0.0
    ensures WellAged(Step(v, bt, e, metaOf).value)
  {
    var bs := Opened(v, bt, e, metaOf);
    var amount := v.excess + NegativeAmount(bt, e);
    StepUnfold(v, bt, e, metaOf);
    StepKeepsOrder(v, bt, e, metaOf);
    PayFromConserves(bs, 0, amount, e.date);
  }

  // ---------------------------------------------------------------------
  // The entry loop

  /** The entry loop of `get_account_aging` from state `s`, in list order;
      the first entry too small for a counter stops it. */
  function Fold(s: AgingValue, bt: BalanceType, es: seq<JournalEntry>, metaOf: MetaReader): (r: Result<AgingValue>)
  {
    if es == [] then Success(s)
    else
      var r := Fold(s, bt, es[..|es| - 1], metaOf);
      if r.Failure? then r else Step(r.value, bt, es[|es| - 1], metaOf)
  }

  /** The buckets opened by `es`, in order. */
  function Charges(bt: BalanceType, es: seq<JournalEntry>, metaOf: MetaReader): seq<Charge>
  {
    if es == [] then [] else Charges(bt, es[..|es| - 1], metaOf) + ChargeFor(bt, es[|es| - 1], metaOf)
  }

  /** The loop fails exactly when some entry is too small for a counter,
      and then with that error. */
  lemma {:induction false} FoldFailsIff(s: AgingValue, bt: BalanceType, es: seq<JournalEntry>, metaOf: MetaReader)
    ensures Fold(s, bt, es, metaOf).Failure? <==> exists e :: e in es && TooSmall(bt, e)
    ensures Fold(s, bt, es, metaOf).Failure? ==> Fold(s, bt, es, metaOf).error == CounterTooSmall
  {
    if es != [] {
      var init := es[..|es| - 1];
      FoldFailsIff(s, bt, init, metaOf);
      assert es == init + [es[|es| - 1]];
      assert forall e :: e in es <==> e in init || e == es[|es| - 1];
    }
  }

  lemma FoldNext(s: AgingValue, bt: BalanceType, es: seq<JournalEntry>, k: nat, metaOf: MetaReader)
    requires k < |es|
    ensures var r := Fold(s, bt, es[..k], metaOf);
      Fold(s, bt, es[..k + 1], metaOf) == if r.Failure? then r else Step(r.value, bt, es[k], metaOf)
  {
    assert es[..k + 1][..k] == es[..k];
  }

  /** A step that fails stops the whole loop with its error. */
  lemma FoldStopsAt(s: AgingValue, bt: BalanceType, es: seq<JournalEntry>, k: nat, metaOf: MetaReader)
    requires k < |es|
    requires TooSmall(bt, es[k])
    ensures Fold(s, bt, es, metaOf) == Failure(CounterTooSmall)
  {
    FoldFailsIff(s, bt, es, metaOf);
    assert es[k] in es;
  }

  /** Folding a concatenation is folding one part after the other. */
  lemma {:induction false} FoldAppend(s: AgingValue, bt: BalanceType, es1: seq<JournalEntry>, es2: seq<JournalEntry>, metaOf: MetaReader)
    ensures var r1 := Fold(s, bt, es1, metaOf);
      Fold(s, bt, es1 + es2, metaOf) == if r1.Failure? then r1 else Fold(r1.value, bt, es2, metaOf)
    decreases |es2|
  {
    if es2 == [] {
      assert es1 + es2 == es1;
    } else {
      var init := es2[..|es2| - 1];
      assert (es1 + es2)[..|es1 + es2| - 1] == es1 + init;
      FoldAppend(s, bt, es1, init, metaOf);
    }
  }

  /** A successful loop opens one bucket per positive amount, in order,
      after the buckets it started with; it keeps the account, and ends
      with the last entry's serial number. */
  lemma {:induction false} FoldCharges(s: AgingValue, bt: BalanceType, es: seq<JournalEntry>, metaOf: MetaReader)
    requires Fold(s, bt, es, metaOf).Success?
    ensures var v := Fold(s, bt, es, metaOf).value;
      && ChargesOf(v.buckets) == ChargesOf(s.buckets) + Charges(bt, es, metaOf)
      && v.account == s.account
      && v.slNo == (if es == [] then s.slNo else es[|es| - 1].slNo)
  {
    if es != [] {
      var init := es[..|es| - 1];
      FoldCharges(s, bt, init, metaOf);
      StepFacts(Fold(s, bt, init, metaOf).value, bt, es[|es| - 1], metaOf);
    }
  }

  function NegativeSum(bt: BalanceType, es: seq<JournalEntry>): real
  {
    if es == [] then 0.0 else NegativeSum(bt, es[..|es| - 1]) + NegativeAmount(bt, es[|es| - 1])
  }

  predicate NonNegative(es: seq<JournalEntry>) {
    forall i :: 0 <= i < |es| ==> es[i].drAmount >= 0.0 && es[i].crAmount >= 0.0
  }

  /** What is paid plus what is carried grows by exactly the negative
      amounts processed; the state stays Ordered, and on non-negative
      entries WellAged. */
  lemma {:induction false} FoldConserves(s: AgingValue, bt: BalanceType, es: seq<JournalEntry>, metaOf: MetaReader)
    requires Fold(s, bt, es, metaOf).Success?
    ensures var v := Fold(s, bt, es, metaOf).value;
      && PaidSum(v.buckets) + v.excess == PaidSum(s.buckets) + s.excess + NegativeSum(bt, es)
      && (Ordered(s) ==> Ordered(v))
      && (WellAged(s) && NonNegative(es) ==> WellAged(v))
  {
    if es != [] {
      var init := es[..|es| - 1];
      FoldConserves(s, bt, init, metaOf);
      StepFacts(Fold(s, bt, init, metaOf).value, bt, es[|es| - 1], metaOf);
      if Ordered(s) {
        StepKeepsOrder(Fold(s, bt, init, metaOf).value, bt, es[|es| - 1], metaOf);
      }
      if WellAged(s) && NonNegative(es) {
        StepKeepsWellAged(Fold(s, bt, init, metaOf).value, bt, es[|es| - 1], metaOf);
      }
    }
  }

  /** For entries of one configured account with non-negative amounts, the
      charges add up to the balance side that opens buckets and the
      negative amounts to the other, so what the buckets still owe less the
      excess moves by exactly the account's ledger balance. */
  lemma {:induction false} FoldMatchesLedger(cfg: Config, account: string, s: AgingValue, es: seq<JournalEntry>, metaOf: MetaReader)
    requires Configured(cfg, account)
    requires forall i :: 0 <= i < |es| ==> es[i].account == account
    requires NonNegative(es)
    requires Fold(s, BalanceTypeOf(cfg, account), es, metaOf).Success?
    ensures Owed(Fold(s, BalanceTypeOf(cfg, account), es, metaOf).value) == Owed(s) + AccountBalance(cfg, es, account)
  {
    var bt := BalanceTypeOf(cfg, account);
    FoldCharges(s, bt, es, metaOf);
    FoldConserves(s, bt, es, metaOf);
    ChargeTotalAppend(ChargesOf(s.buckets), Charges(bt, es, metaOf));
    SidesMatchLedger(cfg, account, es, metaOf);
  }

  lemma {:induction false} SidesMatchLedger(cfg: Config, account: string, es: seq<JournalEntry>, metaOf: MetaReader)
    requires Configured(cfg, account)
    requires forall i :: 0 <= i < |es| ==> es[i].account == account
    requires NonNegative(es)
    ensures var bt := BalanceTypeOf(cfg, account);
      ChargeTotal(Charges(bt, es, metaOf)) - NegativeSum(bt, es) == AccountBalance(cfg, es, account)
  {
    if es != [] {
      var bt := BalanceTypeOf(cfg, account);
      var init := es[..|es| - 1];
      SidesMatchLedger(cfg, account, init, metaOf);
      ChargeTotalAppend(Charges(bt, init, metaOf), ChargeFor(bt, es[|es| - 1], metaOf));
    }
  }

  // ---------------------------------------------------------------------
  // Selecting the entries

  /** `should_entry_applied`: on or before the cut-off, for the account, and
      after the checkpoint's serial number when there is one. */
  predicate Applies(e: JournalEntry, account: string, asOf: int, after: Option<int>) {
    e.date <= asOf && e.account == account && (after.None? || e.slNo > after.value)
  }

  function Filter(es: seq<JournalEntry>, account: string, asOf: int, after: Option<int>): (f: seq<JournalEntry>)
  {
    if es == [] then []
    else Filter(es[..|es| - 1], account, asOf, after)
         + (if Applies(es[|es| - 1], account, asOf, after) then [es[|es| - 1]] else [])
  }

  /** The filter keeps exactly the applicable entries. */
  lemma {:induction false} FilterMembers(es: seq<JournalEntry>, account: string, asOf: int, after: Option<int>)
    ensures forall e :: e in Filter(es, account, asOf, after) <==> e in es && Applies(e, account, asOf, after)
  {
    if es != [] {
      var init := es[..|es| - 1];
      FilterMembers(init, account, asOf, after);
      assert es == init + [es[|es| - 1]];
    }
  }

  /** The filter keeps list order: filtering a concatenation concatenates the filtered parts. */
  lemma {:induction false} FilterAppend(es1: seq<JournalEntry>, es2: seq<JournalEntry>, account: string, asOf: int, after: Option<int>)
    ensures Filter(es1 + es2, account, asOf, after) == Filter(es1, account, asOf, after) + Filter(es2, account, asOf, after)
    decreases |es2|
  {
    if es2 == [] {
      assert es1 + es2 == es1;
    } else {
      var init := es2[..|es2| - 1];
      assert (es1 + es2)[..|es1 + es2| - 1] == es1 + init;
      FilterAppend(es1, init, account, asOf, after);
    }
  }

  /** Filtered entries are entries of the account. */
  lemma FilterAccount(es: seq<JournalEntry>, account: string, asOf: int, after: Option<int>)
    ensures forall i :: 0 <= i < |Filter(es, account, asOf, after)| ==> Filter(es, account, asOf, after)[i].account == account
  {
    FilterMembers(es, account, asOf, after);
    var f := Filter(es, account, asOf, after);
    forall i | 0 <= i < |f| ensures f[i].account == account {
      assert f[i] in f;
    }
  }

  lemma {:induction false} FilterNonNegative(es: seq<JournalEntry>, account: string, asOf: int, after: Option<int>)
    requires NonNegative(es)
    ensures NonNegative(Filter(es, account, asOf, after))
  {
    if es != [] {
      FilterNonNegative(es[..|es| - 1], account, asOf, after);
    }
  }

  /** Serial numbers strictly increase along the list. */
  predicate Increasing(es: seq<JournalEntry>) {
    forall i, j :: 0 <= i < j < |es| ==> es[i].slNo < es[j].slNo
  }

  lemma {:induction false} FilterIncreasing(es: seq<JournalEntry>, account: string, asOf: int, after: Option<int>)
    requires Increasing(es)
    ensures Increasing(Filter(es, account, asOf, after))
  {
    if es != [] {
      var init := es[..|es| - 1];
      FilterIncreasing(init, account, asOf, after);
      FilterMembers(init, account, asOf, after);
      var f := Filter(init, account, asOf, after);
      forall i | 0 <= i < |f| ensures f[i].slNo < es[|es| - 1].slNo {
        assert f[i] in f;
        var k :| 0 <= k < |init| && init[k] == f[i];
      }
    }
  }

  lemma {:induction false} FilterNoneAbove(es: seq<JournalEntry>, account: string, asOf: int, n: int)
    requires forall i :: 0 <= i < |es| ==> es[i].slNo <= n
    ensures Filter(es, account, asOf, Some(n)) == []
  {
    if es != [] {
      FilterNoneAbove(es[..|es| - 1], account, asOf, n);
    }
  }

  /** A checkpoint at or past the last selected entry selects nothing more. */
  lemma {:induction false} FilterPastLast(es: seq<JournalEntry>, account: string, asOf: int, n: int)
    requires Increasing(es)
    requires var f := Filter(es, account, asOf, None); f == [] || n >= f[|f| - 1].slNo
    ensures Filter(es, account, asOf, Some(n)) == []
  {
    if es != [] {
      var init := es[..|es| - 1];
      var x := es[|es| - 1];
      assert Increasing(init);
      if Applies(x, account, asOf, None) {
        assert forall i :: 0 <= i < |init| ==> init[i].slNo < x.slNo;
        FilterNoneAbove(init, account, asOf, n);
      } else {
        FilterPastLast(init, account, asOf, n);
      }
    }
  }

  /** With every serial number above the checkpoint, the checkpoint filters nothing out. */
  lemma {:induction false} FilterAbove(es: seq<JournalEntry>, account: string, asOf: int, n: int)
    requires forall i :: 0 <= i < |es| ==> es[i].slNo > n
    ensures Filter(es, account, asOf, Some(n)) == Filter(es, account, asOf, None)
  {
    if es != [] {
      FilterAbove(es[..|es| - 1], account, asOf, n);
    }
  }

  // ---------------------------------------------------------------------
  // get_account_aging

  /** The state a first call starts from. */
  function Fresh(account: string): AgingValue {
    AgingValue(account, [], 0.0, -1)
  }

  /** `get_account_aging` on values: select the entries, start from the
      checkpoint or a fresh state, reject a checkpoint for another account,
      look the account up, and fold the selected entries; the account's
      type is looked up only when some entry was selected. */
  function AccountAging(cfg: Config, es: seq<JournalEntry>, account: string, asOf: int,
                        previous: Option<AgingValue>, metaOf: MetaReader): (r: Result<AgingValue>)
    ensures previous.Some? && previous.value.account != account ==> r == Failure(AccountMismatch)
    ensures (previous.None? || previous.value.account == account) && account !in cfg.accounts ==> r == Failure(UnknownAccount)
  {
    var filtered := Filter(es, account, asOf, if previous.Some? then Some(previous.value.slNo) else None);
    var state := if previous.Some? then previous.value else Fresh(account);
    if state.account != account then Failure(AccountMismatch)
    else if account !in cfg.accounts then Failure(UnknownAccount)
    else if filtered == [] then Success(state)
    else if cfg.accounts[account] !in cfg.accountTypes then Failure(UnknownAccountType)
    else Fold(state, cfg.accountTypes[cfg.accounts[account]], filtered, metaOf)
  }

  /** The failures of `get_account_aging`, case by case. With a known
      account and type it fails exactly when a selected entry is too small
      for a counter. */
  lemma AccountAgingFails(cfg: Config, es: seq<JournalEntry>, account: string, asOf: int,
                          previous: Option<AgingValue>, metaOf: MetaReader)
    requires previous.None? || previous.value.account == account
    requires Configured(cfg, account)
    ensures var filtered := Filter(es, account, asOf, if previous.Some? then Some(previous.value.slNo) else None);
      var r := AccountAging(cfg, es, account, asOf, previous, metaOf);
      && (r.Failure? <==> exists e :: e in filtered && TooSmall(BalanceTypeOf(cfg, account), e))
      && (r.Failure? ==> r.error == CounterTooSmall)
  {
    var filtered := Filter(es, account, asOf, if previous.Some? then Some(previous.value.slNo) else None);
    var state := if previous.Some? then previous.value else Fresh(account);
    FoldFailsIff(state, BalanceTypeOf(cfg, account), filtered, metaOf);
  }

  /** A first call: one bucket per positive amount in list order and an
      Ordered state. Over entries of non-negative amounts the excess is
      never negative, and the buckets still owe, less the excess, exactly
      the account's ledger balance over the selected entries. */
  lemma FromScratch(cfg: Config, es: seq<JournalEntry>, account: string, asOf: int, metaOf: MetaReader)
    requires Configured(cfg, account)
    requires AccountAging(cfg, es, account, asOf, None, metaOf).Success?
    ensures var filtered := Filter(es, account, asOf, None);
      var v := AccountAging(cfg, es, account, asOf, None, metaOf).value;
      && ChargesOf(v.buckets) == Charges(BalanceTypeOf(cfg, account), filtered, metaOf)
      && Ordered(v)
      && (NonNegative(es) ==> WellAged(v) && Owed(v) == AccountBalance(cfg, filtered, account))
  {
    var filtered := Filter(es, account, asOf, None);
    var bt := BalanceTypeOf(cfg, account);
    FirstCall(cfg, es, account, asOf, metaOf);
    if filtered != [] {
      FoldCharges(Fresh(account), bt, filtered, metaOf);
      if NonNegative(es) {
        FilterNonNegative(es, account, asOf, None);
        FromScratchOwed(cfg, es, account, asOf, metaOf);
      }
      FromScratchOrdered(bt, filtered, account, metaOf, NonNegative(es));
    }
  }

  lemma FromScratchOrdered(bt: BalanceType, filtered: seq<JournalEntry>, account: string, metaOf: MetaReader, nonNegative: bool)
    requires Fold(Fresh(account), bt, filtered, metaOf).Success?
    requires nonNegative ==> NonNegative(filtered)
    ensures Ordered(Fold(Fresh(account), bt, filtered, metaOf).value)
    ensures nonNegative ==> WellAged(Fold(Fresh(account), bt, filtered, metaOf).value)
  {
    assert WellAged(Fresh(account));
    FoldConserves(Fresh(account), bt, filtered, metaOf);
  }

  lemma FromScratchOwed(cfg: Config, es: seq<JournalEntry>, account: string, asOf: int, metaOf: MetaReader)
    requires Configured(cfg, account)
    requires NonNegative(es)
    requires Filter(es, account, asOf, None) != []
    requires Fold(Fresh(account), BalanceTypeOf(cfg, account), Filter(es, account, asOf, None), metaOf).Success?
    ensures Owed(Fold(Fresh(account), BalanceTypeOf(cfg, account), Filter(es, account, asOf, None), metaOf).value)
         == AccountBalance(cfg, Filter(es, account, asOf, None), account)
  {
    FilterAccount(es, account, asOf, None);
    FilterNonNegative(es, account, asOf, None);
    FoldMatchesLedger(cfg, account, Fresh(account), Filter(es, account, asOf, None), metaOf);
  }

  lemma FirstCall(cfg: Config, es: seq<JournalEntry>, account: string, asOf: int, metaOf: MetaReader)
    requires Configured(cfg, account)
    ensures var filtered := Filter(es, account, asOf, None);
      AccountAging(cfg, es, account, asOf, None, metaOf)
        == if filtered == [] then Success(Fresh(account)) else Fold(Fresh(account), BalanceTypeOf(cfg, account), filtered, metaOf)
  {
  }

  /** A successful call from scratch remembers the serial number of the last
      entry it processed, so with increasing serial numbers the checkpoint
      filters out everything the call saw. */
  lemma SeenFilteredOut(cfg: Config, es: seq<JournalEntry>, account: string, asOf: int, metaOf: MetaReader)
    requires Increasing(es)
    requires AccountAging(cfg, es, account, asOf, None, metaOf).Success?
    ensures var v := AccountAging(cfg, es, account, asOf, None, metaOf).value;
      && v.account == account
      && Filter(es, account, asOf, Some(v.slNo)) == []
      && (Filter(es, account, asOf, None) == [] ==> v == Fresh(account))
      && (Filter(es, account, asOf, None) != [] ==> exists k :: 0 <= k < |es| && es[k].slNo == v.slNo)
  {
    var v := AccountAging(cfg, es, account, asOf, None, metaOf).value;
    var f := Filter(es, account, asOf, None);
    if f != [] {
      var bt := cfg.accountTypes[cfg.accounts[account]];
      assert AccountAging(cfg, es, account, asOf, None, metaOf) == Fold(Fresh(account), bt, f, metaOf);
      FoldCharges(Fresh(account), bt, f, metaOf);
      FilterMembers(es, account, asOf, None);
      assert f[|f| - 1] in f;
    }
    FilterPastLast(es, account, asOf, v.slNo);
  }

  /** Calling again with the returned state over the same entries sees
      nothing new and returns that state. */
  lemma RerunSkipsSeen(cfg: Config, es: seq<JournalEntry>, account: string, asOf: int, metaOf: MetaReader)
    requires Increasing(es)
    requires AccountAging(cfg, es, account, asOf, None, metaOf).Success?
    ensures var v := AccountAging(cfg, es, account, asOf, None, metaOf).value;
      AccountAging(cfg, es, account, asOf, Some(v), metaOf) == Success(v)
  {
    SeenFilteredOut(cfg, es, account, asOf, metaOf);
  }

  /** Checkpoint resumption: with increasing non-negative serial numbers,
      resuming from the state of a call over a prefix gives the same result
      as one call over all the entries. */
  lemma ResumeMatchesOneShot(cfg: Config, es1: seq<JournalEntry>, es2: seq<JournalEntry>, account: string,
                             asOf: int, metaOf: MetaReader)
    requires Increasing(es1 + es2)
    requires forall i :: 0 <= i < |es1 + es2| ==> (es1 + es2)[i].slNo >= 0
    requires AccountAging(cfg, es1, account, asOf, None, metaOf).Success?
    ensures var v1 := AccountAging(cfg, es1, account, asOf, None, metaOf).value;
      AccountAging(cfg, es1 + es2, account, asOf, Some(v1), metaOf)
        == AccountAging(cfg, es1 + es2, account, asOf, None, metaOf)
  {
    var es := es1 + es2;
    var v1 := AccountAging(cfg, es1, account, asOf, None, metaOf).value;
    assert Increasing(es1) by {
      forall i, j | 0 <= i < j < |es1| ensures es1[i].slNo < es1[j].slNo {
        assert es1[i] == es[i] && es1[j] == es[j];
      }
    }
    SeenFilteredOut(cfg, es1, account, asOf, metaOf);
    var f1 := Filter(es1, account, asOf, None);
    var f2 := Filter(es2, account, asOf, None);
    FilterAppend(es1, es2, account, asOf, None);
    FilterAppend(es1, es2, account, asOf, Some(v1.slNo));
    assert forall i :: 0 <= i < |es2| ==> es2[i].slNo > v1.slNo by {
      forall i | 0 <= i < |es2| ensures es2[i].slNo > v1.slNo {
        assert es2[i] == es[|es1| + i];
        if f1 != [] {
          var k :| 0 <= k < |es1| && es1[k].slNo == v1.slNo;
          assert es1[k] == es[k];
        }
      }
    }
    FilterAbove(es2, account, asOf, v1.slNo);
    assert Filter(es, account, asOf, Some(v1.slNo)) == f2;
    if f1 != [] {
      var bt := cfg.accountTypes[cfg.accounts[account]];
      FoldAppend(Fresh(account), bt, f1, f2, metaOf);
      if f2 == [] {
        assert f1 + f2 == f1;
      }
    } else {
      assert f1 + f2 == f2;
    }
  }

  /** `Ledger.get_aging`: aging as of the journal's last entry, from scratch;
      an empty journal has no last entry. */
  function LedgerAging(cfg: Config, es: seq<JournalEntry>, account: string, metaOf: MetaReader): (r: Result<AgingValue>)
    ensures es == [] ==> r == Failure(EmptyJournal)
    ensures es != [] ==> r == AccountAging(cfg, es, account, es[|es| - 1].date, None, metaOf)
  {
    if es == [] then Failure(EmptyJournal) else AccountAging(cfg, es, account, es[|es| - 1].date, None, metaOf)
  }

  /** When every entry of the account is dated on or before the cut-off,
      the cut-off drops nothing of the account's balance. */
  lemma {:induction false} FilterKeepsBalance(cfg: Config, es: seq<JournalEntry>, account: string, asOf: int)
    requires Configured(cfg, account)
    requires forall i :: 0 <= i < |es| && es[i].account == account ==> es[i].date <= asOf
    ensures AccountBalance(cfg, Filter(es, account, asOf, None), account) == AccountBalance(cfg, es, account)
  {
    if es != [] {
      var init := es[..|es| - 1];
      var x := es[|es| - 1];
      assert es == init + [x];
      FilterKeepsBalance(cfg, init, account, asOf);
      BalanceAppendEntry(cfg, init, x, account);
      if Applies(x, account, asOf, None) {
        BalanceAppendEntry(cfg, Filter(init, account, asOf, None), x, account);
      } else {
        assert Filter(es, account, asOf, None) == Filter(init, account, asOf, None);
      }
    }
  }

  /** `get_aging` over a journal in date order: the cut-off at the last
      entry's date keeps every entry of the account, and over non-negative
      amounts the buckets still owe, less the excess, exactly the account's
      ledger balance (`get_account_balance`) over the whole journal. */
  lemma LedgerAgingCoversAccount(cfg: Config, es: seq<JournalEntry>, account: string, metaOf: MetaReader)
    requires es != [] && DatesOrdered(es)
    ensures forall e :: e in Filter(es, account, es[|es| - 1].date, None) <==> e in es && e.account == account
    ensures Configured(cfg, account) && NonNegative(es) && LedgerAging(cfg, es, account, metaOf).Success? ==>
      var v := LedgerAging(cfg, es, account, metaOf).value;
      WellAged(v) && Owed(v) == AccountBalance(cfg, es, account)
  {
    var asOf := es[|es| - 1].date;
    assert forall i :: 0 <= i < |es| ==> es[i].date <= asOf;
    FilterMembers(es, account, asOf, None);
    if Configured(cfg, account) && NonNegative(es) && LedgerAging(cfg, es, account, metaOf).Success? {
      FromScratch(cfg, es, account, asOf, metaOf);
      FilterKeepsBalance(cfg, es, account, asOf);
    }
  }

  /** Over a journal out of date order the cut-off drops entries: an entry
      dated 5 listed before the last entry, dated 3, is left out of the aging. */
  lemma LedgerAgingDropsLaterDated(account: string)
    ensures var first := JournalEntry(0, account, 10.0, 0.0, 5, "", "");
      var last := JournalEntry(1, account, 10.0, 0.0, 3, "", "");
      Filter([first, last], account, [first, last][1].date, None) == [last]
  {
    var first := JournalEntry(0, account, 10.0, 0.0, 5, "", "");
    var last := JournalEntry(1, account, 10.0, 0.0, 3, "", "");
    assert [first, last][..1] == [first];
    assert [first][..0] == [];
    assert Filter([first], account, 3, None) == [];
  }

  // ---------------------------------------------------------------------
  // The mutable state

  datatype PositiveEntry = PositiveEntry(date: int, counter: AmountCounter, meta: Option<string>)

  /** One bucket of the returned aging; it shares its counter with the state. */
  datatype AccountAge = AccountAge(date: int, counter: AmountCounter, meta: Option<string>)

  ghost function CounterSet(pes: seq<PositiveEntry>): set<AmountCounter> {
    set i | 0 <= i < |pes| :: pes[i].counter
  }

  ghost predicate DistinctCounters(pes: seq<PositiveEntry>) {
    forall i, j :: 0 <= i < j < |pes| ==> pes[i].counter != pes[j].counter
  }

  lemma CounterSetAppend(pes: seq<PositiveEntry>, pe: PositiveEntry)
    ensures CounterSet(pes + [pe]) == CounterSet(pes) + {pe.counter}
  {
    var qs := pes + [pe];
    forall c | c in CounterSet(qs) ensures c in CounterSet(pes) + {pe.counter} {
      var i :| 0 <= i < |qs| && qs[i].counter == c;
      if i < |pes| {
        assert pes[i].counter == c;
      }
    }
    forall c | c in CounterSet(pes) ensures c in CounterSet(qs) {
      var i :| 0 <= i < |pes| && pes[i].counter == c;
      assert qs[i].counter == c;
    }
    assert qs[|pes|].counter == pe.counter;
  }

  /** The buckets the entries hold, as values. */
  ghost function BucketsOf(pes: seq<PositiveEntry>): seq<Bucket>
    reads CounterSet(pes)
  {
    seq(|pes|, i requires 0 <= i < |pes| reads CounterSet(pes) => Bucket(pes[i].date, pes[i].counter.Value(), pes[i].meta))
  }

  /** The returned list: one AccountAge per entry, in order, sharing the counters. */
  function AgesOf(pes: seq<PositiveEntry>): (ages: seq<AccountAge>)
    ensures |ages| == |pes|
    ensures forall i :: 0 <= i < |pes| ==>
      ages[i].date == pes[i].date && ages[i].counter == pes[i].counter && ages[i].meta == pes[i].meta
  {
    seq(|pes|, i requires 0 <= i < |pes| => AccountAge(pes[i].date, pes[i].counter, pes[i].meta))
  }

  class AgingState {
    var account: string
    var positiveEntries: seq<PositiveEntry>
    var excessAmount: real
    var slNo: int

    /** Each entry has a counter of its own. */
    ghost predicate Valid()
      reads this
    {
      DistinctCounters(positiveEntries)
    }

    ghost function Value(): AgingValue
      reads this, CounterSet(positiveEntries)
    {
      AgingValue(account, BucketsOf(positiveEntries), excessAmount, slNo)
    }

    constructor (account: string, positiveEntries: seq<PositiveEntry>, excessAmount: real, slNo: int)
      ensures this.account == account && this.positiveEntries == positiveEntries
      ensures this.excessAmount == excessAmount && this.slNo == slNo
    {
      this.account := account;
      this.positiveEntries := positiveEntries;
      this.excessAmount := excessAmount;
      this.slNo := slNo;
    }
  }

  /** Appends an entry with a fresh counter for `amount`. */
  method OpenBucket(state: AgingState, date: int, amount: real, meta: Option<string>)
    requires state.Valid() && amount > FLOATING_PRECISION
    modifies state
    ensures state.Valid()
    ensures BucketsOf(state.positiveEntries) == old(BucketsOf(state.positiveEntries)) + [Bucket(date, NewCounter(amount), meta)]
    ensures state.account == old(state.account) && state.excessAmount == old(state.excessAmount) && state.slNo == old(state.slNo)
    ensures forall c :: c in CounterSet(state.positiveEntries) ==> c in old(CounterSet(state.positiveEntries)) || fresh(c)
  {
    var counter := new AmountCounter(amount);
    assert counter !in CounterSet(state.positiveEntries);
    var pe := PositiveEntry(date, counter, meta);
    CounterSetAppend(state.positiveEntries, pe);
    state.positiveEntries := state.positiveEntries + [pe];
  }

  /** One pass of the entry loop on the mutable state. */
  method AgeEntry(state: AgingState, bt: BalanceType, entry: JournalEntry, metaOf: MetaReader) returns (r: Outcome)
    requires state.Valid()
    modifies state, CounterSet(state.positiveEntries)
    ensures var expected := Step(old(state.Value()), bt, entry, metaOf);
      && (r.Fail? <==> expected.Failure?)
      && (r.Fail? ==> r.error == CounterTooSmall)
      && (r.Pass? ==> state.Valid() && state.Value() == expected.value)
    ensures state.account == old(state.account)
    ensures forall c :: c in CounterSet(state.positiveEntries) ==> c in old(CounterSet(state.positiveEntries)) || fresh(c)
  {
    ghost var prev := state.Value();
    var positive := PositiveAmount(bt, entry);
    var negative := NegativeAmount(bt, entry);
    if positive > 0.0 {
      if positive <= FLOATING_PRECISION {
        return Fail(CounterTooSmall);
      }
      OpenBucket(state, entry.date, positive, metaOf(entry.narration));
    }
    assert BucketsOf(state.positiveEntries) == Opened(prev, bt, entry, metaOf);
    var rem := PayCounters(state.positiveEntries, state.excessAmount + negative, entry.date);
    state.excessAmount := rem;
    state.slNo := entry.slNo;
    StepUnfold(prev, bt, entry, metaOf);
    return Pass;
  }

  /** `__pay_counters`: pays the counters in place, oldest first, moving on
      only past counters that end up paid, and returns what is left. */
  method PayCounters(pes: seq<PositiveEntry>, amount: real, date: int) returns (rem: real)
    requires DistinctCounters(pes)
    modifies CounterSet(pes)
    ensures (BucketsOf(pes), rem) == PayFrom(old(BucketsOf(pes)), 0, amount, date)
  {
    if |pes| == 0 {
      return amount;
    }
    if amount == 0.0 {
      return 0.0;
    }
    rem := amount;
    var curIdx := 0;
    while rem > 0.0 && curIdx < |pes|
      invariant 0 <= curIdx <= |pes|
      invariant PayFrom(BucketsOf(pes), curIdx, rem, date) == PayFrom(old(BucketsOf(pes)), 0, amount, date)
      decreases |pes| - curIdx
    {
      ghost var before := BucketsOf(pes);
      var counter := pes[curIdx].counter;
      var outcome := counter.Pay(rem, date);
      rem := outcome.value.remainder;
      assert BucketsOf(pes) == before[curIdx := before[curIdx].(counter := counter.Value())] by {
        forall j | 0 <= j < |pes| && j != curIdx
          ensures pes[j].counter.Value() == before[j].counter
        {
          assert pes[j].counter != counter;
        }
      }
      if counter.IsPaid() {
        curIdx := curIdx + 1;
      } else {
        break;
      }
    }
  }

  /** The entry loop of `get_account_aging` on the mutable state, once the
      account's balance type is known. */
  method AgeEntries(state: AgingState, bt: BalanceType, es: seq<JournalEntry>, metaOf: MetaReader) returns (r: Outcome)
    requires state.Valid()
    modifies state, CounterSet(state.positiveEntries)
    ensures var expected := Fold(old(state.Value()), bt, es, metaOf);
      && (r.Fail? <==> expected.Failure?)
      && (r.Fail? ==> r.error == expected.error)
      && (r.Pass? ==> state.Valid() && state.Value() == expected.value)
    ensures state.account == old(state.account)
    ensures forall c :: c in CounterSet(state.positiveEntries) ==> c in old(CounterSet(state.positiveEntries)) || fresh(c)
  {
    ghost var start := state.Value();
    var i := 0;
    while i < |es|
      invariant 0 <= i <= |es|
      invariant state.Valid() && state.account == old(state.account)
      invariant forall c :: c in CounterSet(state.positiveEntries) ==> c in old(CounterSet(state.positiveEntries)) || fresh(c)
      invariant Fold(start, bt, es[..i], metaOf) == Success(state.Value())
    {
      FoldNext(start, bt, es, i, metaOf);
      var outcome := AgeEntry(state, bt, es[i], metaOf);
      if outcome.Fail? {
        FoldStopsAt(start, bt, es, i, metaOf);
        return outcome;
      }
      i := i + 1;
    }
    assert es[..i] == es;
    return Pass;
  }

  /** `deepcopy` of a state: the same contents in fresh objects, with a
      fresh counter per entry. */
  method DeepCopy(s: AgingState) returns (c: AgingState)
    ensures fresh(c) && fresh(CounterSet(c.positiveEntries)) && c.Valid()
    ensures c.Value() == s.Value()
  {
    var copies: seq<PositiveEntry> := [];
    var i := 0;
    while i < |s.positiveEntries|
      invariant 0 <= i <= |s.positiveEntries|
      invariant |copies| == i
      invariant fresh(CounterSet(copies)) && DistinctCounters(copies)
      invariant forall j :: 0 <= j < i ==>
        copies[j].date == s.positiveEntries[j].date && copies[j].meta == s.positiveEntries[j].meta
        && copies[j].counter.Value() == s.positiveEntries[j].counter.Value()
    {
      var entry := s.positiveEntries[i];
      var counter := new AmountCounter.Copy(entry.counter);
      assert counter !in CounterSet(copies);
      CounterSetAppend(copies, PositiveEntry(entry.date, counter, entry.meta));
      copies := copies + [PositiveEntry(entry.date, counter, entry.meta)];
      i := i + 1;
    }
    c := new AgingState(s.account, copies, s.excessAmount, s.slNo);
    assert BucketsOf(c.positiveEntries) == BucketsOf(s.positiveEntries);
  }

  /** `get_account_aging`: works on a deep copy of the checkpoint, so the
      caller's state is left as it was, and agrees with AccountAging on the
      checkpoint's contents. The returned ages share their counters with
      the returned state. */
  method GetAccountAging(cfg: Config, entries: seq<JournalEntry>, account: string, asOf: int,
                         previous: Option<AgingState>, metaOf: MetaReader)
    returns (r: Result<(seq<AccountAge>, AgingState)>)
    requires previous.Some? ==> previous.value.Valid()
    ensures var expected := AccountAging(cfg, entries, account, asOf,
                                         if previous.Some? then Some(old(previous.value.Value())) else None, metaOf);
      && (r.Failure? <==> expected.Failure?)
      && (r.Failure? ==> r.error == expected.error)
      && (r.Success? ==>
            var (ages, state) := r.value;
            fresh(state) && fresh(CounterSet(state.positiveEntries)) && state.Valid()
            && state.Value() == expected.value && ages == AgesOf(state.positiveEntries)
            && |ages| == |expected.value.buckets|
            && (forall i :: 0 <= i < |ages| ==>
                  && ages[i].date == expected.value.buckets[i].date
                  && ages[i].counter.Value() == expected.value.buckets[i].counter
                  && ages[i].meta == expected.value.buckets[i].meta))
  {
    ghost var checkpoint := if previous.Some? then Some(previous.value.Value()) else None;
    ghost var expected := AccountAging(cfg, entries, account, asOf, checkpoint, metaOf);
    var filtered := Filter(entries, account, asOf, if previous.Some? then Some(previous.value.slNo) else None);
    var state: AgingState;
    if previous.Some? {
      state := DeepCopy(previous.value);
    } else {
      state := new AgingState(account, [], 0.0, -1);
    }
    ghost var start := state.Value();
    assert start == if checkpoint.Some? then checkpoint.value else Fresh(account);
    assert filtered == Filter(entries, account, asOf, if checkpoint.Some? then Some(checkpoint.value.slNo) else None);
    if state.account != account {
      return Failure(AccountMismatch);
    }
    if account !in cfg.accounts {
      return Failure(UnknownAccount);
    }
    var accountType := cfg.accounts[account];
    if |filtered| > 0 {
      if accountType !in cfg.accountTypes {
        return Failure(UnknownAccountType);
      }
      assert expected == Fold(start, cfg.accountTypes[accountType], filtered, metaOf);
      var outcome := AgeEntries(state, cfg.accountTypes[accountType], filtered, metaOf);
      if outcome.Fail? {
        return Failure(outcome.error);
      }
    } else {
      assert expected == Success(start);
    }
    return Success((AgesOf(state.positiveEntries), state));
  }

  /** `Ledger.get_aging`: `get_account_aging` from scratch as of the date of
      the journal's last entry; an empty journal has none. */
  method GetAging(cfg: Config, journal: Journal, account: string, metaOf: MetaReader)
    returns (r: Result<(seq<AccountAge>, AgingState)>)
    ensures var expected := LedgerAging(cfg, journal.entries, account, metaOf);
      && (r.Failure? <==> expected.Failure?)
      && (r.Failure? ==> r.error == expected.error)
      && (r.Success? ==>
            var (ages, state) := r.value;
            fresh(state) && state.Value() == expected.value
            && |ages| == |expected.value.buckets|
            && (forall i :: 0 <= i < |ages| ==>
                  && ages[i].date == expected.value.buckets[i].date
                  && ages[i].counter.Value() == expected.value.buckets[i].counter
                  && ages[i].meta == expected.value.buckets[i].meta))
  {
    if |journal.entries| == 0 {
      return Failure(EmptyJournal);
    }
    r := GetAccountAging(cfg, journal.entries, account, journal.entries[|journal.entries| - 1].date, None, metaOf);
  }
}

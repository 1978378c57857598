/** LedgerAccountant: posts debit/credit pairs through Journal.add_entry and
    keeps, beside the journal, a running balance per account and a
    balance-sheet row per posted entry. */
module LedgerAccountants {
  import opened Wrappers
  import opened AccountConfig
  import opened Journals
  import opened Ledgers
  import opened Aging

  /** A balance-sheet row: the entry's fields followed by every running balance after it. */
  datatype SheetRow = SheetRow(entry: JournalEntry, balances: map<string, real>)

  /** A `defaultdict(float)` read: a missing account reads as 0. */
  function Lookup(m: map<string, real>, account: string): real
  {
    if account in m then m[account] else 0.0
  }

  /** `__update_dr_account_balances`. */
  function Debited(cfg: Config, m: map<string, real>, account: string, amount: real): (m': map<string, real>)
    requires Configured(cfg, account)
    ensures Lookup(m', account) == Lookup(m, account) + DrDelta(cfg, account, amount)
    ensures forall a :: a != account ==> Lookup(m', a) == Lookup(m, a)
  {
    m[account := Lookup(m, account) + (if BalanceTypeOf(cfg, account) == DEBIT then amount else -amount)]
  }

  /** `__update_cr_account_balances`. */
  function Credited(cfg: Config, m: map<string, real>, account: string, amount: real): (m': map<string, real>)
    requires Configured(cfg, account)
    ensures Lookup(m', account) == Lookup(m, account) + CrDelta(cfg, account, amount)
    ensures forall a :: a != account ==> Lookup(m', a) == Lookup(m, a)
  {
    m[account := Lookup(m, account) + (if BalanceTypeOf(cfg, account) == CREDIT then amount else -amount)]
  }

  /** The running balances, the sheet and the journal agree: the journal is
      a numbered run of pairs, there is one row per entry holding the
      balances after it, the last row holds the current balances, and each
      running balance is the ledger balance. */
  ghost predicate Agrees(cfg: Config, es: seq<JournalEntry>, m: map<string, real>, sheet: seq<SheetRow>)
  {
    && Paired(es) && Numbered(es)
    && |sheet| == |es|
    && (forall i :: 0 <= i < |sheet| ==> sheet[i].entry == es[i])
    && (forall a :: Configured(cfg, a) ==> Lookup(m, a) == AccountBalance(cfg, es, a))
    && (forall i, a :: 0 <= i < |sheet| && Configured(cfg, a) ==>
          Lookup(sheet[i].balances, a) == AccountBalance(cfg, es[..i + 1], a))
    && (sheet != [] ==> sheet[|sheet| - 1].balances == m)
  }

  lemma AgreesInitially(cfg: Config)
    ensures Agrees(cfg, [], map[], [])
  {
  }

  /** Posting a pair between two configured accounts keeps the running
      balances, the sheet and the journal in agreement. */
  lemma PostKeepsAgreement(cfg: Config, es: seq<JournalEntry>, m: map<string, real>, sheet: seq<SheetRow>,
                           drAccount: string, crAccount: string, amount: real, date: int, narration: string, key: string)
    requires Agrees(cfg, es, m, sheet)
    requires Configured(cfg, drAccount) && Configured(cfg, crAccount) && amount != 0.0
    ensures var legs := Legs(|es|, drAccount, crAccount, amount, date, narration, key);
      var m1 := Debited(cfg, m, drAccount, amount);
      var m2 := Credited(cfg, m1, crAccount, amount);
      Agrees(cfg, es + legs, m2, sheet + [SheetRow(legs[0], m1), SheetRow(legs[1], m2)])
  {
    var legs := Legs(|es|, drAccount, crAccount, amount, date, narration, key);
    var m1 := Debited(cfg, m, drAccount, amount);
    var m2 := Credited(cfg, m1, crAccount, amount);
    var es' := es + legs;
    var sheet' := sheet + [SheetRow(legs[0], m1), SheetRow(legs[1], m2)];
    PostPairShape(es, drAccount, crAccount, amount, date, narration, key, []);
    assert es' == PostPair(es, drAccount, crAccount, amount, date, narration, key);
    assert es'[..|es| + 1] == es + [legs[0]];
    assert es'[..|es| + 2] == es';
    forall a | Configured(cfg, a)
      ensures Lookup(m2, a) == AccountBalance(cfg, es', a)
      ensures Lookup(m1, a) == AccountBalance(cfg, es + [legs[0]], a)
    {
      PostPairBalance(cfg, es, drAccount, crAccount, amount, date, narration, key, a);
      BalanceAppendEntry(cfg, es, legs[0], a);
    }
    forall i, a | 0 <= i < |sheet'| && Configured(cfg, a)
      ensures Lookup(sheet'[i].balances, a) == AccountBalance(cfg, es'[..i + 1], a)
    {
      if i < |sheet| {
        assert sheet'[i] == sheet[i];
        assert es'[..i + 1] == es[..i + 1];
      } else if i == |sheet| {
        assert sheet'[i].balances == m1;
      } else {
        assert sheet'[i].balances == m2;
      }
    }
    assert Paired(es') && Numbered(es');
    assert |sheet'| == |es'|;
    RowsFollowEntries(es, sheet, legs[0], legs[1], m1, m2);
    assert sheet'[|sheet'| - 1].balances == m2;
  }

  /** Two rows added for two entries keep row i holding entry i. */
  lemma RowsFollowEntries(es: seq<JournalEntry>, sheet: seq<SheetRow>, d: JournalEntry, c: JournalEntry,
                          m1: map<string, real>, m2: map<string, real>)
    requires |sheet| == |es| && forall i :: 0 <= i < |sheet| ==> sheet[i].entry == es[i]
    ensures var sheet' := sheet + [SheetRow(d, m1), SheetRow(c, m2)];
      forall i :: 0 <= i < |sheet'| ==> sheet'[i].entry == (es + [d, c])[i]
  {
  }

  /** What a LedgerAccountant holds: its journal's entries and watermark,
      the running balances and the balance sheet. */
  datatype Books = Books(entries: seq<JournalEntry>, maxDate: Option<int>, balances: map<string, real>, sheet: seq<SheetRow>)

  /** `enter_journal` on values: the books afterwards and the outcome. A
      zero amount is a no-op; the first `add_entry` may refuse a backdated
      date; the debit side's balance-type lookup fails after the debit leg
      is in; the credit side's after both legs are in and the debit side is
      booked. */
  function Enter(cfg: Config, key: string, b: Books, drAccount: string, crAccount: string,
                 amount: real, date: int, narration: string): (r: (Books, Outcome))
  {
    if amount == 0.0 then (b, Pass)
    else if b.maxDate.Some? && date < b.maxDate.value then (b, Fail(BackdatedEntry))
    else
      var d := JournalEntry(|b.entries|, drAccount, amount, 0.0, date, narration, key);
      var c := JournalEntry(|b.entries| + 1, crAccount, 0.0, amount, date, narration, key);
      if !Configured(cfg, drAccount) then
        (b.(entries := b.entries + [d], maxDate := Some(date)), Fail(LookupBalanceType(cfg, drAccount).error))
      else
        var m1 := Debited(cfg, b.balances, drAccount, amount);
        var sheet1 := b.sheet + [SheetRow(d, m1)];
        if !Configured(cfg, crAccount) then
          (Books(b.entries + [d] + [c], Some(date), m1, sheet1), Fail(LookupBalanceType(cfg, crAccount).error))
        else
          var m2 := Credited(cfg, m1, crAccount, amount);
          (Books(b.entries + [d] + [c], Some(date), m2, sheet1 + [SheetRow(c, m2)]), Pass)
  }

  /** The cases of `enter_journal`. A zero amount and a backdated date change
      nothing. Otherwise the watermark moves to the date, and the debit leg
      (numbered by the old length, debiting the amount) is appended, followed
      by the credit leg (the next number, crediting the amount) unless the
      debit account is unknown. The call succeeds exactly when both accounts
      are configured, and then the debited and credited balances move by
      DrDelta and CrDelta, no other balance changes, and one sheet row per
      leg holds the balances after it. */
  lemma EnterCases(cfg: Config, key: string, b: Books, drAccount: string, crAccount: string,
                   amount: real, date: int, narration: string)
    ensures var (b', r) := Enter(cfg, key, b, drAccount, crAccount, amount, date, narration);
      var n := |b.entries|;
      && (amount == 0.0 ==> b' == b && r == Pass)
      && (amount != 0.0 && b.maxDate.Some? && date < b.maxDate.value ==> b' == b && r == Fail(BackdatedEntry))
      && (amount != 0.0 && (b.maxDate.None? || date >= b.maxDate.value) ==>
            && b'.maxDate == Some(date)
            && |b'.entries| == n + (if Configured(cfg, drAccount) then 2 else 1)
            && b'.entries[..n] == b.entries
            && b'.entries[n] == JournalEntry(n, drAccount, amount, 0.0, date, narration, key)
            && (Configured(cfg, drAccount) ==> b'.entries[n + 1] == JournalEntry(n + 1, crAccount, 0.0, amount, date, narration, key))
            && (r.Pass? <==> Configured(cfg, drAccount) && Configured(cfg, crAccount))
            && (!Configured(cfg, drAccount) ==>
                  r == Fail(LookupBalanceType(cfg, drAccount).error) && b'.balances == b.balances && b'.sheet == b.sheet)
            && (Configured(cfg, drAccount) && !Configured(cfg, crAccount) ==>
                  r == Fail(LookupBalanceType(cfg, crAccount).error) && |b'.sheet| == |b.sheet| + 1)
            && (r.Pass? ==>
                  && Lookup(b'.balances, drAccount) == Lookup(b.balances, drAccount) + DrDelta(cfg, drAccount, amount)
                     + (if crAccount == drAccount then CrDelta(cfg, crAccount, amount) else 0.0)
                  && Lookup(b'.balances, crAccount) == Lookup(b.balances, crAccount) + CrDelta(cfg, crAccount, amount)
                     + (if crAccount == drAccount then DrDelta(cfg, drAccount, amount) else 0.0)
                  && (forall a :: a != drAccount && a != crAccount ==> Lookup(b'.balances, a) == Lookup(b.balances, a))
                  && b'.sheet == b.sheet + [SheetRow(b'.entries[n], Debited(cfg, b.balances, drAccount, amount)),
                                            SheetRow(b'.entries[n + 1], b'.balances)]))
  {
  }

  /** A successful `enter_journal` keeps the books in agreement with the ledger. */
  lemma EnterKeepsAgreement(cfg: Config, key: string, b: Books, drAccount: string, crAccount: string,
                            amount: real, date: int, narration: string)
    requires Agrees(cfg, b.entries, b.balances, b.sheet)
    ensures var (b', r) := Enter(cfg, key, b, drAccount, crAccount, amount, date, narration);
      r.Pass? ==> Agrees(cfg, b'.entries, b'.balances, b'.sheet)
  {
    var (b', r) := Enter(cfg, key, b, drAccount, crAccount, amount, date, narration);
    if r.Pass? && amount != 0.0 {
      var legs := Legs(|b.entries|, drAccount, crAccount, amount, date, narration, key);
      var m1 := Debited(cfg, b.balances, drAccount, amount);
      assert b'.entries == b.entries + legs;
      assert b'.sheet == b.sheet + [SheetRow(legs[0], m1), SheetRow(legs[1], b'.balances)];
      PostKeepsAgreement(cfg, b.entries, b.balances, b.sheet, drAccount, crAccount, amount, date, narration, key);
    }
  }

  class LedgerAccountant {
    const journal: Journal
    const config: Config
    const key: string
    var balances: map<string, real>
    var balanceSheet: seq<SheetRow>

    /** The running state agrees with the journal. */
    ghost predicate Consistent()
      reads this, journal
    {
      Agrees(config, journal.entries, balances, balanceSheet)
    }

    constructor (journal: Journal, config: Config, key: string)
      ensures this.journal == journal && this.config == config && this.key == key
      ensures balances == map[] && balanceSheet == []
      ensures journal.entries == [] ==> Consistent()
    {
      this.journal := journal;
      this.config := config;
      this.key := key;
      this.balances := map[];
      this.balanceSheet := [];
    }

    /** The accountant's books as a value. */
    function Snapshot(): Books
      reads this, journal
    {
      Books(journal.entries, journal.maxDate, balances, balanceSheet)
    }

    /** `__update_dr_account_balances` followed by `__update_balance_sheet`
        for the debit leg; the balance-type lookup may fail first. */
    method BookDebit(drAccount: string, amount: real, entry: JournalEntry) returns (r: Outcome)
      modifies this
      ensures !Configured(config, drAccount) ==>
        r == Fail(LookupBalanceType(config, drAccount).error) && balances == old(balances) && balanceSheet == old(balanceSheet)
      ensures Configured(config, drAccount) ==>
        var m1 := Debited(config, old(balances), drAccount, amount);
        r == Pass && balances == m1 && balanceSheet == old(balanceSheet) + [SheetRow(entry, m1)]
    {
      var drType := LookupBalanceType(config, drAccount);
      if drType.Failure? {
        return Fail(drType.error);
      }
      balances := Debited(config, balances, drAccount, amount);
      balanceSheet := balanceSheet + [SheetRow(entry, balances)];
      return Pass;
    }

    /** `__update_cr_account_balances` followed by `__update_balance_sheet`
        for the credit leg. */
    method BookCredit(crAccount: string, amount: real, entry: JournalEntry) returns (r: Outcome)
      modifies this
      ensures !Configured(config, crAccount) ==>
        r == Fail(LookupBalanceType(config, crAccount).error) && balances == old(balances) && balanceSheet == old(balanceSheet)
      ensures Configured(config, crAccount) ==>
        var m2 := Credited(config, old(balances), crAccount, amount);
        r == Pass && balances == m2 && balanceSheet == old(balanceSheet) + [SheetRow(entry, m2)]
    {
      var crType := LookupBalanceType(config, crAccount);
      if crType.Failure? {
        return Fail(crType.error);
      }
      balances := Credited(config, balances, crAccount, amount);
      balanceSheet := balanceSheet + [SheetRow(entry, balances)];
      return Pass;
    }

    /** `enter_journal`: the books change as Enter says, and a successful
        call keeps them consistent. */
    method EnterJournal(drAccount: string, crAccount: string, amount: real, date: int, narration: string)
      returns (r: Outcome)
      modifies this, journal
      ensures var (b', r') := Enter(config, key, old(Snapshot()), drAccount, crAccount, amount, date, narration);
        && journal.entries == b'.entries && journal.maxDate == b'.maxDate
        && balances == b'.balances && balanceSheet == b'.sheet && r == r'
      ensures old(Consistent()) && r.Pass? ==> Consistent()
    {
      ghost var b := Snapshot();
      if amount == 0.0 {
        return Pass;
      }
      var debitEntry := JournalEntry(|journal.entries|, drAccount, amount, 0.0, date, narration, key);
      r := journal.AddEntry(debitEntry);
      if r.Fail? {
        return;
      }
      r := BookDebit(drAccount, amount, debitEntry);
      if r.Fail? {
        return;
      }
      var creditEntry := JournalEntry(|journal.entries|, crAccount, 0.0, amount, date, narration, key);
      r := journal.AddEntry(creditEntry);
      r := BookCredit(crAccount, amount, creditEntry);
      if r.Fail? {
        return;
      }
      if Agrees(config, b.entries, b.balances, b.sheet) {
        EnterKeepsAgreement(config, key, b, drAccount, crAccount, amount, date, narration);
      }
    }

    /** `record`: looks the rule up, and posts only a positive amount. */
    method Record(ruleName: string, amount: real, date: int, note: string, meta: Option<string>)
      returns (r: Outcome)
      modifies this, journal
      ensures ruleName !in config.rules ==> r == Fail(UnknownRule) && unchanged(this, journal)
      ensures ruleName in config.rules && amount <= 0.0 ==> r == Pass && unchanged(this, journal)
      ensures ruleName in config.rules && amount > 0.0 ==>
        var rule := config.rules[ruleName];
        (Snapshot(), r) == Enter(config, key, old(Snapshot()), rule.drAccount, rule.crAccount, amount, date,
                                 RecordNarration(rule, note, meta))
      ensures old(Consistent()) && r.Pass? ==> Consistent()
    {
      if ruleName !in config.rules {
        return Fail(UnknownRule);
      }
      var rule := config.rules[ruleName];
      var narration := RecordNarration(rule, note, meta);
      r := Pass;
      if amount > 0.0 {
        r := EnterJournal(rule.drAccount, rule.crAccount, amount, date, narration);
      }
    }

    /** `adjust`: a posting narrated 'Reconcile adjust'. */
    method Adjust(drAccount: string, crAccount: string, amount: real, date: int) returns (r: Outcome)
      modifies this, journal
      ensures (Snapshot(), r) == Enter(config, key, old(Snapshot()), drAccount, crAccount, amount, date, ADJUST_NARRATION)
      ensures old(Consistent()) && r.Pass? ==> Consistent()
    {
      r := EnterJournal(drAccount, crAccount, amount, date, ADJUST_NARRATION);
    }

    /** `get_account_balance`: the running balance, 0 for an account never posted to. */
    function GetAccountBalance(account: string): (b: real)
      reads this, journal
      ensures account !in balances ==> b == 0.0
      ensures Consistent() && Configured(config, account) ==> b == AccountBalance(config, journal.entries, account)
    {
      Lookup(balances, account)
    }

    /** `get_balances`: the running balance of every account posted to. */
    function GetBalances(): (m: map<string, real>)
      reads this, journal
      ensures Consistent() ==>
        forall a :: a in m && Configured(config, a) ==> m[a] == AccountBalance(config, journal.entries, a)
    {
      balances
    }

    /** `get_balance_sheet`: one row per journal entry, the last holding the current balances. */
    function GetBalanceSheet(): (sheet: seq<SheetRow>)
      reads this, journal
      ensures Consistent() ==> |sheet| == |journal.entries|
      ensures Consistent() && sheet != [] ==> sheet[|sheet| - 1].balances == balances
      ensures Consistent() ==> forall i, a :: 0 <= i < |sheet| && Configured(config, a) ==>
        Lookup(sheet[i].balances, a) == AccountBalance(config, journal.entries[..i + 1], a)
    {
      balanceSheet
    }

    /** A consistent accountant's journal has equal total debits and credits. */
    lemma ConsistentIsBalanced()
      requires Consistent()
      ensures TotalDr(journal.entries) == TotalCr(journal.entries)
    {
      PairedTotals(journal.entries);
    }

    /** `get_aging`: the aging of one account over the whole journal, as of
        the last entry's date. */
    method GetAging(account: string, metaOf: MetaReader) returns (r: Result<(seq<AccountAge>, AgingState)>)
      ensures var expected := LedgerAging(config, journal.entries, account, metaOf);
        && (r.Failure? <==> expected.Failure?)
        && (r.Failure? ==> r.error == expected.error)
        && (r.Success? ==>
              var (ages, state) := r.value;
              fresh(state) && state.Value() == expected.value
              && |ages| == |expected.value.buckets|
              && (forall i :: 0 <= i < |ages| ==>
                    && ages[i].date == expected.value.buckets[i].date
                    && ages[i].counter.Value() == expected.value.buckets[i].counter
                    && ages[i].meta == expected.value.buckets[i].meta))
    {
      r := Aging.GetAging(config, journal, account, metaOf);
    }

    /** `get_account_type_balance`: the running balances of the accounts of
        `accountType` not in `excludeAccounts`, added in the configuration's
        order; when the running state is consistent, that is the ledger's
        type balance. */
    method GetAccountTypeBalance(accountType: string, excludeAccounts: seq<string>) returns (balance: real)
      ensures balance == RunningTypeSum(config, config.accountNames, balances, accountType, excludeAccounts)
      ensures Consistent() && TypesKnown(config) ==>
                balance == TypeSum(config, config.accountNames, journal.entries, accountType, excludeAccounts)
    {
      var names := config.accountNames;
      balance := 0.0;
      var i := 0;
      while i < |names|
        invariant 0 <= i <= |names|
        invariant balance + RunningTypeSum(config, names[i..], balances, accountType, excludeAccounts)
               == RunningTypeSum(config, names, balances, accountType, excludeAccounts)
      {
        assert names[i..][1..] == names[i + 1..];
        var accountName := names[i];
        if config.accounts[accountName] == accountType && accountName !in excludeAccounts {
          balance := balance + GetAccountBalance(accountName);
        }
        i := i + 1;
      }
      if Consistent() && TypesKnown(config) {
        RunningTypeSumIsLedger(config, names, journal.entries, balances, accountType, excludeAccounts);
      }
    }
  }

  /** The running balances of the accounts among `names` whose type is `accountType`, leaving out `exclude`. */
  function RunningTypeSum(cfg: Config, names: seq<string>, m: map<string, real>, accountType: string, exclude: seq<string>): real
  {
    if names == [] then 0.0
    else (if names[0] in cfg.accounts && cfg.accounts[names[0]] == accountType && names[0] !in exclude
          then Lookup(m, names[0]) else 0.0)
         + RunningTypeSum(cfg, names[1..], m, accountType, exclude)
  }

  lemma {:induction false} RunningTypeSumIsLedger(cfg: Config, names: seq<string>, es: seq<JournalEntry>,
                                                 m: map<string, real>, accountType: string, exclude: seq<string>)
    requires TypesKnown(cfg)
    requires forall a :: Configured(cfg, a) ==> Lookup(m, a) == AccountBalance(cfg, es, a)
    ensures RunningTypeSum(cfg, names, m, accountType, exclude) == TypeSum(cfg, names, es, accountType, exclude)
  {
    if names != [] {
      RunningTypeSumIsLedger(cfg, names[1..], es, m, accountType, exclude);
    }
  }
}

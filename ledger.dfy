/** Ledger balances: pure sums of debits and credits over journal entries,
    signed by the balance type of the account's type. */
module Ledgers {
  import opened Wrappers
  import opened AccountConfig
  import opened Journals

  /** `get_account_dr`: the debits posted to `account`. */
  function AccountDr(es: seq<JournalEntry>, account: string): (r: real)
  {
    if es == [] then 0.0
    else AccountDr(es[..|es| - 1], account)
         + (if es[|es| - 1].account == account then es[|es| - 1].drAmount else 0.0)
  }

  /** `get_account_cr`: the credits posted to `account`. */
  function AccountCr(es: seq<JournalEntry>, account: string): (r: real)
  {
    if es == [] then 0.0
    else AccountCr(es[..|es| - 1], account)
         + (if es[|es| - 1].account == account then es[|es| - 1].crAmount else 0.0)
  }

  /** `get_account_balance`: debits minus credits for a DEBIT-type account,
      credits minus debits otherwise. The source asserts the account's type
      is configured. */
  function AccountBalance(cfg: Config, es: seq<JournalEntry>, account: string): (r: real)
    requires Configured(cfg, account)
  {
    if BalanceTypeOf(cfg, account) == DEBIT then AccountDr(es, account) - AccountCr(es, account)
    else AccountCr(es, account) - AccountDr(es, account)
  }

  /** What one entry adds to the balance of `account`. */
  function Effect(cfg: Config, e: JournalEntry, account: string): real
    requires Configured(cfg, account)
  {
    if e.account != account then 0.0
    else if BalanceTypeOf(cfg, account) == DEBIT then e.drAmount - e.crAmount
    else e.crAmount - e.drAmount
  }

  /** Debits minus credits, whatever the account's type. */
  function Net(es: seq<JournalEntry>, account: string): real
  {
    AccountDr(es, account) - AccountCr(es, account)
  }

  /** A journal with no entry for `account` gives it nothing; non-negative
      amounts give non-negative sums; and a DEBIT-type balance is the net
      debit, any other the net credit. */
  lemma {:induction false} AccountSums(cfg: Config, es: seq<JournalEntry>, account: string)
    requires Configured(cfg, account)
    ensures (forall i :: 0 <= i < |es| ==> es[i].account != account) ==>
      AccountDr(es, account) == 0.0 && AccountCr(es, account) == 0.0 && AccountBalance(cfg, es, account) == 0.0
    ensures (forall i :: 0 <= i < |es| ==> es[i].drAmount >= 0.0) ==> AccountDr(es, account) >= 0.0
    ensures (forall i :: 0 <= i < |es| ==> es[i].crAmount >= 0.0) ==> AccountCr(es, account) >= 0.0
    ensures AccountBalance(cfg, es, account) == if BalanceTypeOf(cfg, account) == DEBIT then Net(es, account) else -Net(es, account)
  {
    if es != [] {
      AccountSums(cfg, es[..|es| - 1], account);
    }
  }

  lemma {:induction false} DrCrAppend(es: seq<JournalEntry>, fs: seq<JournalEntry>, account: string)
    ensures AccountDr(es + fs, account) == AccountDr(es, account) + AccountDr(fs, account)
    ensures AccountCr(es + fs, account) == AccountCr(es, account) + AccountCr(fs, account)
    decreases |fs|
  {
    if fs == [] {
      assert es + fs == es;
    } else {
      var fs' := fs[..|fs| - 1];
      assert (es + fs)[..|es + fs| - 1] == es + fs';
      DrCrAppend(es, fs', account);
    }
  }

  /** Appending entries adds their own balance. */
  lemma BalanceAppend(cfg: Config, es: seq<JournalEntry>, fs: seq<JournalEntry>, account: string)
    requires Configured(cfg, account)
    ensures AccountBalance(cfg, es + fs, account) == AccountBalance(cfg, es, account) + AccountBalance(cfg, fs, account)
  {
    DrCrAppend(es, fs, account);
  }

  /** Appending one entry changes a balance by exactly that entry's signed contribution. */
  lemma BalanceAppendEntry(cfg: Config, es: seq<JournalEntry>, e: JournalEntry, account: string)
    requires Configured(cfg, account)
    ensures AccountBalance(cfg, es + [e], account) == AccountBalance(cfg, es, account) + Effect(cfg, e, account)
  {
    assert (es + [e])[..|es|] == es;
  }

  /** Appending one entry changes a net by that entry's debit less its credit. */
  lemma NetAppendEntry(es: seq<JournalEntry>, e: JournalEntry, account: string)
    ensures Net(es + [e], account) == Net(es, account) + (if e.account == account then e.drAmount - e.crAmount else 0.0)
  {
    assert (es + [e])[..|es|] == es;
  }

  /** Entries for other accounts leave a balance as it is. */
  lemma {:induction false} OtherAccountsUnchanged(cfg: Config, es: seq<JournalEntry>, fs: seq<JournalEntry>, account: string)
    requires Configured(cfg, account)
    requires forall i :: 0 <= i < |fs| ==> fs[i].account != account
    ensures AccountBalance(cfg, es + fs, account) == AccountBalance(cfg, es, account)
    decreases |fs|
  {
    if fs == [] {
      assert es + fs == es;
    } else {
      var fs' := fs[..|fs| - 1];
      assert es + fs == (es + fs') + [fs[|fs| - 1]];
      OtherAccountsUnchanged(cfg, es, fs', account);
      BalanceAppendEntry(cfg, es + fs', fs[|fs| - 1], account);
    }
  }

  // ----- double entry -----

  function TotalDr(es: seq<JournalEntry>): real
  {
    if es == [] then 0.0 else TotalDr(es[..|es| - 1]) + es[|es| - 1].drAmount
  }

  function TotalCr(es: seq<JournalEntry>): real
  {
    if es == [] then 0.0 else TotalCr(es[..|es| - 1]) + es[|es| - 1].crAmount
  }

  /** A debit leg and the credit leg of the same amount. */
  predicate IsPair(d: JournalEntry, c: JournalEntry) {
    d.drAmount == c.crAmount && d.crAmount == 0.0 && c.drAmount == 0.0
  }

  /** The journal is a run of debit/credit pairs. */
  predicate Paired(es: seq<JournalEntry>)
    decreases |es|
  {
    es == [] || (|es| >= 2 && IsPair(es[|es| - 2], es[|es| - 1]) && Paired(es[..|es| - 2]))
  }

  lemma PairedAppend(es: seq<JournalEntry>, d: JournalEntry, c: JournalEntry)
    ensures Paired(es + [d, c]) <==> Paired(es) && IsPair(d, c)
  {
    assert (es + [d, c])[..|es|] == es;
  }

  /** In a journal of pairs, total debits equal total credits. */
  lemma {:induction false} PairedTotals(es: seq<JournalEntry>)
    requires Paired(es)
    ensures TotalDr(es) == TotalCr(es)
    decreases |es|
  {
    if es != [] {
      var es' := es[..|es| - 2];
      assert es[..|es| - 1][..|es| - 2] == es';
      PairedTotals(es');
    }
  }

  /** Every entry is for an account in `names`. */
  predicate AccountsIn(es: seq<JournalEntry>, names: seq<string>) {
    forall i :: 0 <= i < |es| ==> es[i].account in names
  }

  predicate Distinct(names: seq<string>) {
    forall i, j :: 0 <= i < j < |names| ==> names[i] != names[j]
  }

  /** Debits minus credits summed over `names`. */
  function NetSum(names: seq<string>, es: seq<JournalEntry>): real
  {
    if names == [] then 0.0 else Net(es, names[0]) + NetSum(names[1..], es)
  }

  /** Balances of the DEBIT-type accounts among `names`. */
  function DebitSideSum(cfg: Config, names: seq<string>, es: seq<JournalEntry>): real
  {
    if names == [] then 0.0
    else (if Configured(cfg, names[0]) && BalanceTypeOf(cfg, names[0]) == DEBIT
          then AccountBalance(cfg, es, names[0]) else 0.0)
         + DebitSideSum(cfg, names[1..], es)
  }

  /** Balances of the CREDIT-type accounts among `names`. */
  function CreditSideSum(cfg: Config, names: seq<string>, es: seq<JournalEntry>): real
  {
    if names == [] then 0.0
    else (if Configured(cfg, names[0]) && BalanceTypeOf(cfg, names[0]) == CREDIT
          then AccountBalance(cfg, es, names[0]) else 0.0)
         + CreditSideSum(cfg, names[1..], es)
  }

  /** Balances of the accounts among `names` of type `accountType`, leaving out `exclude`. */
  function TypeSum(cfg: Config, names: seq<string>, es: seq<JournalEntry>, accountType: string, exclude: seq<string>): real
  {
    if names == [] then 0.0
    else (if Configured(cfg, names[0]) && cfg.accounts[names[0]] == accountType && names[0] !in exclude
          then AccountBalance(cfg, es, names[0]) else 0.0)
         + TypeSum(cfg, names[1..], es, accountType, exclude)
  }

  lemma {:induction false} SidesAreNet(cfg: Config, names: seq<string>, es: seq<JournalEntry>)
    requires forall i :: 0 <= i < |names| ==> Configured(cfg, names[i])
    ensures DebitSideSum(cfg, names, es) - CreditSideSum(cfg, names, es) == NetSum(names, es)
  {
    if names != [] {
      SidesAreNet(cfg, names[1..], es);
    }
  }

  lemma {:induction false} NetSumAppendEntry(names: seq<string>, es: seq<JournalEntry>, e: JournalEntry)
    requires Distinct(names)
    ensures NetSum(names, es + [e]) == NetSum(names, es) + (if e.account in names then e.drAmount - e.crAmount else 0.0)
  {
    if names != [] {
      NetAppendEntry(es, e, names[0]);
      assert Distinct(names[1..]);
      NetSumAppendEntry(names[1..], es, e);
      assert e.account in names <==> e.account == names[0] || e.account in names[1..];
      if e.account == names[0] {
        assert e.account !in names[1..];
      }
    }
  }

  /** A journal of pairs over the listed accounts nets to zero. */
  lemma {:induction false} PairedNetsToZero(names: seq<string>, es: seq<JournalEntry>)
    requires Distinct(names) && Paired(es) && AccountsIn(es, names)
    ensures NetSum(names, es) == 0.0
    decreases |es|
  {
    if names == [] {
    } else if es == [] {
      NetSumEmpty(names);
    } else {
      var es' := es[..|es| - 2];
      var d, c := es[|es| - 2], es[|es| - 1];
      assert es[..|es| - 1][..|es| - 2] == es';
      assert es' + [d] + [c] == es;
      PairedNetsToZero(names, es');
      NetSumAppendEntry(names, es', d);
      NetSumAppendEntry(names, es' + [d], c);
    }
  }

  lemma {:induction false} NetSumEmpty(names: seq<string>)
    ensures NetSum(names, []) == 0.0
  {
    if names != [] {
      NetSumEmpty(names[1..]);
    }
  }

  /** Double entry: over a configuration whose types are all known, a
      journal of pairs has the DEBIT-type balances summing to the CREDIT-type ones. */
  lemma DoubleEntry(cfg: Config, es: seq<JournalEntry>)
    requires TypesKnown(cfg) && Paired(es) && AccountsIn(es, cfg.accountNames)
    ensures DebitSideSum(cfg, cfg.accountNames, es) == CreditSideSum(cfg, cfg.accountNames, es)
  {
    SidesAreNet(cfg, cfg.accountNames, es);
    PairedNetsToZero(cfg.accountNames, es);
  }

  /** Two journals whose net amounts agree on every listed account but `x`
      differ in their sums by what they differ on at `x`. */
  lemma {:induction false} NetSumAgreeExcept(names: seq<string>, es1: seq<JournalEntry>, es2: seq<JournalEntry>, x: string)
    requires Distinct(names)
    requires forall a :: a in names && a != x ==> Net(es1, a) == Net(es2, a)
    ensures NetSum(names, es1) - NetSum(names, es2) == (if x in names then Net(es1, x) - Net(es2, x) else 0.0)
  {
    if names != [] {
      assert Distinct(names[1..]);
      NetSumAgreeExcept(names[1..], es1, es2, x);
      assert x in names <==> x == names[0] || x in names[1..];
      if x == names[0] {
        assert x !in names[1..];
      }
    }
  }

  /** The four types of the reference configuration: ASSET and EXPENSE on
      the debit side, INCOME and LIABILITY on the credit side. The
      configuration may define further types. */
  predicate FourTypes(cfg: Config) {
    && "ASSET" in cfg.accountTypes && cfg.accountTypes["ASSET"] == DEBIT
    && "EXPENSE" in cfg.accountTypes && cfg.accountTypes["EXPENSE"] == DEBIT
    && "INCOME" in cfg.accountTypes && cfg.accountTypes["INCOME"] == CREDIT
    && "LIABILITY" in cfg.accountTypes && cfg.accountTypes["LIABILITY"] == CREDIT
  }

  /** An account of one of the four types. */
  predicate OfFourTypes(cfg: Config, account: string) {
    account in cfg.accounts
    && (cfg.accounts[account] == "ASSET" || cfg.accounts[account] == "EXPENSE"
        || cfg.accounts[account] == "INCOME" || cfg.accounts[account] == "LIABILITY")
  }

  /** When the accounts among `names` have the four reference types, the two
      sides split by type. */
  lemma {:induction false} SidesByType(cfg: Config, names: seq<string>, es: seq<JournalEntry>)
    requires FourTypes(cfg)
    requires forall i :: 0 <= i < |names| ==> OfFourTypes(cfg, names[i])
    ensures DebitSideSum(cfg, names, es) == TypeSum(cfg, names, es, "ASSET", []) + TypeSum(cfg, names, es, "EXPENSE", [])
    ensures CreditSideSum(cfg, names, es) == TypeSum(cfg, names, es, "INCOME", []) + TypeSum(cfg, names, es, "LIABILITY", [])
  {
    if names != [] {
      SidesByType(cfg, names[1..], es);
    }
  }

  /** The accounting equation: ASSET = INCOME + LIABILITY - EXPENSE, for any
      journal of pairs over the configured accounts. */
  lemma AccountingEquation(cfg: Config, es: seq<JournalEntry>)
    requires FourTypes(cfg) && forall a :: a in cfg.accounts ==> OfFourTypes(cfg, a)
    requires Paired(es) && AccountsIn(es, cfg.accountNames)
    ensures TypeSum(cfg, cfg.accountNames, es, "ASSET", [])
         == TypeSum(cfg, cfg.accountNames, es, "INCOME", []) + TypeSum(cfg, cfg.accountNames, es, "LIABILITY", [])
            - TypeSum(cfg, cfg.accountNames, es, "EXPENSE", [])
  {
    assert TypesKnown(cfg);
    DoubleEntry(cfg, es);
    SidesByType(cfg, cfg.accountNames, es);
  }

  // ----- posting a debit/credit pair -----

  /** The narration of every `adjust` posting. */
  const ADJUST_NARRATION: string := "Reconcile adjust"

  /** The debit leg and the credit leg that `enter_journal` creates when the
      journal holds `n` entries. */
  function Legs(n: int, drAccount: string, crAccount: string, amount: real, date: int, narration: string, key: string): seq<JournalEntry>
  {
    [JournalEntry(n, drAccount, amount, 0.0, date, narration, key),
     JournalEntry(n + 1, crAccount, 0.0, amount, date, narration, key)]
  }

  /** The entries after `enter_journal`: nothing for a zero amount, the two
      legs at the end otherwise. */
  function PostPair(es: seq<JournalEntry>, drAccount: string, crAccount: string, amount: real,
                    date: int, narration: string, key: string): (r: seq<JournalEntry>)
  {
    if amount == 0.0 then es else es + Legs(|es|, drAccount, crAccount, amount, date, narration, key)
  }

  /** What debiting `amount` to `account` does to its balance. */
  function DrDelta(cfg: Config, account: string, amount: real): real
    requires Configured(cfg, account)
  {
    if BalanceTypeOf(cfg, account) == DEBIT then amount else -amount
  }

  /** What crediting `amount` to `account` does to its balance. */
  function CrDelta(cfg: Config, account: string, amount: real): real
    requires Configured(cfg, account)
  {
    if BalanceTypeOf(cfg, account) == CREDIT then amount else -amount
  }

  /** A posted pair keeps the journal a run of numbered pairs over the
      listed accounts, and adds the same amount to total debits and to total credits. */
  lemma PostPairShape(es: seq<JournalEntry>, drAccount: string, crAccount: string, amount: real,
                      date: int, narration: string, key: string, names: seq<string>)
    ensures var es' := PostPair(es, drAccount, crAccount, amount, date, narration, key);
      && (Paired(es) ==> Paired(es'))
      && (Numbered(es) ==> Numbered(es'))
      && (AccountsIn(es, names) && drAccount in names && crAccount in names ==> AccountsIn(es', names))
      && TotalDr(es') - TotalDr(es) == TotalCr(es') - TotalCr(es)
      && es'[..|es|] == es
      && |es'| == if amount == 0.0 then |es| else |es| + 2
  {
    if amount != 0.0 {
      var legs := Legs(|es|, drAccount, crAccount, amount, date, narration, key);
      PairedAppend(es, legs[0], legs[1]);
      var es' := es + legs;
      assert es'[..|es'| - 1] == es + [legs[0]];
      assert (es + [legs[0]])[..|es|] == es;
    }
  }

  /** A posted pair changes the debited account's balance by DrDelta, the
      credited account's by CrDelta, and no other balance. */
  lemma PostPairBalance(cfg: Config, es: seq<JournalEntry>, drAccount: string, crAccount: string, amount: real,
                        date: int, narration: string, key: string, account: string)
    requires Configured(cfg, account)
    ensures AccountBalance(cfg, PostPair(es, drAccount, crAccount, amount, date, narration, key), account)
         == AccountBalance(cfg, es, account)
            + (if amount != 0.0 && account == drAccount then DrDelta(cfg, account, amount) else 0.0)
            + (if amount != 0.0 && account == crAccount then CrDelta(cfg, account, amount) else 0.0)
  {
    if amount != 0.0 {
      var legs := Legs(|es|, drAccount, crAccount, amount, date, narration, key);
      assert es + legs == (es + [legs[0]]) + [legs[1]];
      BalanceAppendEntry(cfg, es, legs[0], account);
      BalanceAppendEntry(cfg, es + [legs[0]], legs[1], account);
    }
  }
}

/** Reconciliation: compares a closed journal with the current one account
    by account, and posts on the closed accountant, against the
    reconciliation control account, whatever difference each account shows. */
module Recon {
  import opened Wrappers
  import opened AccountConfig
  import opened Journals
  import opened Ledgers
  import opened Accountants

  const RECONCILE_CONTROL: string := "RECONCILE_CONTROL"

  /** `_is_matching`: every configured account has the same balance in both
      journals, and the control account is at zero in each. */
  predicate Matching(cfg: Config, es1: seq<JournalEntry>, es2: seq<JournalEntry>)
    requires TypesKnown(cfg) && RECONCILE_CONTROL in cfg.accounts
  {
    && (forall a :: a in cfg.accounts ==> AccountBalance(cfg, es1, a) == AccountBalance(cfg, es2, a))
    && AccountBalance(cfg, es1, RECONCILE_CONTROL) == 0.0
    && AccountBalance(cfg, es2, RECONCILE_CONTROL) == 0.0
  }

  /** Matching does not depend on which journal comes first, and a journal
      matches itself exactly when its control account is at zero. */
  lemma MatchingSymmetricSelf(cfg: Config, es1: seq<JournalEntry>, es2: seq<JournalEntry>)
    requires TypesKnown(cfg) && RECONCILE_CONTROL in cfg.accounts
    ensures Matching(cfg, es1, es2) <==> Matching(cfg, es2, es1)
    ensures Matching(cfg, es1, es1) <==> AccountBalance(cfg, es1, RECONCILE_CONTROL) == 0.0
  {
  }

  /** `_is_matching`, account by account in the configuration's order,
      stopping at the first difference. */
  method IsMatching(cfg: Config, journal1: Journal, journal2: Journal) returns (b: bool)
    requires TypesKnown(cfg) && RECONCILE_CONTROL in cfg.accounts
    ensures b <==> Matching(cfg, journal1.entries, journal2.entries)
  {
    var names := cfg.accountNames;
    var i := 0;
    while i < |names|
      invariant 0 <= i <= |names|
      invariant forall j :: 0 <= j < i ==>
        AccountBalance(cfg, journal1.entries, names[j]) == AccountBalance(cfg, journal2.entries, names[j])
    {
      if AccountBalance(cfg, journal1.entries, names[i]) != AccountBalance(cfg, journal2.entries, names[i]) {
        return false;
      }
      i := i + 1;
    }
    if AccountBalance(cfg, journal1.entries, RECONCILE_CONTROL) != 0.0 {
      return false;
    }
    if AccountBalance(cfg, journal2.entries, RECONCILE_CONTROL) != 0.0 {
      return false;
    }
    return true;
  }

  /** Every name is a configured account. */
  predicate AllConfigured(cfg: Config, names: seq<string>) {
    forall i :: 0 <= i < |names| ==> names[i] in cfg.accounts
  }

  /** One pass of the loop of `reconcile_ledger`, for a non-control account:
      nothing when the balances agree; otherwise a DEBIT-type account is
      debited the difference against the control account, any other
      account is credited it. */
  function Adjusted(cfg: Config, es: seq<JournalEntry>, cur: seq<JournalEntry>, account: string, date: int, key: string): (r: seq<JournalEntry>)
    requires TypesKnown(cfg) && account in cfg.accounts
  {
    var diff := AccountBalance(cfg, cur, account) - AccountBalance(cfg, es, account);
    if diff == 0.0 then es
    else if BalanceTypeOf(cfg, account) == DEBIT then PostPair(es, account, RECONCILE_CONTROL, diff, date, ADJUST_NARRATION, key)
    else PostPair(es, RECONCILE_CONTROL, account, diff, date, ADJUST_NARRATION, key)
  }

  /** The loop of `reconcile_ledger` over `names`, on the closed entries
      `es`, each difference taken against the entries as adjusted so far. */
  function Reconciled(cfg: Config, names: seq<string>, es: seq<JournalEntry>, cur: seq<JournalEntry>, date: int, key: string): (r: seq<JournalEntry>)
    requires TypesKnown(cfg) && AllConfigured(cfg, names)
  {
    if names == [] then es
    else Reconciled(cfg, names[1..], Next(cfg, es, cur, names[0], date, key), cur, date, key)
  }

  /** The control account is skipped; any other is adjusted. */
  function Next(cfg: Config, es: seq<JournalEntry>, cur: seq<JournalEntry>, account: string, date: int, key: string): seq<JournalEntry>
    requires TypesKnown(cfg) && account in cfg.accounts
  {
    if account == RECONCILE_CONTROL then es else Adjusted(cfg, es, cur, account, date, key)
  }

  /** The correcting pair for `account`, numbered from `n`, with the
      difference taken against the original closed entries `es`. */
  function Correction(cfg: Config, es: seq<JournalEntry>, cur: seq<JournalEntry>, account: string, n: int, date: int, key: string): (c: seq<JournalEntry>)
    requires TypesKnown(cfg) && account in cfg.accounts
    ensures |c| == 0 || |c| == 2
  {
    var diff := AccountBalance(cfg, cur, account) - AccountBalance(cfg, es, account);
    if account == RECONCILE_CONTROL || diff == 0.0 then []
    else if BalanceTypeOf(cfg, account) == DEBIT then Legs(n, account, RECONCILE_CONTROL, diff, date, ADJUST_NARRATION, key)
    else Legs(n, RECONCILE_CONTROL, account, diff, date, ADJUST_NARRATION, key)
  }

  /** One correcting pair per non-control account whose balances differ, in order. */
  function Corrections(cfg: Config, names: seq<string>, es: seq<JournalEntry>, cur: seq<JournalEntry>, n: int, date: int, key: string): seq<JournalEntry>
    requires TypesKnown(cfg) && AllConfigured(cfg, names)
  {
    if names == [] then []
    else
      var c := Correction(cfg, es, cur, names[0], n, date, key);
      c + Corrections(cfg, names[1..], es, cur, n + |c|, date, key)
  }

  /** An adjustment of `account` brings its balance to the current one and
      leaves every other non-control balance alone. */
  lemma AdjustedBalance(cfg: Config, es: seq<JournalEntry>, cur: seq<JournalEntry>, account: string, date: int, key: string, b: string)
    requires TypesKnown(cfg) && account in cfg.accounts && account != RECONCILE_CONTROL
    requires b in cfg.accounts && b != RECONCILE_CONTROL
    ensures AccountBalance(cfg, Adjusted(cfg, es, cur, account, date, key), b)
         == if b == account then AccountBalance(cfg, cur, b) else AccountBalance(cfg, es, b)
  {
    var diff := AccountBalance(cfg, cur, account) - AccountBalance(cfg, es, account);
    if BalanceTypeOf(cfg, account) == DEBIT {
      PostPairBalance(cfg, es, account, RECONCILE_CONTROL, diff, date, ADJUST_NARRATION, key, b);
    } else {
      PostPairBalance(cfg, es, RECONCILE_CONTROL, account, diff, date, ADJUST_NARRATION, key, b);
    }
  }

  /** After the loop every listed non-control account has its current
      balance, and every other non-control account keeps its closed one. */
  lemma {:induction false} ReconciledBalances(cfg: Config, names: seq<string>, es: seq<JournalEntry>, cur: seq<JournalEntry>,
                                             date: int, key: string, b: string)
    requires TypesKnown(cfg) && AllConfigured(cfg, names) && Distinct(names)
    requires b in cfg.accounts && b != RECONCILE_CONTROL
    ensures AccountBalance(cfg, Reconciled(cfg, names, es, cur, date, key), b)
         == if b in names then AccountBalance(cfg, cur, b) else AccountBalance(cfg, es, b)
  {
    if names != [] {
      var a := names[0];
      var next := Next(cfg, es, cur, a, date, key);
      assert AllConfigured(cfg, names[1..]) && Distinct(names[1..]);
      ReconciledBalances(cfg, names[1..], next, cur, date, key, b);
      if a != RECONCILE_CONTROL {
        AdjustedBalance(cfg, es, cur, a, date, key, b);
      }
      assert b in names <==> b == a || b in names[1..];
      if b == a {
        assert b !in names[1..];
      }
    }
  }

  /** With the balance of `account` as in `es0`, its adjustment appends exactly its correction. */
  lemma AdjustedIsCorrection(cfg: Config, es0: seq<JournalEntry>, es: seq<JournalEntry>, cur: seq<JournalEntry>,
                             account: string, date: int, key: string)
    requires TypesKnown(cfg) && account in cfg.accounts && account != RECONCILE_CONTROL
    requires AccountBalance(cfg, es, account) == AccountBalance(cfg, es0, account)
    ensures Adjusted(cfg, es, cur, account, date, key) == es + Correction(cfg, es0, cur, account, |es|, date, key)
  {
    var diff := AccountBalance(cfg, cur, account) - AccountBalance(cfg, es, account);
    if diff == 0.0 {
      assert es + [] == es;
    }
  }

  /** An adjustment keeps the closed journal a run of pairs over the configured accounts. */
  lemma AdjustedPaired(cfg: Config, es: seq<JournalEntry>, cur: seq<JournalEntry>, account: string, date: int, key: string)
    requires TypesKnown(cfg) && account in cfg.accounts && RECONCILE_CONTROL in cfg.accounts
    requires Paired(es) && AccountsIn(es, cfg.accountNames)
    ensures var es' := Adjusted(cfg, es, cur, account, date, key);
      Paired(es') && AccountsIn(es', cfg.accountNames)
  {
    var diff := AccountBalance(cfg, cur, account) - AccountBalance(cfg, es, account);
    assert account in cfg.accountNames && RECONCILE_CONTROL in cfg.accountNames;
    if diff == 0.0 {
      assert Adjusted(cfg, es, cur, account, date, key) == es;
    } else if BalanceTypeOf(cfg, account) == DEBIT {
      assert Adjusted(cfg, es, cur, account, date, key)
          == PostPair(es, account, RECONCILE_CONTROL, diff, date, ADJUST_NARRATION, key);
      PostPairShape(es, account, RECONCILE_CONTROL, diff, date, ADJUST_NARRATION, key, cfg.accountNames);
    } else {
      assert Adjusted(cfg, es, cur, account, date, key)
          == PostPair(es, RECONCILE_CONTROL, account, diff, date, ADJUST_NARRATION, key);
      PostPairShape(es, RECONCILE_CONTROL, account, diff, date, ADJUST_NARRATION, key, cfg.accountNames);
    }
  }

  /** Adjusting a journal against itself changes nothing. */
  lemma {:induction false} ReconciledSelf(cfg: Config, names: seq<string>, es: seq<JournalEntry>, date: int, key: string)
    requires TypesKnown(cfg) && AllConfigured(cfg, names)
    ensures Reconciled(cfg, names, es, es, date, key) == es
  {
    if names != [] {
      assert AllConfigured(cfg, names[1..]);
      ReconciledSelf(cfg, names[1..], es, date, key);
    }
  }

  lemma AdjustedKeepsAgreement(cfg: Config, names: seq<string>, es0: seq<JournalEntry>, es: seq<JournalEntry>,
                                cur: seq<JournalEntry>, account: string, date: int, key: string)
    requires TypesKnown(cfg) && AllConfigured(cfg, names)
    requires account in cfg.accounts && account != RECONCILE_CONTROL && account !in names
    requires forall a :: a in names && a != RECONCILE_CONTROL ==> AccountBalance(cfg, es, a) == AccountBalance(cfg, es0, a)
    ensures forall a :: a in names && a != RECONCILE_CONTROL ==>
      AccountBalance(cfg, Adjusted(cfg, es, cur, account, date, key), a) == AccountBalance(cfg, es0, a)
  {
    forall b | b in names && b != RECONCILE_CONTROL
      ensures AccountBalance(cfg, Adjusted(cfg, es, cur, account, date, key), b) == AccountBalance(cfg, es0, b)
    {
      AdjustedBalance(cfg, es, cur, account, date, key, b);
    }
  }

  /** The loop posts exactly the corrections the original balances call
      for: one pair per non-control account that differs, numbered on from
      the closed journal, and nothing for an account that agrees. */
  lemma {:induction false} ReconciledIsCorrections(cfg: Config, names: seq<string>, es0: seq<JournalEntry>, es: seq<JournalEntry>,
                                                  cur: seq<JournalEntry>, date: int, key: string)
    requires TypesKnown(cfg) && AllConfigured(cfg, names) && Distinct(names)
    requires forall a :: a in names && a != RECONCILE_CONTROL ==> AccountBalance(cfg, es, a) == AccountBalance(cfg, es0, a)
    ensures Reconciled(cfg, names, es, cur, date, key) == es + Corrections(cfg, names, es0, cur, |es|, date, key)
  {
    if names == [] {
      assert es + [] == es;
    } else {
      var a := names[0];
      var next := Next(cfg, es, cur, a, date, key);
      var c := Correction(cfg, es0, cur, a, |es|, date, key);
      NextIsCorrection(cfg, es0, es, cur, a, date, key);
      assert AllConfigured(cfg, names[1..]) && Distinct(names[1..]);
      assert a !in names[1..];
      NextKeepsAgreement(cfg, names[1..], es0, es, cur, a, date, key);
      ReconciledIsCorrections(cfg, names[1..], es0, next, cur, date, key);
      CorrectionsStep(cfg, names, es0, es, cur, date, key);
    }
  }

  /** The step of ReconciledIsCorrections: a first pass that appends its
      correction, followed by the corrections of the rest. */
  lemma CorrectionsStep(cfg: Config, names: seq<string>, es0: seq<JournalEntry>, es: seq<JournalEntry>,
                        cur: seq<JournalEntry>, date: int, key: string)
    requires TypesKnown(cfg) && AllConfigured(cfg, names) && names != []
    requires Next(cfg, es, cur, names[0], date, key) == es + Correction(cfg, es0, cur, names[0], |es|, date, key)
    requires var next := Next(cfg, es, cur, names[0], date, key);
      Reconciled(cfg, names[1..], next, cur, date, key) == next + Corrections(cfg, names[1..], es0, cur, |next|, date, key)
    ensures Reconciled(cfg, names, es, cur, date, key) == es + Corrections(cfg, names, es0, cur, |es|, date, key)
  {
    var next := Next(cfg, es, cur, names[0], date, key);
    var c := Correction(cfg, es0, cur, names[0], |es|, date, key);
    var rest := Corrections(cfg, names[1..], es0, cur, |es| + |c|, date, key);
    ReconciledUnfold(cfg, names, es, cur, date, key);
    CorrectionsUnfold(cfg, names, es0, cur, |es|, date, key);
    assert |next| == |es| + |c|;
    AppendAfter(es, c, rest, next);
  }

  lemma ReconciledUnfold(cfg: Config, names: seq<string>, es: seq<JournalEntry>, cur: seq<JournalEntry>, date: int, key: string)
    requires TypesKnown(cfg) && AllConfigured(cfg, names) && names != []
    ensures Reconciled(cfg, names, es, cur, date, key)
         == Reconciled(cfg, names[1..], Next(cfg, es, cur, names[0], date, key), cur, date, key)
  {
  }

  lemma AppendAfter(es: seq<JournalEntry>, c: seq<JournalEntry>, rest: seq<JournalEntry>, next: seq<JournalEntry>)
    requires next == es + c
    ensures next + rest == es + (c + rest)
  {
  }

  lemma CorrectionsUnfold(cfg: Config, names: seq<string>, es: seq<JournalEntry>, cur: seq<JournalEntry>, n: int, date: int, key: string)
    requires TypesKnown(cfg) && AllConfigured(cfg, names) && names != []
    ensures var c := Correction(cfg, es, cur, names[0], n, date, key);
      Corrections(cfg, names, es, cur, n, date, key) == c + Corrections(cfg, names[1..], es, cur, n + |c|, date, key)
  {
  }

  lemma NextIsCorrection(cfg: Config, es0: seq<JournalEntry>, es: seq<JournalEntry>, cur: seq<JournalEntry>,
                         account: string, date: int, key: string)
    requires TypesKnown(cfg) && account in cfg.accounts
    requires account != RECONCILE_CONTROL ==> AccountBalance(cfg, es, account) == AccountBalance(cfg, es0, account)
    ensures Next(cfg, es, cur, account, date, key) == es + Correction(cfg, es0, cur, account, |es|, date, key)
  {
    if account == RECONCILE_CONTROL {
      assert es + [] == es;
    } else {
      AdjustedIsCorrection(cfg, es0, es, cur, account, date, key);
    }
  }

  lemma NextKeepsAgreement(cfg: Config, names: seq<string>, es0: seq<JournalEntry>, es: seq<JournalEntry>,
                           cur: seq<JournalEntry>, account: string, date: int, key: string)
    requires TypesKnown(cfg) && AllConfigured(cfg, names)
    requires account in cfg.accounts && account !in names
    requires forall a :: a in names && a != RECONCILE_CONTROL ==> AccountBalance(cfg, es, a) == AccountBalance(cfg, es0, a)
    ensures forall a :: a in names && a != RECONCILE_CONTROL ==>
      AccountBalance(cfg, Next(cfg, es, cur, account, date, key), a) == AccountBalance(cfg, es0, a)
  {
    if account != RECONCILE_CONTROL {
      AdjustedKeepsAgreement(cfg, names, es0, es, cur, account, date, key);
    }
  }

  /** Adjusting keeps the closed journal a run of pairs over the configured accounts. */
  lemma {:induction false} ReconciledPaired(cfg: Config, names: seq<string>, es: seq<JournalEntry>, cur: seq<JournalEntry>,
                                           date: int, key: string)
    requires TypesKnown(cfg) && AllConfigured(cfg, names) && RECONCILE_CONTROL in cfg.accounts
    requires Paired(es) && AccountsIn(es, cfg.accountNames)
    ensures var final := Reconciled(cfg, names, es, cur, date, key);
      Paired(final) && AccountsIn(final, cfg.accountNames)
  {
    if names != [] {
      var a := names[0];
      if a != RECONCILE_CONTROL {
        AdjustedPaired(cfg, es, cur, a, date, key);
      }
      assert AllConfigured(cfg, names[1..]);
      var next := Next(cfg, es, cur, a, date, key);
      ReconciledPaired(cfg, names[1..], next, cur, date, key);
    }
  }

  /** Equal balances mean equal net amounts. */
  lemma SameBalanceSameNet(cfg: Config, es1: seq<JournalEntry>, es2: seq<JournalEntry>, a: string)
    requires Configured(cfg, a)
    ensures AccountBalance(cfg, es1, a) == AccountBalance(cfg, es2, a) <==> Net(es1, a) == Net(es2, a)
  {
  }

  /** The closing assertion of `reconcile_ledger` holds: when both journals
      are runs of pairs over the configured accounts and the current
      control balance is zero, the adjusted closed journal matches the
      current one, the control account included. */
  lemma ReconcileMatches(cfg: Config, es: seq<JournalEntry>, cur: seq<JournalEntry>, date: int, key: string)
    requires TypesKnown(cfg) && RECONCILE_CONTROL in cfg.accounts
    requires Paired(es) && AccountsIn(es, cfg.accountNames)
    requires Paired(cur) && AccountsIn(cur, cfg.accountNames)
    requires AccountBalance(cfg, cur, RECONCILE_CONTROL) == 0.0
    ensures Matching(cfg, Reconciled(cfg, cfg.accountNames, es, cur, date, key), cur)
  {
    var names := cfg.accountNames;
    var final := Reconciled(cfg, names, es, cur, date, key);
    assert Distinct(names);
    forall a | a in cfg.accounts && a != RECONCILE_CONTROL
      ensures AccountBalance(cfg, final, a) == AccountBalance(cfg, cur, a)
    {
      ReconciledBalances(cfg, names, es, cur, date, key, a);
    }
    ReconciledPaired(cfg, names, es, cur, date, key);
    forall a | a in names && a != RECONCILE_CONTROL
      ensures Net(final, a) == Net(cur, a)
    {
      SameBalanceSameNet(cfg, final, cur, a);
    }
    NetSumAgreeExcept(names, final, cur, RECONCILE_CONTROL);
    PairedNetsToZero(names, final);
    PairedNetsToZero(names, cur);
    SameBalanceSameNet(cfg, final, cur, RECONCILE_CONTROL);
  }

  /** One pass of the loop of `reconcile_ledger` on the closed accountant. */
  method AdjustOne(cfg: Config, closed: Accountant, current: Accountant, account: string, date: int)
    requires TypesKnown(cfg) && account in cfg.accounts
    modifies closed.journal
    ensures current.journal.entries == old(current.journal.entries)
    ensures closed.journal.maxDate == old(closed.journal.maxDate)
    ensures closed.journal.entries
         == Next(cfg, old(closed.journal.entries), old(current.journal.entries), account, date, closed.key)
  {
    if account != RECONCILE_CONTROL {
      var diff := AccountBalance(cfg, current.journal.entries, account) - AccountBalance(cfg, closed.journal.entries, account);
      if diff != 0.0 {
        if BalanceTypeOf(cfg, account) == DEBIT {
          closed.Adjust(account, RECONCILE_CONTROL, diff, date);
        } else {
          closed.Adjust(RECONCILE_CONTROL, account, diff, date);
        }
      }
    }
  }

  /** The loop of `reconcile_ledger`: an adjustment on the closed
      accountant for each non-control account whose balances differ. */
  method AdjustAll(cfg: Config, closed: Accountant, current: Accountant, date: int)
    requires TypesKnown(cfg) && RECONCILE_CONTROL in cfg.accounts
    modifies closed.journal
    ensures current.journal.entries == old(current.journal.entries)
    ensures closed.journal.maxDate == old(closed.journal.maxDate)
    ensures closed.journal.entries
         == Reconciled(cfg, cfg.accountNames, old(closed.journal.entries), old(current.journal.entries), date, closed.key)
  {
    ghost var es := closed.journal.entries;
    ghost var cur := current.journal.entries;
    var names := cfg.accountNames;
    var i := 0;
    while i < |names|
      invariant 0 <= i <= |names|
      invariant current.journal.entries == cur
      invariant closed.journal.maxDate == old(closed.journal.maxDate)
      invariant Reconciled(cfg, names[i..], closed.journal.entries, cur, date, closed.key)
             == Reconciled(cfg, names, es, cur, date, closed.key)
    {
      assert names[i..][1..] == names[i + 1..];
      AdjustOne(cfg, closed, current, names[i], date);
      i := i + 1;
    }
    assert names[i..] == [];
  }

  /** `reconcile_ledger`: fails its opening assertion when the journals
      already match; otherwise posts the loop's adjustments on the closed
      accountant's journal, and fails its closing assertion if they still
      do not match. The current journal is never changed. */
  method ReconcileLedger(cfg: Config, closed: Accountant, current: Accountant, date: int) returns (r: Outcome)
    requires TypesKnown(cfg) && RECONCILE_CONTROL in cfg.accounts
    modifies closed.journal
    ensures current.journal.entries == old(current.journal.entries)
    ensures closed.journal.maxDate == old(closed.journal.maxDate)
    ensures Matching(cfg, old(closed.journal.entries), old(current.journal.entries)) ==>
              r == Fail(AlreadyMatching) && closed.journal.entries == old(closed.journal.entries)
    ensures !Matching(cfg, old(closed.journal.entries), old(current.journal.entries)) ==>
              && closed.journal.entries
                   == Reconciled(cfg, cfg.accountNames, old(closed.journal.entries), old(current.journal.entries), date, closed.key)
              && (r.Pass? <==> Matching(cfg, closed.journal.entries, current.journal.entries))
              && (r.Fail? ==> r.error == Unreconciled)
    ensures !Matching(cfg, old(closed.journal.entries), old(current.journal.entries))
            && Paired(old(closed.journal.entries)) && AccountsIn(old(closed.journal.entries), cfg.accountNames)
            && Paired(old(current.journal.entries)) && AccountsIn(old(current.journal.entries), cfg.accountNames)
            && AccountBalance(cfg, old(current.journal.entries), RECONCILE_CONTROL) == 0.0
            ==> r == Pass
  {
    var matching := IsMatching(cfg, closed.journal, current.journal);
    if matching {
      return Fail(AlreadyMatching);
    }
    ghost var es := closed.journal.entries;
    ghost var cur := current.journal.entries;
    ghost var names := cfg.accountNames;
    AdjustAll(cfg, closed, current, date);
    if Paired(es) && AccountsIn(es, names) && Paired(cur) && AccountsIn(cur, names)
       && AccountBalance(cfg, cur, RECONCILE_CONTROL) == 0.0 {
      ReconcileMatches(cfg, es, cur, date, closed.key);
    }
    var reconciled := IsMatching(cfg, closed.journal, current.journal);
    if !reconciled {
      return Fail(Unreconciled);
    }
    return Pass;
  }
}

# pyluca in Dafny

A verified model of the core of pyluca, a small double-entry bookkeeping
engine. Its parts are:

- a **journal** of debit/credit entries that refuses backdated appends;
- **ledger balances**: pure sums of debits and credits, each signed by the
  balance type of the account's type;
- two **posting front-ends**:
  - `LedgerAccountant` posts through the journal's watermark check and
    keeps running balances and a balance sheet beside the journal;
  - `Accountant` appends straight to the entry list;
- **reconciliation** of a closed journal against a current one, through a
  `RECONCILE_CONTROL` account;
- **aging**: one account's entries folded into FIFO buckets of amounts
  owed (`AmountCounter`s), with an excess carried over and a checkpoint
  (`AgingState`) that lets the fold resume;
- two small helpers: `zeroed` and the running-balance column of
  `add_account_balance`.

Amounts are `real`, dates are `int`. The configuration is a value with four
parts: account → account type, account type → balance type (`DEBIT` or
`CREDIT`), the list of accounts in the configuration's own order, and the
posting rules. A Python exception (an `assert`, `ValueError`, `KeyError` or
`IndexError`) becomes a `Failure`/`Fail` value naming its cause. There are
two exceptions, both preconditions:

- `Ledger.get_account_balance` requires the account and its type to be
  configured. This covers its assertion on the type and the `KeyError` it
  raises for an unknown account.
- The `AmountCounter` constructor requires its total to exceed 1e-6, as its
  assertion demands.

The modules follow the source files:

| module | file |
|---|---|
| `Wrappers` | Option, Result and Outcome values, and the errors |
| `AccountConfig` | pyluca/account_config.py, the configuration lookups |
| `RoundOff` | pyluca/round_off.py |
| `Counters` | pyluca/amount_counter.py |
| `Journals` | pyluca/journal.py |
| `Ledgers` | pyluca/ledger.py, plus the double-entry facts about posted pairs |
| `Aging` | pyluca/aging.py, plus `Ledger.get_aging` |
| `LedgerAccountants` | pyluca/ledger_accountant.py |
| `Accountants` | pyluca/accountant.py |
| `Recon` | pyluca/recon.py |
| `Balances` | pyluca/balances.py |

Stateful code keeps its form:

- `AmountCounter`, `Journal`, `AgingState`, `LedgerAccountant`,
  `Accountant` and the balance frame are classes whose methods change
  their fields.
- Each method is proved against a value-level function. Examples:
  - `PayCounters` against `PayFrom`, the pay loop on bucket values;
  - `GetAccountAging` against `AccountAging`;
  - `ReconcileLedger` against `Reconciled`.
- Lemmas then prove what the source promises about those functions.

## Model

| member | source | states |
|---|---|---|
| AccountConfig.LookupBalanceType | pyluca/ledger_accountant.py:20-21 | The balance-type lookup succeeds exactly for an account whose type is configured. An unknown account fails with UnknownAccount; an unknown type fails with UnknownAccountType. |
| AccountConfig.RecordNarration | pyluca/accountant.py:30-32 | The posted narration is the rule's narration, a space and the note. With metadata it is followed by ` ##<meta>##`; without metadata it is exactly that prefix. |
| RoundOff.MaxFloat | pyluca/round_off.py:1-5 | 1 / 10^PRECISION_ZERO is 1/1000. |
| RoundOff.Zeroed | pyluca/round_off.py:4-9 | Strictly inside (-1/1000, 1/1000) the result is 0. At or beyond either end the amount comes back unchanged. The result is always 0 or the amount. |
| RoundOff.ZeroedIdempotent | pyluca/round_off.py:4-9 | zeroed(zeroed(x)) == zeroed(x). |
| RoundOff.ZeroedOdd | pyluca/round_off.py:5-9 | zeroed(-x) == -zeroed(x). |
| Counters.NewCounter | pyluca/amount_counter.py:28-32 | A new counter (total > 1e-6, nothing paid, no payments) is Sound and not paid. |
| Counters.Balance | pyluca/amount_counter.py:48-53 | The balance is never negative. It is 0 exactly when total − paid <= 1e-6, and otherwise equals total − paid. `is_paid` (Settled) is a balance of 0. |
| Counters.Increase | pyluca/amount_counter.py:34-35 | `add` of a non-negative amount never lowers the balance. A positive amount on an open counter raises the balance by exactly that amount. The paid amount and the payments stay. |
| Counters.ApplyPayment | pyluca/amount_counter.py:37-46 | Paying fails with NegativePayment exactly when the amount is negative. |
| Counters.PaidDate | pyluca/amount_counter.py:55-58 | An open counter gives None. A paid counter gives the last payment's date, or IndexError (NoPayments) when it has no payments. |
| Counters.PayConserves | pyluca/amount_counter.py:40-46 | The applied part is min(balance, amount). Applied plus remainder equals the amount. The remainder lies in [0, amount]. The total is unchanged and the counter is never overpaid. |
| Counters.PayRecordsOnePayment | pyluca/amount_counter.py:40-46 | An effective payment appends exactly one AccountPayment(applied, date) and returns it. An applicable amount of 0 leaves the counter unchanged and returns (None, amount). |
| Counters.PayRemainderMeansSettled | pyluca/amount_counter.py:40-53 | A positive remainder means the counter is now paid. Paying a paid counter changes nothing. Paying an open counter that stays open leaves no remainder. |
| Counters.PayKeepsSound | pyluca/amount_counter.py:37-46 | Paying keeps Sound: payments sum to the paid amount, each payment is positive, paid <= total, and a counter without payments is open. |
| Counters.IncreaseKeepsSound | pyluca/amount_counter.py:34-35 | Adding a non-negative amount keeps the counter Sound and touches only the total. Adding more than 1e-6 to a paid counter reopens it. |
| Counters.SoundPaidDate | pyluca/amount_counter.py:52-58 | A Sound counter that is paid has a payment, so get_paid_date never fails on it and returns the last payment's date. |
| Counters.AmountCounter.constructor | pyluca/amount_counter.py:28-32 | The counter starts with total_amount, nothing paid and no payments. |
| Counters.AmountCounter.Copy | pyluca/aging.py:58 | A deep copy of a counter has the same contents. |
| Counters.AmountCounter.Add | pyluca/amount_counter.py:34-35 | `add` raises the total and changes nothing else. |
| Counters.AmountCounter.Pay | pyluca/amount_counter.py:37-46 | A negative amount fails with the counter unchanged. Otherwise the new fields and the returned (payment, remainder) are those of ApplyPayment. |
| Counters.AmountCounter.GetBalance | pyluca/amount_counter.py:48-50 | Never negative. It is 0 exactly when total_amount − paid_amount <= 1e-6, and otherwise equals that difference. |
| Counters.AmountCounter.IsPaid | pyluca/amount_counter.py:52-53 | Paid exactly when the balance is 0, that is when total_amount − paid_amount <= 1e-6. |
| Counters.AmountCounter.GetPaidDate | pyluca/amount_counter.py:55-58 | None while open. Once paid, the last payment's date, or NoPayments (the IndexError) when there is none. |
| Counters.AmountCounter.GetPaidAmount | pyluca/amount_counter.py:60-61 | For a Sound counter, the sum of the payments, never above the total. |
| Journals.MaxDate | pyluca/journal.py:27 | The result is the date of some entry, and no entry is later. |
| Journals.MaxDateOfOrdered | pyluca/journal.py:27-34 | For dates in order, the watermark is the last entry's date. |
| Journals.Journal.constructor | pyluca/journal.py:25-27 | `Journal()` is empty with no watermark. |
| Journals.Journal.FromEntries | pyluca/journal.py:25-27 | `Journal(entries)` keeps the list unchecked and sets the watermark to its latest date. |
| Journals.Journal.AddEntry | pyluca/journal.py:29-34 | The append succeeds exactly when there is no watermark or the date is at or after it. A backdated entry fails with entries and watermark unchanged. Success appends one entry at the end and moves the watermark to its date. The watermark never decreases. Tracked and date order are preserved. |
| Ledgers.AccountSums | pyluca/ledger.py:11-21 | The sums behind get_account_dr, get_account_cr and get_account_balance (AccountDr, AccountCr, AccountBalance). A journal with no entry for the account gives 0 for all three. Non-negative debits (credits) give a non-negative debit (credit) sum. A DEBIT-type balance is debits − credits, any other is credits − debits. |
| Ledgers.DrCrAppend | pyluca/ledger.py:11-15 | Debit and credit sums of a concatenation are the sums of its parts. |
| Ledgers.BalanceAppend | pyluca/ledger.py:17-21 | The balance over appended entries is the old balance plus theirs. |
| Ledgers.BalanceAppendEntry | pyluca/ledger.py:17-21 | One appended entry changes a balance by exactly its signed contribution: dr − cr for a DEBIT account, cr − dr otherwise, 0 for other accounts. |
| Ledgers.OtherAccountsUnchanged | pyluca/ledger.py:11-21 | Entries for other accounts leave a balance unchanged. |
| Ledgers.PairedTotals | pyluca/accountant.py:25-26 | A journal of debit/credit pairs has equal total debits and total credits. |
| Ledgers.PairedNetsToZero | pyluca/ledger.py:11-15 | Over a journal of pairs between listed accounts, debits minus credits summed over all accounts is 0. |
| Ledgers.SidesAreNet | pyluca/ledger.py:17-21 | The DEBIT-type balances less the CREDIT-type balances equal the summed dr − cr. |
| Ledgers.DoubleEntry | pyluca/ledger.py:17-21 | For pairs between configured accounts, the DEBIT-type balances sum to the CREDIT-type balances. |
| Ledgers.SidesByType | pyluca/ledger.py:17-21 | When ASSET and EXPENSE are DEBIT types, INCOME and LIABILITY are CREDIT types, and every account summed has one of these four types, each side's balance sum is the sum of its two types' balances. Further types may be configured. |
| Ledgers.AccountingEquation | pyluca/ledger.py:17-21 | When the four reference types are configured and every account has one of them, ASSET = INCOME + LIABILITY − EXPENSE over any journal of pairs. |
| Ledgers.PostPairShape | pyluca/accountant.py:14-26 | What PostPair, the entry list after Accountant.enter_journal, is. It keeps the journal paired, numbered and within the listed accounts. It adds equal debit and credit totals, adds 0 or 2 entries, and keeps the earlier entries. |
| Ledgers.PostPairBalance | pyluca/ledger_accountant.py:23-33 | Posting a pair changes the debited account's balance by +amount if DEBIT-type, else −amount. It changes the credited account's balance by +amount if CREDIT-type, else −amount. Other balances are unchanged. |
| LedgerAccountants.Debited | pyluca/ledger_accountant.py:23-27 | The debited account's running balance moves by DrDelta; no other account's changes. |
| LedgerAccountants.Credited | pyluca/ledger_accountant.py:29-33 | The credited account's running balance moves by CrDelta; no other account's changes. |
| LedgerAccountants.AgreesInitially | pyluca/ledger_accountant.py:13-18 | An empty journal with no balances and an empty sheet is in agreement. |
| LedgerAccountants.PostKeepsAgreement | pyluca/ledger_accountant.py:49-57 | After a pair between configured accounts, the running balances still equal the ledger balances. The sheet gains one row per leg, each holding the balances after it. |
| LedgerAccountants.LedgerAccountant.constructor | pyluca/ledger_accountant.py:13-18 | The accountant starts with no balances and an empty sheet. Over an empty journal it is Consistent. |
| LedgerAccountants.LedgerAccountant.BookDebit | pyluca/ledger_accountant.py:23-36 | An unknown debit account (or type) fails with the lookup's error and nothing changed. Otherwise the balances become Debited, and one sheet row for the entry holds them. |
| LedgerAccountants.LedgerAccountant.BookCredit | pyluca/ledger_accountant.py:29-36 | An unknown credit account (or type) fails with the lookup's error and nothing changed. Otherwise the balances become Credited, and one sheet row for the entry holds them. |
| LedgerAccountants.LedgerAccountant.EnterJournal | pyluca/ledger_accountant.py:38-57 | The journal's entries and watermark, the balances, the sheet and the outcome are exactly what Enter gives from the books before the call. A successful call keeps the accountant Consistent. |
| LedgerAccountants.EnterCases | pyluca/ledger_accountant.py:38-57 | What Enter, enter_journal on the books as a value, means case by case. A zero amount and a backdated date change nothing. Otherwise the watermark becomes the date, and the debit leg (sl_no n, debiting the amount) is appended. The credit leg (sl_no n+1, crediting the amount) follows unless the debit account is unknown. The call succeeds exactly when both accounts are configured. Then the two balances move by DrDelta and CrDelta, no other balance changes, and two sheet rows hold the balances after each leg. An unknown debit account leaves balances and sheet alone. An unknown credit account leaves only the debit side booked. |
| LedgerAccountants.EnterKeepsAgreement | pyluca/ledger_accountant.py:38-57 | A successful Enter from books that agree with the ledger gives books that still agree. |
| LedgerAccountants.LedgerAccountant.Record | pyluca/ledger_accountant.py:59-71 | An unknown rule fails with nothing changed. An amount <= 0 changes nothing. Otherwise it is enter_journal with the rule's accounts and RecordNarration. |
| LedgerAccountants.LedgerAccountant.Adjust | pyluca/ledger_accountant.py:73-74 | The books change as Enter gives for a posting narrated 'Reconcile adjust'. A successful call keeps the accountant Consistent. |
| LedgerAccountants.LedgerAccountant.GetAccountBalance | pyluca/ledger_accountant.py:76-77 | An account never posted to reads 0. In a consistent accountant a configured account's running balance equals the ledger balance. |
| LedgerAccountants.LedgerAccountant.GetBalances | pyluca/ledger_accountant.py:79-80 | In a consistent accountant every configured running balance equals the ledger balance. |
| LedgerAccountants.LedgerAccountant.GetBalanceSheet | pyluca/ledger_accountant.py:85-86 | In a consistent accountant there is one row per entry. Row i holds the ledger balances of the first i+1 entries, and the last row holds the current balances. |
| LedgerAccountants.LedgerAccountant.ConsistentIsBalanced | pyluca/ledger_accountant.py:49-57 | The journal of a consistent accountant has equal total debits and credits. |
| LedgerAccountants.LedgerAccountant.GetAging | pyluca/ledger_accountant.py:82-83 | Agrees with LedgerAging, the aging of the whole journal as of its last entry's date; an empty journal fails with EmptyJournal. The returned ages are the resulting buckets in order, with their dates, counters and metadata. |
| LedgerAccountants.LedgerAccountant.GetAccountTypeBalance | pyluca/ledger_accountant.py:98-104 | The loop sums the running balances of the accounts of the given type not excluded. In a consistent accountant with known types that is the ledger TypeSum. |
| LedgerAccountants.RunningTypeSumIsLedger | pyluca/ledger_accountant.py:98-104 | Running balances that agree with the ledger give the ledger's per-type sum. |
| Accountants.Accountant.constructor | pyluca/accountant.py:9-12 | The accountant holds the journal, the configuration and the key. |
| Accountants.Accountant.EnterJournal | pyluca/accountant.py:14-26 | Zero is a no-op. Otherwise the debit leg (sl_no = old length) and the credit leg (old length + 1) are appended with the index. max_date is not updated. |
| Accountants.Accountant.Record | pyluca/accountant.py:28-41 | Fails exactly on an unknown rule, with the journal unchanged. An amount <= 0 changes nothing. Otherwise the pair is posted with RecordNarration and the key. max_date is untouched. |
| Accountants.Accountant.Adjust | pyluca/accountant.py:43-44 | The pair narrated 'Reconcile adjust' under the accountant's key. |
| Aging.PayFromShape | pyluca/aging.py:31-43 | PayFrom is the pay loop of `__pay_counters` on bucket values. Paying changes no bucket's charge, no bucket's place and no bucket before the start index. |
| Aging.PayFromConserves | pyluca/aging.py:31-43 | Paid amounts plus the remainder equal what was paid before plus the amount. A non-negative amount leaves a remainder in [0, amount]. An amount <= 0 changes nothing. |
| Aging.PayFromSettles | pyluca/aging.py:37-43 | A positive remainder means every bucket from the start is paid. |
| Aging.PayFromKeepsOrder | pyluca/aging.py:37-42 | Paying from the first open bucket keeps every counter Sound and keeps FIFO order: no later bucket is paid while an earlier one is open. |
| Aging.Step | pyluca/aging.py:66-80 | One entry fails exactly when its positive amount is in (0, 1e-6], with CounterTooSmall. |
| Aging.StepFacts | pyluca/aging.py:70-80 | One entry appends exactly the charge of a positive amount. Paid plus excess grows by the negative amount. The account is kept and sl_no becomes the entry's. |
| Aging.OpenedKeepsOrder | pyluca/aging.py:70-78 | From an Ordered state, a newly opened bucket keeps every counter Sound and the FIFO order. |
| Aging.StepKeepsOrder | pyluca/aging.py:66-80 | One entry, with any amounts, keeps the state Ordered: Sound counters, FIFO order, and a positive excess only when every bucket is paid. |
| Aging.StepKeepsWellAged | pyluca/aging.py:66-80 | With a non-negative paying amount, one entry also keeps the excess >= 0, so the state stays WellAged. |
| Aging.NegativeChargeDeparts | pyluca/aging.py:67-80 | A negative amount on the side that opens buckets opens none. What the buckets still owe then moves only by the paying side, not by the entry's ledger effect. |
| Aging.FoldFailsIff | pyluca/aging.py:66-80 | Fold is the entry loop on values. It fails exactly when some entry is too small for a counter, and then with CounterTooSmall. |
| Aging.FoldStopsAt | pyluca/aging.py:66-80 | A too-small entry anywhere makes the whole loop fail. |
| Aging.FoldAppend | pyluca/aging.py:66-80 | Folding a concatenation is folding the second part from the first part's state. |
| Aging.FoldCharges | pyluca/aging.py:66-81 | A successful loop appends one bucket per positive amount, in list order, after the existing ones. It keeps the account and ends with the last entry's sl_no. |
| Aging.FoldConserves | pyluca/aging.py:66-80 | Total paid plus excess grows by exactly the sum of negative amounts processed. The state stays Ordered for any entries, and WellAged on non-negative entries. |
| Aging.FoldMatchesLedger | pyluca/aging.py:66-80 | For one configured account's non-negative entries, what the buckets still owe less the excess moves by the ledger balance of those entries. |
| Aging.SidesMatchLedger | pyluca/aging.py:67-69 | The positive side is cr for a CREDIT account and dr otherwise. Charges less negative amounts equal the ledger balance. |
| Aging.FilterMembers | pyluca/aging.py:53-56 | Filter is the list comprehension over `should_entry_applied` (Applies). It keeps exactly the entries dated on or before as_of, for the account, and past the checkpoint's sl_no. |
| Aging.FilterAppend | pyluca/aging.py:56 | The filter keeps list order: filtering a concatenation concatenates the filtered parts. |
| Aging.FilterAccount | pyluca/aging.py:53-56 | Every filtered entry belongs to the account. |
| Aging.FilterIncreasing | pyluca/aging.py:56 | Filtering keeps serial numbers increasing. |
| Aging.FilterNoneAbove | pyluca/aging.py:54 | A checkpoint at or above every sl_no selects nothing. |
| Aging.FilterPastLast | pyluca/aging.py:54 | A checkpoint at or past the last selected entry selects nothing more. |
| Aging.FilterAbove | pyluca/aging.py:54 | A checkpoint below every sl_no filters nothing out. |
| Aging.AccountAging | pyluca/aging.py:46-81 | A checkpoint for another account fails with AccountMismatch. An unknown account fails with UnknownAccount. |
| Aging.AccountAgingFails | pyluca/aging.py:62-80 | For a configured account and a matching checkpoint, the call fails exactly when a selected entry is too small for a counter. |
| Aging.FromScratch | pyluca/aging.py:46-81 | A first call opens one bucket per positive amount in list order and ends Ordered. Over non-negative entries it also ends WellAged, and what the buckets still owe, less the excess, equals the ledger balance of the selected entries. |
| Aging.FirstCall | pyluca/aging.py:58-60 | Without a checkpoint the fold starts from (account, no buckets, excess 0, sl_no −1). |
| Aging.SeenFilteredOut | pyluca/aging.py:53-80 | With increasing sl_no, the returned state's sl_no filters out everything the call saw. It is the sl_no of an entry, or −1 when nothing was selected. |
| Aging.RerunSkipsSeen | pyluca/aging.py:53-80 | For entries in increasing sl_no, calling again with the state a first call returned, over the same entries, returns that state. |
| Aging.ResumeMatchesOneShot | pyluca/aging.py:46-81 | For increasing non-negative sl_no, resuming from a prefix's state over all entries equals one call over all entries. |
| Aging.LedgerAgingCoversAccount | pyluca/ledger.py:23-24 | LedgerAging is get_aging on values. Over a journal in date order, its cut-off at the last entry's date keeps exactly the account's entries. With non-negative amounts the result is WellAged, and what its buckets still owe, less the excess, is the account's ledger balance over the whole journal. |
| Aging.FilterKeepsBalance | pyluca/aging.py:53-56 | When every entry of the account is dated on or before the cut-off, the selected entries carry the account's whole ledger balance. |
| Aging.LedgerAgingDropsLaterDated | pyluca/ledger.py:23-24 | Out of date order the cut-off drops entries: an entry dated 5, listed before the last entry dated 3, is left out. |
| Aging.AgingState.constructor | pyluca/aging.py:24-28 | The state holds the four given fields. |
| Aging.OpenBucket | pyluca/aging.py:70-78 | Appends one entry whose new counter is for the positive amount. Nothing else changes. |
| Aging.AgeEntry | pyluca/aging.py:66-80 | One loop pass on the mutable state: fails exactly as Step does, otherwise the new state is Step's. |
| Aging.PayCounters | pyluca/aging.py:31-43 | The counters after the while loop and the returned remainder are exactly PayFrom from bucket 0. |
| Aging.AgeEntries | pyluca/aging.py:66-80 | The loop on the mutable state fails exactly as Fold does, otherwise ends in Fold's state. |
| Aging.DeepCopy | pyluca/aging.py:58 | The copy is a fresh state with fresh, distinct counters and the same contents. |
| Aging.GetAccountAging | pyluca/aging.py:46-81 | Fails exactly when AccountAging on the checkpoint's old contents fails, with the same error. On success the state is fresh and equals AccountAging's result. The returned ages are its buckets in order: same count, and each with the bucket's date, counter contents and metadata. |
| Aging.GetAging | pyluca/ledger.py:23-24 | Agrees with LedgerAging: an empty journal fails with EmptyJournal; otherwise it is the aging as of the last entry's date. The ages are the resulting buckets, as in GetAccountAging. |
| Recon.IsMatching | pyluca/recon.py:8-17 | The loop with early return yields true exactly when every configured account has equal balances in both journals and RECONCILE_CONTROL is 0 in each. |
| Recon.MatchingSymmetricSelf | pyluca/recon.py:8-17 | Matching (`_is_matching` on values) does not depend on the order of the two journals. A journal matches itself exactly when its control account is at 0. |
| Recon.Correction | pyluca/recon.py:27-35 | A pass adds no entries or one pair. |
| Recon.AdjustedBalance | pyluca/recon.py:28-35 | Adjusting a non-control account gives it its current balance, whichever side its type is on, and leaves other non-control accounts unchanged. |
| Recon.ReconciledBalances | pyluca/recon.py:27-35 | After the loop every listed non-control account has its current balance, and every other account keeps its closed balance. |
| Recon.AdjustedIsCorrection | pyluca/recon.py:27-35 | Adjusted is one loop pass on values. While the account's balance is still its original closed one, a pass appends that account's correcting pair. |
| Recon.AdjustedPaired | pyluca/recon.py:32-35 | An adjustment keeps the closed journal paired and within the configured accounts. |
| Recon.ReconciledSelf | pyluca/recon.py:27-35 | Reconciling a journal against itself posts nothing. |
| Recon.ReconciledIsCorrections | pyluca/recon.py:27-35 | Reconciled is the loop on values. It appends one correcting pair per non-control account whose balances differ, in the configuration's order. Each difference is taken against the closed journal on entry. |
| Recon.NextKeepsAgreement | pyluca/recon.py:27-35 | A pass for another account keeps the balances settled so far. |
| Recon.ReconciledPaired | pyluca/recon.py:27-35 | The reconciled journal is still paired and within the configured accounts. |
| Recon.SameBalanceSameNet | pyluca/ledger.py:17-21 | Two balances of the same account agree exactly when their debit − credit nets agree. |
| Recon.ReconcileMatches | pyluca/recon.py:27-36 | For paired journals over the configured accounts, with the current control balance 0, the reconciled journal matches the current one. The control account nets to 0 in both. |
| Recon.AdjustOne | pyluca/recon.py:28-35 | One pass: the control account is skipped; a zero difference posts nothing; otherwise the closed journal gets the adjustment on the side the account's type calls for. The current journal is unchanged. |
| Recon.AdjustAll | pyluca/recon.py:27-35 | The loop leaves the closed journal as Reconciled and the current journal unchanged. |
| Recon.ReconcileLedger | pyluca/recon.py:20-36 | Matching journals fail the opening assertion (AlreadyMatching) with nothing posted. Otherwise the closed journal becomes Reconciled and the current one is never changed. The closing assertion passes exactly when the journals now match, and fails otherwise (Unreconciled). For paired journals with current control 0 it passes. |
| Balances.Column | pyluca/balances.py:11-16 | The column has exactly one value per row. |
| Balances.DebitSide | pyluca/balances.py:6-9 | The account counts from the debit side exactly when it is configured with a DEBIT balance type. |
| Balances.SideBalanceIsLedger | pyluca/balances.py:6-16 | SideBalance counts the account's balance from one side. From the side of its balance type it is the ledger balance, and the two sides are negatives of each other. |
| Balances.ColumnSteps | pyluca/balances.py:13-16 | The column starts from 0 and moves by each row's amount. The amount is pos − neg, with pos the dr column for a debit-balance type and cr otherwise. A row for another account repeats the previous value. |
| Balances.ColumnIsLedgerBalance | pyluca/balances.py:11-17 | For a configured account, row i holds the ledger balance of rows 0..i. |
| Balances.AddAccountBalance | pyluca/balances.py:5-18 | An unknown account fails (KeyError) with the frame unchanged. Otherwise the loop writes the column, held as the side balance of each prefix, under the account's name. Rows and every other column are left as they were. |

## Left out

- Narration metadata: the regex match and `json.loads` in the aging loop are not modelled, nor the `json.dumps` in `record`. Aging reads metadata through a `MetaReader` parameter; `record` takes the metadata already serialised, as an `Option<string>`.
- `record`'s `if meta:` treats an empty dict as no metadata. The model's `Some` stands for a non-empty dict only.
- IEEE floating point: amounts are exact reals, and `1e-6` and `1/1000` are exact constants.
- Dates are integers; `datetime` is not modelled.
- `get_balance_sheet_csv` (CSV export through `StringIO`/`DictWriter`) is not modelled: it is formatting I/O.
- The balance-sheet rows are `SheetRow(entry, balances)`, not a flat dict merging the entry's fields with the balances. Keys that collide between the two are not modelled.
- `defaultdict(float)` reads are `Lookup`, which reads 0 for a missing account. The source's read inserts the key, and that insertion is not modelled.
- `add_account_balance`'s DataFrame is the `Frame` class: the rows as journal entries and the numeric columns as a map. Only the column written by the call is modelled.
- Aging.GetAccountAging: `state.account` is compared after the deep copy, as in the source. Only the caller's state is copied; entries the caller holds elsewhere are not modelled. The deep copy assumes the checkpoint's counters are distinct objects (`AgingState.Valid`), which every state the engine builds satisfies.
- Aging.AccountAging: the source looks the account's balance type up inside the entry loop. The model looks it up once before the loop when some entry is selected. Both fail with the same error on the same inputs, because the lookup does not depend on the entry.
- Values for shared objects: `Journal(entries)` keeps the caller's list, so later `add_entry` calls and `Accountant` appends change that list too. `get_balances` and `get_balance_sheet` return the accountant's live dict and list, which the caller can then change. The model passes values there; this sharing is not modelled.
- Negative amounts in aging: a negative amount on the side that opens buckets opens none (`positive_amount > 0` fails), so the aging then departs from the ledger (`NegativeChargeDeparts`). Owed moves by the ledger balance only over non-negative entries, which is why FoldMatchesLedger and the Owed part of FromScratch require them. The FIFO order holds for any amounts.
- The cut-off of `get_aging` is the last entry's date, so over a journal out of date order it leaves out later-dated entries listed earlier (`LedgerAgingDropsLaterDated`). `Journal(entries)` and `Accountant` both allow such journals.
- Aging.ResumeMatchesOneShot: stated for the same `as_of` on both calls and for entries in increasing serial-number order. Other orders are not covered.
- Recon.IsMatching: requires every account's type to be configured and `RECONCILE_CONTROL` to be an account. The source raises in `Ledger.get_account_balance` otherwise, possibly after an early `False`; those error paths are not modelled.
- Recon.ReconcileLedger: has the same requirement as IsMatching, for the same reason. The closing assertion is proved to pass for journals of pairs over the configured accounts whose current control balance is 0. It is not claimed beyond that.
- Config shape: dict access, attribute access and `debit_balance_account_types` are read as the same thing. An account type counts as debit-balance exactly when its configured balance type is `DEBIT`.
- pyluca/action.py (the event/action interpreter), pyluca/event.py (a plain record) and the schema loader in pyluca/account_config.py are not part of this model.
- Several tests disagree with the code and the model follows the code:
  - pyluca/tests/test_journal.py expects `Accountant` to move `max_date`;
  - pyluca/tests/test_round_off.py expects another `zeroed` threshold and a missing `round_off_amount`;
  - pyluca/tests/test_amount_counter.py passes a tolerance argument the constructor lacks;
  - pyluca/tests/test_accountant.py expects rounding no code performs.

/** Running balance columns: for one account, the balance after every row
    of a ledger frame, written into the frame as a column named after the
    account. */
module Balances {
  import opened Wrappers
  import opened AccountConfig
  import opened Journals
  import opened Ledgers

  /** A ledger table: one row per journal entry, plus named numeric columns. */
  class Frame {
    var rows: seq<JournalEntry>
    var columns: map<string, seq<real>>

    constructor (rows: seq<JournalEntry>)
      ensures this.rows == rows && columns == map[]
    {
      this.rows := rows;
      this.columns := map[];
    }
  }

  /** Whether the account's type is among the debit-balance types; an
      account type with no configured balance type counts as credit-side. */
  predicate DebitSide(cfg: Config, account: string)
    requires account in cfg.accounts
    ensures DebitSide(cfg, account) <==> Configured(cfg, account) && BalanceTypeOf(cfg, account) == DEBIT
  {
    cfg.accounts[account] in cfg.accountTypes && cfg.accountTypes[cfg.accounts[account]] == DEBIT
  }

  /** The balance of `account` over `rows` counted from the chosen side. */
  function SideBalance(rows: seq<JournalEntry>, account: string, debitSide: bool): (b: real)
  {
    if debitSide then AccountDr(rows, account) - AccountCr(rows, account)
    else AccountCr(rows, account) - AccountDr(rows, account)
  }

  /** The column: at row i, the side balance of the rows up to and including i. */
  function Column(rows: seq<JournalEntry>, account: string, debitSide: bool): (col: seq<real>)
    ensures |col| == |rows|
  {
    seq(|rows|, i requires 0 <= i < |rows| => SideBalance(rows[..i + 1], account, debitSide))
  }

  /** What one row adds to the running balance. */
  function RowAmount(row: JournalEntry, account: string, debitSide: bool): real
  {
    if row.account != account then 0.0
    else if debitSide then row.drAmount - row.crAmount
    else row.crAmount - row.drAmount
  }

  /** The column starts from 0 and moves by each row's amount: a row for
      another account repeats the value before it. */
  lemma ColumnSteps(rows: seq<JournalEntry>, account: string, debitSide: bool, i: nat)
    requires i < |rows|
    ensures Column(rows, account, debitSide)[i]
         == (if i == 0 then 0.0 else Column(rows, account, debitSide)[i - 1]) + RowAmount(rows[i], account, debitSide)
    ensures rows[i].account != account ==>
              Column(rows, account, debitSide)[i] == if i == 0 then 0.0 else Column(rows, account, debitSide)[i - 1]
  {
    var col := Column(rows, account, debitSide);
    var pre := rows[..i + 1];
    assert col[i] == SideBalance(pre, account, debitSide);
    assert pre[..i] == rows[..i];
    assert pre[i] == rows[i];
    assert AccountDr(pre, account) == AccountDr(rows[..i], account) + (if rows[i].account == account then rows[i].drAmount else 0.0);
    assert AccountCr(pre, account) == AccountCr(rows[..i], account) + (if rows[i].account == account then rows[i].crAmount else 0.0);
    if i == 0 {
      assert rows[..0] == [];
    } else {
      assert col[i - 1] == SideBalance(rows[..i], account, debitSide);
    }
  }

  /** Counted from the side of the account's balance type, the side balance
      is the ledger balance. */
  lemma SideBalanceIsLedger(cfg: Config, rows: seq<JournalEntry>, account: string)
    requires Configured(cfg, account)
    ensures SideBalance(rows, account, DebitSide(cfg, account)) == AccountBalance(cfg, rows, account)
    ensures SideBalance(rows, account, true) == -SideBalance(rows, account, false)
  {
  }

  /** For a configured account the column is the ledger balance after each row. */
  lemma ColumnIsLedgerBalance(cfg: Config, rows: seq<JournalEntry>, account: string, i: nat)
    requires Configured(cfg, account) && i < |rows|
    ensures Column(rows, account, DebitSide(cfg, account))[i] == AccountBalance(cfg, rows[..i + 1], account)
  {
  }

  /** `add_account_balance`: looks the account up, then accumulates the
      balance row by row and stores the column under the account's name,
      replacing any column of that name and leaving the rest alone. */
  method AddAccountBalance(cfg: Config, frame: Frame, account: string) returns (r: Outcome)
    modifies frame
    ensures frame.rows == old(frame.rows)
    ensures account !in cfg.accounts ==> r == Fail(UnknownAccount) && frame.columns == old(frame.columns)
    ensures account in cfg.accounts ==>
      r == Pass && frame.columns == old(frame.columns)[account := Column(frame.rows, account, DebitSide(cfg, account))]
  {
    if account !in cfg.accounts {
      return Fail(UnknownAccount);
    }
    var debitSide := DebitSide(cfg, account);
    var rows := frame.rows;
    var balance := 0.0;
    var balances: seq<real> := [];
    var i := 0;
    while i < |rows|
      invariant 0 <= i <= |rows|
      invariant balance == SideBalance(rows[..i], account, debitSide)
      invariant balances == Column(rows[..i], account, debitSide)
    {
      assert rows[..i + 1][..i] == rows[..i];
      if rows[i].account == account {
        if debitSide {
          balance := balance + rows[i].drAmount;
          balance := balance - rows[i].crAmount;
        } else {
          balance := balance + rows[i].crAmount;
          balance := balance - rows[i].drAmount;
        }
      }
      balances := balances + [balance];
      assert balances == Column(rows[..i + 1], account, debitSide) by {
        forall j | 0 <= j < i + 1
          ensures balances[j] == Column(rows[..i + 1], account, debitSide)[j]
        {
          assert rows[..i + 1][..j + 1] == rows[..j + 1];
          if j < i {
            assert rows[..i][..j + 1] == rows[..j + 1];
          }
        }
      }
      i := i + 1;
    }
    assert rows[..i] == rows;
    frame.columns := frame.columns[account := balances];
    return Pass;
  }
}

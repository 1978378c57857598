/** The account configuration: which type every account has, and which
    side (debit or credit) increases the balance of accounts of a type. */
module AccountConfig {
  import opened Wrappers

  datatype BalanceType = DEBIT | CREDIT

  /** A posting rule: a narration and the two accounts a recording debits and credits. */
  datatype Rule = Rule(narration: string, drAccount: string, crAccount: string)

  datatype ConfigData = ConfigData(
    accountTypes: map<string, BalanceType>,  // account type -> balance type
    accounts: map<string, string>,           // account -> account type
    accountNames: seq<string>,               // the accounts, in the configuration's own order
    rules: map<string, Rule>)

  /** The accounts are listed once each, in some order: what iterating a dictionary gives. */
  predicate Listed(c: ConfigData) {
    && (forall i, j :: 0 <= i < j < |c.accountNames| ==> c.accountNames[i] != c.accountNames[j])
    && (forall a :: a in c.accounts ==> a in c.accountNames)
    && (forall i :: 0 <= i < |c.accountNames| ==> c.accountNames[i] in c.accounts)
  }

  type Config = c: ConfigData | Listed(c) witness ConfigData(map[], map[], [], map[])

  /** An account whose type and whose type's balance type are both configured. */
  predicate Configured(cfg: Config, account: string) {
    account in cfg.accounts && cfg.accounts[account] in cfg.accountTypes
  }

  /** Every configured account has a configured type. */
  predicate TypesKnown(cfg: Config) {
    forall a :: a in cfg.accounts ==> cfg.accounts[a] in cfg.accountTypes
  }

  function BalanceTypeOf(cfg: Config, account: string): BalanceType
    requires Configured(cfg, account)
  {
    cfg.accountTypes[cfg.accounts[account]]
  }

  /** `get_balance_type`: the two dictionary lookups, each of which may fail. */
  function LookupBalanceType(cfg: Config, account: string): (r: Result<BalanceType>)
    ensures r.Success? <==> Configured(cfg, account)
    ensures r.Success? ==> r.value == BalanceTypeOf(cfg, account)
    ensures account !in cfg.accounts ==> r == Failure(UnknownAccount)
    ensures account in cfg.accounts && !Configured(cfg, account) ==> r == Failure(UnknownAccountType)
  {
    if account !in cfg.accounts then Failure(UnknownAccount)
    else if cfg.accounts[account] !in cfg.accountTypes then Failure(UnknownAccountType)
    else Success(cfg.accountTypes[cfg.accounts[account]])
  }

  /** The narration `record` posts: the rule's narration, a space and the
      note, then ` ##<meta>##` when metadata is given. `meta` stands for the
      metadata already serialised. */
  function RecordNarration(rule: Rule, note: string, meta: Option<string>): (n: string)
    ensures |n| >= |rule.narration| + 1 + |note|
    ensures n[..|rule.narration| + 1 + |note|] == rule.narration + " " + note
    ensures meta.None? ==> n == rule.narration + " " + note
    ensures meta.Some? ==> n[|rule.narration| + 1 + |note|..] == " ##" + meta.value + "##"
  {
    var narration := rule.narration + " " + note;
    if meta.Some? then narration + " ##" + meta.value + "##" else narration
  }
}

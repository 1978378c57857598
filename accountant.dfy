/** Accountant: posts debit/credit pairs by appending straight to the
    journal's entry list, with no watermark check and no running balances. */
module Accountants {
  import opened Wrappers
  import opened AccountConfig
  import opened Journals
  import opened Ledgers

  class Accountant {
    const journal: Journal
    const config: Config
    const key: string

    constructor (journal: Journal, config: Config, key: string)
      ensures this.journal == journal && this.config == config && this.key == key
    {
      this.journal := journal;
      this.config := config;
      this.key := key;
    }

    /** `enter_journal`: appends the pair numbered from the current length,
        tagged with `index`; the journal's watermark is left as it was. */
    method EnterJournal(drAccount: string, crAccount: string, amount: real, date: int, narration: string, index: string)
      modifies journal
      ensures journal.entries == PostPair(old(journal.entries), drAccount, crAccount, amount, date, narration, index)
      ensures journal.maxDate == old(journal.maxDate)
    {
      if amount == 0.0 {
        return;
      }
      journal.entries := journal.entries + [JournalEntry(|journal.entries|, drAccount, amount, 0.0, date, narration, index)];
      journal.entries := journal.entries + [JournalEntry(|journal.entries|, crAccount, 0.0, amount, date, narration, index)];
    }

    /** `record`: looks the rule up and posts a positive amount under the accountant's key. */
    method Record(ruleName: string, amount: real, date: int, note: string, meta: Option<string>) returns (r: Outcome)
      modifies journal
      ensures r.Fail? <==> ruleName !in config.rules
      ensures r.Fail? ==> r.error == UnknownRule && unchanged(journal)
      ensures r.Pass? && amount <= 0.0 ==> unchanged(journal)
      ensures r.Pass? && amount > 0.0 ==>
        var rule := config.rules[ruleName];
        journal.entries == PostPair(old(journal.entries), rule.drAccount, rule.crAccount, amount, date,
                                    RecordNarration(rule, note, meta), key)
        && journal.maxDate == old(journal.maxDate)
    {
      if ruleName !in config.rules {
        return Fail(UnknownRule);
      }
      var rule := config.rules[ruleName];
      var narration := RecordNarration(rule, note, meta);
      if amount > 0.0 {
        EnterJournal(rule.drAccount, rule.crAccount, amount, date, narration, key);
      }
      return Pass;
    }

    /** `adjust`: a posting narrated 'Reconcile adjust' under the accountant's key. */
    method Adjust(drAccount: string, crAccount: string, amount: real, date: int)
      modifies journal
      ensures journal.entries == PostPair(old(journal.entries), drAccount, crAccount, amount, date, ADJUST_NARRATION, key)
      ensures journal.maxDate == old(journal.maxDate)
    {
      EnterJournal(drAccount, crAccount, amount, date, ADJUST_NARRATION, key);
    }
  }
}

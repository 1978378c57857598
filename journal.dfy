/** The journal: an append-only list of entries with a `max_date`
    watermark that turns away backdated appends. */
module Journals {
  import opened Wrappers

  datatype JournalEntry = JournalEntry(
    slNo: int,
    account: string,
    drAmount: real,
    crAmount: real,
    date: int,
    narration: string,
    key: string)

  /** The latest date in a non-empty list of entries (Python's `max`). */
  function MaxDate(es: seq<JournalEntry>): (m: int)
    requires es != []
    ensures exists i :: 0 <= i < |es| && es[i].date == m
    ensures forall i :: 0 <= i < |es| ==> es[i].date <= m
  {
    if |es| == 1 then es[0].date
    else
      var rest := MaxDate(es[..|es| - 1]);
      if es[|es| - 1].date > rest then es[|es| - 1].date else rest
  }

  /** Each entry's serial number is its position. */
  predicate Numbered(es: seq<JournalEntry>) {
    forall i :: 0 <= i < |es| ==> es[i].slNo == i
  }

  /** Dates never go down along the list. */
  predicate DatesOrdered(es: seq<JournalEntry>) {
    forall i, j :: 0 <= i < j < |es| ==> es[i].date <= es[j].date
  }

  lemma MaxDateOfOrdered(es: seq<JournalEntry>)
    requires es != [] && DatesOrdered(es)
    ensures MaxDate(es) == es[|es| - 1].date
  {
  }

  class Journal {
    var entries: seq<JournalEntry>
    var maxDate: Option<int>

    /** `max_date` is the latest date of the entries, None when there are none. */
    ghost predicate Tracked()
      reads this
    {
      maxDate == if entries == [] then None else Some(MaxDate(entries))
    }

    /** `Journal()`: empty, no watermark. */
    constructor ()
      ensures entries == [] && maxDate == None
      ensures Tracked() && DatesOrdered(entries)
    {
      entries := [];
      maxDate := None;
    }

    /** `Journal(entries)`: keeps the list as given, unchecked, and sets the
        watermark to its latest date. */
    constructor FromEntries(entries: seq<JournalEntry>)
      ensures this.entries == entries
      ensures maxDate == if entries == [] then None else Some(MaxDate(entries))
      ensures Tracked()
    {
      this.entries := entries;
      this.maxDate := if entries == [] then None else Some(MaxDate(entries));
    }

    /** `add_entry`: a journal with no watermark takes the entry's date as
        its watermark; an entry dated before the watermark is refused and
        nothing changes; otherwise the entry goes at the end and becomes
        the watermark. */
    method AddEntry(entry: JournalEntry) returns (r: Outcome)
      modifies this
      ensures r.Pass? <==> (old(maxDate).None? || entry.date >= old(maxDate).value)
      ensures r.Fail? ==> r.error == BackdatedEntry && entries == old(entries) && maxDate == old(maxDate)
      ensures r.Pass? ==> entries == old(entries) + [entry] && maxDate == Some(entry.date)
      ensures old(maxDate).Some? ==> maxDate.Some? && maxDate.value >= old(maxDate).value
      ensures old(Tracked()) && r.Pass? ==> Tracked()
      ensures old(DatesOrdered(entries)) && old(Tracked()) ==> DatesOrdered(entries)
    {
      if maxDate.None? {
        maxDate := Some(entry.date);
      }
      if entry.date < maxDate.value {
        return Fail(BackdatedEntry);
      }
      entries := entries + [entry];
      maxDate := Some(entry.date);
      r := Pass;
      if old(Tracked()) {
        assert entries[..|entries| - 1] == old(entries);
      }
    }
  }
}

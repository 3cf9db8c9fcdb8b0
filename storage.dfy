/**
 * The entry store: one browser storage slot (key "wellness_entries") that holds the
 * whole list of daily entries. Every save reads the list, upserts by date and writes
 * the list back. The functions at module level are the list logic the store runs on
 * the loaded sequence; the class holds the slot itself.
 */
module Storage {
  import opened Wrappers
  import opened Wellness

  // ---------------------------------------------------------------------------
  // Lookup by date
  // ---------------------------------------------------------------------------

  /** Some entry of `entries` is dated `date`. */
  ghost predicate HasDate(entries: seq<DailyEntry>, date: Day) {
    exists k :: 0 <= k < |entries| && entries[k].date == date
  }

  /** At most one entry per date. */
  ghost predicate UniqueDates(entries: seq<DailyEntry>) {
    forall i, j :: 0 <= i < j < |entries| ==> entries[i].date != entries[j].date
  }

  /** `findIndex(e => e.date === date)`: the first position dated `date`, or -1. */
  function FindIndex(entries: seq<DailyEntry>, date: Day): (i: int)
    ensures -1 <= i < |entries|
    ensures i == -1 <==> !HasDate(entries, date)
    ensures 0 <= i ==> entries[i].date == date
    ensures forall k :: 0 <= k < i ==> entries[k].date != date
  {
    if entries == [] then -1
    else if entries[0].date == date then 0
    else
      var j := FindIndex(entries[1..], date);
      if j < 0 then -1 else j + 1
  }

  /** `find(e => e.date === date)`: the first entry dated `date`, if any. */
  function Find(entries: seq<DailyEntry>, date: Day): (r: Option<DailyEntry>)
    ensures r.None? <==> !HasDate(entries, date)
    ensures r.Some? ==> r.value.date == date && r.value == entries[FindIndex(entries, date)]
  {
    if entries == [] then None
    else if entries[0].date == date then Some(entries[0])
    else Find(entries[1..], date)
  }

  // ---------------------------------------------------------------------------
  // Upsert (the list that saveEntry writes back)
  // ---------------------------------------------------------------------------

  /** The first entry with the same date replaced by `entry`, or `entry` appended. */
  function Upsert(entries: seq<DailyEntry>, entry: DailyEntry): (r: seq<DailyEntry>)
    ensures entry in r
    ensures |r| == if HasDate(entries, entry.date) then |entries| else |entries| + 1
  {
    var i := FindIndex(entries, entry.date);
    if i >= 0 then
      assert entries[i := entry][i] == entry;
      entries[i := entry]
    else entries + [entry]
  }

  /** Reading back the date just saved gives exactly the saved entry (last write wins). */
  lemma UpsertThenFind(entries: seq<DailyEntry>, entry: DailyEntry)
    ensures Find(Upsert(entries, entry), entry.date) == Some(entry)
  {
    var i := FindIndex(entries, entry.date);
    var r := Upsert(entries, entry);
    var j := FindIndex(r, entry.date);
    if i >= 0 {
      assert r[i].date == entry.date;
      assert j == i;
    } else {
      assert r[|entries|].date == entry.date;
      assert j == |entries|;
    }
  }

  /** Saving never changes what a lookup of any other date returns. */
  lemma UpsertKeepsOtherDates(entries: seq<DailyEntry>, entry: DailyEntry, date: Day)
    requires date != entry.date
    ensures Find(Upsert(entries, entry), date) == Find(entries, date)
  {
    var r := Upsert(entries, entry);
    assert forall k :: 0 <= k < |entries| ==> (r[k].date == date <==> entries[k].date == date);
    assert forall k :: |entries| <= k < |r| ==> r[k].date != date;
    var i, j := FindIndex(entries, date), FindIndex(r, date);
    if i >= 0 {
      assert r[i].date == date;
      assert j == i;
    } else {
      assert !HasDate(r, date);
    }
  }

  /**
   * A date already present keeps the length; a new date adds exactly one entry, last.
   * Every position other than the replaced one keeps its entry.
   */
  lemma UpsertShape(entries: seq<DailyEntry>, entry: DailyEntry)
    ensures HasDate(entries, entry.date) ==> |Upsert(entries, entry)| == |entries|
    ensures !HasDate(entries, entry.date) ==>
              Upsert(entries, entry) == entries + [entry]
    ensures forall k :: 0 <= k < |entries| && k != FindIndex(entries, entry.date) ==>
              Upsert(entries, entry)[k] == entries[k]
  {
  }

  /** At most one entry per date stays true across a save. */
  lemma UpsertKeepsDatesUnique(entries: seq<DailyEntry>, entry: DailyEntry)
    requires UniqueDates(entries)
    ensures UniqueDates(Upsert(entries, entry))
  {
    var r := Upsert(entries, entry);
    var i := FindIndex(entries, entry.date);
    if i >= 0 {
      assert forall k :: 0 <= k < |r| ==> r[k].date == entries[k].date;
    } else {
      forall a, b | 0 <= a < b < |r| ensures r[a].date != r[b].date {
        if b == |entries| {
          assert r[a] == entries[a];
        }
      }
    }
  }

  // ---------------------------------------------------------------------------
  // The 30-day window: filter by cutoff, then a stable sort by date
  // ---------------------------------------------------------------------------

  /** `filter(e => e.date >= cutoff)`, keeping the stored order. */
  function Since(entries: seq<DailyEntry>, cutoff: Day): (r: seq<DailyEntry>)
    ensures forall e :: multiset(r)[e] == if e.date >= cutoff then multiset(entries)[e] else 0
  {
    if entries == [] then []
    else
      assert entries == [entries[0]] + entries[1..];
      (if entries[0].date >= cutoff then [entries[0]] else []) + Since(entries[1..], cutoff)
  }

  ghost predicate SortedByDate(entries: seq<DailyEntry>) {
    forall i, j :: 0 <= i < j < |entries| ==> entries[i].date <= entries[j].date
  }

  /** Inserts `x` before the first entry not dated earlier than it. */
  function InsertByDate(x: DailyEntry, sorted: seq<DailyEntry>): (r: seq<DailyEntry>)
    ensures multiset(r) == multiset(sorted) + multiset{x}
  {
    if sorted == [] || x.date <= sorted[0].date then [x] + sorted
    else
      assert sorted == [sorted[0]] + sorted[1..];
      [sorted[0]] + InsertByDate(x, sorted[1..])
  }

  /** Inserting into a date-ordered list keeps it date-ordered. */
  lemma {:induction false} InsertByDateSorted(x: DailyEntry, sorted: seq<DailyEntry>)
    requires SortedByDate(sorted)
    ensures SortedByDate(InsertByDate(x, sorted))
  {
    if sorted != [] && x.date > sorted[0].date {
      var tail := sorted[1..];
      assert SortedByDate(tail) by {
        forall i, j | 0 <= i < j < |tail| ensures tail[i].date <= tail[j].date {
          assert tail[i] == sorted[i + 1] && tail[j] == sorted[j + 1];
        }
      }
      InsertByDateSorted(x, tail);
      assert forall k :: 0 <= k < |tail| ==> sorted[0].date <= tail[k].date by {
        forall k | 0 <= k < |tail| ensures sorted[0].date <= tail[k].date {
          assert tail[k] == sorted[k + 1];
        }
      }
      InsertByDateBound(x, tail, sorted[0].date);
      var rest := InsertByDate(x, tail);
      var r := [sorted[0]] + rest;
      forall i, j | 0 <= i < j < |r| ensures r[i].date <= r[j].date {
        if i > 0 {
          assert r[i] == rest[i - 1] && r[j] == rest[j - 1];
        } else {
          assert r[j] == rest[j - 1];
        }
      }
    }
  }

  /** A lower bound on the dates of a list and of `x` bounds the list with `x` inserted. */
  lemma {:induction false} InsertByDateBound(x: DailyEntry, s: seq<DailyEntry>, low: Day)
    requires low <= x.date
    requires forall k :: 0 <= k < |s| ==> low <= s[k].date
    ensures forall k :: 0 <= k < |InsertByDate(x, s)| ==> low <= InsertByDate(x, s)[k].date
  {
    var r := InsertByDate(x, s);
    if s == [] || x.date <= s[0].date {
      forall k | 0 <= k < |r| ensures low <= r[k].date {
        if k > 0 {
          assert r[k] == s[k - 1];
        }
      }
    } else {
      var tail := s[1..];
      assert forall k :: 0 <= k < |tail| ==> low <= tail[k].date by {
        forall k | 0 <= k < |tail| ensures low <= tail[k].date {
          assert tail[k] == s[k + 1];
        }
      }
      InsertByDateBound(x, tail, low);
      var rest := InsertByDate(x, tail);
      forall k | 0 <= k < |r| ensures low <= r[k].date {
        if k > 0 {
          assert r[k] == rest[k - 1];
        }
      }
    }
  }

  /**
   * `sort((a, b) => a.date - b.date)`: the entries ordered by date. Each entry is
   * inserted in front of the equally dated ones that came after it, so the sort is
   * stable, as JavaScript's is.
   */
  function SortByDate(entries: seq<DailyEntry>): (r: seq<DailyEntry>)
    ensures multiset(r) == multiset(entries)
    ensures SortedByDate(r)
  {
    if entries == [] then []
    else
      assert entries == [entries[0]] + entries[1..];
      InsertByDateSorted(entries[0], SortByDate(entries[1..]));
      InsertByDate(entries[0], SortByDate(entries[1..]))
  }

  /**
   * The entries dated at or after `cutoff`, each as often as it is stored and no
   * others, in non-decreasing date order.
   */
  function Window(entries: seq<DailyEntry>, cutoff: Day): (r: seq<DailyEntry>)
    ensures SortedByDate(r)
    ensures forall e :: multiset(r)[e] == if e.date >= cutoff then multiset(entries)[e] else 0
  {
    SortByDate(Since(entries, cutoff))
  }

  /** An entry at two positions occurs at least twice. */
  lemma TwoPositions(s: seq<DailyEntry>, i: int, j: int)
    requires 0 <= i < j < |s| && s[i] == s[j]
    ensures multiset(s)[s[i]] >= 2
  {
    assert s == s[..j] + s[j..];
    assert s[i] in s[..j];
    assert s[j] in s[j..];
  }

  /** With one entry per date, no entry occurs twice. */
  lemma {:induction false} UniqueDatesNoRepeats(s: seq<DailyEntry>, e: DailyEntry)
    requires UniqueDates(s)
    ensures multiset(s)[e] <= 1
  {
    if s != [] {
      assert s == [s[0]] + s[1..];
      assert UniqueDates(s[1..]) by {
        forall a, b | 0 <= a < b < |s[1..]| ensures s[1..][a].date != s[1..][b].date {
          assert s[1..][a] == s[a + 1] && s[1..][b] == s[b + 1];
        }
      }
      UniqueDatesNoRepeats(s[1..], e);
      if s[0] == e {
        forall k | 0 <= k < |s[1..]| ensures s[1..][k] != e {
          assert s[1..][k] == s[k + 1];
        }
        assert e !in s[1..];
      }
    }
  }

  /** With one entry per date, the window is strictly ascending by date. */
  lemma WindowStrictlyAscending(entries: seq<DailyEntry>, cutoff: Day)
    requires UniqueDates(entries)
    ensures forall i, j :: 0 <= i < j < |Window(entries, cutoff)| ==>
              Window(entries, cutoff)[i].date < Window(entries, cutoff)[j].date
  {
    var w := Window(entries, cutoff);
    forall i, j | 0 <= i < j < |w| ensures w[i].date < w[j].date {
      var a, b := w[i], w[j];
      assert a in multiset(w) && b in multiset(w);
      assert a in multiset(entries) && b in multiset(entries);
      if a == b {
        TwoPositions(w, i, j);
        UniqueDatesNoRepeats(entries, a);
        assert false;
      }
      var p :| 0 <= p < |entries| && entries[p] == a;
      var q :| 0 <= q < |entries| && entries[q] == b;
      assert p != q;
      assert entries[p].date != entries[q].date;
    }
  }

  // ---------------------------------------------------------------------------
  // The storage slot
  // ---------------------------------------------------------------------------

  /** The browser storage slot: absent, or the list last written. */
  class EntryStore {
    var slot: Option<seq<DailyEntry>>

    /** A page load finds the slot as the last session left it. */
    constructor (saved: Option<seq<DailyEntry>>)
      ensures slot == saved
    {
      slot := saved;
    }

    /** `getEntries`: an absent slot reads as no entries. */
    function GetEntries(): seq<DailyEntry>
      reads this
    {
      match slot
      case None => []
      case Some(entries) => entries
    }

    /** `getEntryByDate`: the first stored entry with that date. */
    function GetEntryByDate(date: Day): (r: Option<DailyEntry>)
      reads this
      ensures r.None? <==> !HasDate(GetEntries(), date)
      ensures r.Some? ==> r.value.date == date && r.value in GetEntries()
      ensures r.Some? ==> r.value == GetEntries()[FindIndex(GetEntries(), date)]
    {
      Find(GetEntries(), date)
    }

    /** `getEntriesLast30Days`, with the moment thirty days ago given as `cutoff`. */
    function GetEntriesLast30Days(cutoff: Day): (r: seq<DailyEntry>)
      reads this
      ensures SortedByDate(r)
      ensures forall e :: multiset(r)[e] == if e.date >= cutoff then multiset(GetEntries())[e] else 0
    {
      Window(GetEntries(), cutoff)
    }

    /** `saveEntry`: load, replace the entry of the same date or append, write back. */
    method SaveEntry(entry: DailyEntry)
      modifies this
      ensures slot == Some(Upsert(old(GetEntries()), entry))
      ensures GetEntryByDate(entry.date) == Some(entry)
      ensures forall d :: d != entry.date ==> GetEntryByDate(d) == old(GetEntryByDate(d))
      ensures UniqueDates(old(GetEntries())) ==> UniqueDates(GetEntries())
    {
      var entries := GetEntries();
      var existingIndex := FindIndex(entries, entry.date);
      if existingIndex >= 0 {
        entries := entries[existingIndex := entry];
      } else {
        entries := entries + [entry];
      }
      slot := Some(entries);
      UpsertThenFind(old(GetEntries()), entry);
      forall d | d != entry.date
        ensures Find(entries, d) == Find(old(GetEntries()), d)
      {
        UpsertKeepsOtherDates(old(GetEntries()), entry, d);
      }
      if UniqueDates(old(GetEntries())) {
        UpsertKeepsDatesUnique(old(GetEntries()), entry);
      }
    }

    /** The "clear data" action: the slot's key is removed, so nothing is stored. */
    method Clear()
      modifies this
      ensures slot == None
      ensures GetEntries() == []
    {
      slot := None;
    }
  }
}

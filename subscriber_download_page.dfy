/**
 * The report download screen: the reports of the group named in the URL
 * (or a fallback list), a selection map keyed by report id, a two-stage
 * date-range filter (the date inputs, copied into the active bounds by the
 * search button), select-all over the rows the filter shows, the tri-state
 * header checkbox, and the batch download.
 */
module SubscriberDownloadPage {
  import opened Wrappers
  import opened Seqs

  datatype ReportStatus = Processed | Pending | Failed

  /** What `new Date(text)` yields for a `YYYY-MM-DD` text: a day number, or an invalid date. */
  datatype ParsedDate = Unparseable | DayNumber(day: int)

  /** A date field of the screen: empty (`''`), or holding a date text. */
  datatype DateField = Blank | Entered(date: ParsedDate)

  datatype Report = Report(
    id: int,
    rname: string,
    groupName: Option<string>,
    description: string,
    date: ParsedDate,
    status: ReportStatus,
    url: string)

  /** The outcome of the download button: the notice for an empty selection, or the count. */
  datatype DownloadOutcome = NothingSelected | Downloading(count: nat)

  const MsPerDay: int := 86400000

  /** The instant a day starts, in milliseconds: what `new Date(text)` gives for a date text. */
  function StartOfDay(day: int): int {
    day * MsPerDay
  }

  /** The last millisecond of a day: what `setHours(23, 59, 59, 999)` makes of the to-bound. */
  function EndOfDay(day: int): int {
    day * MsPerDay + MsPerDay - 1
  }

  /** The to-bound takes in the whole of its day, and nothing after it. */
  lemma EndOfDayInclusive(d: int, t: int)
    ensures StartOfDay(d) <= EndOfDay(t) <==> d <= t
  {
    if d > t {
      assert StartOfDay(d) - StartOfDay(t) == (d - t) * MsPerDay >= MsPerDay;
    } else {
      assert StartOfDay(t) - StartOfDay(d) == (t - d) * MsPerDay >= 0;
    }
  }

  lemma StartOfDayMonotone(d: int, f: int)
    ensures StartOfDay(d) >= StartOfDay(f) <==> d >= f
  {
    if d < f {
      assert StartOfDay(f) - StartOfDay(d) == (f - d) * MsPerDay >= MsPerDay;
    } else {
      assert StartOfDay(d) - StartOfDay(f) == (d - f) * MsPerDay >= 0;
    }
  }

  /** The predicate inside `filteredReports`, comparing instants as the screen does. */
  predicate ReportInRange(r: Report, from: DateField, to: DateField) {
    if from.Blank? && to.Blank? then true
    else
      match r.date
      case Unparseable => false
      case DayNumber(d) =>
        var instant := StartOfDay(d);
        && (match from
            case Blank => true
            case Entered(f) => f.DayNumber? && instant >= StartOfDay(f.day))
        && (match to
            case Blank => true
            case Entered(t) => t.DayNumber? && instant <= EndOfDay(t.day))
  }

  /**
   * The intended meaning of the date filter, in days: with no bound every
   * report passes; otherwise the report's date parses, every bound given
   * parses, and from <= date <= to.
   */
  ghost predicate InDayRange(r: Report, from: DateField, to: DateField) {
    (from.Blank? && to.Blank?) ||
    (&& r.date.DayNumber?
     && (from.Entered? ==> from.date.DayNumber? && from.date.day <= r.date.day)
     && (to.Entered? ==> to.date.DayNumber? && r.date.day <= to.date.day))
  }

  lemma ReportInRangeMeansInDayRange(r: Report, from: DateField, to: DateField)
    ensures ReportInRange(r, from, to) <==> InDayRange(r, from, to)
  {
    if r.date.DayNumber? {
      if from.Entered? && from.date.DayNumber? {
        StartOfDayMonotone(r.date.day, from.date.day);
      }
      if to.Entered? && to.date.DayNumber? {
        EndOfDayInclusive(r.date.day, to.date.day);
      }
    }
  }

  /** `filteredReports`: the reports whose date lies within the active bounds. */
  function FilterReports(reports: seq<Report>, from: DateField, to: DateField): (r: seq<Report>)
    ensures from.Blank? && to.Blank? ==> r == reports
    ensures IsSubsequence(r, reports)
    ensures forall x :: x in r <==> x in reports && InDayRange(x, from, to)
    ensures forall x :: multiset(r)[x] == if InDayRange(x, from, to) then multiset(reports)[x] else 0
  {
    var p := (x: Report) => ReportInRange(x, from, to);
    forall x: Report ensures p(x) <==> InDayRange(x, from, to) {
      ReportInRangeMeansInDayRange(x, from, to);
    }
    if from.Blank? && to.Blank? then
      FilterKeepsAll(reports, p);
      Filter(reports, p)
    else
      Filter(reports, p)
  }

  /** `REPORT_DATA_BY_GROUP[activeGroup] || FALLBACK_REPORTS`: the lookup never fails, it degrades. */
  function ReportsForGroup(catalog: map<string, seq<Report>>, fallback: seq<Report>, group: Option<string>)
    : (r: seq<Report>)
    ensures group.Some? && group.value in catalog ==> r == catalog[group.value]
    ensures group.None? || group.value !in catalog ==> r == fallback
  {
    if group.Some? && group.value in catalog then catalog[group.value] else fallback
  }

  /**
   * Which list the lookup resolved to: the catalog entry's key, or `None` for
   * the fallback list. The reset effect runs when this changes.
   */
  function ListKey(catalog: map<string, seq<Report>>, group: Option<string>): (k: Option<string>)
    ensures k.Some? <==> group.Some? && group.value in catalog
    ensures k.Some? ==> k == group
  {
    if group.Some? && group.value in catalog then group else None
  }

  /** Lists resolved through the same key are the same list. */
  lemma SameKeySameList(catalog: map<string, seq<Report>>, fallback: seq<Report>, g1: Option<string>, g2: Option<string>)
    requires ListKey(catalog, g1) == ListKey(catalog, g2)
    ensures ReportsForGroup(catalog, fallback, g1) == ReportsForGroup(catalog, fallback, g2)
  {
  }

  /** The ids of a list of reports. */
  function IdsOf(reports: seq<Report>): set<int> {
    set k | 0 <= k < |reports| :: reports[k].id
  }

  /** `selections[id]`, where a missing entry reads as unselected. */
  predicate IsSelected(selections: map<int, bool>, id: int) {
    id in selections && selections[id]
  }

  /** `a` and `b` agree on `id`: both lack it, or both map it to the same flag. */
  predicate SameAt(a: map<int, bool>, b: map<int, bool>, id: int) {
    (id in a <==> id in b) && (id in a ==> a[id] == b[id])
  }

  /** `handleSelect(id)`: flips one entry; a missing entry becomes selected. */
  function Toggle(selections: map<int, bool>, id: int): (r: map<int, bool>)
    ensures id in r && r[id] == !IsSelected(selections, id)
    ensures selections.Keys <= r.Keys
    ensures forall other :: other != id ==> SameAt(r, selections, other)
  {
    selections[id := !IsSelected(selections, id)]
  }

  /** Toggling twice leaves every entry reading as it did. */
  lemma ToggleTwice(selections: map<int, bool>, id: int, other: int)
    ensures IsSelected(Toggle(Toggle(selections, id), id), other) == IsSelected(selections, other)
  {
  }

  /** The selection map after select-all: every row's id set to `checked`, other entries kept. */
  function AssignAll(selections: map<int, bool>, rows: seq<Report>, checked: bool): (r: map<int, bool>)
    ensures r.Keys == selections.Keys + IdsOf(rows)
    ensures forall i :: 0 <= i < |rows| ==> rows[i].id in r && r[rows[i].id] == checked
    ensures forall id :: id !in IdsOf(rows) ==> SameAt(r, selections, id)
  {
    var rowFlags := map id | id in IdsOf(rows) :: checked;
    assert forall i :: 0 <= i < |rows| ==> rows[i].id in IdsOf(rows);
    selections + rowFlags
  }

  /** One more row adds its id to the row ids. */
  lemma IdsOfStep(rows: seq<Report>, i: int)
    requires 0 <= i < |rows|
    ensures IdsOf(rows[..i + 1]) == IdsOf(rows[..i]) + {rows[i].id}
  {
    var before, after := rows[..i], rows[..i + 1];
    forall x | x in IdsOf(after) ensures x in IdsOf(before) + {rows[i].id} {
      var k :| 0 <= k < |after| && after[k].id == x;
      if k < i {
        assert before[k] == after[k];
      }
    }
    forall x | x in IdsOf(before) ensures x in IdsOf(after) {
      var k :| 0 <= k < |before| && before[k].id == x;
      assert after[k] == before[k];
    }
    assert after[i] == rows[i];
  }

  /** Select-all over one more row is one more map update. */
  lemma AssignAllStep(selections: map<int, bool>, rows: seq<Report>, i: int, checked: bool)
    requires 0 <= i < |rows|
    ensures AssignAll(selections, rows[..i + 1], checked) == AssignAll(selections, rows[..i], checked)[rows[i].id := checked]
  {
    IdsOfStep(rows, i);
    var ids, x := IdsOf(rows[..i]), rows[i].id;
    var lhs := selections + map id | id in ids + {x} :: checked;
    var rhs := (selections + map id | id in ids :: checked)[x := checked];
    assert lhs == rhs;
  }

  /** The `forEach` of select-all: sets each row's entry in turn, starting from `current`. */
  method SetEach(current: map<int, bool>, rows: seq<Report>, checked: bool) returns (next: map<int, bool>)
    ensures next == AssignAll(current, rows, checked)
  {
    next := current;
    for i := 0 to |rows|
      invariant next == AssignAll(current, rows[..i], checked)
    {
      AssignAllStep(current, rows, i, checked);
      next := next[rows[i].id := checked];
    }
    assert rows[..|rows|] == rows;
  }

  /** `selectedCount`: the filtered rows that are selected. */
  function SelectedCount(filtered: seq<Report>, selections: map<int, bool>): (n: nat)
    ensures n <= |filtered|
  {
    |Filter(filtered, (r: Report) => IsSelected(selections, r.id))|
  }

  /** `allFilteredSelected`: the header checkbox is checked. */
  function AllFilteredSelected(filtered: seq<Report>, selections: map<int, bool>): (b: bool)
    ensures b <==> |filtered| > 0 && forall i :: 0 <= i < |filtered| ==> IsSelected(selections, filtered[i].id)
  {
    FilterFullLength(filtered, (r: Report) => IsSelected(selections, r.id));
    SelectedCount(filtered, selections) == |filtered| && |filtered| > 0
  }

  /** `isIndeterminate`: the header checkbox shows a dash. */
  function IsIndeterminate(filtered: seq<Report>, selections: map<int, bool>): (b: bool)
    ensures b <==>
      && (exists i :: 0 <= i < |filtered| && IsSelected(selections, filtered[i].id))
      && (exists i :: 0 <= i < |filtered| && !IsSelected(selections, filtered[i].id))
  {
    FilterFullLength(filtered, (r: Report) => IsSelected(selections, r.id));
    FilterNonEmpty(filtered, (r: Report) => IsSelected(selections, r.id));
    var n := SelectedCount(filtered, selections);
    n > 0 && n < |filtered|
  }

  /** The header checkbox is never both checked and indeterminate. */
  lemma HeaderFlagsExclusive(filtered: seq<Report>, selections: map<int, bool>)
    ensures !(AllFilteredSelected(filtered, selections) && IsIndeterminate(filtered, selections))
  {
  }

  /** After select-all over a non-empty filtered view the header is fully checked; after clearing it, it is empty. */
  lemma SelectAllSetsHeader(rows: seq<Report>, selections: map<int, bool>, checked: bool)
    ensures var after := AssignAll(selections, rows, checked);
            && (checked && |rows| > 0 ==> AllFilteredSelected(rows, after) && !IsIndeterminate(rows, after))
            && (!checked ==> SelectedCount(rows, after) == 0 && !AllFilteredSelected(rows, after))
  {
    var after := AssignAll(selections, rows, checked);
    if !checked {
      FilterNonEmpty(rows, (r: Report) => IsSelected(after, r.id));
    }
  }

  /** `selectedForDownload.length`: selected reports of the whole group, shown or not. */
  function DownloadCount(reports: seq<Report>, selections: map<int, bool>): nat {
    SelectedCount(reports, selections)
  }

  /** The download counts every selected row that the filter shows, and rows it hides as well. */
  lemma DownloadCountCoversFiltered(reports: seq<Report>, from: DateField, to: DateField, selections: map<int, bool>)
    ensures SelectedCount(FilterReports(reports, from, to), selections) <= DownloadCount(reports, selections)
    ensures from.Blank? && to.Blank? ==>
      SelectedCount(FilterReports(reports, from, to), selections) == DownloadCount(reports, selections)
  {
    var p := (x: Report) => ReportInRange(x, from, to);
    var q := (r: Report) => IsSelected(selections, r.id);
    FilterOfFilterLength(reports, p, q);
    assert FilterReports(reports, from, to) == Filter(reports, p);
  }

  /** The download screen's component state; each method is one of its handlers. */
  class DownloadPage {
    const catalog: map<string, seq<Report>>
    const fallback: seq<Report>
    var activeGroup: Option<string>
    var selections: map<int, bool>
    var inputFrom: DateField
    var inputTo: DateField
    var filterFrom: DateField
    var filterTo: DateField

    /** `reportsForGroup`. */
    function Reports(): seq<Report>
      reads this
    {
      ReportsForGroup(catalog, fallback, activeGroup)
    }

    /** `filteredReports`. */
    function Filtered(): seq<Report>
      reads this
    {
      FilterReports(Reports(), filterFrom, filterTo)
    }

    /** The clear button is disabled when all four date fields are empty. */
    function ClearDisabled(): bool
      reads this
    {
      inputFrom.Blank? && inputTo.Blank? && filterFrom.Blank? && filterTo.Blank?
    }

    /** The state after the group-change effect has run: nothing selected, no dates. */
    ghost predicate FreshForGroup()
      reads this
    {
      && selections.Keys == IdsOf(Reports())
      && (forall id :: id in selections ==> !selections[id])
      && ClearDisabled()
    }

    /** Mounting with the `group` query parameter; the effect runs once on mount. */
    constructor (catalog: map<string, seq<Report>>, fallback: seq<Report>, group: Option<string>)
      ensures this.catalog == catalog && this.fallback == fallback && activeGroup == group
      ensures FreshForGroup()
    {
      this.catalog := catalog;
      this.fallback := fallback;
      activeGroup := group;
      selections := map[];
      inputFrom, inputTo, filterFrom, filterTo := Blank, Blank, Blank, Blank;
      new;
      ResetForGroup();
    }

    /** The group-change effect: every report of the resolved list unselected, all dates cleared. */
    method ResetForGroup()
      modifies this
      ensures activeGroup == old(activeGroup)
      ensures FreshForGroup()
    {
      var reports := Reports();
      var initial: map<int, bool> := map[];
      for i := 0 to |reports|
        invariant initial.Keys == IdsOf(reports[..i])
        invariant forall id :: id in initial ==> !initial[id]
        modifies {}
      {
        assert IdsOf(reports[..i + 1]) == IdsOf(reports[..i]) + {reports[i].id} by {
          assert forall k :: 0 <= k < i ==> reports[..i + 1][k] == reports[..i][k];
        }
        initial := initial[reports[i].id := false];
      }
      assert reports[..|reports|] == reports;
      selections := initial;
      inputFrom, inputTo := Blank, Blank;
      filterFrom, filterTo := Blank, Blank;
    }

    /** A new `group` parameter; the effect runs only if the lookup resolves to a different list. */
    method ChangeGroup(group: Option<string>)
      modifies this
      ensures activeGroup == group
      ensures ListKey(catalog, group) != ListKey(catalog, old(activeGroup)) ==> FreshForGroup()
      ensures ListKey(catalog, group) == ListKey(catalog, old(activeGroup)) ==>
        && Reports() == old(Reports())
        && selections == old(selections)
        && inputFrom == old(inputFrom) && inputTo == old(inputTo)
        && filterFrom == old(filterFrom) && filterTo == old(filterTo)
    {
      var changed := ListKey(catalog, group) != ListKey(catalog, activeGroup);
      if !changed {
        SameKeySameList(catalog, fallback, group, activeGroup);
      }
      activeGroup := group;
      if changed {
        ResetForGroup();
      }
    }

    /** `handleInputChange`: the field named `from` or `to` takes the new value; other names do nothing. */
    method SetInput(name: string, value: DateField)
      modifies this
      ensures inputFrom == (if name == "from" then value else old(inputFrom))
      ensures inputTo == (if name != "from" && name == "to" then value else old(inputTo))
      ensures filterFrom == old(filterFrom) && filterTo == old(filterTo)
      ensures selections == old(selections) && activeGroup == old(activeGroup)
    {
      if name == "from" {
        inputFrom := value;
      } else if name == "to" {
        inputTo := value;
      }
    }

    /** `handleSearch`: the inputs become the active bounds. */
    method Search()
      modifies this
      ensures filterFrom == old(inputFrom) && filterTo == old(inputTo)
      ensures inputFrom == old(inputFrom) && inputTo == old(inputTo)
      ensures selections == old(selections) && activeGroup == old(activeGroup)
    {
      filterFrom := inputFrom;
      filterTo := inputTo;
    }

    /** `handleClearFilters`: all four date fields emptied, so the whole list shows again. */
    method ClearFilters()
      modifies this
      ensures ClearDisabled() && Filtered() == Reports()
      ensures selections == old(selections) && activeGroup == old(activeGroup)
    {
      inputFrom, inputTo := Blank, Blank;
      filterFrom, filterTo := Blank, Blank;
    }

    /** `handleSelect(id)`. */
    method Select(id: int)
      modifies this
      ensures selections == Toggle(old(selections), id)
      ensures activeGroup == old(activeGroup)
      ensures inputFrom == old(inputFrom) && inputTo == old(inputTo)
      ensures filterFrom == old(filterFrom) && filterTo == old(filterTo)
    {
      selections := Toggle(selections, id);
    }

    /** `handleSelectAll(checked)`: the rows the filter shows take `checked`, the others keep theirs. */
    method SelectAll(checked: bool)
      modifies this
      ensures selections == AssignAll(old(selections), old(Filtered()), checked)
      ensures activeGroup == old(activeGroup)
      ensures inputFrom == old(inputFrom) && inputTo == old(inputTo)
      ensures filterFrom == old(filterFrom) && filterTo == old(filterTo)
    {
      var next := SetEach(selections, Filtered(), checked);
      selections := next;
    }

    /** `handleDownloadZip`: reports the count of selected reports of the group; changes nothing. */
    method DownloadZip() returns (outcome: DownloadOutcome)
      ensures DownloadCount(Reports(), selections) == 0 ==> outcome == NothingSelected
      ensures DownloadCount(Reports(), selections) > 0 ==> outcome == Downloading(DownloadCount(Reports(), selections))
    {
      var count := DownloadCount(Reports(), selections);
      if count > 0 {
        outcome := Downloading(count);
      } else {
        outcome := NothingSelected;
      }
    }
  }
}

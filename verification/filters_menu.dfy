/** The filter set edited by src/components/menu/FiltersMenu.jsx: toggling
    statuses and priorities, the single-field setters, reset and apply. */
module FiltersMenu {
  import Seqs

  /** The selected filters. There is no setter for `dateField`. */
  datatype Filters = Filters(
    status: seq<string>,
    priority: seq<string>,
    dateRange: string,
    dateField: string,
    sortBy: string,
    sortOrder: string,
    assignedByManager: bool)

  /** `initialFilters`. */
  const InitialFilters: Filters :=
    Filters([], [], "", "created_at", "created_at", "asc", false)

  /** The menu: the filters being edited and whether the menu is open. */
  datatype MenuState = MenuState(filters: Filters, isOpen: bool)

  const InitialMenu: MenuState := MenuState(InitialFilters, false)

  /** `values.filter((x) => x !== value)`. */
  function RemoveAll(values: seq<string>, value: string): (kept: seq<string>)
    ensures |kept| <= |values|
    ensures forall v :: v in kept <==> v in values && v != value
  {
    Seqs.Filter(values, (v: string) => v != value)
  }

  /** `handleStatusChange`: checking appends the value at the end, unchecking
      removes every occurrence; no other field changes. */
  function ToggleStatus(f: Filters, value: string, checked: bool): (r: Filters)
    ensures checked ==> r.status == f.status + [value]
    ensures !checked ==> value !in r.status && forall v :: v != value ==> (v in r.status <==> v in f.status)
    ensures r.(status := f.status) == f
  {
    f.(status := if checked then f.status + [value] else RemoveAll(f.status, value))
  }

  /** `handlePriorityChange`: the same toggle, on the priority list only. */
  function TogglePriority(f: Filters, value: string, checked: bool): (r: Filters)
    ensures checked ==> r.priority == f.priority + [value]
    ensures !checked ==> value !in r.priority && forall v :: v != value ==> (v in r.priority <==> v in f.priority)
    ensures r.(priority := f.priority) == f
  {
    f.(priority := if checked then f.priority + [value] else RemoveAll(f.priority, value))
  }

  /** A click on a status checkbox. The box is rendered `checked` when the
      list includes the value, so the event reports the opposite: a click on
      an absent value checks it and a click on a present value unchecks it. */
  function ClickStatus(f: Filters, value: string): (r: Filters)
    ensures value in r.status <==> value !in f.status
    ensures forall v :: v != value ==> (v in r.status <==> v in f.status)
    ensures r.(status := f.status) == f
  {
    ToggleStatus(f, value, value !in f.status)
  }

  /** A click on a priority checkbox, bound the same way. */
  function ClickPriority(f: Filters, value: string): (r: Filters)
    ensures value in r.priority <==> value !in f.priority
    ensures forall v :: v != value ==> (v in r.priority <==> v in f.priority)
    ensures r.(priority := f.priority) == f
  {
    TogglePriority(f, value, value !in f.priority)
  }

  /** `handleDateRangeChange`: overwrites the date range and nothing else. */
  function SetDateRange(f: Filters, value: string): (r: Filters)
    ensures r.dateRange == value && r.(dateRange := f.dateRange) == f
  {
    f.(dateRange := value)
  }

  /** `handleSortByChange`: overwrites the sort key and nothing else. */
  function SetSortBy(f: Filters, value: string): (r: Filters)
    ensures r.sortBy == value && r.(sortBy := f.sortBy) == f
  {
    f.(sortBy := value)
  }

  /** `handleSortOrderChange`: overwrites the sort order and nothing else. */
  function SetSortOrder(f: Filters, value: string): (r: Filters)
    ensures r.sortOrder == value && r.(sortOrder := f.sortOrder) == f
  {
    f.(sortOrder := value)
  }

  /** `handleAssignFilterChange`: overwrites the "assigned by you" flag and
      nothing else. */
  function SetAssignedByManager(f: Filters, checked: bool): (r: Filters)
    ensures r.assignedByManager == checked && r.(assignedByManager := f.assignedByManager) == f
  {
    f.(assignedByManager := checked)
  }

  /** `resetFilters`: back to the initial filters, whatever was selected. */
  function Reset(f: Filters): (r: Filters)
    ensures r.status == [] && r.priority == [] && r.dateRange == ""
    ensures r.dateField == "created_at" && r.sortBy == "created_at" && r.sortOrder == "asc"
    ensures !r.assignedByManager
  {
    InitialFilters
  }

  lemma ResetIdempotent(f: Filters)
    ensures Reset(Reset(f)) == Reset(f) == InitialFilters
  {
  }

  /** `toggleMenu`. */
  function ToggleMenu(m: MenuState): (r: MenuState)
    ensures r.isOpen == !m.isOpen && r.filters == m.filters
  {
    m.(isOpen := !m.isOpen)
  }

  /** `applyFilters`: hands the current filters to the parent unchanged and
      closes the menu; the filters stay selected. */
  function Apply(m: MenuState): (r: (Filters, MenuState))
    ensures r.0 == m.filters
    ensures r.1.filters == m.filters && !r.1.isOpen
  {
    (m.filters, m.(isOpen := false))
  }

  // ----------------------------------------------------------- reachability

  /** The edits a user can make in the open menu. */
  datatype FilterEvent =
    | StatusClicked(value: string)
    | PriorityClicked(value: string)
    | DateRangeChosen(value: string)
    | SortByChosen(value: string)
    | SortOrderChosen(value: string)
    | AssignedToggled(checked: bool)
    | ResetClicked

  function Step(f: Filters, e: FilterEvent): Filters
  {
    match e
    case StatusClicked(v) => ClickStatus(f, v)
    case PriorityClicked(v) => ClickPriority(f, v)
    case DateRangeChosen(v) => SetDateRange(f, v)
    case SortByChosen(v) => SetSortBy(f, v)
    case SortOrderChosen(v) => SetSortOrder(f, v)
    case AssignedToggled(c) => SetAssignedByManager(f, c)
    case ResetClicked => Reset(f)
  }

  /** The filters after a sequence of edits, first edit first. */
  function Run(f: Filters, events: seq<FilterEvent>): Filters
    decreases |events|
  {
    if events == [] then f else Run(Step(f, events[0]), events[1..])
  }

  /** What holds of every filter set the menu can produce: neither list has a
      duplicate, and the date field is still "created_at". */
  predicate WellFormed(f: Filters)
  {
    Seqs.NoDuplicates(f.status) && Seqs.NoDuplicates(f.priority) && f.dateField == "created_at"
  }

  /** Appending a value that is absent keeps a list duplicate-free. */
  lemma AppendAbsentNoDuplicates(values: seq<string>, value: string)
    requires Seqs.NoDuplicates(values) && value !in values
    ensures Seqs.NoDuplicates(values + [value])
  {
    var r := values + [value];
    forall i, j | 0 <= i < j < |r| ensures r[i] != r[j] {
      if j == |values| {
        assert r[i] == values[i];
      }
    }
  }

  lemma StepWellFormed(f: Filters, e: FilterEvent)
    requires WellFormed(f)
    ensures WellFormed(Step(f, e))
  {
    match e
    case StatusClicked(v) =>
      if v in f.status {
        Seqs.FilterNoDuplicates(f.status, (x: string) => x != v);
      } else {
        AppendAbsentNoDuplicates(f.status, v);
      }
    case PriorityClicked(v) =>
      if v in f.priority {
        Seqs.FilterNoDuplicates(f.priority, (x: string) => x != v);
      } else {
        AppendAbsentNoDuplicates(f.priority, v);
      }
    case _ =>
  }

  lemma {:induction false} RunWellFormed(f: Filters, events: seq<FilterEvent>)
    requires WellFormed(f)
    ensures WellFormed(Run(f, events))
    decreases |events|
  {
    if events != [] {
      StepWellFormed(f, events[0]);
      RunWellFormed(Step(f, events[0]), events[1..]);
    }
  }

  /** Every filter set reachable from the initial one is well formed. */
  lemma ReachableFiltersWellFormed(events: seq<FilterEvent>)
    ensures WellFormed(Run(InitialFilters, events))
  {
    RunWellFormed(InitialFilters, events);
  }

  /** Checking an absent status and then unchecking it gives back the
      original filters. */
  lemma ClickStatusTwiceRestores(f: Filters, value: string)
    requires value !in f.status
    ensures ClickStatus(ClickStatus(f, value), value) == f
  {
    RemoveAppendedAbsent(f.status, value);
  }

  /** The same for priorities. */
  lemma ClickPriorityTwiceRestores(f: Filters, value: string)
    requires value !in f.priority
    ensures ClickPriority(ClickPriority(f, value), value) == f
  {
    RemoveAppendedAbsent(f.priority, value);
  }

  lemma RemoveAppendedAbsent(values: seq<string>, value: string)
    requires value !in values
    ensures RemoveAll(values + [value], value) == values
  {
    var keep := (v: string) => v != value;
    Seqs.FilterAppend(values, [value], keep);
    Seqs.FilterAllKept(values, keep);
    assert Seqs.Filter([value], keep) == [];
  }
}

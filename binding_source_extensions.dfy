/**
 * The bound data source the extension methods work on: a binding source whose
 * data source may be missing, the table behind it with its case-sensitivity flag,
 * and the table's default view with its row filter. Every filtering extension sets
 * the table's flag and then the default view's filter; with no data source the
 * first dereference throws and nothing changes.
 */
module BindingSourceExtensions {
  import opened Outcomes
  import opened FilterText

  /** What the filtering extensions can change: the table's flag and the default view's filter. */
  datatype View = View(caseSensitive: bool, rowFilter: string)

  /** Setting the flag and then the filter, on a source in state `before` (None: no data source). */
  function AfterSetFilter(before: Option<View>, caseSensitive: bool, filter: string): (Option<View>, Outcome) {
    if before.None? then (None, Threw(NullReferenceException))
    else (Some(View(caseSensitive, filter)), Completed)
  }

  /** Emptying the filter; the flag stays as it was. */
  function AfterClear(before: Option<View>): (Option<View>, Outcome) {
    match before
    case None => (None, Threw(NullReferenceException))
    case Some(v) => (Some(v.(rowFilter := "")), Completed)
  }

  /** The condition overload: a condition that matches no case leaves the state alone. */
  function AfterCondition(before: Option<View>, field: string, value: string, condition: FilterCondition,
                          caseSensitive: bool): (Option<View>, Outcome) {
    match ConditionFilter(field, value, condition)
    case None => (before, Completed)
    case Some(filter) => AfterSetFilter(before, caseSensitive, filter)
  }

  /** Clearing twice has the effect of clearing once. */
  lemma ClearIdempotent(before: Option<View>)
    ensures AfterClear(AfterClear(before).0) == AfterClear(before)
  {
  }

  /** Select hits no case: it neither throws nor touches the flag or the filter. */
  lemma SelectHitsNoCase(before: Option<View>, field: string, value: string, caseSensitive: bool)
    ensures AfterCondition(before, field, value, Select, caseSensitive) == (before, Completed)
  {
  }

  /**
   * Having a data source is what decides whether an extension completes: setting a
   * filter and clearing both throw exactly when there is none.
   */
  lemma HasDataIffCompletes(before: Option<View>, caseSensitive: bool, filter: string)
    ensures before.Some? <==> AfterSetFilter(before, caseSensitive, filter).1 == Completed
    ensures before.Some? <==> AfterClear(before).1 == Completed
    ensures before.None? ==> AfterSetFilter(before, caseSensitive, filter).0 == before == AfterClear(before).0
  {
  }

  /** A filter over a table; a table's default view is one of these. */
  class DataView {
    const table: DataTable
    var rowFilter: string

    constructor (table: DataTable)
      ensures this.table == table && rowFilter == ""
    {
      this.table := table;
      rowFilter := "";
    }
  }

  class DataTable {
    var caseSensitive: bool
    var defaultView: DataView?

    /** The default view exists and is over this table. */
    ghost predicate Valid()
      reads this
    {
      defaultView != null && defaultView.table == this
    }

    constructor ()
      ensures Valid() && fresh(defaultView)
      ensures !caseSensitive && defaultView.rowFilter == ""
    {
      caseSensitive := false;
      defaultView := null;
      new;
      defaultView := new DataView(this);
    }
  }

  class BindingSource {
    var dataSource: DataTable?

    ghost predicate Valid()
      reads this, dataSource
    {
      dataSource != null ==> dataSource.Valid()
    }

    /** The objects the filtering extensions may change: the table and its default view. */
    ghost function Footprint(): set<object>
      reads this, dataSource
    {
      if dataSource == null then {}
      else if dataSource.defaultView == null then {dataSource}
      else {dataSource, dataSource.defaultView}
    }

    /** The abstract state: None without a data source. */
    ghost function Snapshot(): Option<View>
      requires Valid()
      reads this, dataSource, Footprint()
    {
      if dataSource == null then None
      else Some(View(dataSource.caseSensitive, dataSource.defaultView.rowFilter))
    }

    /** The source still holds the same table, and the table the same default view. */
    twostate predicate Kept()
      reads this, dataSource
    {
      dataSource == old(dataSource) &&
      (dataSource != null ==> dataSource.defaultView == old(dataSource.defaultView))
    }

    constructor ()
      ensures dataSource == null && Valid()
    {
      dataSource := null;
    }

    /** A data source is set exactly when the default view can be reached, so exactly when the filtering extensions complete. */
    function HasData(): (r: bool)
      reads this, dataSource, Footprint()
      ensures r <==> dataSource != null
      ensures Valid() ==> (r <==> DataView().Ok?) && (r <==> Snapshot().Some?)
    {
      dataSource != null
    }

    /** The bound table, null exactly when there is no data; its default view is the one DataView gives. */
    function DataTable(): (t: DataTable?)
      reads this, dataSource
      ensures t == dataSource
      ensures Valid() ==> (t != null <==> HasData())
      ensures Valid() && t != null ==> t.Valid() && DataView().Ok? && t.defaultView == DataView().value
    {
      dataSource
    }

    /** The table's default view; without a data source the cast value is null and reading it throws. */
    function DataView(): (r: Result<DataView>)
      requires Valid()
      reads this, dataSource
      ensures r.Ok? <==> dataSource != null
      ensures r.Ok? ==> r.value == dataSource.defaultView && r.value.table == dataSource
    {
      if dataSource == null then Failed(NullReferenceException)
      else var view: DataView := dataSource.defaultView; Ok(view)
    }

    /** The two assignments every filtering extension performs: the flag, then the filter. */
    method SetCaseAndFilter(caseSensitive: bool, filter: string) returns (outcome: Outcome)
      requires Valid()
      modifies Footprint()
      ensures Valid() && Kept()
      ensures (Snapshot(), outcome) == AfterSetFilter(old(Snapshot()), caseSensitive, filter)
    {
      var table := DataTable();
      if table == null {
        return Threw(NullReferenceException);
      }
      table.caseSensitive := caseSensitive;
      var view := DataView();
      var defaultView := view.value;
      defaultView.rowFilter := filter;
      outcome := Completed;
    }

    /** The overload taking a condition: dispatches to the matching LIKE extension on the escaped value. */
    method RowFilterWithCondition(field: string, value: string, condition: FilterCondition,
                                  caseSensitive: bool := false) returns (outcome: Outcome)
      requires Valid()
      modifies Footprint()
      ensures Valid() && Kept()
      ensures (Snapshot(), outcome) == AfterCondition(old(Snapshot()), field, value, condition, caseSensitive)
    {
      match condition
      case StartsWith =>
        outcome := RowFilterStartsWith(field, EscapeApostrophe(value), caseSensitive);
      case Contains =>
        outcome := RowFilterContains(field, EscapeApostrophe(value), caseSensitive);
      case EndsWith =>
        outcome := RowFilterEndsWith(field, EscapeApostrophe(value), caseSensitive);
      case Select =>
        outcome := Completed;
    }

    /** The overload without a condition: an equality filter. */
    method RowFilter(field: string, value: string, caseSensitive: bool := false) returns (outcome: Outcome)
      requires Valid()
      modifies Footprint()
      ensures Valid() && Kept()
      ensures (Snapshot(), outcome) == AfterSetFilter(old(Snapshot()), caseSensitive, EqualsFilter(field, value))
    {
      outcome := SetCaseAndFilter(caseSensitive, EqualsFilter(field, value));
    }

    /**
     * Sets the shared default view exactly as RowFilter does, and also returns a new
     * view over the same table carrying the same filter. The new view is not among
     * the objects later extensions change.
     */
    method RowFilterNewView(field: string, value: string, caseSensitive: bool := false) returns (r: Result<DataView>)
      requires Valid()
      modifies Footprint()
      ensures Valid() && Kept()
      ensures (Snapshot(), r.ToOutcome()) == AfterSetFilter(old(Snapshot()), caseSensitive, EqualsFilter(field, value))
      ensures r.Ok? ==> fresh(r.value) && r.value !in Footprint()
      ensures r.Ok? ==> r.value.table == dataSource && r.value.rowFilter == dataSource.defaultView.rowFilter
    {
      var outcome := SetCaseAndFilter(caseSensitive, EqualsFilter(field, value));
      if outcome.Threw? {
        return Failed(outcome.exception);
      }
      var view := new DataView(DataTable());
      view.rowFilter := EqualsFilter(field, value);
      r := Ok(view);
    }

    method RowFilterTwoConditions(field1: string, value1: string, field2: string, value2: string,
                                  caseSensitive: bool := false) returns (outcome: Outcome)
      requires Valid()
      modifies Footprint()
      ensures Valid() && Kept()
      ensures (Snapshot(), outcome)
           == AfterSetFilter(old(Snapshot()), caseSensitive, TwoEqualsFilter(field1, value1, field2, value2))
    {
      outcome := SetCaseAndFilter(caseSensitive, TwoEqualsFilter(field1, value1, field2, value2));
    }

    method RowFilterContains(field: string, value: string, caseSensitive: bool := false) returns (outcome: Outcome)
      requires Valid()
      modifies Footprint()
      ensures Valid() && Kept()
      ensures (Snapshot(), outcome) == AfterSetFilter(old(Snapshot()), caseSensitive, ContainsFilter(field, value))
    {
      outcome := SetCaseAndFilter(caseSensitive, ContainsFilter(field, value));
    }

    method RowFilterStartsWith(field: string, value: string, caseSensitive: bool := false) returns (outcome: Outcome)
      requires Valid()
      modifies Footprint()
      ensures Valid() && Kept()
      ensures (Snapshot(), outcome) == AfterSetFilter(old(Snapshot()), caseSensitive, StartsWithFilter(field, value))
    {
      outcome := SetCaseAndFilter(caseSensitive, StartsWithFilter(field, value));
    }

    method RowFilterEndsWith(field: string, value: string, caseSensitive: bool := false) returns (outcome: Outcome)
      requires Valid()
      modifies Footprint()
      ensures Valid() && Kept()
      ensures (Snapshot(), outcome) == AfterSetFilter(old(Snapshot()), caseSensitive, EndsWithFilter(field, value))
    {
      outcome := SetCaseAndFilter(caseSensitive, EndsWithFilter(field, value));
    }

    /** Stores the caller's filter verbatim: no escaping. */
    method RowFilterFreeForm(filter: string, caseSensitive: bool := false) returns (outcome: Outcome)
      requires Valid()
      modifies Footprint()
      ensures Valid() && Kept()
      ensures (Snapshot(), outcome) == AfterSetFilter(old(Snapshot()), caseSensitive, filter)
    {
      outcome := SetCaseAndFilter(caseSensitive, filter);
    }

    /** Empties the default view's filter and leaves the table's flag alone. */
    method RowFilterClear() returns (outcome: Outcome)
      requires Valid()
      modifies Footprint()
      ensures Valid() && Kept()
      ensures (Snapshot(), outcome) == AfterClear(old(Snapshot()))
    {
      var view := DataView();
      if view.Failed? {
        return Threw(view.exception);
      }
      var defaultView := view.value;
      defaultView.rowFilter := "";
      outcome := Completed;
    }
  }

  /** Omitting the case-sensitivity argument means case-insensitive matching. */
  method DefaultIsCaseInsensitive(source: BindingSource, field: string, value: string) returns (outcome: Outcome)
    requires source.Valid() && source.HasData()
    modifies source.Footprint()
    ensures source.Valid() && outcome == Completed
    ensures source.Snapshot().value.caseSensitive == false
  {
    outcome := source.RowFilterStartsWith(field, value);
  }
}

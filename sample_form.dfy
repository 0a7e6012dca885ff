/**
 * The sample form's event handlers: a text box, a combo box of filter conditions
 * and a button, all acting on one binding source through the extension methods.
 * The widgets are plain fields; what each handler does is given by an Action,
 * and Perform says what an action does to the bound view.
 */
module SampleForm {
  import opened Outcomes
  import opened FilterText
  import opened BindingSourceExtensions

  /** The column the form filters on. */
  const FilteredField: string := "ProductName"

  /** The characters .NET counts as white space (Char.IsWhiteSpace). */
  predicate IsWhiteSpace(c: char) {
    c == ' ' || '\t' <= c <= '\r' || c == '\U{85}' || c == '\U{A0}' || c == '\U{1680}'
    || '\U{2000}' <= c <= '\U{200A}' || c == '\U{2028}' || c == '\U{2029}' || c == '\U{202F}'
    || c == '\U{205F}' || c == '\U{3000}'
  }

  /** string.IsNullOrWhiteSpace for a text box's text, which is never null. */
  predicate IsNullOrWhiteSpace(s: string)
    ensures s == [] ==> IsNullOrWhiteSpace(s)
    ensures IsNullOrWhiteSpace(s) && s != [] ==> IsWhiteSpace(s[0]) && IsNullOrWhiteSpace(s[1..])
  {
    forall i :: 0 <= i < |s| ==> IsWhiteSpace(s[i])
  }

  datatype Key = Enter | OtherKey(code: int)

  /** What a handler decides to do with the bound view. */
  datatype Action = Ignore | Clear | Apply(condition: FilterCondition, text: string)

  /** Search while typing: any non-empty text is applied, empty text clears. */
  function TextChangedAction(selected: FilterCondition, text: string): Action {
    if selected == Select then Ignore
    else if |text| > 0 then Apply(selected, text)
    else Clear
  }

  /** Text that is empty or only white space clears; anything else is applied. */
  function FilterOperationAction(selected: FilterCondition, text: string): Action {
    if selected == Select then Ignore
    else if IsNullOrWhiteSpace(text) then Clear
    else Apply(selected, text)
  }

  function KeyDownAction(key: Key, selected: FilterCondition, text: string): Action {
    if key == Enter then FilterOperationAction(selected, text) else Ignore
  }

  /** The effect of an action on the bound view; the form always filters case-insensitively. */
  function Perform(before: Option<View>, action: Action): (Option<View>, Outcome) {
    match action
    case Ignore => (before, Completed)
    case Clear => AfterClear(before)
    case Apply(condition, text) => AfterCondition(before, FilteredField, text, condition, false)
  }

  /** With Select chosen, no handler changes the bound view or throws. */
  lemma SelectChangesNothing(before: Option<View>, key: Key, text: string)
    ensures Perform(before, TextChangedAction(Select, text)) == (before, Completed)
    ensures Perform(before, FilterOperationAction(Select, text)) == (before, Completed)
    ensures Perform(before, KeyDownAction(key, Select, text)) == (before, Completed)
  {
  }

  /**
   * Typing and the explicit filter operation decide alike except on text made only of
   * white space, which typing applies as a filter and the filter operation clears.
   */
  lemma HandlersDifferOnlyOnWhiteSpace(selected: FilterCondition, text: string)
    ensures TextChangedAction(selected, text) != FilterOperationAction(selected, text)
        <==> selected != Select && |text| > 0 && IsNullOrWhiteSpace(text)
    ensures TextChangedAction(selected, text) == Apply(selected, text) &&
            FilterOperationAction(selected, text) == Clear
        <==> selected != Select && |text| > 0 && IsNullOrWhiteSpace(text)
  {
  }

  /** Applying text under a condition stores that condition's filter on ProductName, case-insensitively. */
  lemma ApplyFiltersProductName(before: Option<View>, condition: FilterCondition, text: string)
    requires before.Some? && condition != Select
    ensures Perform(before, Apply(condition, text))
         == (Some(View(false, ConditionFilter(FilteredField, text, condition).value)), Completed)
  {
  }

  class Form {
    /** ProductNameTextBox.Text */
    var text: string
    /** ProductNameFilterComboBox.SelectedItem */
    var selected: FilterCondition
    const bindingSource: BindingSource

    constructor ()
      ensures text == "" && selected == Select
      ensures fresh(bindingSource) && bindingSource.Valid() && !bindingSource.HasData()
    {
      text := "";
      selected := Select;
      bindingSource := new BindingSource();
    }

    method FilterDataButtonClick() returns (outcome: Outcome)
      requires bindingSource.Valid()
      modifies bindingSource.Footprint()
      ensures bindingSource.Valid() && bindingSource.Kept()
      ensures (bindingSource.Snapshot(), outcome)
           == Perform(old(bindingSource.Snapshot()), FilterOperationAction(selected, text))
    {
      outcome := FilterOperation();
    }

    method ProductNameTextBoxKeyDown(key: Key) returns (outcome: Outcome)
      requires bindingSource.Valid()
      modifies bindingSource.Footprint()
      ensures bindingSource.Valid() && bindingSource.Kept()
      ensures (bindingSource.Snapshot(), outcome)
           == Perform(old(bindingSource.Snapshot()), KeyDownAction(key, selected, text))
    {
      outcome := Completed;
      if key == Enter {
        outcome := FilterOperation();
      }
    }

    method ProductNameTextBoxTextChanged() returns (outcome: Outcome)
      requires bindingSource.Valid()
      modifies bindingSource.Footprint()
      ensures bindingSource.Valid() && bindingSource.Kept()
      ensures (bindingSource.Snapshot(), outcome)
           == Perform(old(bindingSource.Snapshot()), TextChangedAction(selected, text))
    {
      var filterType := selected;
      if filterType == Select {
        return Completed;
      }
      if |text| > 0 {
        outcome := bindingSource.RowFilterWithCondition(FilteredField, text, filterType);
      } else {
        outcome := bindingSource.RowFilterClear();
      }
    }

    method FilterOperation() returns (outcome: Outcome)
      requires bindingSource.Valid()
      modifies bindingSource.Footprint()
      ensures bindingSource.Valid() && bindingSource.Kept()
      ensures (bindingSource.Snapshot(), outcome)
           == Perform(old(bindingSource.Snapshot()), FilterOperationAction(selected, text))
    {
      var filterType := selected;
      if filterType == Select {
        return Completed;
      }
      if IsNullOrWhiteSpace(text) {
        outcome := bindingSource.RowFilterClear();
      } else {
        outcome := bindingSource.RowFilterWithCondition(FilteredField, text, filterType);
      }
    }
  }
}

/** `ColumnFilter`: the faceted filter popover of a table column. Its
    selection is `new Set(column.getFilterValue())`, empty when the filter
    is `undefined`; the handlers hand the column a new filter value. The
    column is taken to be present. */
module ColumnFilter {
  import opened Wrappers
  import opened JsCollections

  datatype FilterOption = FilterOption(labelText: string, value: string)

  /** `options.map(option => option.value)` */
  function ValuesOf(options: seq<FilterOption>): (r: seq<string>)
    ensures |r| == |options|
    ensures forall k :: 0 <= k < |r| ==> r[k] == options[k].value
  {
    seq(|options|, k requires 0 <= k < |options| => options[k].value)
  }

  /** `new Set(column.getFilterValue() as string[])` */
  function SelectedValues(filter: Option<seq<string>>): (s: seq<string>)
    ensures NoDups(s)
    ensures filter.None? ==> s == []
    ensures filter.Some? ==> forall x :: x in s <==> x in filter.value
  {
    if filter.None? then [] else SetOf(filter.value)
  }

  /** The select-all item: clears the filter when every option counts as
      selected, otherwise selects every option value. */
  function SelectAll(options: seq<FilterOption>, filter: Option<seq<string>>): (r: Option<seq<string>>)
    ensures |SelectedValues(filter)| == |options| ==> r.None?
    ensures |SelectedValues(filter)| != |options| ==> r == Some(ValuesOf(options))
  {
    if |SelectedValues(filter)| == |options| then None else Some(ValuesOf(options))
  }

  /** The select-all item's text. */
  function SelectAllLabel(options: seq<FilterOption>, filter: Option<seq<string>>): (r: string)
    ensures r == "Unselect all" <==> |SelectedValues(filter)| == |options|
    ensures r == "Select all" <==> |SelectedValues(filter)| != |options|
  {
    if |SelectedValues(filter)| == |options| then "Unselect all" else "Select all"
  }

  /** The filter icon is highlighted when something is selected. */
  predicate Highlighted(filter: Option<seq<string>>) {
    |SelectedValues(filter)| > 0
  }

  /** An undefined or empty filter never highlights the icon; a filter
      holding any value always does. */
  lemma HighlightedIffSomeValue(filter: Option<seq<string>>)
    ensures Highlighted(filter) <==> filter.Some? && |filter.value| > 0
  {
    if filter.Some? && |filter.value| > 0 {
      assert filter.value[0] in SelectedValues(filter);
    }
  }

  /** The select-all item toggles the label: over options with distinct
      values, clicking it in the "Select all" state leads to the
      "Unselect all" state. */
  lemma SelectAllThenLabel(options: seq<FilterOption>, filter: Option<seq<string>>)
    requires NoDups(ValuesOf(options))
    requires |SelectedValues(filter)| != |options|
    ensures SelectAllLabel(options, SelectAll(options, filter)) == "Unselect all"
  {
  }

  /** An option item: flips the value in the selection set in place, then
      stores the set, or `undefined` when it has become empty. */
  method ToggleOption(filter: Option<seq<string>>, value: string) returns (r: Option<seq<string>>)
    ensures r.None? <==> SelectedValues(filter) == [value]
    ensures r.Some? ==> NoDups(r.value)
    ensures r.Some? ==> forall x :: x in r.value <==>
      if x == value then value !in SelectedValues(filter) else x in SelectedValues(filter)
    ensures r.Some? && value !in SelectedValues(filter) ==> r.value == SelectedValues(filter) + [value]
    ensures r.Some? && value in SelectedValues(filter) ==> r.value == Filter(SelectedValues(filter), Unequal(value))
  {
    var selectedValues := SelectedValues(filter);
    var isSelected := value in selectedValues;
    if isSelected {
      DeleteIsFilter(selectedValues, value);
      selectedValues := Delete(selectedValues, value);
    } else {
      selectedValues := Add(selectedValues, value);
    }
    var filterValues := selectedValues;
    if |filterValues| > 0 {
      r := Some(filterValues);
    } else {
      r := None;
    }
  }
}

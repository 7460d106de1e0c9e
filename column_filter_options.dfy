/** `ColumnFilterOptions`: a checkbox list over `values` whose selection is
    either `undefined` (everything passes) or an explicit array. */
module ColumnFilterOptions {
  import opened Wrappers
  import opened JsCollections

  /** `allChecked`: no selection, or a selection as long as `values`. */
  predicate AllChecked<T>(values: seq<T>, selected: Option<seq<T>>) {
    selected.None? || |selected.value| == |values|
  }

  /** `toggleAll(checked)`: the selection handed to `onChange`. */
  function ToggleAll<T>(checked: bool): (r: Option<seq<T>>)
    ensures checked ==> r.None?
    ensures !checked ==> r == Some([])
  {
    if checked then None else Some([])
  }

  /** After the root checkbox is set to `checked`, it reads `checked` again,
      except that unchecking it over an empty list leaves it checked. */
  lemma ToggleAllRoundTrip<T>(values: seq<T>, checked: bool)
    ensures AllChecked(values, ToggleAll<T>(checked)) <==> checked || |values| == 0
  {
  }

  /** `new Set(selected ?? values)` */
  function Base<T(==,!new)>(values: seq<T>, selected: Option<seq<T>>): (b: seq<T>)
    ensures NoDups(b)
    ensures forall x :: x in b <==> x in (if selected.Some? then selected.value else values)
  {
    SetOf(if selected.Some? then selected.value else values)
  }

  /** `toggle(value)`: flips `value` in the base set and normalises a result
      as long as `values` to `undefined`. */
  method Toggle<T(==,!new)>(values: seq<T>, selected: Option<seq<T>>, value: T) returns (r: Option<seq<T>>)
    ensures var b := Base(values, selected);
      r.None? <==> |b| + (if value in b then -1 else 1) == |values|
    ensures r.Some? ==> NoDups(r.value)
    ensures r.Some? ==> forall x :: x in r.value <==> if x == value then value !in Base(values, selected) else x in Base(values, selected)
    ensures r.Some? && value !in Base(values, selected) ==> r.value == Base(values, selected) + [value]
    ensures r.Some? && value in Base(values, selected) ==> r.value == Filter(Base(values, selected), Unequal(value))
  {
    var base := Base(values, selected);
    if value in base {
      DeleteIsFilter(base, value);
      base := Delete(base, value);
    } else {
      base := Add(base, value);
    }
    var arr := base;
    if |arr| == |values| {
      r := None;
    } else {
      r := Some(arr);
    }
  }

  /** The checkbox of one option: checked when all are, or when the option
      is in the selection. */
  predicate IsChecked<T(==)>(values: seq<T>, selected: Option<seq<T>>, option: T) {
    AllChecked(values, selected) || (selected.Some? && option in selected.value)
  }

  /** With all values shown checked, every option shows checked; with an
      explicit short selection, an option shows checked exactly when it is
      selected. */
  lemma IsCheckedCases<T>(values: seq<T>, selected: Option<seq<T>>, option: T)
    ensures AllChecked(values, selected) ==> IsChecked(values, selected, option)
    ensures !AllChecked(values, selected) ==> (IsChecked(values, selected, option) <==> option in selected.value)
  {
  }
}

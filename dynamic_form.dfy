/** The checkbox group of the schema-driven form: the field's value is the
    list of checked option values. */
module DynamicForm {
  import opened Wrappers
  import opened Seqs

  /** `field.value?.includes(item.value)`: an undefined value shows no box checked. */
  predicate IsChecked(value: Option<seq<string>>, option: string)
    ensures IsChecked(value, option) <==> value.Some? && multiset(value.value)[option] > 0
  {
    value.Some? && option in value.value
  }

  /** `onCheckedChange(checked)`: checking appends the option's value (no
      de-duplication), spreading an undefined value throws; unchecking keeps
      every other value in order, and passes an undefined value through. */
  function Toggle(value: Option<seq<string>>, option: string, checked: bool): (r: Result<Option<seq<string>>>)
    ensures r.Throws? <==> checked && value.None?
    ensures r.Ok? ==> (r.value.Some? <==> value.Some?)
  {
    if checked then
      if value.None? then Throws("field.value is not iterable") else Ok(Some(value.value + [option]))
    else
      if value.None? then Ok(None) else Ok(Some(Filter(value.value, (v: string) => v != option)))
  }

  /** After a toggle the box shows the state it was toggled to. */
  lemma ToggleShows(value: seq<string>, option: string, checked: bool)
    ensures Toggle(Some(value), option, checked).Ok?
    ensures IsChecked(Toggle(Some(value), option, checked).value, option) == checked
  {
  }

  /** Checking adds one more occurrence of the option, at the end, and keeps
      the rest of the list. */
  lemma CheckAppends(value: seq<string>, option: string)
    ensures Toggle(Some(value), option, true) == Ok(Some(value + [option]))
    ensures multiset(Toggle(Some(value), option, true).value.value)[option] == multiset(value)[option] + 1
  {
  }

  /** Unchecking removes every occurrence of the option and keeps each other
      value as often as it was; the kept values stay in their order, since
      filtering a concatenation filters each part. */
  lemma UncheckRemovesAll(value: seq<string>, option: string, other: string)
    requires other != option
    ensures Toggle(Some(value), option, false).Ok?
    ensures var r := Toggle(Some(value), option, false).value.value;
      multiset(r)[option] == 0 && multiset(r)[other] == multiset(value)[other]
  {
    FilterCount(value, (v: string) => v != option, option);
    FilterCount(value, (v: string) => v != option, other);
  }
}

/**
 * src/components/molecules/FilterSelect.jsx: a multi-select whose selection
 * is a list of option values.  Clicking an option toggles its value; the
 * chips show the selected options in the options' order; the button label
 * counts the selection.
 */
module FilterSelect {
  import opened Seqs
  import opened Text

  /** An option; its `label` is called `caption` here, since `label` is a Dafny keyword. */
  datatype Choice = Choice(value: string, caption: string)

  function Without(selected: seq<string>, value: string): seq<string> {
    Filter(selected, (item: string) => item != value)
  }

  /** `handleOptionClick`: drop every copy of a selected value, append an unselected one. */
  function Toggle(selected: seq<string>, value: string): (next: seq<string>)
    ensures forall x :: x in next <==> if x == value then value !in selected else x in selected
  {
    if value in selected then Without(selected, value) else selected + [value]
  }

  /** Removing a value shortens the selection by exactly its number of copies. */
  lemma {:induction false} WithoutLength(selected: seq<string>, value: string)
    ensures |Without(selected, value)| == |selected| - Count(selected, value)
  {
    if selected != [] {
      var init, last := selected[..|selected| - 1], selected[|selected| - 1];
      assert selected == init + [last];
      WithoutLength(init, value);
      CountSnoc(init, last, value);
    }
  }

  /**
   * Toggling a selected value removes all of its copies; toggling an
   * unselected value adds exactly one, at the end, and a second toggle takes
   * it out again.
   */
  lemma ToggleLaws(selected: seq<string>, value: string)
    ensures value in selected ==> |Toggle(selected, value)| == |selected| - Count(selected, value)
    ensures value !in selected ==>
      && |Toggle(selected, value)| == |selected| + 1
      && Toggle(selected, value)[|selected|] == value
      && Toggle(Toggle(selected, value), value) == selected
  {
    if value in selected {
      WithoutLength(selected, value);
    } else {
      var added := selected + [value];
      FilterAppend(selected, [value], (item: string) => item != value);
      FilterAll(selected, (item: string) => item != value);
      assert Filter([value], (item: string) => item != value) == [];
    }
  }

  /** A selection without repeated values stays so after any toggle. */
  lemma ToggleNoDup(selected: seq<string>, value: string)
    requires NoDup(selected)
    ensures NoDup(Toggle(selected, value))
  {
    if value in selected {
      FilterNoDup(selected, (item: string) => item != value);
    }
  }

  /** `selectedOptions`: the options whose value is selected. */
  function SelectedOptions(options: seq<Choice>, selected: seq<string>): (chosen: seq<Choice>)
    ensures forall o :: o in chosen <==> o in options && o.value in selected
  {
    Filter(options, (o: Choice) => o.value in selected)
  }

  /** The chips keep the options' order. */
  lemma SelectedOptionsOrder(options: seq<Choice>, selected: seq<string>)
    ensures var chosen := SelectedOptions(options, selected);
      forall i, j :: 0 <= i < j < |chosen| ==> Before(options, chosen[i], chosen[j])
  {
    FilterOrder(options, (o: Choice) => o.value in selected);
  }

  const SELECTED_SUFFIX := " selected"

  /** The button label: the placeholder, or the size of the selection followed by " selected". */
  function Label(selected: seq<string>, placeholder: string): (text: string)
    ensures |selected| == 0 ==> text == placeholder
    ensures |selected| > 0 ==> |text| > |SELECTED_SUFFIX| && text[|text| - |SELECTED_SUFFIX|..] == SELECTED_SUFFIX
  {
    if |selected| == 0 then placeholder else NatToString(|selected|) + SELECTED_SUFFIX
  }

  /** The number in a non-empty selection's label reads back as the size of the selection. */
  lemma LabelCounts(selected: seq<string>, placeholder: string)
    requires |selected| > 0
    ensures var text := Label(selected, placeholder);
      ParseDigits(text[..|text| - |SELECTED_SUFFIX|]) == |selected|
  {
    var text := Label(selected, placeholder);
    assert text[..|text| - |SELECTED_SUFFIX|] == NatToString(|selected|);
    ParseNatToString(|selected|);
  }
}

/** The multi-select widget (app/components/ui/multi-select.tsx).

    The parent owns the list of selected values and receives every new list
    through `onChange`; the widget owns whether its popover is `open` and the
    text typed into its input. The list updates are pure functions on
    sequences; `MultiSelect` is the component with its state, and `selected`
    is a field of it because each `onChange` call replaces the parent's list,
    which comes back as the new `selected` prop. */
module MultiSelect {
  import opened Sequences

  /** `{ value, label }`; `label` is a reserved word in Dafny. */
  datatype SelectOption = SelectOption(value: string, labelText: string)

  datatype Key = Backspace | Delete | Escape | Enter | Other

  predicate NoDuplicates(s: seq<string>) {
    forall i, j :: 0 <= i < j < |s| ==> s[i] != s[j]
  }

  /** `selected.filter((i) => i !== item)` */
  function Unselect(selected: seq<string>, item: string): seq<string>
  {
    if selected == [] then []
    else (if selected[0] == item then [] else [selected[0]]) + Unselect(selected[1..], item)
  }

  /** Unselecting removes every occurrence of the item and nothing else. */
  lemma {:induction false} UnselectExact(selected: seq<string>, item: string)
    ensures forall x :: x in Unselect(selected, item) <==> x in selected && x != item
    ensures |Unselect(selected, item)| <= |selected|
  {
    if selected != [] {
      UnselectExact(selected[1..], item);
      assert selected == [selected[0]] + selected[1..];
    }
  }

  /** Unselecting keeps the other items in their order: it distributes over
      concatenation, so it is the subsequence of the items other than `item`. */
  lemma {:induction false} UnselectAppend(a: seq<string>, b: seq<string>, item: string)
    ensures Unselect(a + b, item) == Unselect(a, item) + Unselect(b, item)
  {
    if a == [] {
      assert a + b == b;
    } else {
      UnselectAppend(a[1..], b, item);
      ConsAppend(a, b);
      UnselectCons(a[0], a[1..] + b, item);
    }
  }

  lemma UnselectCons(x: string, s: seq<string>, item: string)
    ensures Unselect([x] + s, item) == (if x == item then [] else [x]) + Unselect(s, item)
  {
    assert ([x] + s)[1..] == s;
  }

  /** Unselecting an item that is not selected changes nothing. */
  lemma {:induction false} UnselectAbsent(selected: seq<string>, item: string)
    requires item !in selected
    ensures Unselect(selected, item) == selected
  {
    if selected != [] {
      UnselectAbsent(selected[1..], item);
      assert selected == [selected[0]] + selected[1..];
    }
  }

  /** In a duplicate-free list, unselecting removes exactly the one position
      that holds the item. */
  lemma UnselectAt(selected: seq<string>, k: nat)
    requires NoDuplicates(selected) && k < |selected|
    ensures Unselect(selected, selected[k]) == selected[..k] + selected[k + 1..]
    ensures NoDuplicates(Unselect(selected, selected[k]))
  {
    var item := selected[k];
    assert selected == selected[..k] + [item] + selected[k + 1..];
    OnlyAt(selected, k);
    UnselectSplit(selected[..k], item, selected[k + 1..]);
    DropKeepsNoDuplicates(selected, k);
  }

  /** In a duplicate-free list the item at `k` occurs nowhere else. */
  lemma OnlyAt(s: seq<string>, k: nat)
    requires NoDuplicates(s) && k < |s|
    ensures s[k] !in s[..k] && s[k] !in s[k + 1..]
  {
    forall i | 0 <= i < k ensures s[..k][i] != s[k] {
      assert s[..k][i] == s[i];
    }
    var after := s[k + 1..];
    forall i | 0 <= i < |after| ensures after[i] != s[k] {
      assert after[i] == s[k + 1 + i];
    }
  }

  lemma UnselectSplit(before: seq<string>, item: string, after: seq<string>)
    requires item !in before && item !in after
    ensures Unselect(before + [item] + after, item) == before + after
  {
    calc {
      Unselect(before + [item] + after, item);
      { UnselectAppend(before + [item], after, item); }
      Unselect(before + [item], item) + Unselect(after, item);
      { UnselectAppend(before, [item], item); }
      Unselect(before, item) + Unselect([item], item) + Unselect(after, item);
      { UnselectAbsent(before, item); UnselectAbsent(after, item); UnselectCons(item, [], item); assert [item] + [] == [item]; }
      before + [] + after;
      { assert before + [] == before; }
      before + after;
    }
  }

  /** Dropping one position keeps a list duplicate-free. */
  lemma DropKeepsNoDuplicates(s: seq<string>, k: nat)
    requires NoDuplicates(s) && k < |s|
    ensures NoDuplicates(s[..k] + s[k + 1..])
  {
    var r := s[..k] + s[k + 1..];
    forall i, j | 0 <= i < j < |r| ensures r[i] != r[j] {
      var i' := if i < k then i else i + 1;
      var j' := if j < k then j else j + 1;
      assert r[i] == s[i'] && r[j] == s[j'];
    }
  }

  /** The selection after `handleKeyDown`: Backspace or Delete with an empty
      input and a non-empty selection drops the last item
      (`selected.slice(0, -1)`); anything else leaves it. */
  function AfterKey(selected: seq<string>, inputText: string, key: Key): (r: seq<string>)
    ensures (key == Backspace || key == Delete) && inputText == "" && selected != []
      ==> r == selected[..|selected| - 1] && selected == r + [selected[|selected| - 1]]
    ensures !((key == Backspace || key == Delete) && inputText == "") ==> r == selected
    ensures selected == [] ==> r == []
  {
    if (key == Backspace || key == Delete) && inputText == "" && |selected| > 0 then
      selected[..|selected| - 1]
    else selected
  }

  /** `options.filter((option) => !selected.includes(option.value))` */
  function Selectables(options: seq<SelectOption>, selected: seq<string>): (r: seq<SelectOption>)
  {
    if options == [] then []
    else (if options[0].value in selected then [] else [options[0]]) + Selectables(options[1..], selected)
  }

  /** The offered options are exactly the options whose value is not selected. */
  lemma {:induction false} SelectablesExact(options: seq<SelectOption>, selected: seq<string>)
    ensures forall o :: o in Selectables(options, selected) <==> o in options && o.value !in selected
  {
    if options != [] {
      SelectablesExact(options[1..], selected);
      assert options == [options[0]] + options[1..];
    }
  }

  /** ... in option order. */
  lemma {:induction false} SelectablesAppend(a: seq<SelectOption>, b: seq<SelectOption>, selected: seq<string>)
    ensures Selectables(a + b, selected) == Selectables(a, selected) + Selectables(b, selected)
  {
    if a == [] {
      assert a + b == b;
    } else {
      SelectablesAppend(a[1..], b, selected);
      ConsAppend(a, b);
      SelectablesCons(a[0], a[1..] + b, selected);
    }
  }

  lemma SelectablesCons(x: SelectOption, s: seq<SelectOption>, selected: seq<string>)
    ensures Selectables([x] + s, selected) == (if x.value in selected then [] else [x]) + Selectables(s, selected)
  {
    assert ([x] + s)[1..] == s;
  }

  /** `[...selected, option.value]` for an option that is offered. */
  function Choose(selected: seq<string>, option: SelectOption): seq<string> {
    selected + [option.value]
  }

  /** Only selectables are offered, so choosing keeps a duplicate-free
      selection duplicate-free. */
  lemma ChooseKeepsNoDuplicates(options: seq<SelectOption>, selected: seq<string>, option: SelectOption)
    requires NoDuplicates(selected)
    requires option in Selectables(options, selected)
    ensures NoDuplicates(Choose(selected, option))
    ensures |Choose(selected, option)| == |selected| + 1
  {
    SelectablesExact(options, selected);
  }

  /** The widget with its state. */
  class MultiSelect {
    const options: seq<SelectOption>
    var selected: seq<string>
    var open: bool
    var inputValue: string

    /** The selection has no duplicates. The parent may pass a list with
        repeated values (a stored tour can hold one); the widget's own
        operations never add a duplicate. */
    ghost predicate Valid()
      reads this
    {
      NoDuplicates(selected)
    }

    /** `useState(false)` and `useState("")`, with the parent's initial list,
        which may hold repeated values. */
    constructor (options: seq<SelectOption>, selected: seq<string>)
      ensures this.options == options && this.selected == selected
      ensures Valid() <==> NoDuplicates(selected)
      ensures !open && inputValue == ""
    {
      this.options := options;
      this.selected := selected;
      open := false;
      inputValue := "";
    }

    /** The options shown in the popover. */
    function Offered(): (r: seq<SelectOption>)
      reads this
      ensures forall o :: o in r <==> o in options && o.value !in selected
    {
      SelectablesExact(options, selected);
      Selectables(options, selected)
    }

    /** Clicking (or pressing Enter on) the remove button of a badge: every
        copy of the value goes, so a repeated value is removed at once. */
    method HandleUnselect(item: string)
      modifies this
      ensures selected == Unselect(old(selected), item)
      ensures item !in selected
      ensures old(Valid()) ==> Valid()
      ensures open == old(open) && inputValue == old(inputValue)
    {
      UnselectExact(selected, item);
      if item !in selected {
        UnselectAbsent(selected, item);
      } else if Valid() {
        var k :| 0 <= k < |selected| && selected[k] == item;
        UnselectAt(selected, k);
      }
      selected := Unselect(selected, item);
    }

    /** `handleKeyDown` on the input. The input's text is `inputValue`: the
        input is controlled by it. */
    method HandleKeyDown(key: Key)
      modifies this
      ensures selected == AfterKey(old(selected), old(inputValue), key)
      ensures old(Valid()) ==> Valid()
      ensures open == (if key == Escape then false else old(open))
      ensures inputValue == old(inputValue)
    {
      if (key == Delete || key == Backspace) && inputValue == "" && |selected| > 0 {
        selected := selected[..|selected| - 1];
      }
      if key == Escape {
        open := false;
      }
    }

    /** `onValueChange={setInputValue}` */
    method SetInputValue(text: string)
      modifies this
      ensures inputValue == text
      ensures selected == old(selected) && open == old(open)
    {
      inputValue := text;
    }

    /** `onOpenChange={setOpen}` */
    method SetOpen(value: bool)
      modifies this
      ensures open == value
      ensures selected == old(selected) && inputValue == old(inputValue)
    {
      open := value;
    }

    /** `onSelect` of an offered option: append its value, clear the input. */
    method OnSelect(option: SelectOption)
      requires option in Offered()
      modifies this
      ensures selected == old(selected) + [option.value]
      ensures option.value !in old(selected)
      ensures old(Valid()) ==> Valid()
      ensures inputValue == ""
      ensures open == old(open)
    {
      SelectablesExact(options, selected);
      if Valid() {
        ChooseKeepsNoDuplicates(options, selected, option);
      }
      selected := Choose(selected, option);
      inputValue := "";
    }
  }
}

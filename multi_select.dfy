/** The selection state of `MultiSelect`: the ordered list of selected
    options, the text of its input and whether the menu is open, changed
    by its event handlers; with the derived list of still-selectable
    options and the value `MultiSelectForm` hands to the form field.
    An option has the shape of a skill catalog entry: a value and a label. */
module MultiSelectState {
  import opened SkillLabels

  /** Pairwise-distinct entries. */
  predicate Distinct(s: seq<SkillOption>)
  {
    forall i, j | 0 <= i < j < |s| :: s[i] != s[j]
  }

  /** `prev.filter(s => s.value !== value)` */
  function WithoutValue(s: seq<SkillOption>, value: string): (r: seq<SkillOption>)
    ensures |r| <= |s|
    ensures forall i | 0 <= i < |r| :: r[i] in s && r[i].value != value
  {
    if s == [] then []
    else if s[0].value != value then [s[0]] + WithoutValue(s[1..], value)
    else WithoutValue(s[1..], value)
  }

  /** `[...prev]` followed by `pop()`: the last entry goes, if any. */
  function DropLast(s: seq<SkillOption>): (r: seq<SkillOption>)
    ensures s == [] ==> r == []
    ensures s != [] ==> s == r + [s[|s| - 1]]
  {
    if s == [] then [] else s[..|s| - 1]
  }

  /** `options.filter(item => !selected.includes(item))` */
  function Selectables(options: seq<SkillOption>, selected: seq<SkillOption>): (r: seq<SkillOption>)
    ensures |r| <= |options|
    ensures forall i | 0 <= i < |r| :: r[i] in options && r[i] !in selected
  {
    if options == [] then []
    else if options[0] !in selected then [options[0]] + Selectables(options[1..], selected)
    else Selectables(options[1..], selected)
  }

  /** `newValues.map(item => item.value)`: the value `MultiSelectForm`
      passes to the form field. */
  function FormValue(items: seq<SkillOption>): (r: seq<string>)
    ensures |r| == |items|
  {
    if items == [] then [] else [items[0].value] + FormValue(items[1..])
  }

  // ---------------------------------------------------------------------
  // Properties of the derived lists
  // ---------------------------------------------------------------------

  /** Unselecting keeps exactly the entries with another value. */
  lemma {:induction false} WithoutValueMembers(s: seq<SkillOption>, value: string)
    ensures forall x :: x in WithoutValue(s, value) <==> x in s && x.value != value
  {
    if s != [] {
      WithoutValueMembers(s[1..], value);
      assert s == [s[0]] + s[1..];
    }
  }

  /** ... and keeps them in their order: filtering a concatenation filters
      each part. */
  lemma {:induction false} WithoutValueAppend(a: seq<SkillOption>, b: seq<SkillOption>, value: string)
    ensures WithoutValue(a + b, value) == WithoutValue(a, value) + WithoutValue(b, value)
  {
    if a == [] {
      assert a + b == b;
    } else {
      assert (a + b)[0] == a[0] && (a + b)[1..] == a[1..] + b;
      WithoutValueAppend(a[1..], b, value);
    }
  }

  /** Entries with other values are left as they are. */
  lemma {:induction false} WithoutAbsentValue(s: seq<SkillOption>, value: string)
    requires forall x | x in s :: x.value != value
    ensures WithoutValue(s, value) == s
  {
    if s != [] {
      WithoutAbsentValue(s[1..], value);
      assert s == [s[0]] + s[1..];
    }
  }

  /** Unselecting an option just selected, whose value was not yet
      selected, restores the earlier selection. */
  lemma SelectThenUnselect(s: seq<SkillOption>, o: SkillOption)
    requires forall x | x in s :: x.value != o.value
    ensures WithoutValue(s + [o], o.value) == s
  {
    WithoutValueAppend(s, [o], o.value);
    WithoutAbsentValue(s, o.value);
    assert WithoutValue([o], o.value) == WithoutValue([], o.value);
  }

  lemma {:induction false} WithoutValueDistinct(s: seq<SkillOption>, value: string)
    requires Distinct(s)
    ensures Distinct(WithoutValue(s, value))
  {
    if s != [] {
      WithoutValueDistinct(s[1..], value);
      WithoutValueMembers(s[1..], value);
      if s[0].value != value {
        var t := WithoutValue(s[1..], value);
        assert s[0] !in s[1..] by {
          forall k | 0 <= k < |s[1..]| ensures s[1..][k] != s[0] { assert s[1..][k] == s[k + 1]; }
        }
        forall i, j | 0 <= i < j < |[s[0]] + t| ensures ([s[0]] + t)[i] != ([s[0]] + t)[j] {
          if i == 0 { assert ([s[0]] + t)[j] == t[j - 1]; }
        }
      }
    }
  }

  /** The menu offers exactly the options not selected ... */
  lemma {:induction false} SelectablesMembers(options: seq<SkillOption>, selected: seq<SkillOption>)
    ensures forall x :: x in Selectables(options, selected) <==> x in options && x !in selected
  {
    if options != [] {
      SelectablesMembers(options[1..], selected);
      assert options == [options[0]] + options[1..];
    }
  }

  /** ... in the options' order. */
  lemma {:induction false} SelectablesAppend(a: seq<SkillOption>, b: seq<SkillOption>, selected: seq<SkillOption>)
    ensures Selectables(a + b, selected) == Selectables(a, selected) + Selectables(b, selected)
  {
    if a == [] {
      assert a + b == b;
    } else {
      assert (a + b)[0] == a[0] && (a + b)[1..] == a[1..] + b;
      SelectablesAppend(a[1..], b, selected);
    }
  }

  /** The form value lists the selected options' values, one per entry,
      in the same order. */
  lemma {:induction false} FormValueInOrder(items: seq<SkillOption>)
    ensures |FormValue(items)| == |items|
    ensures forall i | 0 <= i < |items| :: FormValue(items)[i] == items[i].value
  {
    if items != [] {
      FormValueInOrder(items[1..]);
    }
  }

  /** After unselecting, the form value no longer holds that value. */
  lemma UnselectedValueGone(s: seq<SkillOption>, value: string)
    ensures value !in FormValue(WithoutValue(s, value))
  {
    var r := WithoutValue(s, value);
    WithoutValueMembers(s, value);
    FormValueInOrder(r);
  }

  /** The form value of a concatenation is the concatenation of the form
      values. */
  lemma {:induction false} FormValueAppend(a: seq<SkillOption>, b: seq<SkillOption>)
    ensures FormValue(a + b) == FormValue(a) + FormValue(b)
  {
    if a == [] {
      assert a + b == b;
    } else {
      assert (a + b)[0] == a[0] && (a + b)[1..] == a[1..] + b;
      FormValueAppend(a[1..], b);
    }
  }

  /** The Backspace/Delete pop calls no `onValueChange`, so the form keeps
      the value last reported. When that report was the list before the
      pop, the form still holds the dropped entry's value. */
  lemma PopLeavesFormValueStale(s: seq<SkillOption>)
    requires s != []
    ensures FormValue(s) == FormValue(DropLast(s)) + [s[|s| - 1].value]
    ensures FormValue(DropLast(s)) != FormValue(s)
  {
    var r := DropLast(s);
    FormValueAppend(r, [s[|s| - 1]]);
    assert FormValue([s[|s| - 1]]) == [s[|s| - 1].value];
  }

  /** When no other selected entry shares the dropped entry's value, the
      list after the pop no longer has that value, while the stale form
      value still does. */
  lemma PoppedValueGone(s: seq<SkillOption>)
    requires s != []
    requires forall i | 0 <= i < |s| - 1 :: s[i].value != s[|s| - 1].value
    ensures s[|s| - 1].value !in FormValue(DropLast(s))
    ensures s[|s| - 1].value in FormValue(s)
  {
    var r := DropLast(s);
    FormValueInOrder(r);
    FormValueInOrder(s);
    assert forall i | 0 <= i < |r| :: r[i] == s[i];
  }

  // ---------------------------------------------------------------------
  // The component state
  // ---------------------------------------------------------------------

  class MultiSelect {
    const options: seq<SkillOption>
    var selected: seq<SkillOption>
    var inputValue: string
    var open: bool

    /** Every selected entry is an option, and none is selected twice. */
    ghost predicate Valid()
      reads this
    {
      (forall x | x in selected :: x in options) && Distinct(selected)
    }

    /** `useState(false)`, `useState([])`, `useState("")` */
    constructor (options: seq<SkillOption>)
      ensures Valid()
      ensures this.options == options && selected == [] && inputValue == "" && !open
    {
      this.options := options;
      selected := [];
      inputValue := "";
      open := false;
    }

    /** The options still offered in the menu. */
    function Offered(): seq<SkillOption>
      reads this
    {
      Selectables(options, selected)
    }

    /** The menu is rendered when the input has focus and something is
        left to offer. */
    function MenuShown(): (r: bool)
      reads this
      ensures r <==> open && exists x | x in options :: x !in selected
    {
      SelectablesMembers(options, selected);
      assert Offered() != [] ==> Offered()[0] in Offered();
      open && Offered() != []
    }

    /** `handleUnselect(item)`: drop every entry with the item's value and
        report the new list to `onValueChange`. */
    method HandleUnselect(item: SkillOption) returns (reported: seq<SkillOption>)
      requires Valid()
      modifies this
      ensures Valid()
      ensures selected == WithoutValue(old(selected), item.value)
      ensures reported == selected
      ensures inputValue == old(inputValue) && open == old(open)
    {
      WithoutValueMembers(selected, item.value);
      WithoutValueDistinct(selected, item.value);
      selected := WithoutValue(selected, item.value);
      reported := selected;
    }

    /** `onSelect` of a menu entry: clear the input text, append the item
        and report the new list to `onValueChange`. Only offered items
        have a menu entry. */
    method OnSelect(item: SkillOption) returns (reported: seq<SkillOption>)
      requires Valid()
      requires item in Offered()
      modifies this
      ensures Valid()
      ensures selected == old(selected) + [item]
      ensures reported == selected
      ensures inputValue == "" && open == old(open)
    {
      SelectablesMembers(options, selected);
      inputValue := "";
      var next := selected + [item];
      forall i, j | 0 <= i < j < |next| ensures next[i] != next[j] {
        if j == |selected| { assert next[i] == selected[i]; }
      }
      selected := next;
      reported := selected;
    }

    /** `handleKeyDown`: Backspace or Delete on an empty input removes the
        last selected entry (nothing on an empty list) without reporting
        to `onValueChange`; Escape blurs the input, which closes the menu;
        every other key changes nothing. */
    method HandleKeyDown(key: string)
      requires Valid()
      modifies this
      ensures Valid()
      ensures (key == "Delete" || key == "Backspace") && old(inputValue) == "" ==>
        selected == DropLast(old(selected))
      ensures !((key == "Delete" || key == "Backspace") && old(inputValue) == "") ==>
        selected == old(selected)
      ensures open == (if key == "Escape" then false else old(open))
      ensures inputValue == old(inputValue)
    {
      if key == "Delete" || key == "Backspace" {
        if inputValue == "" {
          var next := DropLast(selected);
          assert forall i | 0 <= i < |next| :: next[i] == selected[i];
          selected := next;
        }
      }
      if key == "Escape" {
        open := false;
      }
    }

    /** The input's `onValueChange={setInputValue}`. */
    method SetInputValue(text: string)
      modifies this
      ensures inputValue == text
      ensures selected == old(selected) && open == old(open)
    {
      inputValue := text;
    }

    /** `onFocus` and `onBlur` of the input. */
    method SetFocused(focused: bool)
      modifies this
      ensures open == focused
      ensures selected == old(selected) && inputValue == old(inputValue)
    {
      open := focused;
    }
  }

  /** Each option is either selected or offered, never both. */
  lemma SelectedOrOffered(m: MultiSelect, x: SkillOption)
    requires x in m.options
    ensures (x in m.selected) != (x in m.Offered())
  {
    SelectablesMembers(m.options, m.selected);
  }
}

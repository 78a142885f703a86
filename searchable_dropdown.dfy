/**
 * The searchable dropdown: case-insensitive filtering of the options by the
 * search term, lookup of the selected option, and the `isOpen`/`searchTerm`
 * state its event handlers update. `toLowerCase` is modelled as ASCII lowering.
 */
module Dropdown {
  import opened Wrappers
  import Text

  datatype DropdownOption = DropdownOption(id: string, labelText: string, description: Option<string>)

  /** The lower-cased label contains the lower-cased search term. */
  predicate Matches(option: DropdownOption, searchTerm: string) {
    Text.Includes(Text.Lower(option.labelText), Text.Lower(searchTerm))
  }

  /** `options.filter(...)`: the matching options, in their original order. */
  function FilteredOptions(options: seq<DropdownOption>, searchTerm: string): (r: seq<DropdownOption>)
    ensures |r| <= |options|
    ensures forall o :: o in r <==> o in options && Matches(o, searchTerm)
  {
    if |options| == 0 then []
    else
      var rest := FilteredOptions(options[1..], searchTerm);
      if Matches(options[0], searchTerm) then [options[0]] + rest else rest
  }

  /** Filtering keeps the order: it distributes over concatenation. */
  lemma {:induction false} FilteredOptionsAppend(a: seq<DropdownOption>, b: seq<DropdownOption>, searchTerm: string)
    ensures FilteredOptions(a + b, searchTerm) == FilteredOptions(a, searchTerm) + FilteredOptions(b, searchTerm)
  {
    if |a| > 0 {
      assert (a + b)[1..] == a[1..] + b;
      FilteredOptionsAppend(a[1..], b, searchTerm);
    } else {
      assert a + b == b;
    }
  }

  /** An empty search term shows every option. */
  lemma {:induction false} FilteredOptionsEmptyTerm(options: seq<DropdownOption>)
    ensures FilteredOptions(options, "") == options
  {
    if |options| > 0 {
      Text.IncludesEmpty(Text.Lower(options[0].labelText));
      FilteredOptionsEmptyTerm(options[1..]);
    }
  }

  /** `options.find(o => o.id === value)`: the first option with that id. */
  function SelectedOption(options: seq<DropdownOption>, value: string): (r: Option<DropdownOption>)
    ensures r.None? <==> forall o :: o in options ==> o.id != value
    ensures r.Some? ==> exists k :: 0 <= k < |options| && options[k] == r.value && r.value.id == value
                                      && forall j :: 0 <= j < k ==> options[j].id != value
  {
    if |options| == 0 then None
    else if options[0].id == value then Some(options[0])
    else
      var r := SelectedOption(options[1..], value);
      assert r.Some? ==> exists k :: 0 <= k < |options| && options[k] == r.value && r.value.id == value
                                      && forall j :: 0 <= j < k ==> options[j].id != value by {
        if r.Some? {
          var k :| 0 <= k < |options[1..]| && options[1..][k] == r.value && r.value.id == value
                   && forall j :: 0 <= j < k ==> options[1..][j].id != value;
          assert options[k + 1] == r.value;
          assert forall j :: 0 <= j < k + 1 ==> options[j].id != value by {
            forall j | 0 <= j < k + 1 ensures options[j].id != value {
              if j > 0 { assert options[j] == options[1..][j - 1]; }
            }
          }
        }
      }
      r
  }

  /** The dropdown's own state; `options` and `value` are props its parent passes in. */
  class SearchableDropdown {
    var isOpen: bool
    var searchTerm: string

    constructor ()
      ensures !isOpen && searchTerm == ""
    {
      isOpen := false;
      searchTerm := "";
    }

    /** The input shows the selected option's label, or else the search term. */
    function InputValue(options: seq<DropdownOption>, value: string): (r: string)
      reads this
      ensures (forall o :: o in options ==> o.id != value) ==> r == searchTerm
      ensures (exists o :: o in options && o.id == value) ==> r == SelectedOption(options, value).value.labelText
    {
      match SelectedOption(options, value)
      case Some(option) => option.labelText
      case None => searchTerm
    }

    /** The list is rendered only while open and with something to show. */
    function ListShown(options: seq<DropdownOption>): (r: bool)
      reads this
      ensures r <==> isOpen && exists o :: o in options && Matches(o, searchTerm)
    {
      var shown := FilteredOptions(options, searchTerm);
      assert |shown| > 0 ==> shown[0] in shown;
      isOpen && |shown| > 0
    }

    /** Typing replaces the search term and opens the list. */
    method OnInputChange(text: string)
      modifies this
      ensures searchTerm == text && isOpen
    {
      searchTerm := text;
      isOpen := true;
    }

    /** Focusing the input opens the list. */
    method OnFocus()
      modifies this`isOpen
      ensures isOpen
    {
      isOpen := true;
    }

    /** A click outside the component closes the list. */
    method OnOutsideClick()
      modifies this`isOpen
      ensures !isOpen
    {
      isOpen := false;
    }

    /**
     * Clicking the `k`-th shown option: reports its id to the parent, clears
     * the search term and closes the list.
     */
    method OnChoose(options: seq<DropdownOption>, k: nat) returns (chosenId: string)
      requires ListShown(options) && k < |FilteredOptions(options, searchTerm)|
      modifies this
      ensures chosenId == FilteredOptions(options, old(searchTerm))[k].id
      ensures exists o :: o in options && o.id == chosenId && Matches(o, old(searchTerm))
      ensures searchTerm == "" && !isOpen
    {
      var option := FilteredOptions(options, searchTerm)[k];
      chosenId := option.id;
      searchTerm := "";
      isOpen := false;
    }
  }
}

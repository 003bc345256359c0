/**
 * The tag picker (src/components/ui/multi-select-tags.tsx): a search box that narrows the
 * options, and toggling or removing a tag in the selection handed back to the parent.
 */
module MultiSelectTags {
  import opened Seqs
  import Text

  /** An option matches a search when its lower-cased text contains the lower-cased search. */
  function Matches(searchValue: string): string -> bool {
    (option: string) => Text.Contains(Text.Lower(option), Text.Lower(searchValue))
  }

  /** `filteredOptions`: every option for an empty search, else the matching ones in their order. */
  function FilteredOptions(options: seq<string>, searchValue: string): (shown: seq<string>)
    ensures IsSubsequence(shown, options)
    ensures forall o :: o in shown <==> o in options && Text.Contains(Text.Lower(o), Text.Lower(searchValue))
  {
    if searchValue == "" then
      EmptySearchShowsAll(options);
      options
    else
      Filter(options, Matches(searchValue))
  }

  /** The shortcut for an empty search agrees with filtering: every text contains "". */
  lemma EmptySearchShowsAll(options: seq<string>)
    ensures Filter(options, Matches("")) == options
    ensures forall o :: Text.Contains(Text.Lower(o), Text.Lower(""))
  {
    forall o: string ensures Text.Contains(Text.Lower(o), Text.Lower("")) {
      Text.ContainsEmpty(Text.Lower(o));
    }
    FilterKeepsAll(options, Matches(""));
  }

  /** The search ignores letter case. */
  lemma SearchIgnoresCase(options: seq<string>, searchValue: string)
    ensures FilteredOptions(options, Text.Lower(searchValue)) == FilteredOptions(options, searchValue)
  {
    Text.LowerIdempotent(searchValue);
    if searchValue != "" {
      assert Text.Lower(searchValue) != "";
      assert Matches(Text.Lower(searchValue)) == Matches(searchValue);
    }
  }

  /** A longer search never shows more: the options shown for `search + more` are among those shown for `search`. */
  lemma NarrowingSearch(options: seq<string>, search: string, more: string)
    ensures IsSubsequence(FilteredOptions(options, search + more), FilteredOptions(options, search))
  {
    var longer := search + more;
    if longer == "" {
      assert search == "";
    } else if search == "" {
      assert FilteredOptions(options, search) == options;
    } else {
      forall i | 0 <= i < |options| && Matches(longer)(options[i]) ensures Matches(search)(options[i]) {
        var low := Text.Lower(options[i]);
        assert Text.Lower(longer) == Text.Lower(search) + Text.Lower(more) by {
          Text.LowerConcat(search, more);
        }
        Text.ContainsPrefix(low, Text.Lower(search), Text.Lower(more));
      }
      FilterMonotone(options, Matches(longer), Matches(search));
    }
  }

  /** `(item) => item !== option`. */
  function NotEqualTo(option: string): string -> bool {
    (item: string) => item != option
  }

  /** `handleRemove`: the selection without any copy of `option`. */
  function HandleRemove(selected: seq<string>, option: string): (next: seq<string>)
    ensures IsSubsequence(next, selected)
    ensures forall x :: x in next <==> x in selected && x != option
  {
    Filter(selected, NotEqualTo(option))
  }

  /** `handleSelect`: drop `option` when it is selected, append it otherwise. */
  function HandleSelect(selected: seq<string>, option: string): (next: seq<string>)
    ensures option in next <==> option !in selected
    ensures forall x :: x != option ==> (x in next <==> x in selected)
    ensures option !in selected ==> next == selected + [option]
    ensures option in selected ==> next == HandleRemove(selected, option)
  {
    if option in selected then HandleRemove(selected, option) else selected + [option]
  }

  /** Toggling keeps a selection free of duplicates. */
  lemma SelectKeepsNoDuplicates(selected: seq<string>, option: string)
    requires NoDuplicates(selected)
    ensures NoDuplicates(HandleSelect(selected, option))
  {
    if option in selected {
      FilterNoDuplicates(selected, NotEqualTo(option));
    }
  }

  /** Selecting a new tag and then selecting it again gives back the selection as it was. */
  lemma SelectTwiceRestores(selected: seq<string>, option: string)
    requires option !in selected
    ensures HandleSelect(HandleSelect(selected, option), option) == selected
  {
    FilterConcat(selected, [option], NotEqualTo(option));
    FilterKeepsAll(selected, NotEqualTo(option));
    assert Filter([option], NotEqualTo(option)) == [];
  }

  /** Removing a selected tag is what selecting it does. */
  lemma RemoveIsDeselect(selected: seq<string>, option: string)
    requires option in selected
    ensures HandleRemove(selected, option) == HandleSelect(selected, option)
  {
  }

  /** The component's own state: whether the popover is open, and the search text. */
  class TagPicker {
    var open: bool
    var searchValue: string

    constructor ()
      ensures !open && searchValue == ""
    {
      open := false;
      searchValue := "";
    }

    /** The options the list shows. */
    function Shown(options: seq<string>): seq<string>
      reads this
    {
      FilteredOptions(options, searchValue)
    }

    /** The popover's `onOpenChange`. */
    method SetOpen(value: bool)
      modifies this
      ensures open == value && searchValue == old(searchValue)
    {
      open := value;
    }

    /** The search box's `onValueChange`. */
    method SetSearchValue(value: string)
      modifies this
      ensures searchValue == value && open == old(open)
    {
      searchValue := value;
    }
  }
}

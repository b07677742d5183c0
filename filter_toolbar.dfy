/**
 * The filter toolbar above a table: the chips it shows for the active
 * filters, the open/closed state of its filter modal, and when its filter
 * button and modal are available. The toolbar and the filter panel of the
 * table module share this logic.
 */
module FilterToolbar {
  import opened Wrappers
  import opened JsValues
  import Seqs

  datatype FilterOption = FilterOption(id: int, name: string)

  /** An entry of `filteredList`: its label (`caption`), the filter name and its options. */
  datatype FilterItem = FilterItem(caption: string, name: string, options: seq<FilterOption>)

  /** `ActiveFilter`: the filter key, the item label (`caption`) and the option name. */
  datatype Chip = Chip(key: string, caption: string, optionName: string)

  /** `Object.entries(filters)` */
  type Entries = seq<(string, Value)>

  /** What the modal hands to `onFilter`. */
  datatype FilterData = FilterData(name: string, value: Value)

  /** `filteredList.find(item => item.name === key)`, as an index. */
  function FindItem(list: seq<FilterItem>, key: string): (r: Option<nat>)
    ensures r.Some? ==> r.value < |list| && list[r.value].name == key
    ensures r.Some? ==> forall j :: 0 <= j < r.value ==> list[j].name != key
    ensures r.None? ==> forall j :: 0 <= j < |list| ==> list[j].name != key
  {
    if list == [] then None
    else if list[0].name == key then Some(0)
    else match FindItem(list[1..], key)
      case Some(i) => Some(i + 1)
      case None => None
  }

  /** `options.find(opt => opt.id === Number(value))`, as an index. */
  function FindOption(options: seq<FilterOption>, value: Value): (r: Option<nat>)
    ensures r.Some? ==> r.value < |options| && ToNumber(value) == Num(options[r.value].id)
    ensures r.Some? ==> forall j :: 0 <= j < r.value ==> ToNumber(value) != Num(options[j].id)
    ensures r.None? ==> forall j :: 0 <= j < |options| ==> ToNumber(value) != Num(options[j].id)
  {
    if options == [] then None
    else if ToNumber(value) == Num(options[0].id) then Some(0)
    else match FindOption(options[1..], value)
      case Some(i) => Some(i + 1)
      case None => None
  }

  /** The chip one filter entry contributes: only for a truthy value whose
      first catalogue item of that name has an option with that id. */
  function ChipFor(list: seq<FilterItem>, entry: (string, Value)): (r: Option<Chip>)
    ensures r.Some? <==>
      Truthy(entry.1) && FindItem(list, entry.0).Some?
      && FindOption(list[FindItem(list, entry.0).value].options, entry.1).Some?
    ensures r.Some? ==>
      var item := list[FindItem(list, entry.0).value];
      r.value == Chip(entry.0, item.caption, item.options[FindOption(item.options, entry.1).value].name)
  {
    if !Truthy(entry.1) then None
    else match FindItem(list, entry.0)
      case None => None
      case Some(i) =>
        match FindOption(list[i].options, entry.1)
        case None => None
        case Some(j) => Some(Chip(entry.0, list[i].caption, list[i].options[j].name))
  }

  function ChipOf(list: seq<FilterItem>): ((string, Value)) -> Option<Chip>
  {
    e => ChipFor(list, e)
  }

  /** `activeFilters`: no chips without a catalogue or without filters;
      otherwise the chips of the entries, in entry order. */
  function ActiveFilters(filters: Option<Entries>, list: Option<seq<FilterItem>>): (chips: seq<Chip>)
    ensures filters.None? || list.None? ==> chips == []
  {
    if filters.None? || list.None? then []
    else Seqs.FilterMap(filters.value, ChipOf(list.value))
  }

  /** The `reduce` of `activeFilters`, pushing one chip per accepted entry. */
  method CollectChips(entries: Entries, list: seq<FilterItem>) returns (acc: seq<Chip>)
    ensures acc == ActiveFilters(Some(entries), Some(list))
  {
    acc := [];
    var i := 0;
    while i < |entries|
      invariant 0 <= i <= |entries|
      invariant acc == Seqs.FilterMap(entries[..i], ChipOf(list))
    {
      var entry := entries[i];
      assert entries[..i + 1] == entries[..i] + [entry];
      Seqs.FilterMapSnoc(entries[..i], entry, ChipOf(list));
      var chip := ChipFor(list, entry);
      if chip.Some? {
        acc := acc + [chip.value];
      }
      i := i + 1;
    }
    assert entries[..i] == entries;
  }

  /** The chip's text: the item's label, a colon and a space, then the option's name. */
  function ChipText(c: Chip): (t: string)
    ensures |t| == |c.caption| + 2 + |c.optionName|
    ensures t[..|c.caption|] == c.caption && t[|c.caption|..|c.caption| + 2] == ": "
    ensures t[|c.caption| + 2..] == c.optionName
  {
    c.caption + ": " + c.optionName
  }

  /** Deleting a chip hands its key to `onFilterRemove`, when there is one. */
  function ChipDelete(c: Chip, hasOnFilterRemove: bool): (removed: Option<string>)
    ensures removed.Some? <==> hasOnFilterRemove
    ensures removed.Some? ==> removed.value == c.key
  {
    if hasOnFilterRemove then Some(c.key) else None
  }

  /** The filter button is disabled exactly when there are no filters. */
  function FilterButtonDisabled(filters: Option<Entries>): (disabled: bool)
    ensures disabled <==> filters.None?
  {
    if filters.Some? then false else true
  }

  /** The filter modal is mounted exactly when there are filters. */
  function FilterModalMounted(filters: Option<Entries>): (mounted: bool)
    ensures mounted <==> filters.Some?
  {
    filters.Some?
  }

  /** The toolbar's own state: whether its filter modal is open. */
  class FilterPanel {
    var openSearchModal: bool

    constructor ()
      ensures !openSearchModal
    {
      openSearchModal := false;
    }

    /** The modal shows when it is mounted and open. */
    function ModalShown(filters: Option<Entries>): bool
      reads this
    {
      FilterModalMounted(filters) && openSearchModal
    }

    /** `handleToggleSearchModal` */
    method Toggle()
      modifies this
      ensures openSearchModal == !old(openSearchModal)
    {
      openSearchModal := !openSearchModal;
    }

    /** `handleFilter`: the data goes to `onFilter`, when there is one, and the
        modal closes. */
    method HandleFilter(data: FilterData, hasOnFilter: bool) returns (forwarded: Option<FilterData>)
      modifies this
      ensures !openSearchModal
      ensures forwarded == if hasOnFilter then Some(data) else None
    {
      forwarded := if hasOnFilter then Some(data) else None;
      openSearchModal := false;
    }
  }

  // ---------------------------------------------------------------------------
  // Lemmas

  /** Chips follow the order of the filter entries: each comes from one
      entry, carries that entry's key, and no entry gives more than one. */
  lemma ChipsFollowEntries(entries: Entries, list: seq<FilterItem>) returns (idx: seq<nat>)
    ensures var chips := ActiveFilters(Some(entries), Some(list));
      && |chips| <= |entries| && |idx| == |chips|
      && (forall j :: 0 <= j < |idx| ==> idx[j] < |entries| && ChipFor(list, entries[idx[j]]) == Some(chips[j]))
      && (forall j :: 0 <= j < |idx| ==> chips[j].key == entries[idx[j]].0)
      && (forall j, j' :: 0 <= j < j' < |idx| ==> idx[j] < idx[j'])
      && (forall i :: 0 <= i < |entries| && ChipFor(list, entries[i]).Some? ==> exists j :: 0 <= j < |idx| && idx[j] == i)
  {
    idx := Seqs.FilterMapSelects(entries, ChipOf(list));
  }

  /** Object entries have distinct keys, and so do the chips. */
  lemma ChipKeysDistinct(entries: Entries, list: seq<FilterItem>)
    requires forall i, j :: 0 <= i < j < |entries| ==> entries[i].0 != entries[j].0
    ensures var chips := ActiveFilters(Some(entries), Some(list));
      forall j, j' :: 0 <= j < j' < |chips| ==> chips[j].key != chips[j'].key
  {
    var idx := ChipsFollowEntries(entries, list);
  }

  /** A falsy value gives no chip, whatever the catalogue. */
  lemma FalsyValueNoChip(list: seq<FilterItem>, key: string, value: Value)
    requires !Truthy(value)
    ensures ChipFor(list, (key, value)) == None
  {
  }

  /** The button and the modal go together: the button is enabled exactly when
      the modal is mounted. */
  lemma ButtonMatchesModal(filters: Option<Entries>)
    ensures FilterButtonDisabled(filters) <==> !FilterModalMounted(filters)
  {
  }
}

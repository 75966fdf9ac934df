/** `HistoryViewController`: which history entries each segment of the control shows. */
module HistoryScreen {
  import opened Seqs
  import opened DataManager

  function AddedFilter(): HistoryItem -> bool { (h: HistoryItem) => h.action == Added }
  function RemovedFilter(): HistoryItem -> bool { (h: HistoryItem) => h.action == Removed }

  /**
   * The selection in `filterHistoryItems()`: segment 0 keeps the `.added`
   * entries, segment 1 the `.removed` entries, any other segment everything;
   * the order is always that of the full list.
   */
  function HistoryForSegment(all: seq<HistoryItem>, segment: int): (shown: seq<HistoryItem>)
    ensures IsSubsequence(shown, all)
    ensures segment == 0 ==> forall h :: multiset(shown)[h] == if h.action == Added then multiset(all)[h] else 0
    ensures segment == 1 ==> forall h :: multiset(shown)[h] == if h.action == Removed then multiset(all)[h] else 0
    ensures segment != 0 && segment != 1 ==> shown == all
  {
    match segment
    case 0 =>
      FilterIsSubsequence(all, AddedFilter());
      forall h ensures multiset(Filter(all, AddedFilter()))[h] == if h.action == Added then multiset(all)[h] else 0 {
        FilterMultiset(all, AddedFilter(), h);
      }
      Filter(all, AddedFilter())
    case 1 =>
      FilterIsSubsequence(all, RemovedFilter());
      forall h ensures multiset(Filter(all, RemovedFilter()))[h] == if h.action == Removed then multiset(all)[h] else 0 {
        FilterMultiset(all, RemovedFilter(), h);
      }
      Filter(all, RemovedFilter())
    case _ =>
      SubsequenceOfItself(all);
      all
  }

  lemma {:induction false} SubsequenceOfItself<T>(s: seq<T>)
    ensures IsSubsequence(s, s)
  {
    if s != [] {
      SubsequenceOfItself(s[..|s| - 1]);
    }
  }

  /** Segments 0 and 1 never show an `.updated` entry; every entry shown is in the full list. */
  lemma ShownEntries(all: seq<HistoryItem>, segment: int, h: HistoryItem)
    requires h in HistoryForSegment(all, segment)
    ensures h in all
    ensures segment == 0 ==> h.action == Added
    ensures segment == 1 ==> h.action == Removed
  {
    var shown := HistoryForSegment(all, segment);
    assert multiset(shown)[h] > 0;
  }

  /** An empty history shows nothing in any segment. */
  lemma EmptyHistoryShowsNothing(segment: int)
    ensures HistoryForSegment([], segment) == []
  {
  }

  class HistoryViewController {
    const store: FridgeDataManager
    var selectedSegmentIndex: int
    var allHistoryItems: seq<HistoryItem>
    var displayedHistoryItems: seq<HistoryItem>

    constructor (store: FridgeDataManager)
      ensures this.store == store && selectedSegmentIndex == 0
      ensures allHistoryItems == [] && displayedHistoryItems == []
    {
      this.store := store;
      selectedSegmentIndex := 0;
      allHistoryItems, displayedHistoryItems := [], [];
    }

    /** `filterHistoryItems()`. */
    method FilterHistoryItems()
      modifies this`displayedHistoryItems
      ensures displayedHistoryItems == HistoryForSegment(allHistoryItems, selectedSegmentIndex)
    {
      displayedHistoryItems := HistoryForSegment(allHistoryItems, selectedSegmentIndex);
    }

    /** `loadHistoryItems()`: take the stored history, then select. */
    method LoadHistoryItems()
      modifies this`allHistoryItems, this`displayedHistoryItems
      ensures allHistoryItems == store.LoadHistoryItems()
      ensures displayedHistoryItems == HistoryForSegment(allHistoryItems, selectedSegmentIndex)
    {
      allHistoryItems := store.LoadHistoryItems();
      FilterHistoryItems();
    }

    /** `segmentedControlValueChanged(_:)`, with the new selection as a parameter. */
    method SegmentedControlValueChanged(segment: int)
      modifies this`selectedSegmentIndex, this`displayedHistoryItems
      ensures selectedSegmentIndex == segment
      ensures displayedHistoryItems == HistoryForSegment(allHistoryItems, segment)
    {
      selectedSegmentIndex := segment;
      FilterHistoryItems();
    }

    /** The "Clear" action of `clearHistoryButtonTapped()`: store an empty history and reload. */
    method ClearHistory()
      modifies store, this`allHistoryItems, this`displayedHistoryItems
      ensures store.history == [] && store.historyCalls == old(store.historyCalls)
      ensures allHistoryItems == [] && displayedHistoryItems == []
    {
      store.SaveHistoryItems([]);
      LoadHistoryItems();
    }
  }
}

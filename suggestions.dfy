/**
 * `SuggestionsViewController`, the "Use Today" screen: three lists of dated
 * items (expired, due today, due in one or two days), their section titles,
 * the expiry text of a row, and the remove and update actions.
 */
module Suggestions {
  import opened Wrappers
  import opened FridgeItems
  import opened Expiry
  import opened Seqs
  import opened Text
  import opened DataManager

  // ----- The three buckets, in the input's order (before sorting) -----

  function ExpiredItems(items: seq<FridgeItem>, clock: Clock): seq<FridgeItem> {
    Filter(items, ExpiredFilter(clock))
  }

  function ExpiringTodayItems(items: seq<FridgeItem>, clock: Clock): seq<FridgeItem> {
    Filter(items, TodayFilter(clock))
  }

  function ExpiringSoonItems(items: seq<FridgeItem>, clock: Clock): seq<FridgeItem> {
    Filter(items, SoonFilter(clock))
  }

  /** Which bucket an item lands in: fewer than 0 days, exactly 0, or 1 to 2; items without a date land nowhere. */
  lemma BucketMembership(items: seq<FridgeItem>, clock: Clock, x: FridgeItem)
    ensures x in ExpiredItems(items, clock) <==> x in items && x.expirationDate.Some? && DaysLeft(clock, x) < 0
    ensures x in ExpiringTodayItems(items, clock) <==> x in items && x.expirationDate.Some? && DaysLeft(clock, x) == 0
    ensures x in ExpiringSoonItems(items, clock) <==> x in items && x.expirationDate.Some? && 1 <= DaysLeft(clock, x) <= 2
  {
    FilterMembership(items, ExpiredFilter(clock), x);
    FilterMembership(items, TodayFilter(clock), x);
    FilterMembership(items, SoonFilter(clock), x);
  }

  /** An item without an expiration date is in none of the three lists. */
  lemma UndatedInNoBucket(items: seq<FridgeItem>, clock: Clock, x: FridgeItem)
    requires x.expirationDate.None?
    ensures x !in ExpiredItems(items, clock)
    ensures x !in ExpiringTodayItems(items, clock)
    ensures x !in ExpiringSoonItems(items, clock)
  {
    BucketMembership(items, clock, x);
  }

  /** No item is in two lists. */
  lemma BucketsDisjoint(items: seq<FridgeItem>, clock: Clock, x: FridgeItem)
    ensures !(x in ExpiredItems(items, clock) && x in ExpiringTodayItems(items, clock))
    ensures !(x in ExpiredItems(items, clock) && x in ExpiringSoonItems(items, clock))
    ensures !(x in ExpiringTodayItems(items, clock) && x in ExpiringSoonItems(items, clock))
  {
    BucketMembership(items, clock, x);
  }

  /** Together the three lists hold exactly the urgent items (dated, at most two days left), each as often as in the input. */
  lemma {:induction false} BucketsPartitionUrgent(items: seq<FridgeItem>, clock: Clock)
    ensures multiset(ExpiredItems(items, clock)) + multiset(ExpiringTodayItems(items, clock))
              + multiset(ExpiringSoonItems(items, clock))
            == multiset(Filter(items, UrgentFilter(clock)))
  {
    if items != [] {
      BucketsPartitionUrgent(items[..|items| - 1], clock);
    }
  }

  /** The three list lengths add up to the menu's urgent count. */
  lemma BucketSizesAddUp(items: seq<FridgeItem>, clock: Clock)
    ensures |ExpiredItems(items, clock)| + |ExpiringTodayItems(items, clock)| + |ExpiringSoonItems(items, clock)|
            == Count(items, UrgentFilter(clock))
  {
    BucketsPartitionUrgent(items, clock);
    FilterLength(items, UrgentFilter(clock));
    assert |multiset(Filter(items, UrgentFilter(clock)))| == |Filter(items, UrgentFilter(clock))|;
  }

  // ----- The detail text of a row -----

  /** `formatExpirationText(for:)`. */
  function FormatExpirationText(item: FridgeItem, clock: Clock): (text: string)
    ensures text == "" <==> item.expirationDate.None?
  {
    match item.expirationDate
    case None => ""
    case Some(date) =>
      var daysUntilExpiration := clock.daysUntil(date);
      if daysUntilExpiration < 0 then
        var daysExpired := -daysUntilExpiration;
        "Expired " + NatToString(daysExpired) + " day" + (if daysExpired == 1 then "" else "s") + " ago"
      else if daysUntilExpiration == 0 then
        "Expires today"
      else
        "Expires in " + NatToString(daysUntilExpiration) + " day" + (if daysUntilExpiration == 1 then "" else "s")
  }

  /** The text for each number of days: "day" only for exactly one day, past or future. */
  lemma FormatExpirationTextCases(item: FridgeItem, clock: Clock)
    requires item.expirationDate.Some?
    ensures var n := DaysLeft(clock, item);
            var text := FormatExpirationText(item, clock);
            && (n == -1 ==> text == "Expired 1 day ago")
            && (n < -1 ==> text == "Expired " + NatToString(-n) + " days ago")
            && (n == 0 ==> text == "Expires today")
            && (n == 1 ==> text == "Expires in 1 day")
            && (n > 1 ==> text == "Expires in " + NatToString(n) + " days")
  {
    var n := DaysLeft(clock, item);
    var text := FormatExpirationText(item, clock);
    if n == -1 || n == 1 {
      assert NatToString(1) == "1";
    }
    if n < -1 {
      assert text == "Expired " + NatToString(-n) + " day" + "s" + " ago";
    } else if n > 1 {
      assert text == "Expires in " + NatToString(n) + " day" + "s";
    }
  }

  /** Facts about the shape of the text that pin down the number of days. */
  lemma FormatExpirationTextShape(item: FridgeItem, clock: Clock)
    requires item.expirationDate.Some?
    ensures var n := DaysLeft(clock, item);
            var text := FormatExpirationText(item, clock);
            && |text| > 11
            && (text[6] == 'd' <==> n < 0)
            && (n >= 0 ==> (text[8] == 't' <==> n == 0))
            && (n < 0 ==> LeadingDigits(text[8..]) == NatToString(-n))
            && (n > 0 ==> LeadingDigits(text[11..]) == NatToString(n))
  {
    var n := DaysLeft(clock, item);
    var text := FormatExpirationText(item, clock);
    if n < 0 {
      var digits := NatToString(-n);
      var rest := " day" + (if -n == 1 then "" else "s") + " ago";
      assert text == "Expired " + (digits + rest);
      assert text[8..] == digits + rest;
      LeadingDigitsOf(digits, rest);
    } else if n > 0 {
      var digits := NatToString(n);
      var rest := " day" + (if n == 1 then "" else "s");
      assert text == "Expires in " + (digits + rest);
      assert text[11..] == digits + rest;
      LeadingDigitsOf(digits, rest);
    }
  }

  /** Different numbers of days always give different texts, so the text determines the days. */
  lemma FormatExpirationTextInjective(x: FridgeItem, y: FridgeItem, clock: Clock)
    requires x.expirationDate.Some? && y.expirationDate.Some?
    requires FormatExpirationText(x, clock) == FormatExpirationText(y, clock)
    ensures DaysLeft(clock, x) == DaysLeft(clock, y)
  {
    FormatExpirationTextShape(x, clock);
    FormatExpirationTextShape(y, clock);
    var a, b := DaysLeft(clock, x), DaysLeft(clock, y);
    if a < 0 && b < 0 {
      NatToStringInjective(-a, -b);
    } else if a > 0 && b > 0 {
      NatToStringInjective(a, b);
    }
  }

  // ----- Finding and removing by id -----

  /** `firstIndex(where: { $0.id == id })`. */
  function FirstIndexWithId(items: seq<FridgeItem>, id: Id): (r: Option<nat>)
    ensures r.None? <==> forall k :: 0 <= k < |items| ==> items[k].id != id
    ensures r.Some? ==> r.value < |items| && items[r.value].id == id
    ensures r.Some? ==> forall k :: 0 <= k < r.value ==> items[k].id != id
  {
    if items == [] then None
    else if items[0].id == id then Some(0)
    else
      match FirstIndexWithId(items[1..], id)
      case None => None
      case Some(i) => Some(i + 1)
  }

  /** `remove(at: i)`: one element fewer; those before `i` stay put, those after move down by one. */
  function RemoveAt(items: seq<FridgeItem>, i: nat): (r: seq<FridgeItem>)
    requires i < |items|
    ensures |r| == |items| - 1
    ensures forall k :: 0 <= k < i ==> r[k] == items[k]
    ensures forall k :: i <= k < |r| ==> r[k] == items[k + 1]
    ensures multiset(r) + multiset{items[i]} == multiset(items)
  {
    assert items == items[..i] + [items[i]] + items[i + 1..];
    items[..i] + items[i + 1..]
  }

  class SuggestionsViewController {
    const store: FridgeDataManager
    var expiredItems: seq<FridgeItem>
    var expiringTodayItems: seq<FridgeItem>
    var expiringSoonItems: seq<FridgeItem>

    constructor (store: FridgeDataManager)
      ensures this.store == store
      ensures expiredItems == [] && expiringTodayItems == [] && expiringSoonItems == []
    {
      this.store := store;
      expiredItems, expiringTodayItems, expiringSoonItems := [], [], [];
    }

    /** Each list is sorted by expiration date and holds exactly its bucket of `items`. */
    ghost predicate Categorized(items: seq<FridgeItem>, clock: Clock)
      reads this
    {
      && SortedByExpiration(expiredItems)
      && SortedByExpiration(expiringTodayItems)
      && SortedByExpiration(expiringSoonItems)
      && multiset(expiredItems) == multiset(ExpiredItems(items, clock))
      && multiset(expiringTodayItems) == multiset(ExpiringTodayItems(items, clock))
      && multiset(expiringSoonItems) == multiset(ExpiringSoonItems(items, clock))
    }

    /**
     * `categorizeItems(_:)`. The lists are emptied first, so the outcome depends
     * on `items` and the clock only, never on what the lists held before.
     */
    method CategorizeItems(items: seq<FridgeItem>, clock: Clock)
      modifies this`expiredItems, this`expiringTodayItems, this`expiringSoonItems
      ensures Categorized(items, clock)
    {
      expiredItems := [];
      expiringTodayItems := [];
      expiringSoonItems := [];
      for i := 0 to |items|
        invariant expiredItems == ExpiredItems(items[..i], clock)
        invariant expiringTodayItems == ExpiringTodayItems(items[..i], clock)
        invariant expiringSoonItems == ExpiringSoonItems(items[..i], clock)
      {
        var item := items[i];
        assert items[..i + 1] == items[..i] + [item];
        FilterSnoc(items[..i], item, ExpiredFilter(clock));
        FilterSnoc(items[..i], item, TodayFilter(clock));
        FilterSnoc(items[..i], item, SoonFilter(clock));
        if item.expirationDate.None? {
          continue;
        }
        var daysUntilExpiration := clock.daysUntil(item.expirationDate.value);
        if daysUntilExpiration < 0 {
          expiredItems := expiredItems + [item];
        } else if daysUntilExpiration == 0 {
          expiringTodayItems := expiringTodayItems + [item];
        } else if daysUntilExpiration <= 2 {
          expiringSoonItems := expiringSoonItems + [item];
        }
      }
      assert items[..|items|] == items;
      expiredItems := SortByExpiration(expiredItems);
      expiringTodayItems := SortByExpiration(expiringTodayItems);
      expiringSoonItems := SortByExpiration(expiringSoonItems);
    }

    /** `loadSuggestedItems()`: categorize what the store holds now. */
    method LoadSuggestedItems(clock: Clock)
      modifies this`expiredItems, this`expiringTodayItems, this`expiringSoonItems
      ensures Categorized(store.LoadFridgeItems(), clock)
    {
      var allItems := store.LoadFridgeItems();
      CategorizeItems(allItems, clock);
    }

    /** `getItemsForSection(_:)`: sections 0, 1 and 2 are the expired, today and soon lists. */
    function ItemsForSection(section: int): (items: seq<FridgeItem>)
      reads this
      ensures section == 0 ==> items == expiredItems
      ensures section == 1 ==> items == expiringTodayItems
      ensures section == 2 ==> items == expiringSoonItems
      ensures section < 0 || section > 2 ==> items == []
    {
      match section
      case 0 => expiredItems
      case 1 => expiringTodayItems
      case 2 => expiringSoonItems
      case _ => []
    }

    /** `getSectionTitle(for:)`: a section has a title exactly when it has items. */
    function SectionTitle(section: int): (title: string)
      reads this
      ensures title == "" <==> ItemsForSection(section) == []
    {
      match section
      case 0 => if expiredItems == [] then "" else "Already Expired"
      case 1 => if expiringTodayItems == [] then "" else "Expiring Today"
      case 2 => if expiringSoonItems == [] then "" else "Expiring in 1-2 Days"
      case _ => ""
    }

    /** `numberOfSections(in:)`: none when nothing is urgent, otherwise all three. */
    function NumberOfSections(): (n: nat)
      reads this
      ensures n == 0 <==> expiredItems == [] && expiringTodayItems == [] && expiringSoonItems == []
      ensures n == 0 || n == 3
    {
      var totalItems := |expiredItems| + |expiringTodayItems| + |expiringSoonItems|;
      if totalItems == 0 then 0 else 3
    }

    /** After categorizing, the screen is empty exactly when the menu's urgent count is zero. */
    lemma SectionsMatchUrgentCount(items: seq<FridgeItem>, clock: Clock)
      requires Categorized(items, clock)
      ensures NumberOfSections() == 0 <==> Count(items, UrgentFilter(clock)) == 0
    {
      BucketSizesAddUp(items, clock);
      assert |expiredItems| == |multiset(expiredItems)|;
      assert |expiringTodayItems| == |multiset(expiringTodayItems)|;
      assert |expiringSoonItems| == |multiset(expiringSoonItems)|;
      assert |ExpiredItems(items, clock)| == |multiset(ExpiredItems(items, clock))|;
      assert |ExpiringTodayItems(items, clock)| == |multiset(ExpiringTodayItems(items, clock))|;
      assert |ExpiringSoonItems(items, clock)| == |multiset(ExpiringSoonItems(items, clock))|;
    }

    /**
     * `removeItem(_:)`: when some stored item has this id, the first such item is
     * removed, the list is saved, one `.removed` call is recorded and the lists
     * are rebuilt; otherwise nothing happens.
     */
    method RemoveItem(item: FridgeItem, clock: Clock)
      modifies this`expiredItems, this`expiringTodayItems, this`expiringSoonItems, store, store.defaults
      ensures var before := old(store.LoadFridgeItems());
              var found := FirstIndexWithId(before, item.id);
              if found.None? then
                && store.defaults.entries == old(store.defaults.entries)
                && store.historyCalls == old(store.historyCalls)
                && store.history == old(store.history)
                && expiredItems == old(expiredItems)
                && expiringTodayItems == old(expiringTodayItems)
                && expiringSoonItems == old(expiringSoonItems)
              else
                && store.defaults.entries == SaveTo(old(store.defaults.entries), store.codec, RemoveAt(before, found.value))
                && store.historyCalls == old(store.historyCalls) + [HistoryCall(item, Removed)]
                && Categorized(store.LoadFridgeItems(), clock)
    {
      var allItems := store.LoadFridgeItems();
      match FirstIndexWithId(allItems, item.id)
      case None =>
      case Some(index) =>
        allItems := RemoveAt(allItems, index);
        store.SaveFridgeItems(allItems);
        store.AddHistoryItem(item, Removed);
        LoadSuggestedItems(clock);
    }

    /** `didUpdateItem(_:at:)`: the stored list with slot `index` replaced is saved, one `.updated` call is recorded and the lists are rebuilt. */
    method DidUpdateItem(item: FridgeItem, index: int, clock: Clock)
      requires 0 <= index < |store.LoadFridgeItems()|
      modifies this`expiredItems, this`expiringTodayItems, this`expiringSoonItems, store, store.defaults
      ensures store.defaults.entries
              == SaveTo(old(store.defaults.entries), store.codec, old(store.LoadFridgeItems())[index := item])
      ensures store.historyCalls == old(store.historyCalls) + [HistoryCall(item, Updated)]
      ensures Categorized(store.LoadFridgeItems(), clock)
    {
      var allItems := store.LoadFridgeItems();
      allItems := allItems[index := item];
      store.SaveFridgeItems(allItems);
      store.AddHistoryItem(item, Updated);
      LoadSuggestedItems(clock);
    }
  }
}

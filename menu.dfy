/** `MenuViewController`: the urgent-item counter on the "Use Today" button. */
module Menu {
  import opened Wrappers
  import opened FridgeItems
  import opened Expiry
  import opened Seqs
  import opened Text
  import opened DataManager
  import Notifications

  /** The loop in `updateSuggestionsButton()`: dated items with at most two days left, expired ones included. */
  method CountUrgentItems(allItems: seq<FridgeItem>, clock: Clock) returns (urgentCount: nat)
    ensures urgentCount == Count(allItems, UrgentFilter(clock))
    ensures urgentCount == Notifications.UrgentItemsCount(allItems, clock)
  {
    urgentCount := 0;
    for i := 0 to |allItems|
      invariant urgentCount == Count(allItems[..i], UrgentFilter(clock))
    {
      var item := allItems[i];
      assert allItems[..i + 1] == allItems[..i] + [item];
      CountSnoc(allItems[..i], item, UrgentFilter(clock));
      if item.expirationDate.None? {
        continue;
      }
      var daysUntilExpiration := clock.daysUntil(item.expirationDate.value);
      if daysUntilExpiration <= 2 {
        urgentCount := urgentCount + 1;
      }
    }
    assert allItems[..|allItems|] == allItems;
  }

  /** The button title for a count. */
  function SuggestionsTitle(urgentCount: nat): (title: string)
    ensures urgentCount == 0 ==> title == "Use Today"
    ensures urgentCount > 0 ==> title == "Use Today (" + NatToString(urgentCount) + ")"
  {
    if urgentCount > 0 then "Use Today (" + NatToString(urgentCount) + ")" else "Use Today"
  }

  /** Different counts give different titles, and the bare title means nothing is urgent. */
  lemma SuggestionsTitleInjective(a: nat, b: nat)
    requires SuggestionsTitle(a) == SuggestionsTitle(b)
    ensures a == b
  {
    if a > 0 && b > 0 {
      var ta, tb := SuggestionsTitle(a), SuggestionsTitle(b);
      var prefix := "Use Today (";
      assert ta == prefix + (NatToString(a) + ")");
      assert tb == prefix + (NatToString(b) + ")");
      assert ta[|prefix|..] == NatToString(a) + ")";
      assert tb[|prefix|..] == NatToString(b) + ")";
      LeadingDigitsOf(NatToString(a), ")");
      LeadingDigitsOf(NatToString(b), ")");
      NatToStringInjective(a, b);
    }
  }

  class MenuViewController {
    const store: FridgeDataManager
    /** `nil` stands for the outlet not being connected. */
    var suggestionsButtonTitle: Option<string>

    constructor (store: FridgeDataManager, title: Option<string>)
      ensures this.store == store && suggestionsButtonTitle == title
    {
      this.store := store;
      suggestionsButtonTitle := title;
    }

    /** `updateSuggestionsButton()`: nothing happens without a button; otherwise the title shows the count. */
    method UpdateSuggestionsButton(clock: Clock)
      modifies this`suggestionsButtonTitle
      ensures old(suggestionsButtonTitle).None? ==> suggestionsButtonTitle == None
      ensures old(suggestionsButtonTitle).Some? ==>
                suggestionsButtonTitle == Some(SuggestionsTitle(Count(store.LoadFridgeItems(), UrgentFilter(clock))))
    {
      if suggestionsButtonTitle.None? {
        return;
      }
      var allItems := store.LoadFridgeItems();
      var urgentCount := CountUrgentItems(allItems, clock);
      suggestionsButtonTitle := Some(SuggestionsTitle(urgentCount));
    }
  }
}

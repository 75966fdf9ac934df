/** `FridgeViewController`: the in-memory item list of the main screen and its persistence. */
module FridgeScreen {
  import opened FridgeItems
  import opened DataManager

  class FridgeViewController {
    const store: FridgeDataManager
    var fridgeItems: seq<FridgeItem>

    constructor (store: FridgeDataManager)
      ensures this.store == store && fridgeItems == []
    {
      this.store := store;
      fridgeItems := [];
    }

    /** The store holds exactly what the screen shows. */
    ghost predicate Persisted()
      reads this, store, store.defaults
    {
      store.LoadFridgeItems() == fridgeItems
    }

    /** `loadFridgeItems()`: the screen shows the store's contents. */
    method LoadFridgeItems()
      modifies this`fridgeItems
      ensures fridgeItems == store.LoadFridgeItems()
      ensures Persisted()
    {
      fridgeItems := store.LoadFridgeItems();
    }

    /** `saveFridgeItems()`: the whole list goes to the store; it reads back as shown when encoding succeeds. */
    method SaveFridgeItems()
      modifies store.defaults
      ensures store.defaults.entries == SaveTo(old(store.defaults.entries), store.codec, fridgeItems)
      ensures RoundTrips(store.codec) && store.codec.encode(fridgeItems).Some? ==> Persisted()
    {
      store.SaveFridgeItems(fridgeItems);
      if RoundTrips(store.codec) && store.codec.encode(fridgeItems).Some? {
        SaveThenLoad(old(store.defaults.entries), store.codec, fridgeItems);
      }
    }

    /** `didAddItem(_:)`: append, then save. */
    method DidAddItem(item: FridgeItem)
      modifies this`fridgeItems, store.defaults
      ensures |fridgeItems| == |old(fridgeItems)| + 1
      ensures fridgeItems[..|old(fridgeItems)|] == old(fridgeItems) && fridgeItems[|old(fridgeItems)|] == item
      ensures store.defaults.entries == SaveTo(old(store.defaults.entries), store.codec, fridgeItems)
      ensures RoundTrips(store.codec) && store.codec.encode(fridgeItems).Some? ==> Persisted()
    {
      fridgeItems := fridgeItems + [item];
      SaveFridgeItems();
    }

    /** `didUpdateItem(_:at:)`: replace slot `index` (which must exist), then save. */
    method DidUpdateItem(item: FridgeItem, index: int)
      requires 0 <= index < |fridgeItems|
      modifies this`fridgeItems, store.defaults
      ensures |fridgeItems| == |old(fridgeItems)| && fridgeItems[index] == item
      ensures forall k :: 0 <= k < |fridgeItems| && k != index ==> fridgeItems[k] == old(fridgeItems)[k]
      ensures store.defaults.entries == SaveTo(old(store.defaults.entries), store.codec, fridgeItems)
      ensures RoundTrips(store.codec) && store.codec.encode(fridgeItems).Some? ==> Persisted()
    {
      fridgeItems := fridgeItems[index := item];
      SaveFridgeItems();
    }
  }
}

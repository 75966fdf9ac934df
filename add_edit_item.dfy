/**
 * `AddEditItemViewController`: the form that creates an item, or replaces the
 * item at `itemIndex`, and saves the whole list.
 */
module AddEditItem {
  import opened Wrappers
  import opened FridgeItems
  import opened Text
  import opened DataManager

  /** The `guard`: a non-empty name and a quantity that `Int(_)` accepts. */
  predicate FormIsValid(nameText: Option<string>, quantityText: Option<string>) {
    && nameText.Some? && nameText.value != ""
    && quantityText.Some? && ParseInt(quantityText.value).Some?
  }

  /** Edit mode (`itemIndex` set) replaces that slot; add mode appends. */
  function ApplyEdit(items: seq<FridgeItem>, itemIndex: Option<int>, item: FridgeItem): (r: seq<FridgeItem>)
    requires itemIndex.Some? ==> 0 <= itemIndex.value < |items|
    ensures itemIndex.Some? ==> |r| == |items| && r[itemIndex.value] == item
    ensures itemIndex.Some? ==> forall k :: 0 <= k < |items| && k != itemIndex.value ==> r[k] == items[k]
    ensures itemIndex.None? ==> |r| == |items| + 1 && r[|items|] == item && r[..|items|] == items
  {
    match itemIndex
    case Some(index) => items[index := item]
    case None => items + [item]
  }

  /** Replacing a slot swaps one occurrence of the old element for the new one; appending adds one. */
  lemma ApplyEditMultiset(items: seq<FridgeItem>, itemIndex: Option<int>, item: FridgeItem)
    requires itemIndex.Some? ==> 0 <= itemIndex.value < |items|
    ensures itemIndex.None? ==> multiset(ApplyEdit(items, itemIndex, item)) == multiset(items) + multiset{item}
    ensures itemIndex.Some? ==>
              multiset(ApplyEdit(items, itemIndex, item)) + multiset{items[itemIndex.value]}
              == multiset(items) + multiset{item}
  {
    if itemIndex.Some? {
      var i := itemIndex.value;
      assert items == items[..i] + [items[i]] + items[i + 1..];
      assert ApplyEdit(items, itemIndex, item) == items[..i] + [item] + items[i + 1..];
    }
  }

  class AddEditItemViewController {
    const store: FridgeDataManager
    const uuids: UuidSource
    var existingItem: Option<FridgeItem>
    var itemIndex: Option<int>
    /** `nameTextField.text`, `quantityTextField.text`, `categoryTextField.text`. */
    var nameText: Option<string>
    var quantityText: Option<string>
    var categoryText: Option<string>
    /** `expirationSwitch.isOn` and `expirationDatePicker.date`. */
    var expirationSwitchOn: bool
    var pickerDate: Date

    constructor (store: FridgeDataManager, uuids: UuidSource, existingItem: Option<FridgeItem>, itemIndex: Option<int>)
      ensures this.store == store && this.uuids == uuids
      ensures this.existingItem == existingItem && this.itemIndex == itemIndex
      ensures nameText == None && quantityText == None && categoryText == None
      ensures !expirationSwitchOn
    {
      this.store := store;
      this.uuids := uuids;
      this.existingItem := existingItem;
      this.itemIndex := itemIndex;
      nameText, quantityText, categoryText := None, None, None;
      expirationSwitchOn, pickerDate := false, 0;
    }

    /**
     * `saveButtonTapped(_:)`. Returns the item built from the form, or `None`
     * when the `guard` rejects the form, in which case nothing changes. The item
     * gets a fresh id and `isFavorite == false` even when it replaces an
     * existing item; the category is the field's text, and `"Other"` only when
     * the field has no text at all.
     */
    method SaveButtonTapped() returns (saved: Option<FridgeItem>)
      requires uuids.Valid()
      requires FormIsValid(nameText, quantityText) && itemIndex.Some? ==>
                 0 <= itemIndex.value < |store.LoadFridgeItems()|
      modifies uuids, store.defaults
      ensures uuids.Valid()
      ensures saved.None? <==> !FormIsValid(nameText, quantityText)
      ensures saved.None? ==> store.defaults.entries == old(store.defaults.entries) && uuids.issued == old(uuids.issued)
      ensures saved.Some? ==>
                && saved.value.id !in old(uuids.issued)
                && saved.value.name == nameText.value
                && Some(saved.value.quantity) == ParseInt(quantityText.value)
                && saved.value.category == categoryText.GetOr("Other")
                && saved.value.expirationDate == (if expirationSwitchOn then Some(pickerDate) else None)
                && !saved.value.isFavorite
      ensures saved.Some? && existingItem.Some? && existingItem.value.id in old(uuids.issued) ==>
                saved.value.id != existingItem.value.id
      ensures saved.Some? ==>
                store.defaults.entries
                == SaveTo(old(store.defaults.entries), store.codec, ApplyEdit(old(store.LoadFridgeItems()), itemIndex, saved.value))
      ensures saved.Some? && RoundTrips(store.codec)
              && store.codec.encode(ApplyEdit(old(store.LoadFridgeItems()), itemIndex, saved.value)).Some? ==>
                store.LoadFridgeItems() == ApplyEdit(old(store.LoadFridgeItems()), itemIndex, saved.value)
      ensures store.historyCalls == old(store.historyCalls)
    {
      if !FormIsValid(nameText, quantityText) {
        return None;
      }
      var name := nameText.value;
      var quantity := ParseInt(quantityText.value).value;
      var category := categoryText.GetOr("Other");
      var expirationDate := if expirationSwitchOn then Some(pickerDate) else None;
      var newItem := NewFridgeItem(uuids, name, quantity, expirationDate, category);

      var allItems := store.LoadFridgeItems();
      allItems := ApplyEdit(allItems, itemIndex, newItem);
      store.SaveFridgeItems(allItems);
      if RoundTrips(store.codec) && store.codec.encode(allItems).Some? {
        SaveThenLoad(old(store.defaults.entries), store.codec, allItems);
      }
      saved := Some(newItem);
    }
  }
}

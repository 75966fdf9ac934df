/** The inventory record (`FridgeItem`) and the supply of fresh identifiers (`UUID()`). */
module FridgeItems {
  import opened Wrappers

  /** A `UUID`, abstracted to a number: only equality matters. */
  type Id = nat

  /** A `Date`: seconds since the reference date (sub-second precision is dropped). */
  type Date = int

  datatype FridgeItem = FridgeItem(
    id: Id,
    name: string,
    quantity: int,
    expirationDate: Option<Date>,
    category: string,
    isFavorite: bool)

  /** `UUID()`: every call yields an identifier never handed out before. */
  class UuidSource {
    var issued: set<Id>
    var next: nat

    ghost predicate Valid()
      reads this
    {
      forall u :: u in issued ==> u < next
    }

    constructor ()
      ensures Valid() && issued == {}
    {
      issued, next := {}, 0;
    }

    method NewId() returns (id: Id)
      requires Valid()
      modifies this
      ensures Valid()
      ensures id !in old(issued)
      ensures issued == old(issued) + {id}
    {
      id := next;
      issued, next := issued + {id}, next + 1;
    }
  }

  /**
   * `FridgeItem(name:quantity:expirationDate:category:isFavorite:)`: a fresh
   * id, the given fields, and the defaults `nil`, `"Other"` and `false`.
   */
  method NewFridgeItem(uuids: UuidSource, name: string, quantity: int,
                       expirationDate: Option<Date> := None,
                       category: string := "Other",
                       isFavorite: bool := false)
    returns (item: FridgeItem)
    requires uuids.Valid()
    modifies uuids
    ensures uuids.Valid()
    ensures item.id !in old(uuids.issued) && uuids.issued == old(uuids.issued) + {item.id}
    ensures item.name == name && item.quantity == quantity
    ensures item.expirationDate == expirationDate
    ensures item.category == category && item.isFavorite == isFavorite
  {
    var id := uuids.NewId();
    item := FridgeItem(id, name, quantity, expirationDate, category, isFavorite);
  }

  /** Construction with only a name and a quantity takes the defaults for the other fields. */
  method NewFridgeItemWithDefaults(uuids: UuidSource, name: string, quantity: int)
    returns (item: FridgeItem)
    requires uuids.Valid()
    modifies uuids
    ensures uuids.Valid() && item.id !in old(uuids.issued)
    ensures item.name == name && item.quantity == quantity
    ensures item.expirationDate == None && item.category == "Other" && !item.isFavorite
  {
    item := NewFridgeItem(uuids, name, quantity);
  }

  /** Two items constructed one after the other never share an id. */
  method TwoNewItemsHaveDistinctIds(uuids: UuidSource, first: string, second: string)
    returns (a: FridgeItem, b: FridgeItem)
    requires uuids.Valid()
    modifies uuids
    ensures uuids.Valid()
    ensures a.id != b.id
    ensures a.id !in old(uuids.issued) && b.id !in old(uuids.issued)
  {
    a := NewFridgeItem(uuids, first, 1);
    b := NewFridgeItem(uuids, second, 1);
  }

  /** `FridgeDataManager.predefinedCategories`: the categories the form suggests. */
  const PredefinedCategories: seq<string> := [
    "Dairy", "Meat", "Vegetables", "Fruits", "Beverages",
    "Snacks", "Frozen", "Condiments", "Grains", "Other"
  ]

  /** Ten categories, no two alike, ending with the default category `"Other"`. */
  lemma PredefinedCategoriesShape()
    ensures |PredefinedCategories| == 10
    ensures forall i, j :: 0 <= i < j < |PredefinedCategories| ==> PredefinedCategories[i] != PredefinedCategories[j]
    ensures PredefinedCategories[|PredefinedCategories| - 1] == "Other"
    ensures "Other" in PredefinedCategories
  {
  }
}

/**
 * `FridgeDataManager`: the whole item list persisted as one encoded blob
 * under one key of the settings store, plus the history calls the screens make.
 */
module DataManager {
  import opened Wrappers
  import opened FridgeItems
  import opened Defaults

  const FridgeItemsKey: string := "FridgeItems"

  /** `JSONEncoder().encode` and `JSONDecoder().decode` for `[FridgeItem]`; either may throw (`None`). */
  datatype Codec = Codec(
    encode: seq<FridgeItem> -> Option<Bytes>,
    decode: Bytes -> Option<seq<FridgeItem>>)

  /** Decoding what was encoded gives the list back. */
  ghost predicate RoundTrips(codec: Codec) {
    forall items :: codec.encode(items).Some? ==> codec.decode(codec.encode(items).value) == Some(items)
  }

  /**
   * `loadFridgeItems()`: the decoded list when the slot holds data that decodes,
   * and the empty list otherwise (no data, or a decoding error).
   */
  function LoadFrom(entries: map<string, Value>, codec: Codec): (items: seq<FridgeItem>)
    ensures DataFor(entries, FridgeItemsKey).None? ==> items == []
    ensures DataFor(entries, FridgeItemsKey).Some? && codec.decode(DataFor(entries, FridgeItemsKey).value).None?
            ==> items == []
    ensures DataFor(entries, FridgeItemsKey).Some? && codec.decode(DataFor(entries, FridgeItemsKey).value).Some?
            ==> items == codec.decode(DataFor(entries, FridgeItemsKey).value).value
    ensures items == [] || (DataFor(entries, FridgeItemsKey).Some? &&
                            codec.decode(DataFor(entries, FridgeItemsKey).value) == Some(items))
  {
    match DataFor(entries, FridgeItemsKey)
    case None => []
    case Some(data) =>
      match codec.decode(data)
      case Some(items) => items
      case None => []
  }

  /**
   * `saveFridgeItems(items)`: overwrite the slot with the encoding of the whole
   * list; when encoding throws, nothing is written.
   */
  function SaveTo(entries: map<string, Value>, codec: Codec, items: seq<FridgeItem>): (r: map<string, Value>)
    ensures codec.encode(items).None? ==> r == entries
    ensures codec.encode(items).Some? ==> FridgeItemsKey in r && r[FridgeItemsKey] == DataValue(codec.encode(items).value)
    ensures forall k :: k != FridgeItemsKey ==> (k in r <==> k in entries)
    ensures forall k :: k != FridgeItemsKey && k in r ==> r[k] == entries[k]
  {
    match codec.encode(items)
    case Some(data) => entries[FridgeItemsKey := DataValue(data)]
    case None => entries
  }

  /** Loading after a successful save yields exactly the saved list. */
  lemma SaveThenLoad(entries: map<string, Value>, codec: Codec, items: seq<FridgeItem>)
    requires RoundTrips(codec)
    requires codec.encode(items).Some?
    ensures LoadFrom(SaveTo(entries, codec, items), codec) == items
  {
  }

  /** Saving what was just loaded does not change what a later load returns, whether or not encoding succeeds. */
  lemma SaveLoadedIsStable(entries: map<string, Value>, codec: Codec)
    requires RoundTrips(codec)
    ensures LoadFrom(SaveTo(entries, codec, LoadFrom(entries, codec)), codec) == LoadFrom(entries, codec)
  {
  }

  /** Saving is idempotent: saving the same list twice leaves what saving it once leaves. */
  lemma SaveIdempotent(entries: map<string, Value>, codec: Codec, items: seq<FridgeItem>)
    ensures SaveTo(SaveTo(entries, codec, items), codec, items) == SaveTo(entries, codec, items)
  {
  }

  /** The action recorded with a history entry. */
  datatype HistoryAction = Added | Removed | Updated

  /** A history entry: a snapshot of the item, the action and its time. */
  datatype HistoryItem = HistoryItem(fridgeItem: FridgeItem, action: HistoryAction, timestamp: int)

  /** One call of `addHistoryItem(_:action:)`. */
  datatype HistoryCall = HistoryCall(item: FridgeItem, action: HistoryAction)

  /** The shared data manager over `UserDefaults.standard`. */
  class FridgeDataManager {
    const defaults: UserDefaults
    const codec: Codec
    /** What `loadHistoryItems()` returns and `saveHistoryItems(_:)` overwrites. */
    var history: seq<HistoryItem>
    /** Every `addHistoryItem(_:action:)` call, oldest first. */
    var historyCalls: seq<HistoryCall>

    constructor (defaults: UserDefaults, codec: Codec)
      ensures this.defaults == defaults && this.codec == codec
      ensures history == [] && historyCalls == []
    {
      this.defaults := defaults;
      this.codec := codec;
      history, historyCalls := [], [];
    }

    /** `loadFridgeItems()` on the current store: the decoded list, or the empty list when there is nothing to decode. */
    function LoadFridgeItems(): (items: seq<FridgeItem>)
      reads this, defaults
      ensures DataFor(defaults.entries, FridgeItemsKey).None? ==> items == []
      ensures DataFor(defaults.entries, FridgeItemsKey).Some? ==>
                match codec.decode(DataFor(defaults.entries, FridgeItemsKey).value)
                case None => items == []
                case Some(decoded) => items == decoded
    {
      LoadFrom(defaults.entries, codec)
    }

    method SaveFridgeItems(items: seq<FridgeItem>)
      modifies defaults
      ensures defaults.entries == SaveTo(old(defaults.entries), codec, items)
    {
      defaults.entries := SaveTo(defaults.entries, codec, items);
    }

    /**
     * Records the call. What the call does to the stored history (its format,
     * order and any cap) is not part of this model, so no clause constrains it.
     */
    method AddHistoryItem(item: FridgeItem, action: HistoryAction)
      modifies this
      ensures historyCalls == old(historyCalls) + [HistoryCall(item, action)]
    {
      historyCalls := historyCalls + [HistoryCall(item, action)];
    }

    /** `loadHistoryItems()`: what was last stored, unaffected by loading or saving items. */
    function LoadHistoryItems(): (items: seq<HistoryItem>)
      reads this
      ensures items == history
    {
      history
    }

    method SaveHistoryItems(items: seq<HistoryItem>)
      modifies this
      ensures history == items && historyCalls == old(historyCalls)
    {
      history := items;
    }
  }
}

/** `UserDefaults.standard`: the device's key-value settings store, shared by every manager. */
module Defaults {
  import opened Wrappers

  type Bytes = seq<bv8>

  /** What a key can hold: a `Data` blob, an integer or a boolean. */
  datatype Value = DataValue(data: Bytes) | IntValue(number: int) | BoolValue(flag: bool)

  class UserDefaults {
    var entries: map<string, Value>

    constructor (entries: map<string, Value>)
      ensures this.entries == entries
    {
      this.entries := entries;
    }
  }

  /** `data(forKey:)`: the blob under `key`, or `nil` when the key is missing or holds something else. */
  function DataFor(entries: map<string, Value>, key: string): (r: Option<Bytes>)
    ensures r.Some? <==> key in entries && entries[key].DataValue?
    ensures r.Some? ==> entries[key] == DataValue(r.value)
  {
    if key in entries && entries[key].DataValue? then Some(entries[key].data) else None
  }

  /** `integer(forKey:)`: the stored number, a boolean as 1 or 0, and 0 when nothing is stored. */
  function IntegerFor(entries: map<string, Value>, key: string): (n: int)
    ensures key !in entries ==> n == 0
    ensures key in entries && entries[key].IntValue? ==> n == entries[key].number
  {
    if key !in entries then 0
    else match entries[key]
      case IntValue(n) => n
      case BoolValue(b) => if b then 1 else 0
      case DataValue(_) => 0
  }

  /** `bool(forKey:)`: the stored flag, a number as non-zero, and `false` when nothing is stored. */
  function BoolFor(entries: map<string, Value>, key: string): (b: bool)
    ensures key !in entries ==> !b
    ensures key in entries && entries[key].BoolValue? ==> b == entries[key].flag
  {
    if key !in entries then false
    else match entries[key]
      case BoolValue(b) => b
      case IntValue(n) => n != 0
      case DataValue(_) => false
  }
}

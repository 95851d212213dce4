/** Item dumpers: the item as shown in a notification, and the item as used
    by circulation, where an item without call numbers inherits those of its
    holding. Every dump drops the entries whose value is falsy.
 */
module ItemDumpers {
  import opened Records

  const PidKey := "pid"
  const BarcodeKey := "barcode"
  const CallNumbersKey := "call_numbers"
  const LocationNameKey := "location_name"
  const LibraryNameKey := "library_name"
  const EnumerationKey := "enumerationAndChronology"
  const NameKey := "name"
  const CallNumberKey := "call_number"
  const SecondCallNumberKey := "second_call_number"

  /** The keys a notification dump may hold. */
  function NotificationKeys(): set<string>
  {
    {PidKey, BarcodeKey, CallNumbersKey, LocationNameKey, LibraryNameKey, EnumerationKey}
  }

  /** `key` holds `v` in the dump when `v` is truthy, and is absent otherwise. */
  predicate KeptIfTruthy(d: Record, key: string, v: Value)
  {
    (key in d <==> Truthy(v)) && (key in d ==> d[key] == v)
  }

  /** `ItemNotificationDumper.dump`: the item's pid, barcode, call numbers and
      enumeration, and the names of its location and library, each kept only
      when truthy. `callNumbers` is the item's computed call numbers;
      `location` and `library` are the item's location and its library. */
  function NotificationDump(item: Record, callNumbers: Value, location: Record, library: Record): (d: Record)
    ensures AllTruthy(d)
    ensures d.Keys <= NotificationKeys()
    ensures KeptIfTruthy(d, PidKey, Get(item, PidKey))
    ensures KeptIfTruthy(d, BarcodeKey, Get(item, BarcodeKey))
    ensures KeptIfTruthy(d, CallNumbersKey, callNumbers)
    ensures KeptIfTruthy(d, LocationNameKey, Get(location, NameKey))
    ensures KeptIfTruthy(d, LibraryNameKey, Get(library, NameKey))
    ensures KeptIfTruthy(d, EnumerationKey, Get(item, EnumerationKey))
  {
    var data := map[
      PidKey := Get(item, PidKey),
      BarcodeKey := Get(item, BarcodeKey),
      CallNumbersKey := callNumbers,
      LocationNameKey := Get(location, NameKey),
      LibraryNameKey := Get(library, NameKey),
      EnumerationKey := Get(item, EnumerationKey)];
    DropFalsy(data)
  }

  /** The item has no call number of its own, so it inherits the holding's. */
  predicate InheritsCallNumbers(r: Record)
  {
    !Truthy(Get(r, CallNumberKey)) && !Truthy(Get(r, SecondCallNumberKey))
  }

  /** `ItemCirculationDumper.dump`: the initial dump data updated with the
      item's own (reference-resolved) fields, falsy entries dropped; when the
      item has neither call number, both are taken from the holding, again
      only when truthy. `passed` is the caller's `data` after the call, which
      the source updates in place. */
  method CirculationDump(item: Record, data: Record, holding: Record) returns (passed: Record, d: Record)
    ensures passed == data + item
    ensures AllTruthy(d)
    ensures forall k :: k in item && Truthy(item[k]) ==> k in d && d[k] == item[k]
    ensures forall k :: k in data && k !in item && Truthy(data[k]) ==> k in d && d[k] == data[k]
    ensures forall k :: k in d && k != CallNumberKey && k != SecondCallNumberKey ==>
      k in passed && d[k] == passed[k]
    ensures !InheritsCallNumbers(passed) ==> d == DropFalsy(passed)
    ensures InheritsCallNumbers(passed) ==>
      KeptIfTruthy(d, CallNumberKey, Get(holding, CallNumberKey)) &&
      KeptIfTruthy(d, SecondCallNumberKey, Get(holding, SecondCallNumberKey))
  {
    passed := data + item;
    d := DropFalsy(passed);
    if CallNumberKey !in d && SecondCallNumberKey !in d {
      d := d[CallNumberKey := Get(holding, CallNumberKey)];
      d := d[SecondCallNumberKey := Get(holding, SecondCallNumberKey)];
      d := DropFalsy(d);
    }
  }
}

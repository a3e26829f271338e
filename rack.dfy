/**
 * The rack store (`useRack`): the devices mounted in the rack, the devices on offer grouped
 * by category, and the actions that move devices between those lists. The lists hold device
 * states; the category map is kept with the order of its keys, which is the order in which
 * `Object.keys`, `Object.values` and `for ... in` visit them.
 */
module Rack {
  import opened Wrappers
  import opened Numbers
  import opened Types
  import opened Outboard

  /** The name the actions give the rack list. */
  const RackName := "rack"
  const NegativeError := "Position cannot be negative"
  const RangeError := "Position cannot be out of range"
  const DefaultCategory := "uncategorized"

  function NotFound(device: Device, listName: string): string
  {
    "Device " + device.id + " not found in " + listName + " list"
  }

  function UnableToRemove(listName: string): string
  {
    "Unable to remove device from " + listName + " list"
  }

  function NotAvailable(category: string): string
  {
    "Category " + category + " not available"
  }

  /** The persisted state: `rackDevices`, and `availableDevices` as its key order and its map. */
  datatype Store = Store(rack: seq<Device>, order: seq<string>, lists: map<string, seq<Device>>)

  const Empty := Store([], [], map[])

  predicate Distinct(names: seq<string>)
  {
    forall i, j :: 0 <= i < j < |names| ==> names[i] != names[j]
  }

  /** The key order names every category of the map exactly once. */
  predicate WellFormed(s: Store)
  {
    Distinct(s.order) && (forall k :: k in s.order ==> k in s.lists) && (forall k :: k in s.lists ==> k in s.order)
  }

  /** Which array an action works on: the rack, or the list of one category. */
  datatype ListId = RackList | CategoryList(name: string)

  predicate Has(s: Store, l: ListId)
  {
    l.CategoryList? ==> l.name in s.lists
  }

  function ListOf(s: Store, l: ListId): seq<Device>
    requires Has(s, l)
  {
    match l
    case RackList => s.rack
    case CategoryList(k) => s.lists[k]
  }

  /** The store with one array replaced (the arrays are updated in place, so every other stays). */
  function WithList(s: Store, l: ListId, list: seq<Device>): (r: Store)
    requires Has(s, l)
    ensures r.order == s.order && r.lists.Keys == s.lists.Keys
  {
    match l
    case RackList => s.(rack := list)
    case CategoryList(k) => s.(lists := s.lists[k := list])
  }

  /** `findIndex` by device id. */
  function IndexOfId(list: seq<Device>, id: string): (r: int)
    ensures -1 <= r < |list|
    ensures r == -1 <==> forall i :: 0 <= i < |list| ==> list[i].id != id
    ensures r >= 0 ==> list[r].id == id && forall i :: 0 <= i < r ==> list[i].id != id
  {
    if list == [] then -1
    else if list[0].id == id then 0
    else
      var k := IndexOfId(list[1..], id);
      if k == -1 then -1 else k + 1
  }

  /** `list.splice(i, 1)` at an index of the list: the element at `i` leaves, the rest keep their order. */
  function TakenOut(list: seq<Device>, i: nat): (r: seq<Device>)
    requires i < |list|
    ensures |r| == |list| - 1
    ensures forall j :: 0 <= j < i ==> r[j] == list[j]
    ensures forall j :: i <= j < |r| ==> r[j] == list[j + 1]
  {
    list[..i] + list[i + 1..]
  }

  /** `list.splice(i, 0, x)`: a start past the end is clamped to the length, so `x` is appended. */
  function PutIn(list: seq<Device>, i: nat, x: Device): (r: seq<Device>)
    ensures |r| == |list| + 1
    ensures i < |list| ==> r[i] == x && r[..i] == list[..i] && r[i + 1..] == list[i..]
    ensures i >= |list| ==> r == list + [x]
  {
    if i < |list| then list[..i] + [x] + list[i..] else list + [x]
  }

  /** `checkBeforeMoveDevice`: a negative position, or one past the length, is refused. */
  function CheckPosition(list: seq<Device>, index: int): Option<string>
  {
    if index < 0 then Some(NegativeError)
    else if index > |list| then Some(RangeError)
    else None
  }

  /** What a move did: the store afterwards, and the message of the error it threw, if any. */
  datatype Moved = Moved(store: Store, error: Option<string>)

  /** The re-tag of `moveDevice`: into a named category other than the caller's device's own. */
  predicate Retags(toName: string, device: Device)
  {
    toName != RackName && device.category != toName
  }

  /**
   * `moveDevice`: the indices are checked first (-1, negative, past the length); then the
   * element at `fromIdx` is spliced out, which fails when `fromIdx` is the length; then, into
   * a named category other than `device`'s own, the removed device's `category` setter is
   * called, and its error escapes after the removal; then the device is spliced in at
   * `toIdx` of the destination as it is after the removal.
   */
  function Move(s: Store, from: ListId, fromIdx: int, to: ListId, toIdx: int, fromName: string, toName: string, device: Device): Moved
    requires Has(s, from) && Has(s, to)
  {
    var fromList := ListOf(s, from);
    var toList := ListOf(s, to);
    if fromIdx == -1 then Moved(s, Some(NotFound(device, fromName)))
    else if toIdx == -1 then Moved(s, Some(NotFound(device, toName)))
    else if CheckPosition(fromList, fromIdx).Some? then Moved(s, CheckPosition(fromList, fromIdx))
    else if CheckPosition(toList, toIdx).Some? then Moved(s, CheckPosition(toList, toIdx))
    else if fromIdx == |fromList| then Moved(s, Some(UnableToRemove(fromName)))
    else
      var removed := fromList[fromIdx];
      var taken := WithList(s, from, TakenOut(fromList, fromIdx));
      var retagged := if Retags(toName, device) then Apply(removed, NewCategory(Some(toName))) else Ok(removed);
      if retagged.Err? then Moved(taken, Some(retagged.message))
      else Moved(WithList(taken, to, PutIn(ListOf(taken, to), toIdx, retagged.value)), None)
  }

  /**
   * `moveDeviceToRack`: from the list of the device's category (which must be a key), at
   * the index of its id, into the rack at `toIdx`. Errors are caught and only logged.
   */
  function MoveToRack(s: Store, device: Device, toIdx: int): Moved
  {
    var from := device.category;
    if from !in s.lists then Moved(s, Some(NotAvailable(from)))
    else Move(s, CategoryList(from), IndexOfId(s.lists[from], device.id), RackList, toIdx, from, RackName, device)
  }

  /**
   * `reorderCategoryDevices`: unless `fromCategory` is "rack", the argument is replaced by the
   * device's category, whose list must exist; the element at `fromIdx` of that list, whatever
   * its id, goes to `toIdx` of the same list. Errors are caught and only logged.
   */
  function Reorder(s: Store, device: Device, fromIdx: int, toIdx: int, fromCategory: Option<string>): Moved
  {
    if fromCategory == Some(RackName) then Move(s, RackList, fromIdx, RackList, toIdx, RackName, RackName, device)
    else
      var c := device.category;
      if c !in s.lists then Moved(s, Some(NotAvailable(c)))
      else Move(s, CategoryList(c), fromIdx, CategoryList(c), toIdx, c, c, device)
  }

  /** `reorderRackDevices`. */
  function ReorderRack(s: Store, device: Device, fromIdx: int, toIdx: int): Moved
  {
    Reorder(s, device, fromIdx, toIdx, Some(RackName))
  }

  /**
   * `moveDeviceToCategory`: the source is the rack when `fromCategory` is "rack" and the
   * device's category's list otherwise; both that category and `toCategory` must be keys;
   * the device is looked up by id in the source. Errors are caught and only logged.
   */
  function MoveToCategory(s: Store, device: Device, toCategory: string, toIdx: int, fromCategory: Option<string>): Moved
  {
    var fromRack := fromCategory == Some(RackName);
    if !fromRack && device.category !in s.lists then Moved(s, Some(NotAvailable(device.category)))
    else if toCategory !in s.lists then Moved(s, Some(NotAvailable(toCategory)))
    else
      var from := if fromRack then RackList else CategoryList(device.category);
      var fromName := if fromRack then RackName else device.category;
      Move(s, from, IndexOfId(ListOf(s, from), device.id), CategoryList(toCategory), toIdx, fromName, toCategory, device)
  }

  /**
   * `moveDeviceBackToStore`: from the rack to the end of the device's category's list. When
   * the category is not a key, reading the length of its list throws outside any `try`
   * (`None`).
   */
  function MoveBackToStore(s: Store, device: Device): Option<Moved>
  {
    if device.category !in s.lists then None
    else Some(MoveToCategory(s, device, device.category, |s.lists[device.category]|, Some(RackName)))
  }

  /** The first of `keys` whose list holds a device with this id. */
  function FirstHolder(keys: seq<string>, lists: map<string, seq<Device>>, id: string): (r: Option<nat>)
    ensures r.Some? ==> r.value < |keys| && keys[r.value] in lists && IndexOfId(lists[keys[r.value]], id) != -1
    ensures r.Some? ==> forall j :: 0 <= j < r.value && keys[j] in lists ==> IndexOfId(lists[keys[j]], id) == -1
    ensures r.None? <==> forall j :: 0 <= j < |keys| && keys[j] in lists ==> IndexOfId(lists[keys[j]], id) == -1
  {
    if keys == [] then None
    else if keys[0] in lists && IndexOfId(lists[keys[0]], id) != -1 then Some(0)
    else
      var r := FirstHolder(keys[1..], lists, id);
      if r.None? then None else Some(r.value + 1)
  }

  /**
   * `removeDevice`: nothing for a stock device; otherwise the first id match is spliced out
   * of the first category, in key order, that has one. The rack is never searched.
   */
  function Remove(s: Store, device: Device): Store
  {
    if device.stock then s
    else
      var holder := FirstHolder(s.order, s.lists, device.id);
      if holder.None? then s
      else
        var k := s.order[holder.value];
        s.(lists := s.lists[k := TakenOut(s.lists[k], IndexOfId(s.lists[k], device.id))])
  }

  /** The total length of the lists of `keys`, in order. */
  function SumLengths(keys: seq<string>, lists: map<string, seq<Device>>): nat
  {
    if keys == [] then 0
    else (if keys[0] in lists then |lists[keys[0]]| else 0) + SumLengths(keys[1..], lists)
  }

  /** The `totalDevices` getter: every category list, plus the rack. */
  function TotalDevices(s: Store): nat
  {
    SumLengths(s.order, s.lists) + |s.rack|
  }

  /** `Object.values(availableDevices).flat()`. */
  function Flat(keys: seq<string>, lists: map<string, seq<Device>>): seq<Device>
  {
    if keys == [] then []
    else (if keys[0] in lists then lists[keys[0]] else []) + Flat(keys[1..], lists)
  }

  /** `find` by id: the first device with the id. */
  function FindById(list: seq<Device>, id: string): (r: Option<Device>)
    ensures r.None? <==> forall i :: 0 <= i < |list| ==> list[i].id != id
    ensures r.Some? ==> r.value in list && r.value.id == id && r.value == list[IndexOfId(list, id)]
  {
    var i := IndexOfId(list, id);
    if i == -1 then None else Some(list[i])
  }

  /** The `rackDevice` getter. */
  function RackDevice(s: Store, id: string): Option<Device>
  {
    FindById(s.rack, id)
  }

  /** The `storeDevice` getter. */
  function StoreDevice(s: Store, id: string): Option<Device>
  {
    FindById(Flat(s.order, s.lists), id)
  }

  /** The `device` getter: the rack first, then the categories in key order. */
  function DeviceById(s: Store, id: string): Option<Device>
  {
    if RackDevice(s, id).Some? then RackDevice(s, id) else StoreDevice(s, id)
  }

  /** The configuration of `createNewDevice`, for the current device count. */
  function NewDeviceConfig(total: int): DeviceConfig
  {
    var name := "device-" + Decimal(total + 1);
    DeviceConfig(name, name, ColorText("transparent"), NoColor, NoColor, None, None, false,
                 Some(DefaultCategory), Controllers([], [], []), None)
  }

  /** `createNewDevice`, at clock reading `now`. */
  function NewDevice(s: Store, now: nat): Device
  {
    Build(NewDeviceConfig(TotalDevices(s)), now)
  }

  /** A configuration as the init loop stores it: a missing or empty category becomes "uncategorized". */
  function Defaulted(config: DeviceConfig): (r: DeviceConfig)
    ensures r.category.Some? && r.category.value == CategoryOr(config.category)
    ensures r.(category := config.category) == config
  {
    if config.category.Some? && config.category.value != "" then config
    else config.(category := Some(DefaultCategory))
  }

  /**
   * The grouping of `init` over configurations already in order: each device goes to the end
   * of its category's list, and a category is added as a key when first seen.
   */
  function Grouped(configs: seq<DeviceConfig>, now: nat): Store
    decreases |configs|
  {
    if configs == [] then Empty
    else
      var g := Grouped(configs[..|configs| - 1], now);
      var c := Defaulted(configs[|configs| - 1]);
      var k := c.category.value;
      var d := Build(c, now);
      if k in g.lists then g.(lists := g.lists[k := g.lists[k] + [d]])
      else g.(order := g.order + [k], lists := g.lists[k := [d]])
  }

  /** The devices of category `k` built from `configs`, in their order: the reference for `Grouped`. */
  function Members(configs: seq<DeviceConfig>, k: string, now: nat): seq<Device>
    decreases |configs|
  {
    if configs == [] then []
    else
      var c := Defaulted(configs[|configs| - 1]);
      Members(configs[..|configs| - 1], k, now) + (if c.category.value == k then [Build(c, now)] else [])
  }

  /**
   * A value of the persisted JSON, once parsed. `Config` is an object that reads as a device
   * configuration; `Record` is any other object. The constructor throws only on `null`; the
   * model treats every element that is not a configuration (`Scalar`, `List`, `Record`) as
   * throwing.
   */
  datatype Value =
    | Missing
    | Scalar
    | Config(config: DeviceConfig)
    | List(items: seq<Value>)
    | Record(keys: seq<string>, fields: map<string, Value>)

  function Field(fields: map<string, Value>, name: string): Value
  {
    if name in fields then fields[name] else Missing
  }

  /** `toJSON()` of each device. */
  function Jsons(list: seq<Device>): (r: seq<Value>)
    ensures |r| == |list|
    ensures forall i :: 0 <= i < |list| ==> r[i] == Config(DeviceJson(list[i]))
  {
    if list == [] then [] else [Config(DeviceJson(list[0]))] + Jsons(list[1..])
  }

  /** The persist serializer: every list through `toJSON()`, the category keys kept in their order. */
  function Serialize(s: Store): Value
  {
    Record(["rackDevices", "availableDevices"],
           map["rackDevices" := List(Jsons(s.rack)),
               "availableDevices" := Record(s.order, CategoryJsons(s))])
  }

  /** `new Outboard(d)` for each element (`None`: the constructor threw on one). */
  function BuildItems(items: seq<Value>, now: nat): Option<seq<Device>>
  {
    if items == [] then Some([])
    else if !items[0].Config? then None
    else
      var rest := BuildItems(items[1..], now);
      if rest.None? then None else Some([Build(items[0].config, now)] + rest.value)
  }

  /** An array is rebuilt device by device; anything else gives an empty list. */
  function ListFrom(v: Value, now: nat): Option<seq<Device>>
  {
    if v.List? then BuildItems(v.items, now) else Some([])
  }

  /** The category lists of `availableDevices`, rebuilt key by key in key order. */
  function CategoryLists(keys: seq<string>, fields: map<string, Value>, now: nat): Option<Store>
    decreases |keys|
  {
    if keys == [] then Some(Empty)
    else
      var before := CategoryLists(keys[..|keys| - 1], fields, now);
      var k := keys[|keys| - 1];
      var list := ListFrom(Field(fields, k), now);
      if before.None? || list.None? then None
      else if k in before.value.lists then Some(before.value.(lists := before.value.lists[k := list.value]))
      else Some(before.value.(order := before.value.order + [k], lists := before.value.lists[k := list.value]))
  }

  /**
   * The persist deserializer on the parsed text (`None`: `JSON.parse` threw). Anything but an
   * object gives empty collections (an array has neither field); a `rackDevices` that is not
   * an array gives no rack; an `availableDevices` that is not a non-array object gives no
   * categories; a category value that is not an array gives an empty list; and when a
   * constructor throws (here: on any element that is not a configuration), both collections are
   * empty. An `availableDevices` read as a configuration is not taken apart into keys.
   */
  function Deserialize(text: Option<Value>, now: nat): Store
  {
    if text.None? || !text.value.Record? then Empty
    else
      var raw := text.value.fields;
      var rack := ListFrom(Field(raw, "rackDevices"), now);
      var available := Field(raw, "availableDevices");
      var categories := if available.Record? then CategoryLists(available.keys, available.fields, now) else Some(Empty);
      if rack.None? || categories.None? then Empty
      else categories.value.(rack := rack.value)
  }

  /** A device as the deserializer rebuilds it from its `toJSON()`. */
  function Restore(d: Device, now: nat): Device
  {
    Build(DeviceJson(d), now)
  }

  function Rebuilt(list: seq<Device>, now: nat): seq<Device>
  {
    if list == [] then [] else [Restore(list[0], now)] + Rebuilt(list[1..], now)
  }

  // ---------------------------------------------------------------------------------------
  // moveDevice

  /** The indices `moveDevice` refuses before it changes anything. */
  predicate Refused(fromList: seq<Device>, fromIdx: int, toList: seq<Device>, toIdx: int)
  {
    fromIdx < 0 || toIdx < 0 || fromIdx >= |fromList| || toIdx > |toList|
  }

  /**
   * A refused move changes nothing and throws: the "not found" error for -1, the position
   * errors for other negative or too large indices, and "Unable to remove" when `fromIdx` is
   * the length, which the position check lets through.
   */
  lemma MoveRefused(s: Store, from: ListId, fromIdx: int, to: ListId, toIdx: int, fromName: string, toName: string, device: Device)
    requires Has(s, from) && Has(s, to)
    requires Refused(ListOf(s, from), fromIdx, ListOf(s, to), toIdx)
    ensures Move(s, from, fromIdx, to, toIdx, fromName, toName, device).store == s
    ensures Move(s, from, fromIdx, to, toIdx, fromName, toName, device).error.Some?
    ensures fromIdx == -1 ==> Move(s, from, fromIdx, to, toIdx, fromName, toName, device).error == Some(NotFound(device, fromName))
    ensures fromIdx != -1 && toIdx == -1 ==> Move(s, from, fromIdx, to, toIdx, fromName, toName, device).error == Some(NotFound(device, toName))
    ensures fromIdx == |ListOf(s, from)| && 0 <= toIdx <= |ListOf(s, to)|
            ==> Move(s, from, fromIdx, to, toIdx, fromName, toName, device).error == Some(UnableToRemove(fromName))
  {
  }

  /**
   * Between two different arrays, without a re-tag: the element at `fromIdx` leaves the
   * source and is inserted at `toIdx` of the destination; every other array is unchanged.
   */
  lemma MoveBetween(s: Store, from: ListId, fromIdx: int, to: ListId, toIdx: int, fromName: string, toName: string, device: Device)
    requires Has(s, from) && Has(s, to) && from != to
    requires !Refused(ListOf(s, from), fromIdx, ListOf(s, to), toIdx) && !Retags(toName, device)
    ensures var r := Move(s, from, fromIdx, to, toIdx, fromName, toName, device);
            var x := ListOf(s, from)[fromIdx];
            r.error.None? && Has(r.store, from) && Has(r.store, to)
            && ListOf(r.store, from) == TakenOut(ListOf(s, from), fromIdx)
            && ListOf(r.store, to) == PutIn(ListOf(s, to), toIdx, x)
            && r.store.order == s.order && r.store.lists.Keys == s.lists.Keys
            && forall l :: Has(s, l) && l != from && l != to ==> Has(r.store, l) && ListOf(r.store, l) == ListOf(s, l)
  {
  }

  /**
   * Within one array, without a re-tag: the element at `fromIdx` is taken out and put back
   * at `toIdx` of the shortened array, so `toIdx` equal to the old length appends it; the
   * array keeps its elements and every other array is unchanged.
   */
  lemma MoveWithin(s: Store, l: ListId, fromIdx: int, toIdx: int, fromName: string, toName: string, device: Device)
    requires Has(s, l)
    requires !Refused(ListOf(s, l), fromIdx, ListOf(s, l), toIdx) && !Retags(toName, device)
    ensures var r := Move(s, l, fromIdx, l, toIdx, fromName, toName, device);
            var list := ListOf(s, l);
            r.error.None? && Has(r.store, l)
            && r.store == WithList(s, l, PutIn(TakenOut(list, fromIdx), toIdx, list[fromIdx]))
            && ListOf(r.store, l) == PutIn(TakenOut(list, fromIdx), toIdx, list[fromIdx])
            && (toIdx == |list| ==> ListOf(r.store, l) == TakenOut(list, fromIdx) + [list[fromIdx]])
            && multiset(ListOf(r.store, l)) == multiset(list)
            && r.store.order == s.order && r.store.lists.Keys == s.lists.Keys
            && forall m :: Has(s, m) && m != l ==> Has(r.store, m) && ListOf(r.store, m) == ListOf(s, m)
  {
    var list := ListOf(s, l);
    var t := TakenOut(list, fromIdx);
    var p := PutIn(t, toIdx, list[fromIdx]);
    WithListFrame(s, l, t);
    WithListTwice(s, l, t, p);
    assert Move(s, l, fromIdx, l, toIdx, fromName, toName, device) == Moved(WithList(s, l, p), None);
    WithListFrame(s, l, p);
    ReinsertKeepsElements(list, fromIdx, toIdx);
  }

  /** Replacing one array gives it the new contents and leaves every other array as it was. */
  lemma WithListFrame(s: Store, l: ListId, list: seq<Device>)
    requires Has(s, l)
    ensures var r := WithList(s, l, list);
            Has(r, l) && ListOf(r, l) == list
            && forall m :: Has(s, m) && m != l ==> Has(r, m) && ListOf(r, m) == ListOf(s, m)
  {
  }

  /** Replacing the same array twice keeps only the second replacement. */
  lemma WithListTwice(s: Store, l: ListId, a: seq<Device>, b: seq<Device>)
    requires Has(s, l)
    ensures Has(WithList(s, l, a), l) && WithList(WithList(s, l, a), l, b) == WithList(s, l, b)
  {
  }

  /** Taking an element out and putting it back anywhere keeps the multiset of elements. */
  lemma ReinsertKeepsElements(list: seq<Device>, i: nat, j: nat)
    requires i < |list|
    ensures multiset(PutIn(TakenOut(list, i), j, list[i])) == multiset(list)
  {
    var t := TakenOut(list, i);
    assert list == list[..i] + [list[i]] + list[i + 1..];
    assert multiset(t) + multiset{list[i]} == multiset(list);
    if j < |t| {
      assert PutIn(t, j, list[i]) == t[..j] + [list[i]] + t[j..];
      assert t == t[..j] + t[j..];
    }
  }

  /**
   * Into a named category other than the caller's device's own, the re-tag goes through the
   * `category` setter, which refuses every non-empty name and every stock device: the element
   * at `fromIdx` has then left its array and is inserted nowhere, and the move throws.
   */
  lemma RetagLosesDevice(s: Store, from: ListId, fromIdx: int, to: ListId, toIdx: int, fromName: string, toName: string, device: Device)
    requires Has(s, from) && Has(s, to)
    requires !Refused(ListOf(s, from), fromIdx, ListOf(s, to), toIdx) && Retags(toName, device)
    requires toName != "" || ListOf(s, from)[fromIdx].stock
    ensures var r := Move(s, from, fromIdx, to, toIdx, fromName, toName, device);
            r.store == WithList(s, from, TakenOut(ListOf(s, from), fromIdx))
            && r.error == Some(if ListOf(s, from)[fromIdx].stock then StockError else NotValidError)
  {
  }

  // ---------------------------------------------------------------------------------------
  // Device counts

  lemma {:induction false} SumReplace(keys: seq<string>, lists: map<string, seq<Device>>, k: string, v: seq<Device>)
    requires Distinct(keys) && k in keys && k in lists
    ensures SumLengths(keys, lists[k := v]) + |lists[k]| == SumLengths(keys, lists) + |v|
  {
    assert Distinct(keys[1..]) by {
      forall i, j | 0 <= i < j < |keys[1..]| ensures keys[1..][i] != keys[1..][j] {
        assert keys[1..][i] == keys[i + 1] && keys[1..][j] == keys[j + 1];
      }
    }
    if keys[0] == k {
      assert k !in keys[1..] by {
        forall j | 0 <= j < |keys[1..]| ensures keys[1..][j] != k {
          assert keys[1..][j] == keys[j + 1];
        }
      }
      SumOther(keys[1..], lists, k, v);
    } else {
      assert k in keys[1..] by {
        var j :| 0 <= j < |keys| && keys[j] == k;
        assert keys[1..][j - 1] == k;
      }
      SumReplace(keys[1..], lists, k, v);
    }
  }

  lemma {:induction false} SumOther(keys: seq<string>, lists: map<string, seq<Device>>, k: string, v: seq<Device>)
    requires k !in keys
    ensures SumLengths(keys, lists[k := v]) == SumLengths(keys, lists)
  {
    if keys != [] {
      assert k !in keys[1..] by {
        forall j | 0 <= j < |keys[1..]| ensures keys[1..][j] != k {
          assert keys[1..][j] == keys[j + 1];
        }
      }
      SumOther(keys[1..], lists, k, v);
    }
  }

  lemma {:induction false} SumAppend(keys: seq<string>, lists: map<string, seq<Device>>, k: string)
    ensures SumLengths(keys + [k], lists) == SumLengths(keys, lists) + (if k in lists then |lists[k]| else 0)
  {
    if keys != [] {
      assert (keys + [k])[1..] == keys[1..] + [k];
      SumAppend(keys[1..], lists, k);
    } else {
      assert (keys + [k])[1..] == [];
    }
  }

  /** Replacing one array of a well-formed store changes the device count by the difference in length. */
  lemma TotalWithList(s: Store, l: ListId, list: seq<Device>)
    requires WellFormed(s) && Has(s, l)
    ensures TotalDevices(WithList(s, l, list)) + |ListOf(s, l)| == TotalDevices(s) + |list|
  {
    if l.CategoryList? {
      SumReplace(s.order, s.lists, l.name, list);
    }
  }

  /** Replacing an array of an existing key keeps a store well formed. */
  lemma WellFormedWithList(s: Store, l: ListId, list: seq<Device>)
    requires WellFormed(s) && Has(s, l)
    ensures WellFormed(WithList(s, l, list))
  {
  }

  /**
   * A move keeps the store well formed; one that throws nothing keeps the number of devices,
   * and one whose re-tag throws has lost exactly one.
   */
  lemma MoveCounts(s: Store, from: ListId, fromIdx: int, to: ListId, toIdx: int, fromName: string, toName: string, device: Device)
    requires WellFormed(s) && Has(s, from) && Has(s, to)
    ensures var r := Move(s, from, fromIdx, to, toIdx, fromName, toName, device);
            WellFormed(r.store)
            && (r.error.None? ==> TotalDevices(r.store) == TotalDevices(s))
            && (!Refused(ListOf(s, from), fromIdx, ListOf(s, to), toIdx) && r.error.Some? ==> TotalDevices(r.store) + 1 == TotalDevices(s))
  {
    var r := Move(s, from, fromIdx, to, toIdx, fromName, toName, device);
    if !Refused(ListOf(s, from), fromIdx, ListOf(s, to), toIdx) {
      var fromList := ListOf(s, from);
      var taken := WithList(s, from, TakenOut(fromList, fromIdx));
      TotalWithList(s, from, TakenOut(fromList, fromIdx));
      WellFormedWithList(s, from, TakenOut(fromList, fromIdx));
      if r.error.None? {
        var x := if Retags(toName, device) then Apply(fromList[fromIdx], NewCategory(Some(toName))).value else fromList[fromIdx];
        TotalWithList(taken, to, PutIn(ListOf(taken, to), toIdx, x));
        WellFormedWithList(taken, to, PutIn(ListOf(taken, to), toIdx, x));
      }
    }
  }

  // ---------------------------------------------------------------------------------------
  // The actions

  /** A category that is not a key makes the action throw, and the caught error changes nothing. */
  lemma UnknownCategoryChangesNothing(s: Store, device: Device, toCategory: string, fromIdx: int, toIdx: int, fromCategory: Option<string>)
    ensures device.category !in s.lists ==> MoveToRack(s, device, toIdx) == Moved(s, Some(NotAvailable(device.category)))
    ensures device.category !in s.lists && fromCategory != Some(RackName)
            ==> (Reorder(s, device, fromIdx, toIdx, fromCategory) == Moved(s, Some(NotAvailable(device.category)))
                 && MoveToCategory(s, device, toCategory, toIdx, fromCategory) == Moved(s, Some(NotAvailable(device.category))))
    ensures (device.category in s.lists || fromCategory == Some(RackName)) && toCategory !in s.lists
            ==> MoveToCategory(s, device, toCategory, toIdx, fromCategory) == Moved(s, Some(NotAvailable(toCategory)))
  {
  }

  /**
   * `moveDeviceToRack` of a device found in its category's list, at a position of the rack:
   * the device found by id leaves the category and is inserted at `toIdx` of the rack; nothing
   * else changes. A device that is not found throws the "not found" error and changes nothing.
   */
  lemma MoveToRackEffect(s: Store, device: Device, toIdx: int)
    requires device.category in s.lists
    ensures var list := s.lists[device.category];
            var i := IndexOfId(list, device.id);
            var r := MoveToRack(s, device, toIdx);
            (i == -1 ==> r == Moved(s, Some(NotFound(device, device.category))))
            && (i != -1 && 0 <= toIdx <= |s.rack| ==>
                  r.error.None? && list[i].id == device.id
                  && r.store == Store(PutIn(s.rack, toIdx, list[i]), s.order, s.lists[device.category := TakenOut(list, i)]))
  {
    var list := s.lists[device.category];
    var i := IndexOfId(list, device.id);
    if i != -1 && 0 <= toIdx <= |s.rack| {
      MoveBetween(s, CategoryList(device.category), i, RackList, toIdx, device.category, RackName, device);
    }
  }

  /**
   * `reorderCategoryDevices` moves the element at `fromIdx`, whatever its id, to `toIdx` of
   * the same list (the rack when "rack" is passed, the device's category's list otherwise);
   * no other list changes and the list keeps its elements.
   */
  lemma ReorderEffect(s: Store, device: Device, fromIdx: int, toIdx: int, fromCategory: Option<string>)
    requires fromCategory == Some(RackName) || device.category in s.lists
    ensures var l := if fromCategory == Some(RackName) then RackList else CategoryList(device.category);
            var list := ListOf(s, l);
            var r := Reorder(s, device, fromIdx, toIdx, fromCategory);
            (Refused(list, fromIdx, list, toIdx) ==> r.store == s && r.error.Some?)
            && (!Refused(list, fromIdx, list, toIdx) ==>
                  r.error.None? && r.store == WithList(s, l, PutIn(TakenOut(list, fromIdx), toIdx, list[fromIdx]))
                  && multiset(ListOf(r.store, l)) == multiset(list))
  {
    var l := if fromCategory == Some(RackName) then RackList else CategoryList(device.category);
    var name := if fromCategory == Some(RackName) then RackName else device.category;
    var list := ListOf(s, l);
    assert Reorder(s, device, fromIdx, toIdx, fromCategory) == Move(s, l, fromIdx, l, toIdx, name, name, device);
    if Refused(list, fromIdx, list, toIdx) {
      MoveRefused(s, l, fromIdx, l, toIdx, name, name, device);
    } else {
      MoveWithin(s, l, fromIdx, toIdx, name, name, device);
    }
  }

  /** `reorderRackDevices` reorders the rack and never touches the categories. */
  lemma ReorderRackEffect(s: Store, device: Device, fromIdx: int, toIdx: int)
    ensures var r := ReorderRack(s, device, fromIdx, toIdx);
            r.store.order == s.order && r.store.lists == s.lists
            && (!Refused(s.rack, fromIdx, s.rack, toIdx) ==> r.error.None? && r.store.rack == PutIn(TakenOut(s.rack, fromIdx), toIdx, s.rack[fromIdx]))
  {
    ReorderEffect(s, device, fromIdx, toIdx, Some(RackName));
  }

  /**
   * `moveDeviceToCategory` into a category other than the device's own, not empty and not
   * named "rack": the
   * device found by id is spliced out of its source and never inserted, and the setter's error
   * is only logged, so the store has one device fewer.
   */
  lemma CrossCategoryMoveLosesDevice(s: Store, device: Device, toCategory: string, toIdx: int, fromCategory: Option<string>)
    requires WellFormed(s)
    requires fromCategory == Some(RackName) || device.category in s.lists
    requires toCategory in s.lists && toCategory != device.category && toCategory != "" && toCategory != RackName
    requires 0 <= toIdx <= |s.lists[toCategory]|
    ensures var l := if fromCategory == Some(RackName) then RackList else CategoryList(device.category);
            var i := IndexOfId(ListOf(s, l), device.id);
            var r := MoveToCategory(s, device, toCategory, toIdx, fromCategory);
            i != -1 ==>
              r.store == WithList(s, l, TakenOut(ListOf(s, l), i))
              && r.error == Some(if ListOf(s, l)[i].stock then StockError else NotValidError)
              && TotalDevices(r.store) + 1 == TotalDevices(s)
  {
    var l := if fromCategory == Some(RackName) then RackList else CategoryList(device.category);
    var name := if fromCategory == Some(RackName) then RackName else device.category;
    var i := IndexOfId(ListOf(s, l), device.id);
    if i != -1 {
      RetagLosesDevice(s, l, i, CategoryList(toCategory), toIdx, name, toCategory, device);
      MoveCounts(s, l, i, CategoryList(toCategory), toIdx, name, toCategory, device);
    }
  }

  /**
   * `moveDeviceBackToStore` throws, uncaught, exactly when the device's category is not a key.
   * Otherwise a device found in the rack by id leaves the rack and is appended to its
   * category's list; nothing else changes.
   */
  lemma MoveBackToStoreEffect(s: Store, device: Device)
    ensures MoveBackToStore(s, device).None? <==> device.category !in s.lists
    ensures device.category in s.lists ==>
              var i := IndexOfId(s.rack, device.id);
              var r := MoveBackToStore(s, device).value;
              var list := s.lists[device.category];
              (i == -1 ==> r == Moved(s, Some(NotFound(device, RackName))))
              && (i != -1 ==> r.error.None? && r.store == Store(TakenOut(s.rack, i), s.order, s.lists[device.category := list + [s.rack[i]]]))
  {
    if device.category in s.lists {
      var i := IndexOfId(s.rack, device.id);
      var list := s.lists[device.category];
      if i != -1 {
        MoveBetween(s, RackList, i, CategoryList(device.category), |list|, RackName, device.category, device);
      }
    }
  }

  /**
   * `removeDevice`: a stock device changes nothing, and neither does one no category holds.
   * Otherwise only the first category in key order that holds the id changes, losing its
   * first device with that id; the rack is never touched.
   */
  lemma RemoveEffect(s: Store, device: Device)
    ensures device.stock ==> Remove(s, device) == s
    ensures Remove(s, device).rack == s.rack && Remove(s, device).order == s.order
    ensures !device.stock && FirstHolder(s.order, s.lists, device.id).None? ==> Remove(s, device) == s
    ensures !device.stock && FirstHolder(s.order, s.lists, device.id).Some? ==>
              var k := s.order[FirstHolder(s.order, s.lists, device.id).value];
              var list := s.lists[k];
              var i := IndexOfId(list, device.id);
              list[i].id == device.id
              && Remove(s, device).lists == s.lists[k := TakenOut(list, i)]
              && (WellFormed(s) ==> WellFormed(Remove(s, device)) && TotalDevices(Remove(s, device)) + 1 == TotalDevices(s))
  {
    var holder := FirstHolder(s.order, s.lists, device.id);
    if !device.stock && holder.Some? && WellFormed(s) {
      var k := s.order[holder.value];
      var list := s.lists[k];
      TotalWithList(s, CategoryList(k), TakenOut(list, IndexOfId(list, device.id)));
    }
  }

  // ---------------------------------------------------------------------------------------
  // The getters

  /** A device is in the flattened categories exactly when it is in one category's list. */
  lemma {:induction false} FlatMembers(keys: seq<string>, lists: map<string, seq<Device>>, d: Device)
    ensures d in Flat(keys, lists) <==> exists j :: 0 <= j < |keys| && keys[j] in lists && d in lists[keys[j]]
  {
    if keys != [] {
      FlatMembers(keys[1..], lists, d);
      if d in Flat(keys[1..], lists) {
        var j :| 0 <= j < |keys[1..]| && keys[1..][j] in lists && d in lists[keys[1..][j]];
        assert keys[j + 1] == keys[1..][j];
      }
      if exists j :: 0 <= j < |keys| && keys[j] in lists && d in lists[keys[j]] {
        var j :| 0 <= j < |keys| && keys[j] in lists && d in lists[keys[j]];
        if j > 0 {
          assert keys[1..][j - 1] == keys[j];
        }
      }
    }
  }

  /**
   * The `device` getter finds a device by id in the rack or, failing that, in the categories;
   * it finds nothing exactly when no list has a device with the id; and what it finds has
   * the id.
   */
  lemma DeviceGetter(s: Store, id: string)
    requires WellFormed(s)
    ensures RackDevice(s, id).Some? ==> DeviceById(s, id) == RackDevice(s, id)
    ensures DeviceById(s, id).Some? ==> DeviceById(s, id).value.id == id
    ensures DeviceById(s, id).None? <==>
              (forall d :: d in s.rack ==> d.id != id) && (forall k, d :: k in s.lists && d in s.lists[k] ==> d.id != id)
    ensures StoreDevice(s, id).Some? <==> exists k, d :: k in s.lists && d in s.lists[k] && d.id == id
  {
    var flat := Flat(s.order, s.lists);
    forall k, d | k in s.lists && d in s.lists[k]
      ensures d in flat
    {
      var j :| 0 <= j < |s.order| && s.order[j] == k;
      FlatMembers(s.order, s.lists, d);
    }
    if StoreDevice(s, id).Some? {
      var d := StoreDevice(s, id).value;
      FlatMembers(s.order, s.lists, d);
      var j :| 0 <= j < |s.order| && s.order[j] in s.lists && d in s.lists[s.order[j]];
      assert s.order[j] in s.lists && d in s.lists[s.order[j]] && d.id == id;
    }
    if exists k, d :: k in s.lists && d in s.lists[k] && d.id == id {
      var k, d :| k in s.lists && d in s.lists[k] && d.id == id;
      assert d in flat;
      var i :| 0 <= i < |flat| && flat[i] == d;
    }
  }

  /** `createNewDevice` gives a user device named after the device count, with no controllers. */
  lemma NewDeviceShape(s: Store, now: nat)
    ensures var d := NewDevice(s, now);
            var name := "device-" + Decimal(TotalDevices(s) + 1);
            d.id == name && d.caption == name && !d.stock && d.category == DefaultCategory
            && d.Controllers() == Controllers([], [], []) && d.backgroundColor == Color.Transparent
            && d.borderSize == 0 && d.style == Dark && d.channel == 1 && d.output.None?
            && d.key == name + Decimal(now)
  {
  }

  // ---------------------------------------------------------------------------------------
  // init

  /** A configuration's device goes to the list its category names, defaulted to "uncategorized". */
  lemma {:induction false} MembersHaveCategory(configs: seq<DeviceConfig>, k: string, now: nat)
    ensures forall d :: d in Members(configs, k, now) ==> d.category == k
    decreases |configs|
  {
    if configs != [] {
      MembersHaveCategory(configs[..|configs| - 1], k, now);
    }
  }

  /**
   * The grouping of `init` gives a well-formed store with no rack; its categories are exactly
   * those of the configurations, each list holding the devices of its category in input
   * order; and it holds one device per configuration.
   */
  lemma {:induction false} GroupedSpec(configs: seq<DeviceConfig>, now: nat)
    ensures var g := Grouped(configs, now);
            WellFormed(g) && g.rack == []
            && (forall k :: k in g.lists <==> Members(configs, k, now) != [])
            && (forall k :: k in g.lists ==> g.lists[k] == Members(configs, k, now))
            && SumLengths(g.order, g.lists) == |configs|
    decreases |configs|
  {
    if configs != [] {
      var init := configs[..|configs| - 1];
      GroupedSpec(init, now);
      var g := Grouped(init, now);
      var c := Defaulted(configs[|configs| - 1]);
      var k := c.category.value;
      var d := Build(c, now);
      assert forall j :: Members(configs, j, now) == Members(init, j, now) + (if c.category.value == j then [d] else []);
      if k in g.lists {
        AppendToCategory(g, k, d);
      } else {
        AddCategory(g, k, d);
      }
    }
  }

  /** A device appended to an existing category: the store stays well-formed and holds one more. */
  lemma AppendToCategory(g: Store, k: string, d: Device)
    requires WellFormed(g) && k in g.lists
    ensures var h := g.(lists := g.lists[k := g.lists[k] + [d]]);
            WellFormed(h) && SumLengths(h.order, h.lists) == SumLengths(g.order, g.lists) + 1
  {
    SumReplace(g.order, g.lists, k, g.lists[k] + [d]);
  }

  /** A new category added last with one device: the store stays well-formed and holds one more. */
  lemma AddCategory(g: Store, k: string, d: Device)
    requires WellFormed(g) && k !in g.lists
    ensures var h := g.(order := g.order + [k], lists := g.lists[k := [d]]);
            WellFormed(h) && SumLengths(h.order, h.lists) == SumLengths(g.order, g.lists) + 1
  {
    SumOther(g.order, g.lists, k, [d]);
    SumAppend(g.order, g.lists[k := [d]], k);
    assert Distinct(g.order + [k]) by {
      forall i, j | 0 <= i < j < |g.order + [k]| ensures (g.order + [k])[i] != (g.order + [k])[j] {
        if j == |g.order| {
          assert (g.order + [k])[i] == g.order[i];
        } else {
          assert (g.order + [k])[i] == g.order[i] && (g.order + [k])[j] == g.order[j];
        }
      }
    }
  }

  // ---------------------------------------------------------------------------------------
  // The persisted state

  lemma {:induction false} BuildJsons(list: seq<Device>, now: nat)
    ensures BuildItems(Jsons(list), now) == Some(Rebuilt(list, now))
  {
    if list != [] {
      BuildJsons(list[1..], now);
      assert Jsons(list)[1..] == Jsons(list[1..]);
      assert Rebuilt(list, now) == [Restore(list[0], now)] + Rebuilt(list[1..], now);
    }
  }

  /** The serialized categories: each list through `toJSON()`. */
  function CategoryJsons(s: Store): map<string, Value>
  {
    map k | k in s.lists :: List(Jsons(s.lists[k]))
  }

  function RebuiltLists(s: Store, now: nat): map<string, seq<Device>>
  {
    map k | k in s.lists :: Rebuilt(s.lists[k], now)
  }

  /** Each serialized category list reads back as the list rebuilt device by device. */
  lemma CategoryJsonsRead(s: Store, now: nat)
    ensures forall k :: k in s.lists ==> ListFrom(Field(CategoryJsons(s), k), now) == Some(Rebuilt(s.lists[k], now))
  {
    forall k | k in s.lists
      ensures ListFrom(Field(CategoryJsons(s), k), now) == Some(Rebuilt(s.lists[k], now))
    {
      BuildJsons(s.lists[k], now);
    }
  }

  lemma RebuiltListsMatch(s: Store, now: nat)
    requires WellFormed(s) && CategoryLists(s.order, CategoryJsons(s), now).Some?
    ensures CategoryLists(s.order, CategoryJsons(s), now).value.lists == RebuiltLists(s, now)
  {
    var fields := CategoryJsons(s);
    CategoryJsonsRead(s, now);
    CategoryListsStore(s.order, fields, now);
    var r := CategoryLists(s.order, fields, now).value;
    var m := RebuiltLists(s, now);
    forall k
      ensures k in r.lists <==> k in m
    {
      assert k in m <==> k in s.lists;
      assert k in r.lists <==> k in s.order;
    }
    forall k | k in m
      ensures r.lists[k] == m[k]
    {
      assert ListFrom(Field(fields, k), now) == Some(Rebuilt(s.lists[k], now));
    }
  }

  /** Reading back the serialized categories restores the key order and rebuilds every list. */
  lemma CategoriesRoundTrip(s: Store, now: nat)
    requires WellFormed(s)
    ensures CategoryLists(s.order, CategoryJsons(s), now) == Some(Store([], s.order, RebuiltLists(s, now)))
  {
    var fields := CategoryJsons(s);
    CategoryJsonsRead(s, now);
    CategoryListsFail(s.order, fields, now);
    CategoryListsStore(s.order, fields, now);
    CategoryListsOrder(s.order, fields, now);
    RebuiltListsMatch(s, now);
  }

  /**
   * Deserializing the serialized form of a well-formed store gives back its key order and,
   * list by list, each device rebuilt from its `toJSON()`.
   */
  lemma PersistRoundTrip(s: Store, now: nat)
    requires WellFormed(s)
    ensures Deserialize(Some(Serialize(s)), now) == Store(Rebuilt(s.rack, now), s.order, RebuiltLists(s, now))
  {
    var raw := Serialize(s).fields;
    assert Field(raw, "rackDevices") == List(Jsons(s.rack));
    assert Field(raw, "availableDevices") == Record(s.order, CategoryJsons(s));
    BuildJsons(s.rack, now);
    CategoriesRoundTrip(s, now);
    DeserializeRecord(Serialize(s).keys, raw, now, Rebuilt(s.rack, now), Store([], s.order, RebuiltLists(s, now)));
  }

  /** An object whose two fields read back gives the category store with the rack put in. */
  lemma DeserializeRecord(keys: seq<string>, raw: map<string, Value>, now: nat, rack: seq<Device>, categories: Store)
    requires ListFrom(Field(raw, "rackDevices"), now) == Some(rack)
    requires var available := Field(raw, "availableDevices");
             available.Record? && CategoryLists(available.keys, available.fields, now) == Some(categories)
    ensures Deserialize(Some(Record(keys, raw)), now) == categories.(rack := rack)
  {
  }

  lemma {:induction false} BuildItemsFails(items: seq<Value>, now: nat)
    ensures BuildItems(items, now).None? <==> exists i :: 0 <= i < |items| && !items[i].Config?
  {
    if items != [] {
      BuildItemsFails(items[1..], now);
      if exists i :: 0 <= i < |items| && !items[i].Config? {
        var i :| 0 <= i < |items| && !items[i].Config?;
        if i > 0 {
          assert items[1..][i - 1] == items[i];
        }
      }
      if exists i :: 0 <= i < |items[1..]| && !items[1..][i].Config? {
        var i :| 0 <= i < |items[1..]| && !items[1..][i].Config?;
        assert items[i + 1] == items[1..][i];
      }
    }
  }

  /** The category lists of `availableDevices` fail exactly when some key's value is an array with an element that is not a configuration (taken as throwing). */
  lemma {:induction false} CategoryListsFail(keys: seq<string>, fields: map<string, Value>, now: nat)
    ensures CategoryLists(keys, fields, now).None? <==> exists j :: 0 <= j < |keys| && ListFrom(Field(fields, keys[j]), now).None?
    decreases |keys|
  {
    if keys != [] {
      var init := keys[..|keys| - 1];
      CategoryListsFail(init, fields, now);
      if exists j :: 0 <= j < |init| && ListFrom(Field(fields, init[j]), now).None? {
        var j :| 0 <= j < |init| && ListFrom(Field(fields, init[j]), now).None?;
        assert keys[j] == init[j];
      }
      if exists j :: 0 <= j < |keys| && ListFrom(Field(fields, keys[j]), now).None? {
        var j :| 0 <= j < |keys| && ListFrom(Field(fields, keys[j]), now).None?;
        if j < |init| {
          assert init[j] == keys[j];
        }
      }
    }
  }

  /**
   * When they do not fail, the category lists form a well-formed store whose keys are the
   * object's, each with the list rebuilt from its value.
   */
  lemma {:induction false} CategoryListsStore(keys: seq<string>, fields: map<string, Value>, now: nat)
    requires CategoryLists(keys, fields, now).Some?
    ensures var r := CategoryLists(keys, fields, now).value;
            WellFormed(r) && r.rack == []
            && (forall k :: k in r.lists <==> k in keys)
            && forall k :: k in r.lists ==> ListFrom(Field(fields, k), now).Some? && r.lists[k] == ListFrom(Field(fields, k), now).value
    decreases |keys|
  {
    if keys != [] {
      var init := keys[..|keys| - 1];
      var k := keys[|keys| - 1];
      assert keys == init + [k];
      var before := CategoryLists(init, fields, now).value;
      var list := ListFrom(Field(fields, k), now).value;
      CategoryListsStore(init, fields, now);
      if k in before.lists {
        assert CategoryLists(keys, fields, now).value == before.(lists := before.lists[k := list]);
      } else {
        assert CategoryLists(keys, fields, now).value == before.(order := before.order + [k], lists := before.lists[k := list]);
        var o := before.order;
        assert Distinct(o + [k]) by {
          forall i, j | 0 <= i < j < |o + [k]| ensures (o + [k])[i] != (o + [k])[j] {
            if j == |o| {
              assert (o + [k])[i] == o[i];
            } else {
              assert (o + [k])[i] == o[i] && (o + [k])[j] == o[j];
            }
          }
        }
      }
    }
  }

  /** Distinct keys are kept in their order. */
  lemma {:induction false} CategoryListsOrder(keys: seq<string>, fields: map<string, Value>, now: nat)
    requires CategoryLists(keys, fields, now).Some? && Distinct(keys)
    ensures CategoryLists(keys, fields, now).value.order == keys
    decreases |keys|
  {
    if keys != [] {
      var init := keys[..|keys| - 1];
      var k := keys[|keys| - 1];
      assert keys == init + [k];
      assert Distinct(init) by {
        forall i, j | 0 <= i < j < |init| ensures init[i] != init[j] {
          assert init[i] == keys[i] && init[j] == keys[j];
        }
      }
      assert k !in init by {
        forall i | 0 <= i < |init| ensures init[i] != k {
          assert init[i] == keys[i];
        }
      }
      CategoryListsOrder(init, fields, now);
      CategoryListsStore(init, fields, now);
    }
  }

  /**
   * The deserializer's fallbacks: unparsable text or anything but an object gives empty
   * collections, and so does a constructor taken to throw; a `rackDevices` that is not an array
   * gives no rack; an `availableDevices` that is not a non-array object gives no categories; a
   * category whose value is not an array gets an empty list. The result is always well formed.
   */
  lemma DeserializeFallbacks(text: Option<Value>, now: nat)
    ensures WellFormed(Deserialize(text, now))
    ensures text.None? || !text.value.Record? ==> Deserialize(text, now) == Empty
    ensures text.Some? && text.value.Record? ==>
              var raw := text.value.fields;
              var rack := Field(raw, "rackDevices");
              var available := Field(raw, "availableDevices");
              var r := Deserialize(text, now);
              (rack.List? && (exists i :: 0 <= i < |rack.items| && !rack.items[i].Config?) ==> r == Empty)
              && (!rack.List? ==> r.rack == [])
              && (!available.Record? ==> r.order == [] && r.lists == map[])
              && (available.Record? && r != Empty ==>
                    forall k :: k in available.keys && (k !in available.fields || !available.fields[k].List?) ==> k in r.lists && r.lists[k] == [])
  {
    if text.Some? && text.value.Record? {
      var raw := text.value.fields;
      var rack := Field(raw, "rackDevices");
      var available := Field(raw, "availableDevices");
      if rack.List? {
        BuildItemsFails(rack.items, now);
      }
      if available.Record? && CategoryLists(available.keys, available.fields, now).Some? {
        CategoryListsStore(available.keys, available.fields, now);
      }
    }
  }

  // ---------------------------------------------------------------------------------------
  // The store object

  /** The store: its two persisted collections, updated in place by the actions. */
  class RackStore {
    var rackDevices: seq<Device>
    var order: seq<string>
    var availableDevices: map<string, seq<Device>>

    function State(): Store
      reads this
    {
      Store(rackDevices, order, availableDevices)
    }

    /** `order` lists the keys of `availableDevices`, each once, as `Object.keys` would. */
    predicate Valid()
      reads this
    {
      WellFormed(State())
    }

    /** The initial state: no devices and no categories. */
    constructor ()
      ensures Valid() && State() == Empty
    {
      rackDevices := [];
      order := [];
      availableDevices := map[];
    }

    /** Replaces one array of the store, as a splice on it does. */
    method SetList(l: ListId, list: seq<Device>)
      requires Valid() && Has(State(), l)
      modifies this
      ensures Valid() && State() == WithList(old(State()), l, list)
    {
      WellFormedWithList(State(), l, list);
      match l
      case RackList => rackDevices := list;
      case CategoryList(k) => availableDevices := availableDevices[k := list];
    }

    /** `moveDevice` on two arrays of the store; the result is the message it threw. */
    method MoveDevice(from: ListId, fromIdx: int, to: ListId, toIdx: int, fromName: string, toName: string, device: Device)
      returns (error: Option<string>)
      requires Valid() && Has(State(), from) && Has(State(), to)
      modifies this
      ensures Valid()
      ensures State() == Move(old(State()), from, fromIdx, to, toIdx, fromName, toName, device).store
      ensures error == Move(old(State()), from, fromIdx, to, toIdx, fromName, toName, device).error
    {
      var fromList := ListOf(State(), from);
      var toList := ListOf(State(), to);
      if fromIdx == -1 { return Some(NotFound(device, fromName)); }
      if toIdx == -1 { return Some(NotFound(device, toName)); }
      var check := CheckPosition(fromList, fromIdx);
      if check.Some? { return check; }
      check := CheckPosition(toList, toIdx);
      if check.Some? { return check; }
      if fromIdx == |fromList| { return Some(UnableToRemove(fromName)); }
      var removed := fromList[fromIdx];
      SetList(from, TakenOut(fromList, fromIdx));
      if Retags(toName, device) {
        var retagged := Apply(removed, NewCategory(Some(toName)));
        if retagged.Err? { return Some(retagged.message); }
        removed := retagged.value;
      }
      SetList(to, PutIn(ListOf(State(), to), toIdx, removed));
      error := None;
    }

    /** `moveDeviceToRack`; the result is the message logged, if any. */
    method MoveDeviceToRack(device: Device, toIdx: int) returns (logged: Option<string>)
      requires Valid()
      modifies this
      ensures Valid()
      ensures State() == MoveToRack(old(State()), device, toIdx).store
      ensures logged == MoveToRack(old(State()), device, toIdx).error
    {
      var from := device.category;
      if from !in availableDevices { return Some(NotAvailable(from)); }
      var fromIdx := IndexOfId(availableDevices[from], device.id);
      logged := MoveDevice(CategoryList(from), fromIdx, RackList, toIdx, from, RackName, device);
    }

    /** `reorderCategoryDevices`. */
    method ReorderCategoryDevices(device: Device, fromIdx: int, toIdx: int, fromCategory: Option<string>) returns (logged: Option<string>)
      requires Valid()
      modifies this
      ensures Valid()
      ensures State() == Reorder(old(State()), device, fromIdx, toIdx, fromCategory).store
      ensures logged == Reorder(old(State()), device, fromIdx, toIdx, fromCategory).error
    {
      if fromCategory == Some(RackName) {
        logged := MoveDevice(RackList, fromIdx, RackList, toIdx, RackName, RackName, device);
      } else {
        var c := device.category;
        if c !in availableDevices { return Some(NotAvailable(c)); }
        logged := MoveDevice(CategoryList(c), fromIdx, CategoryList(c), toIdx, c, c, device);
      }
    }

    /** `reorderRackDevices`. */
    method ReorderRackDevices(device: Device, fromIdx: int, toIdx: int) returns (logged: Option<string>)
      requires Valid()
      modifies this
      ensures Valid()
      ensures State() == ReorderRack(old(State()), device, fromIdx, toIdx).store
      ensures logged == ReorderRack(old(State()), device, fromIdx, toIdx).error
    {
      logged := ReorderCategoryDevices(device, fromIdx, toIdx, Some(RackName));
    }

    /** `moveDeviceToCategory`. */
    method MoveDeviceToCategory(device: Device, toCategory: string, toIdx: int, fromCategory: Option<string>) returns (logged: Option<string>)
      requires Valid()
      modifies this
      ensures Valid()
      ensures State() == MoveToCategory(old(State()), device, toCategory, toIdx, fromCategory).store
      ensures logged == MoveToCategory(old(State()), device, toCategory, toIdx, fromCategory).error
    {
      var fromRack := fromCategory == Some(RackName);
      if !fromRack && device.category !in availableDevices { return Some(NotAvailable(device.category)); }
      if toCategory !in availableDevices { return Some(NotAvailable(toCategory)); }
      var from := if fromRack then RackList else CategoryList(device.category);
      var fromName := if fromRack then RackName else device.category;
      var fromIdx := IndexOfId(ListOf(State(), from), device.id);
      logged := MoveDevice(from, fromIdx, CategoryList(toCategory), toIdx, fromName, toCategory, device);
    }

    /** `moveDeviceBackToStore`; `escaped` is the error that leaves the action uncaught. */
    method MoveDeviceBackToStore(device: Device) returns (escaped: bool, logged: Option<string>)
      requires Valid()
      modifies this
      ensures Valid()
      ensures escaped == MoveBackToStore(old(State()), device).None?
      ensures escaped ==> State() == old(State()) && logged.None?
      ensures !escaped ==> State() == MoveBackToStore(old(State()), device).value.store
                           && logged == MoveBackToStore(old(State()), device).value.error
    {
      if device.category !in availableDevices { return true, None; }
      escaped := false;
      logged := MoveDeviceToCategory(device, device.category, |availableDevices[device.category]|, Some(RackName));
    }

    /** `removeDevice`: the loop over the categories in key order stops at the first match. */
    method RemoveDevice(device: Device)
      requires Valid()
      modifies this
      ensures Valid() && State() == Remove(old(State()), device)
    {
      if device.stock { return; }
      var i := 0;
      while i < |order|
        invariant 0 <= i <= |order|
        invariant State() == old(State())
        invariant forall j :: 0 <= j < i && order[j] in availableDevices ==> IndexOfId(availableDevices[order[j]], device.id) == -1
      {
        var category := order[i];
        if category in availableDevices {
          var list := availableDevices[category];
          var found := IndexOfId(list, device.id);
          if found != -1 {
            FirstHolderAt(order, availableDevices, device.id, i);
            SetList(CategoryList(category), TakenOut(list, found));
            return;
          }
        }
        i := i + 1;
      }
    }

    /** `createNewDevice`: a new device object; no collection is modified. */
    method CreateNewDevice(now: nat) returns (device: Outboard)
      ensures fresh(device)
      ensures device.State() == NewDevice(State(), now)
    {
      device := new Outboard(NewDeviceConfig(TotalDevices(State())), now);
    }

    /**
     * `init` over configurations already in order: when there are no categories yet, the
     * devices are grouped by category; the result is whether the MIDI communicator came up.
     */
    method Init(configs: seq<DeviceConfig>, now: nat, midiFound: bool) returns (ok: bool)
      requires Valid()
      modifies this
      ensures Valid()
      ensures ok == midiFound
      ensures old(availableDevices) == map[] ==> State() == Grouped(configs, now).(rack := old(rackDevices))
      ensures old(availableDevices) != map[] ==> State() == old(State())
    {
      NoKeysNoOrder(State());
      if |order| == 0 {
        var groups := Group(configs, now);
        GroupedSpec(configs, now);
        order := groups.order;
        availableDevices := groups.lists;
      }
      ok := midiFound;
    }
  }

  /** In a well-formed store, `Object.keys` is empty exactly when the map has no category. */
  lemma NoKeysNoOrder(s: Store)
    requires WellFormed(s)
    ensures s.order == [] <==> s.lists == map[]
  {
    if s.order == [] {
      assert forall k :: k !in s.lists;
    } else {
      assert s.order[0] in s.lists;
    }
  }

  /** The first key whose list holds the id is the one `FirstHolder` names. */
  lemma {:induction false} FirstHolderAt(keys: seq<string>, lists: map<string, seq<Device>>, id: string, i: nat)
    requires i < |keys| && keys[i] in lists && IndexOfId(lists[keys[i]], id) != -1
    requires forall j :: 0 <= j < i && keys[j] in lists ==> IndexOfId(lists[keys[j]], id) == -1
    ensures FirstHolder(keys, lists, id) == Some(i)
  {
    if i > 0 {
      forall j | 0 <= j < i - 1 && keys[1..][j] in lists
        ensures IndexOfId(lists[keys[1..][j]], id) == -1
      {
        assert keys[1..][j] == keys[j + 1];
      }
      FirstHolderAt(keys[1..], lists, id, i - 1);
    }
  }

  /** The grouping loop of `init`. */
  method Group(configs: seq<DeviceConfig>, now: nat) returns (groups: Store)
    ensures groups == Grouped(configs, now)
  {
    groups := Empty;
    var i := 0;
    while i < |configs|
      invariant 0 <= i <= |configs|
      invariant groups == Grouped(configs[..i], now)
    {
      var config := Defaulted(configs[i]);
      var category := config.category.value;
      var outboard := Build(config, now);
      if category !in groups.lists {
        groups := groups.(order := groups.order + [category], lists := groups.lists[category := [outboard]]);
      } else {
        groups := groups.(lists := groups.lists[category := groups.lists[category] + [outboard]]);
      }
      assert configs[..i + 1][..i] == configs[..i];
      i := i + 1;
    }
    assert configs[..i] == configs;
  }
}

/**
 * The data model of the client (src/types/Property.js): the property-type
 * enumeration, the draft record sent on create and update (`PropertyInDTO`)
 * and the filter record (`PropertyFilters`), with the defaults their
 * constructors fill in; plus the record the backend returns.
 */
module Model {
  import opened Js

  // ---------------------------------------------------------------------------
  // PropertyType
  // ---------------------------------------------------------------------------

  datatype PropertyType = HOUSE | APARTMENT | CONDO | VILLA | TOWNHOUSE

  const AllPropertyTypes: seq<PropertyType> := [HOUSE, APARTMENT, CONDO, VILLA, TOWNHOUSE]

  /** The string each enumeration member stands for: its own name. */
  function TypeName(t: PropertyType): string {
    match t
    case HOUSE => "HOUSE"
    case APARTMENT => "APARTMENT"
    case CONDO => "CONDO"
    case VILLA => "VILLA"
    case TOWNHOUSE => "TOWNHOUSE"
  }

  /** The member a string names, if any: the inverse of `TypeName`. */
  function TypeFromName(name: string): (t: Option<PropertyType>)
    ensures t.Some? <==> name in ["HOUSE", "APARTMENT", "CONDO", "VILLA", "TOWNHOUSE"]
    ensures t.Some? ==> TypeName(t.value) == name
  {
    if name == "HOUSE" then Some(HOUSE)
    else if name == "APARTMENT" then Some(APARTMENT)
    else if name == "CONDO" then Some(CONDO)
    else if name == "VILLA" then Some(VILLA)
    else if name == "TOWNHOUSE" then Some(TOWNHOUSE)
    else None
  }

  /** The enumeration has exactly five members, listed once each, each with its own name. */
  lemma PropertyTypeEnumeration()
    ensures |AllPropertyTypes| == 5
    ensures forall t: PropertyType :: t in AllPropertyTypes
    ensures forall i, j :: 0 <= i < j < |AllPropertyTypes| ==>
      TypeName(AllPropertyTypes[i]) != TypeName(AllPropertyTypes[j])
    ensures forall t: PropertyType :: TypeFromName(TypeName(t)) == Some(t)
  {
    forall t: PropertyType ensures t in AllPropertyTypes && TypeFromName(TypeName(t)) == Some(t) {
      match t
      case HOUSE =>
      case APARTMENT =>
      case CONDO =>
      case VILLA =>
      case TOWNHOUSE =>
    }
  }

  // ---------------------------------------------------------------------------
  // PropertyInDTO: the draft
  // ---------------------------------------------------------------------------

  /**
   * The record the form edits and sends. The source's `type` field is called
   * `propertyType` here (`type` is a Dafny keyword); it holds a string, as in the source.
   */
  datatype Draft = Draft(
    address: string,
    city: string,
    active: bool,
    price: int,
    description: string,
    name: string,
    rooms: int,
    bathrooms: int,
    parkingLots: int,
    areaSquareMeters: int,
    propertyType: string,
    owner: string)

  /** The twelve fields of a draft, in declaration order. */
  datatype DraftField =
    | Address | City | Active | Price | Description | Name
    | Rooms | Bathrooms | ParkingLots | AreaSquareMeters | Type | Owner

  /** The value a draft holds in a field. */
  function FieldOf(d: Draft, f: DraftField): Value {
    match f
    case Address => Str(d.address)
    case City => Str(d.city)
    case Active => Bool(d.active)
    case Price => Num(d.price)
    case Description => Str(d.description)
    case Name => Str(d.name)
    case Rooms => Num(d.rooms)
    case Bathrooms => Num(d.bathrooms)
    case ParkingLots => Num(d.parkingLots)
    case AreaSquareMeters => Num(d.areaSquareMeters)
    case Type => Str(d.propertyType)
    case Owner => Str(d.owner)
  }

  /** The argument of `new PropertyInDTO({...})`: `None` for a field the caller leaves out. */
  datatype DraftArgs = DraftArgs(
    address: Option<string>,
    city: Option<string>,
    active: Option<bool>,
    price: Option<int>,
    description: Option<string>,
    name: Option<string>,
    rooms: Option<int>,
    bathrooms: Option<int>,
    parkingLots: Option<int>,
    areaSquareMeters: Option<int>,
    propertyType: Option<string>,
    owner: Option<string>)

  const NoDraftArgs := DraftArgs(None, None, None, None, None, None, None, None, None, None, None, None)

  /** The value supplied for a field, if any. */
  function ArgOf(a: DraftArgs, f: DraftField): Option<Value> {
    match f
    case Address => if a.address.Some? then Some(Str(a.address.value)) else None
    case City => if a.city.Some? then Some(Str(a.city.value)) else None
    case Active => if a.active.Some? then Some(Bool(a.active.value)) else None
    case Price => if a.price.Some? then Some(Num(a.price.value)) else None
    case Description => if a.description.Some? then Some(Str(a.description.value)) else None
    case Name => if a.name.Some? then Some(Str(a.name.value)) else None
    case Rooms => if a.rooms.Some? then Some(Num(a.rooms.value)) else None
    case Bathrooms => if a.bathrooms.Some? then Some(Num(a.bathrooms.value)) else None
    case ParkingLots => if a.parkingLots.Some? then Some(Num(a.parkingLots.value)) else None
    case AreaSquareMeters =>
      if a.areaSquareMeters.Some? then Some(Num(a.areaSquareMeters.value)) else None
    case Type => if a.propertyType.Some? then Some(Str(a.propertyType.value)) else None
    case Owner => if a.owner.Some? then Some(Str(a.owner.value)) else None
  }

  /** `new PropertyInDTO()`. */
  const DefaultDraft := Draft("", "", true, 0, "", "", 0, 0, 0, 0, TypeName(HOUSE), "")

  /** `new PropertyInDTO(args)`: every supplied field is copied, every absent one defaulted. */
  function NewDraft(a: DraftArgs): (d: Draft)
    ensures forall f :: FieldOf(d, f) == ArgOf(a, f).GetOr(FieldOf(DefaultDraft, f))
  {
    Draft(
      a.address.GetOr(""),
      a.city.GetOr(""),
      a.active.GetOr(true),
      a.price.GetOr(0),
      a.description.GetOr(""),
      a.name.GetOr(""),
      a.rooms.GetOr(0),
      a.bathrooms.GetOr(0),
      a.parkingLots.GetOr(0),
      a.areaSquareMeters.GetOr(0),
      a.propertyType.GetOr(TypeName(HOUSE)),
      a.owner.GetOr(""))
  }

  /** The arguments that supply every field of `d`. */
  function ArgsOf(d: Draft): DraftArgs {
    DraftArgs(Some(d.address), Some(d.city), Some(d.active), Some(d.price), Some(d.description),
      Some(d.name), Some(d.rooms), Some(d.bathrooms), Some(d.parkingLots),
      Some(d.areaSquareMeters), Some(d.propertyType), Some(d.owner))
  }

  /** A default draft has empty texts, zero numbers, `active` set and type HOUSE. */
  lemma DefaultDraftValues()
    ensures var d := NewDraft(NoDraftArgs);
      && d == DefaultDraft
      && d.address == d.city == d.description == d.name == d.owner == ""
      && d.price == d.rooms == d.bathrooms == d.parkingLots == d.areaSquareMeters == 0
      && d.active && d.propertyType == "HOUSE"
  {
  }

  /** Supplying every field of a draft rebuilds that draft. */
  lemma NewDraftFromFullArgs(d: Draft)
    ensures NewDraft(ArgsOf(d)) == d
  {
  }

  // ---------------------------------------------------------------------------
  // PropertyFilters: the filter record
  // ---------------------------------------------------------------------------

  /** The eight filter keys. */
  datatype FilterKey =
    | MinPrice | MaxPrice | City | Name | Address | MinAreaSquareMeters | MaxAreaSquareMeters | Type

  /** The keys in the order the filter objects declare them. */
  const FilterKeys: seq<FilterKey> :=
    [MinPrice, MaxPrice, FilterKey.City, FilterKey.Name, FilterKey.Address,
     MinAreaSquareMeters, MaxAreaSquareMeters, FilterKey.Type]

  /** The property name a filter key is sent under. */
  function FilterKeyName(k: FilterKey): string {
    match k
    case MinPrice => "minPrice"
    case MaxPrice => "maxPrice"
    case City => "city"
    case Name => "name"
    case Address => "address"
    case MinAreaSquareMeters => "minAreaSquareMeters"
    case MaxAreaSquareMeters => "maxAreaSquareMeters"
    case Type => "type"
  }

  /** A key's position in the declaration order. */
  function KeyIndex(k: FilterKey): (i: nat)
    ensures i < |FilterKeys| && FilterKeys[i] == k
  {
    match k
    case MinPrice => 0
    case MaxPrice => 1
    case City => 2
    case Name => 3
    case Address => 4
    case MinAreaSquareMeters => 5
    case MaxAreaSquareMeters => 6
    case Type => 7
  }

  lemma FilterKeysEnumeration()
    ensures |FilterKeys| == 8
    ensures forall k: FilterKey :: k in FilterKeys
    ensures forall i, j :: 0 <= i < j < |FilterKeys| ==>
      FilterKeyName(FilterKeys[i]) != FilterKeyName(FilterKeys[j])
  {
    forall k: FilterKey ensures k in FilterKeys {
      match k
      case MinPrice =>
      case MaxPrice =>
      case City =>
      case Name =>
      case Address =>
      case MinAreaSquareMeters =>
      case MaxAreaSquareMeters =>
      case Type =>
    }
  }

  /** `new PropertyFilters(...)`: eight loosely typed values. */
  datatype FilterRecord = FilterRecord(
    minPrice: Value, maxPrice: Value, city: Value, name: Value, address: Value,
    minAreaSquareMeters: Value, maxAreaSquareMeters: Value, propertyType: Value)

  /** The argument of `new PropertyFilters({...})`: `None` for a key the caller leaves out. */
  datatype FilterArgs = FilterArgs(
    minPrice: Option<Value>, maxPrice: Option<Value>, city: Option<Value>, name: Option<Value>,
    address: Option<Value>, minAreaSquareMeters: Option<Value>, maxAreaSquareMeters: Option<Value>,
    propertyType: Option<Value>)

  const NoFilterArgs := FilterArgs(None, None, None, None, None, None, None, None)

  function FilterValue(r: FilterRecord, k: FilterKey): Value {
    match k
    case MinPrice => r.minPrice
    case MaxPrice => r.maxPrice
    case City => r.city
    case Name => r.name
    case Address => r.address
    case MinAreaSquareMeters => r.minAreaSquareMeters
    case MaxAreaSquareMeters => r.maxAreaSquareMeters
    case Type => r.propertyType
  }

  function FilterArg(a: FilterArgs, k: FilterKey): Option<Value> {
    match k
    case MinPrice => a.minPrice
    case MaxPrice => a.maxPrice
    case City => a.city
    case Name => a.name
    case Address => a.address
    case MinAreaSquareMeters => a.minAreaSquareMeters
    case MaxAreaSquareMeters => a.maxAreaSquareMeters
    case Type => a.propertyType
  }

  /**
   * The value a destructuring default `= null` leaves for one key: the
   * default applies when the key is left out or passed as `undefined`.
   */
  function DefaultedValue(o: Option<Value>): Value {
    if o.None? || o.value == Undefined then Null else o.value
  }

  /** `new PropertyFilters(args)`: every supplied value is copied, an absent or undefined one becomes null. */
  function NewFilterRecord(a: FilterArgs): (r: FilterRecord)
    ensures forall k :: FilterArg(a, k).Some? && FilterArg(a, k).value != Undefined ==>
      FilterValue(r, k) == FilterArg(a, k).value
    ensures forall k :: FilterArg(a, k).None? || FilterArg(a, k) == Some(Undefined) ==> FilterValue(r, k) == Null
    ensures forall k :: FilterValue(r, k) != Undefined
  {
    FilterRecord(
      DefaultedValue(a.minPrice), DefaultedValue(a.maxPrice), DefaultedValue(a.city), DefaultedValue(a.name),
      DefaultedValue(a.address), DefaultedValue(a.minAreaSquareMeters), DefaultedValue(a.maxAreaSquareMeters),
      DefaultedValue(a.propertyType))
  }

  /**
   * The record's entries as `Object.entries` lists them: one entry per key,
   * under the key's name with the key's value, no name twice.
   */
  function FilterEntries(r: FilterRecord): (es: seq<(string, Value)>)
    ensures |es| == |FilterKeys|
    ensures forall k :: (FilterKeyName(k), FilterValue(r, k)) in es
    ensures forall e :: e in es ==> exists k :: e == (FilterKeyName(k), FilterValue(r, k))
    ensures forall i, j :: 0 <= i < j < |es| ==> es[i].0 != es[j].0
  {
    FilterKeysEnumeration();
    var es := seq(|FilterKeys|, i requires 0 <= i < |FilterKeys| =>
      (FilterKeyName(FilterKeys[i]), FilterValue(r, FilterKeys[i])));
    assert forall k :: es[KeyIndex(k)] == (FilterKeyName(k), FilterValue(r, k));
    es
  }

  /** A default filter record holds null under all eight keys. */
  lemma DefaultFilterRecord()
    ensures forall k :: FilterValue(NewFilterRecord(NoFilterArgs), k) == Null
  {
  }

  // ---------------------------------------------------------------------------
  // The record the backend returns
  // ---------------------------------------------------------------------------

  type PropertyId = string

  /**
   * A property as the backend returns it. Every field may be missing. The
   * type is carried under `type` (`propertyType` here); the edit form reads a
   * field called `propertyEntity` instead.
   */
  datatype PropertyRecord = PropertyRecord(
    id: Option<PropertyId>,
    address: Option<string>,
    city: Option<string>,
    active: Option<bool>,
    price: Option<int>,
    description: Option<string>,
    name: Option<string>,
    rooms: Option<int>,
    bathrooms: Option<int>,
    parkingLots: Option<int>,
    areaSquareMeters: Option<int>,
    propertyType: Option<string>,
    propertyEntity: Option<string>,
    owner: Option<string>)
}

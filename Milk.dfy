/** A seller's milk listing and the collection that stores listings. */
module MilkModel {

  import opened Common
  import opened Clock

  datatype MilkType = Cow | Buffalo | Goat | Camel | Sheep | Other

  function MilkTypeName(t: MilkType): string
  {
    match t
    case Cow => "Cow"
    case Buffalo => "Buffalo"
    case Goat => "Goat"
    case Camel => "Camel"
    case Sheep => "Sheep"
    case Other => "Other"
  }

  /** The milk type named `s`; `None` for a name outside the six-value enumeration. */
  function ParseMilkType(s: string): (r: Option<MilkType>)
    ensures r.Some? ==> MilkTypeName(r.value) == s
    ensures r.None? ==> forall t: MilkType :: MilkTypeName(t) != s
  {
    if s == "Cow" then Some(Cow)
    else if s == "Buffalo" then Some(Buffalo)
    else if s == "Goat" then Some(Goat)
    else if s == "Camel" then Some(Camel)
    else if s == "Sheep" then Some(Sheep)
    else if s == "Other" then Some(Other)
    else None
  }

  /** A stored listing.  `customMilkType` is the free-text name of a type
      outside the enumeration; `availabilityDays` empty means every day. */
  datatype Milk = Milk(
    id: nat,
    seller: UserId,
    milkType: MilkType,
    customMilkType: Option<string>,
    pricePerLiter: real,
    fatPercentage: real,
    qualityDescription: string,
    availabilityDays: seq<Weekday>,
    isAvailable: bool,
    averageRating: real,
    totalRatings: nat)

  /** The name the listing is sold under: its custom name when its type is
      Other (absent if no custom name was stored), its type name otherwise. */
  function EffectiveMilkType(m: Milk): Option<string>
  {
    if m.milkType == Other then m.customMilkType else Some(MilkTypeName(m.milkType))
  }

  /** The numeric range and required-field constraints a listing is saved under. */
  predicate SchemaValid(m: Milk)
  {
    && m.pricePerLiter >= 0.0
    && 0.0 <= m.fatPercentage <= 100.0
    && |m.qualityDescription| > 0
    && 0.0 <= m.averageRating <= 5.0
  }

  /** The custom name is used exactly for listings of type Other. */
  lemma EffectiveTypeOfOther(m: Milk)
    ensures m.milkType == Other ==> EffectiveMilkType(m) == m.customMilkType
    ensures m.milkType != Other ==> EffectiveMilkType(m) == Some(MilkTypeName(m.milkType))
    ensures m.milkType != Other ==> ParseMilkType(EffectiveMilkType(m).value) == Some(m.milkType)
  {
  }

  /** Position of the listing with identifier `id`, if it is stored. */
  function IndexOfListing(listings: seq<Milk>, id: nat): (r: Option<nat>)
    ensures r.Some? ==> r.value < |listings| && listings[r.value].id == id
    ensures r.Some? ==> forall i :: 0 <= i < r.value ==> listings[i].id != id
    ensures r.None? ==> forall i :: 0 <= i < |listings| ==> listings[i].id != id
  {
    if listings == [] then None
    else if listings[0].id == id then Some(0)
    else match IndexOfListing(listings[1..], id)
      case None => None
      case Some(k) => Some(k + 1)
  }

  const MILK_NOT_FOUND: string := "Milk product not found"
  const UNAVAILABLE_MESSAGE: string := "This milk product is currently unavailable"

  /** Identifiers are unique and below the next one to hand out. */
  ghost predicate UniqueIds(listings: seq<Milk>, nextId: nat)
  {
    && (forall i, j :: 0 <= i < j < |listings| ==> listings[i].id != listings[j].id)
    && (forall i :: 0 <= i < |listings| ==> listings[i].id < nextId)
  }

  /** The listing collection, in insertion order. */
  class MilkCollection {
    var listings: seq<Milk>
    var nextId: nat

    ghost predicate Valid()
      reads this
    {
      UniqueIds(listings, nextId)
    }

    constructor ()
      ensures Valid() && listings == [] && nextId == 0
    {
      listings := [];
      nextId := 0;
    }
  }
}

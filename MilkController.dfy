/** Listing management: adding, updating and deleting a seller's listings, and
    the two public browsing queries (types on offer, listings of one type). */
module MilkController {

  import opened Common
  import opened Clock
  import opened Text
  import opened MilkModel

  const CUSTOM_TYPE_MESSAGE: string := "Please provide custom milk type name"
  const NOT_AUTHORIZED_UPDATE: string := "Not authorized to update this milk product"
  const NOT_AUTHORIZED_DELETE: string := "Not authorized to delete this milk product"
  const ADD_ERROR: string := "Error adding milk product"
  const UPDATE_ERROR: string := "Error updating milk product"

  /** A string request field that is present and non-empty (JavaScript truthiness). */
  predicate Provided(s: Option<string>)
  {
    s.Some? && s.value != ""
  }

  /** Each entry names a weekday; `None` when one of them does not. */
  function ParseDays(days: seq<string>): (r: Option<seq<Weekday>>)
    ensures r.Some? ==> |r.value| == |days|
                        && forall i :: 0 <= i < |days| ==> WeekdayName(r.value[i]) == days[i]
    ensures r.None? ==> exists i :: 0 <= i < |days| && ParseWeekday(days[i]).None?
  {
    if days == [] then Some([])
    else
      match (ParseWeekday(days[0]), ParseDays(days[1..]))
      case (Some(w), Some(rest)) => Some([w] + rest)
      case (None, _) => None
      case (_, None) => None
  }

  /** The body of an add request. */
  datatype MilkInput = MilkInput(
    milkType: string,
    customMilkType: Option<string>,
    pricePerLiter: real,
    fatPercentage: real,
    qualityDescription: string,
    availabilityDays: seq<string>)

  /** The field checks a new listing passes: the custom name when the type is
      Other, then the schema's enumerations, ranges and required fields. */
  predicate AcceptableInput(input: MilkInput)
  {
    && (input.milkType == "Other" ==> Provided(input.customMilkType))
    && ParseMilkType(input.milkType).Some?
    && ParseDays(input.availabilityDays).Some?
    && input.pricePerLiter >= 0.0
    && 0.0 <= input.fatPercentage <= 100.0
    && |input.qualityDescription| > 0
  }

  /** `addMilk` before the insert: the listing stored for `input` under
      identifier `id`, or why it is refused. */
  function NewListing(input: MilkInput, seller: UserId, id: nat): (r: Outcome<Milk>)
    ensures input.milkType == "Other" && !Provided(input.customMilkType)
            ==> r == Fail(BadRequest(CUSTOM_TYPE_MESSAGE))
    ensures r.Success? <==> AcceptableInput(input)
    ensures r.Fail? && r.failure != BadRequest(CUSTOM_TYPE_MESSAGE) ==> r.failure == ServerError(ADD_ERROR)
    ensures r.Success? ==>
              && SchemaValid(r.value)
              && r.value.id == id && r.value.seller == seller
              && MilkTypeName(r.value.milkType) == input.milkType
              && (r.value.customMilkType.Some? <==> r.value.milkType == Other)
              && (r.value.milkType == Other ==> EffectiveMilkType(r.value) == input.customMilkType)
              && r.value.pricePerLiter == input.pricePerLiter
              && r.value.fatPercentage == input.fatPercentage
              && r.value.qualityDescription == input.qualityDescription
              && |r.value.availabilityDays| == |input.availabilityDays|
              && (forall i :: 0 <= i < |input.availabilityDays| ==>
                    WeekdayName(r.value.availabilityDays[i]) == input.availabilityDays[i])
              && r.value.isAvailable && r.value.averageRating == 0.0 && r.value.totalRatings == 0
  {
    if input.milkType == "Other" && !Provided(input.customMilkType) then
      Fail(BadRequest(CUSTOM_TYPE_MESSAGE))
    else
      var t := ParseMilkType(input.milkType);
      var days := ParseDays(input.availabilityDays);
      if t.None? || days.None? then Fail(ServerError(ADD_ERROR))
      else
        var m := Milk(id, seller, t.value,
                      if t.value == Other then input.customMilkType else None,
                      input.pricePerLiter, input.fatPercentage, input.qualityDescription,
                      days.value, true, 0.0, 0);
        if SchemaValid(m) then Success(m) else Fail(ServerError(ADD_ERROR))
  }

  /** `addMilk`: insert the new listing under the next identifier, or change nothing. */
  method AddMilk(store: MilkCollection, seller: UserId, input: MilkInput) returns (r: Outcome<Milk>)
    requires store.Valid()
    modifies store
    ensures store.Valid()
    ensures r == NewListing(input, seller, old(store.nextId))
    ensures r.Success? ==> store.listings == old(store.listings) + [r.value]
                           && store.nextId == old(store.nextId) + 1
    ensures r.Fail? ==> store.listings == old(store.listings) && store.nextId == old(store.nextId)
  {
    r := NewListing(input, seller, store.nextId);
    if r.Success? {
      store.listings := store.listings + [r.value];
      store.nextId := store.nextId + 1;
    }
  }

  /** The fields an update request may carry; `None` means not supplied. */
  datatype MilkPatch = MilkPatch(
    milkType: Option<string>,
    customMilkType: Option<string>,
    pricePerLiter: Option<real>,
    fatPercentage: Option<real>,
    qualityDescription: Option<string>,
    availabilityDays: Option<seq<string>>,
    isAvailable: Option<bool>)

  /** The validators an update runs: only on the fields it supplies. */
  predicate AcceptablePatch(p: MilkPatch)
  {
    && (p.milkType.Some? ==> ParseMilkType(p.milkType.value).Some?)
    && (p.pricePerLiter.Some? ==> p.pricePerLiter.value >= 0.0)
    && (p.fatPercentage.Some? ==> 0.0 <= p.fatPercentage.value <= 100.0)
    && (p.qualityDescription.Some? ==> |p.qualityDescription.value| > 0)
    && (p.availabilityDays.Some? ==> ParseDays(p.availabilityDays.value).Some?)
  }

  function OrElse<T>(o: Option<T>, default: T): T
  {
    if o.Some? then o.value else default
  }

  /** The listing after an update with validators: every supplied field takes
      its new value and every other field keeps its old one. */
  function ApplyMilkPatch(m: Milk, p: MilkPatch): (r: Outcome<Milk>)
    ensures r.Success? <==> AcceptablePatch(p)
    ensures r.Fail? ==> r.failure == ServerError(UPDATE_ERROR)
    ensures r.Success? ==>
              && r.value.id == m.id && r.value.seller == m.seller
              && r.value.averageRating == m.averageRating && r.value.totalRatings == m.totalRatings
              && (p.milkType.None? ==> r.value.milkType == m.milkType)
              && (p.milkType.Some? ==> MilkTypeName(r.value.milkType) == p.milkType.value)
              && r.value.customMilkType == (if p.customMilkType.Some? then p.customMilkType else m.customMilkType)
              && r.value.pricePerLiter == OrElse(p.pricePerLiter, m.pricePerLiter)
              && r.value.fatPercentage == OrElse(p.fatPercentage, m.fatPercentage)
              && r.value.qualityDescription == OrElse(p.qualityDescription, m.qualityDescription)
              && r.value.isAvailable == OrElse(p.isAvailable, m.isAvailable)
              && (p.availabilityDays.None? ==> r.value.availabilityDays == m.availabilityDays)
              && (p.availabilityDays.Some? ==>
                    && |r.value.availabilityDays| == |p.availabilityDays.value|
                    && forall i :: 0 <= i < |p.availabilityDays.value| ==>
                         WeekdayName(r.value.availabilityDays[i]) == p.availabilityDays.value[i])
  {
    if !AcceptablePatch(p) then Fail(ServerError(UPDATE_ERROR))
    else
      Success(m.(
        milkType := if p.milkType.Some? then ParseMilkType(p.milkType.value).value else m.milkType,
        customMilkType := if p.customMilkType.Some? then p.customMilkType else m.customMilkType,
        pricePerLiter := OrElse(p.pricePerLiter, m.pricePerLiter),
        fatPercentage := OrElse(p.fatPercentage, m.fatPercentage),
        qualityDescription := OrElse(p.qualityDescription, m.qualityDescription),
        availabilityDays := if p.availabilityDays.Some? then ParseDays(p.availabilityDays.value).value
                            else m.availabilityDays,
        isAvailable := OrElse(p.isAvailable, m.isAvailable)))
  }

  /** An accepted update of a listing that met the schema yields one that does. */
  lemma PatchKeepsSchema(m: Milk, p: MilkPatch)
    requires SchemaValid(m) && AcceptablePatch(p)
    ensures SchemaValid(ApplyMilkPatch(m, p).value)
  {
  }

  /** Sending the same update twice has the effect of sending it once. */
  lemma PatchIdempotent(m: Milk, p: MilkPatch)
    requires ApplyMilkPatch(m, p).Success?
    ensures ApplyMilkPatch(ApplyMilkPatch(m, p).value, p) == ApplyMilkPatch(m, p)
  {
  }

  /** `updateMilk`: a missing listing, another seller's listing, or a value a
      validator refuses leaves the store unchanged; otherwise only the target
      listing is replaced by its updated version. */
  method UpdateMilk(store: MilkCollection, id: nat, caller: UserId, patch: MilkPatch)
    returns (r: Outcome<Milk>)
    requires store.Valid()
    modifies store`listings
    ensures store.Valid()
    ensures match IndexOfListing(old(store.listings), id)
            case None => r == Fail(NotFound(MILK_NOT_FOUND))
            case Some(i) =>
              if old(store.listings)[i].seller != caller then r == Fail(Forbidden(NOT_AUTHORIZED_UPDATE))
              else r == ApplyMilkPatch(old(store.listings)[i], patch)
    ensures r.Success? ==>
              exists i :: 0 <= i < |old(store.listings)| && old(store.listings)[i].id == id
                          && store.listings == old(store.listings)[i := r.value]
    ensures r.Fail? ==> store.listings == old(store.listings)
  {
    var index := IndexOfListing(store.listings, id);
    if index.None? {
      return Fail(NotFound(MILK_NOT_FOUND));
    }
    var i := index.value;
    if store.listings[i].seller != caller {
      return Fail(Forbidden(NOT_AUTHORIZED_UPDATE));
    }
    r := ApplyMilkPatch(store.listings[i], patch);
    if r.Success? {
      store.listings := store.listings[i := r.value];
    }
  }

  /** The listings other than the one with identifier `id`, in order. */
  function RemoveListing(listings: seq<Milk>, id: nat): seq<Milk>
  {
    if listings == [] then []
    else
      var rest := RemoveListing(listings[1..], id);
      if listings[0].id == id then rest else [listings[0]] + rest
  }

  /** Removing keeps exactly the other listings, and with unique identifiers
      removes one entry when the target is stored. */
  lemma {:induction false} RemoveListingKeepsOthers(listings: seq<Milk>, id: nat)
    ensures forall m :: m in RemoveListing(listings, id) <==> m in listings && m.id != id
    ensures (forall i :: 0 <= i < |listings| ==> listings[i].id != id)
            ==> RemoveListing(listings, id) == listings
  {
    if listings != [] {
      RemoveListingKeepsOthers(listings[1..], id);
      assert listings == [listings[0]] + listings[1..];
    }
  }

  lemma {:induction false} RemoveListingCount(listings: seq<Milk>, id: nat)
    requires forall i, j :: 0 <= i < j < |listings| ==> listings[i].id != listings[j].id
    requires exists i :: 0 <= i < |listings| && listings[i].id == id
    ensures |RemoveListing(listings, id)| == |listings| - 1
  {
    if listings[0].id == id {
      RemoveListingKeepsOthers(listings[1..], id);
    } else {
      var k :| 0 <= k < |listings| && listings[k].id == id;
      assert listings[1..][k - 1].id == id;
      RemoveListingCount(listings[1..], id);
    }
  }

  /** Every listing left after a removal sits somewhere in the original list. */
  lemma {:induction false} RemoveListingSource(listings: seq<Milk>, id: nat, j: nat) returns (k: nat)
    requires j < |RemoveListing(listings, id)|
    ensures k < |listings| && listings[k] == RemoveListing(listings, id)[j]
  {
    var rest := RemoveListing(listings[1..], id);
    if listings[0].id == id {
      var k' := RemoveListingSource(listings[1..], id, j);
      k := k' + 1;
    } else if j == 0 {
      k := 0;
    } else {
      var k' := RemoveListingSource(listings[1..], id, j - 1);
      k := k' + 1;
    }
  }

  lemma UniqueTail(listings: seq<Milk>, nextId: nat)
    requires listings != [] && UniqueIds(listings, nextId)
    ensures UniqueIds(listings[1..], nextId)
  {
    var tail := listings[1..];
    forall i, j | 0 <= i < j < |tail| ensures tail[i].id != tail[j].id {
      assert tail[i] == listings[i + 1] && tail[j] == listings[j + 1];
    }
  }

  lemma UniqueCons(m: Milk, rest: seq<Milk>, nextId: nat)
    requires UniqueIds(rest, nextId) && m.id < nextId
    requires forall j :: 0 <= j < |rest| ==> rest[j].id != m.id
    ensures UniqueIds([m] + rest, nextId)
  {
    var r := [m] + rest;
    forall i, j | 0 <= i < j < |r| ensures r[i].id != r[j].id {
      assert r[j] == rest[j - 1];
      if i > 0 {
        assert r[i] == rest[i - 1];
      }
    }
    forall i | 0 <= i < |r| ensures r[i].id < nextId {
      if i > 0 {
        assert r[i] == rest[i - 1];
      }
    }
  }

  lemma {:induction false} RemoveListingUnique(listings: seq<Milk>, id: nat, nextId: nat)
    requires UniqueIds(listings, nextId)
    ensures UniqueIds(RemoveListing(listings, id), nextId)
  {
    if listings != [] {
      var tail := listings[1..];
      UniqueTail(listings, nextId);
      RemoveListingUnique(tail, id, nextId);
      var rest := RemoveListing(tail, id);
      if listings[0].id != id {
        forall j | 0 <= j < |rest|
          ensures rest[j].id != listings[0].id
        {
          var k := RemoveListingSource(tail, id, j);
          assert tail[k] == listings[k + 1];
        }
        UniqueCons(listings[0], rest, nextId);
      }
    }
  }

  /** `deleteMilk`: a missing listing or another seller's listing leaves the
      store unchanged; otherwise exactly the target listing is removed. */
  method DeleteMilk(store: MilkCollection, id: nat, caller: UserId) returns (r: Outcome<()>)
    requires store.Valid()
    modifies store`listings
    ensures store.Valid()
    ensures match IndexOfListing(old(store.listings), id)
            case None => r == Fail(NotFound(MILK_NOT_FOUND))
            case Some(i) =>
              if old(store.listings)[i].seller != caller then r == Fail(Forbidden(NOT_AUTHORIZED_DELETE))
              else r == Success(())
    ensures r.Success? ==> store.listings == RemoveListing(old(store.listings), id)
                           && |store.listings| == |old(store.listings)| - 1
    ensures r.Fail? ==> store.listings == old(store.listings)
  {
    var index := IndexOfListing(store.listings, id);
    if index.None? {
      return Fail(NotFound(MILK_NOT_FOUND));
    }
    var i := index.value;
    if store.listings[i].seller != caller {
      return Fail(Forbidden(NOT_AUTHORIZED_DELETE));
    }
    RemoveListingCount(store.listings, id);
    RemoveListingUnique(store.listings, id, store.nextId);
    store.listings := RemoveListing(store.listings, id);
    r := Success(());
  }

  // ---- getAllMilkTypes: available listings grouped by effective type ----

  /** One row of the type summary; `None` is the group of Other listings that
      carry no custom name. */
  datatype TypeCount = TypeCount(milkType: Option<string>, sellerCount: nat)

  /** The store's ascending order on group keys: the missing key first, then
      names in string order. */
  predicate KeyLess(a: Option<string>, b: Option<string>)
  {
    b.Some? && (a.None? || StrLess(a.value, b.value))
  }

  lemma KeyLessIrreflexive(a: Option<string>)
    ensures !KeyLess(a, a)
  {
    if a.Some? {
      StrLessIrreflexive(a.value);
    }
  }

  lemma KeyLessTransitive(a: Option<string>, b: Option<string>, c: Option<string>)
    requires KeyLess(a, b) && KeyLess(b, c)
    ensures KeyLess(a, c)
  {
    if a.Some? {
      StrLessTransitive(a.value, b.value, c.value);
    }
  }

  lemma KeyLessTotal(a: Option<string>, b: Option<string>)
    ensures a == b || KeyLess(a, b) || KeyLess(b, a)
  {
    if a.Some? && b.Some? {
      StrLessTotal(a.value, b.value);
    }
  }

  ghost predicate StrictlySorted(g: seq<TypeCount>)
  {
    forall i, j :: 0 <= i < j < |g| ==> KeyLess(g[i].milkType, g[j].milkType)
  }

  /** Every key of `g` sorts after `k`. */
  ghost predicate AllAbove(g: seq<TypeCount>, k: Option<string>)
  {
    forall i :: 0 <= i < |g| ==> KeyLess(k, g[i].milkType)
  }

  /** Count one more listing under `key`: bump its row, or insert a row of
      count 1 at its place in key order. */
  function InsertKey(g: seq<TypeCount>, key: Option<string>): seq<TypeCount>
  {
    if g == [] then [TypeCount(key, 1)]
    else if g[0].milkType == key then [g[0].(sellerCount := g[0].sellerCount + 1)] + g[1..]
    else if KeyLess(key, g[0].milkType) then [TypeCount(key, 1)] + g
    else [g[0]] + InsertKey(g[1..], key)
  }

  /** The result of the grouping pipeline over the listings. */
  function GroupByType(listings: seq<Milk>): seq<TypeCount>
  {
    if listings == [] then []
    else
      var rest := GroupByType(listings[1..]);
      if listings[0].isAvailable then InsertKey(rest, EffectiveMilkType(listings[0])) else rest
  }

  /** The summed count of the rows with key `k`. */
  function CountOf(g: seq<TypeCount>, k: Option<string>): nat
  {
    if g == [] then 0 else (if g[0].milkType == k then g[0].sellerCount else 0) + CountOf(g[1..], k)
  }

  function TotalCount(g: seq<TypeCount>): nat
  {
    if g == [] then 0 else g[0].sellerCount + TotalCount(g[1..])
  }

  /** Number of available listings whose effective type is `k`. */
  function CountAvailable(listings: seq<Milk>, k: Option<string>): nat
  {
    if listings == [] then 0
    else (if listings[0].isAvailable && EffectiveMilkType(listings[0]) == k then 1 else 0)
         + CountAvailable(listings[1..], k)
  }

  function NumAvailable(listings: seq<Milk>): nat
  {
    if listings == [] then 0 else (if listings[0].isAvailable then 1 else 0) + NumAvailable(listings[1..])
  }

  lemma {:induction false} InsertKeyAbove(g: seq<TypeCount>, key: Option<string>, k: Option<string>)
    requires AllAbove(g, k) && KeyLess(k, key)
    ensures AllAbove(InsertKey(g, key), k)
  {
    if g != [] && g[0].milkType != key && !KeyLess(key, g[0].milkType) {
      InsertKeyAbove(g[1..], key, k);
    }
  }

  lemma {:induction false} InsertKeySorted(g: seq<TypeCount>, key: Option<string>)
    requires StrictlySorted(g)
    ensures StrictlySorted(InsertKey(g, key))
  {
    if g == [] {
    } else if g[0].milkType == key {
    } else if KeyLess(key, g[0].milkType) {
      forall j | 0 <= j < |g|
        ensures KeyLess(key, g[j].milkType)
      {
        if j > 0 {
          KeyLessTransitive(key, g[0].milkType, g[j].milkType);
        }
      }
    } else {
      KeyLessTotal(key, g[0].milkType);
      InsertKeySorted(g[1..], key);
      InsertKeyAbove(g[1..], key, g[0].milkType);
    }
  }

  lemma {:induction false} InsertKeyCounts(g: seq<TypeCount>, key: Option<string>, k: Option<string>)
    ensures CountOf(InsertKey(g, key), k) == CountOf(g, k) + (if k == key then 1 else 0)
    ensures TotalCount(InsertKey(g, key)) == TotalCount(g) + 1
  {
    if g == [] {
    } else if g[0].milkType == key {
      assert InsertKey(g, key)[1..] == g[1..];
    } else if KeyLess(key, g[0].milkType) {
      assert InsertKey(g, key)[1..] == g;
    } else {
      assert InsertKey(g, key)[1..] == InsertKey(g[1..], key);
      InsertKeyCounts(g[1..], key, k);
    }
  }

  lemma {:induction false} InsertKeyPositive(g: seq<TypeCount>, key: Option<string>)
    requires forall i :: 0 <= i < |g| ==> g[i].sellerCount > 0
    ensures forall i :: 0 <= i < |InsertKey(g, key)| ==> InsertKey(g, key)[i].sellerCount > 0
  {
    if g != [] && g[0].milkType != key && !KeyLess(key, g[0].milkType) {
      InsertKeyPositive(g[1..], key);
    }
  }

  lemma {:induction false} GroupFacts(listings: seq<Milk>, k: Option<string>)
    ensures StrictlySorted(GroupByType(listings))
    ensures forall i :: 0 <= i < |GroupByType(listings)| ==> GroupByType(listings)[i].sellerCount > 0
    ensures CountOf(GroupByType(listings), k) == CountAvailable(listings, k)
    ensures TotalCount(GroupByType(listings)) == NumAvailable(listings)
  {
    if listings != [] {
      var rest := GroupByType(listings[1..]);
      GroupFacts(listings[1..], k);
      if listings[0].isAvailable {
        var key := EffectiveMilkType(listings[0]);
        InsertKeySorted(rest, key);
        InsertKeyPositive(rest, key);
        InsertKeyCounts(rest, key, k);
      }
    }
  }

  lemma {:induction false} CountOfAbsent(g: seq<TypeCount>, k: Option<string>)
    requires forall i :: 0 <= i < |g| ==> g[i].milkType != k
    ensures CountOf(g, k) == 0
  {
    if g != [] {
      CountOfAbsent(g[1..], k);
    }
  }

  /** In a strictly sorted summary, a row's count is the whole count of its key. */
  lemma {:induction false} CountOfRow(g: seq<TypeCount>, i: nat)
    requires StrictlySorted(g) && i < |g|
    ensures CountOf(g, g[i].milkType) == g[i].sellerCount
  {
    if i == 0 {
      forall j | 0 <= j < |g[1..]|
        ensures g[1..][j].milkType != g[0].milkType
      {
        KeyLessIrreflexive(g[0].milkType);
      }
      CountOfAbsent(g[1..], g[0].milkType);
    } else {
      KeyLessIrreflexive(g[i].milkType);
      CountOfRow(g[1..], i - 1);
    }
  }

  /** `getAllMilkTypes`: the rows are in strictly ascending key order (one row
      per effective type), each row counts exactly the available listings of
      its type, every type on offer has a row, and the counts add up to the
      number of available listings. */
  lemma GetAllMilkTypes(listings: seq<Milk>)
    ensures var g := GroupByType(listings);
            && StrictlySorted(g)
            && (forall i :: 0 <= i < |g| ==>
                  g[i].sellerCount == CountAvailable(listings, g[i].milkType) > 0)
            && (forall k :: CountAvailable(listings, k) > 0 ==>
                  exists i :: 0 <= i < |g| && g[i].milkType == k)
            && TotalCount(g) == NumAvailable(listings)
  {
    var g := GroupByType(listings);
    GroupFacts(listings, None);
    forall i | 0 <= i < |g|
      ensures g[i].sellerCount == CountAvailable(listings, g[i].milkType)
    {
      GroupFacts(listings, g[i].milkType);
      CountOfRow(g, i);
    }
    forall k | CountAvailable(listings, k) > 0
      ensures exists i :: 0 <= i < |g| && g[i].milkType == k
    {
      GroupFacts(listings, k);
      if forall i :: 0 <= i < |g| ==> g[i].milkType != k {
        CountOfAbsent(g, k);
      }
    }
  }

  // ---- getSellersByMilkType: available listings of one type, best rated first ----

  /** The query matches the listing's enumerated type or its custom name. */
  predicate MatchesType(m: Milk, query: string)
  {
    m.isAvailable && (MilkTypeName(m.milkType) == query || m.customMilkType == Some(query))
  }

  function FilterByType(listings: seq<Milk>, query: string): seq<Milk>
  {
    if listings == [] then []
    else
      var rest := FilterByType(listings[1..], query);
      if MatchesType(listings[0], query) then [listings[0]] + rest else rest
  }

  ghost predicate RatingDescending(s: seq<Milk>)
  {
    forall i, j :: 0 <= i < j < |s| ==> s[i].averageRating >= s[j].averageRating
  }

  function InsertByRating(m: Milk, s: seq<Milk>): seq<Milk>
  {
    if s == [] || m.averageRating >= s[0].averageRating then [m] + s
    else [s[0]] + InsertByRating(m, s[1..])
  }

  function SortByRating(s: seq<Milk>): seq<Milk>
  {
    if s == [] then [] else InsertByRating(s[0], SortByRating(s[1..]))
  }

  /** The listings returned for query `query`. */
  function SellersByMilkType(listings: seq<Milk>, query: string): seq<Milk>
  {
    SortByRating(FilterByType(listings, query))
  }

  lemma {:induction false} InsertByRatingPerm(m: Milk, s: seq<Milk>)
    ensures multiset(InsertByRating(m, s)) == multiset(s) + multiset{m}
  {
    if s != [] && m.averageRating < s[0].averageRating {
      InsertByRatingPerm(m, s[1..]);
      assert s == [s[0]] + s[1..];
    }
  }

  /** Every listing after an insertion is the inserted one or one of the list. */
  lemma {:induction false} InsertByRatingSource(m: Milk, s: seq<Milk>, j: nat) returns (k: int)
    requires j < |InsertByRating(m, s)|
    ensures -1 <= k < |s|
    ensures k == -1 ==> InsertByRating(m, s)[j] == m
    ensures k >= 0 ==> InsertByRating(m, s)[j] == s[k]
  {
    if s == [] || m.averageRating >= s[0].averageRating {
      k := j - 1;
    } else if j == 0 {
      k := 0;
    } else {
      var k' := InsertByRatingSource(m, s[1..], j - 1);
      k := if k' == -1 then -1 else k' + 1;
    }
  }

  lemma DescendingCons(m: Milk, rest: seq<Milk>)
    requires RatingDescending(rest)
    requires forall j :: 0 <= j < |rest| ==> m.averageRating >= rest[j].averageRating
    ensures RatingDescending([m] + rest)
  {
    var r := [m] + rest;
    forall i, j | 0 <= i < j < |r| ensures r[i].averageRating >= r[j].averageRating {
      assert r[j] == rest[j - 1];
      if i > 0 {
        assert r[i] == rest[i - 1];
      }
    }
  }

  lemma DescendingTail(s: seq<Milk>)
    requires s != [] && RatingDescending(s)
    ensures RatingDescending(s[1..])
    ensures forall j :: 0 <= j < |s[1..]| ==> s[0].averageRating >= s[1..][j].averageRating
  {
    var t := s[1..];
    forall i, j | 0 <= i < j < |t| ensures t[i].averageRating >= t[j].averageRating {
      assert t[i] == s[i + 1] && t[j] == s[j + 1];
    }
    forall j | 0 <= j < |t| ensures s[0].averageRating >= t[j].averageRating {
      assert t[j] == s[j + 1];
    }
  }

  lemma {:induction false} InsertByRatingSorted(m: Milk, s: seq<Milk>)
    requires RatingDescending(s)
    ensures RatingDescending(InsertByRating(m, s))
  {
    if s == [] || m.averageRating >= s[0].averageRating {
      if s != [] {
        forall j | 0 <= j < |s| ensures m.averageRating >= s[j].averageRating {
          if j > 0 {
            assert s[0].averageRating >= s[j].averageRating;
          }
        }
      }
      DescendingCons(m, s);
    } else {
      DescendingTail(s);
      var rest := InsertByRating(m, s[1..]);
      InsertByRatingSorted(m, s[1..]);
      forall j | 0 <= j < |rest|
        ensures s[0].averageRating >= rest[j].averageRating
      {
        var k := InsertByRatingSource(m, s[1..], j);
      }
      DescendingCons(s[0], rest);
    }
  }

  lemma {:induction false} SortByRatingFacts(s: seq<Milk>)
    ensures RatingDescending(SortByRating(s))
    ensures multiset(SortByRating(s)) == multiset(s)
  {
    if s != [] {
      SortByRatingFacts(s[1..]);
      InsertByRatingSorted(s[0], SortByRating(s[1..]));
      InsertByRatingPerm(s[0], SortByRating(s[1..]));
      assert s == [s[0]] + s[1..];
    }
  }

  lemma {:induction false} FilterByTypeMembers(listings: seq<Milk>, query: string)
    ensures forall m :: m in FilterByType(listings, query) <==> m in listings && MatchesType(m, query)
  {
    if listings != [] {
      FilterByTypeMembers(listings[1..], query);
      assert listings == [listings[0]] + listings[1..];
    }
  }

  /** `getSellersByMilkType`: best rated first, and exactly the available
      listings whose type or custom name is the query, each as often as stored. */
  lemma GetSellersByMilkType(listings: seq<Milk>, query: string)
    ensures RatingDescending(SellersByMilkType(listings, query))
    ensures multiset(SellersByMilkType(listings, query)) == multiset(FilterByType(listings, query))
    ensures forall m :: m in SellersByMilkType(listings, query) <==> m in listings && MatchesType(m, query)
  {
    SortByRatingFacts(FilterByType(listings, query));
    FilterByTypeMembers(listings, query);
    forall m
      ensures m in SellersByMilkType(listings, query) <==> m in FilterByType(listings, query)
    {
      assert m in SellersByMilkType(listings, query) <==> m in multiset(SellersByMilkType(listings, query));
    }
  }

  /** Following a row of the type summary finds every available listing of
      that type. */
  lemma SummaryRowFindsListings(listings: seq<Milk>, m: Milk, name: string)
    requires m in listings && m.isAvailable && EffectiveMilkType(m) == Some(name)
    ensures m in SellersByMilkType(listings, name)
  {
    GetSellersByMilkType(listings, name);
  }
}

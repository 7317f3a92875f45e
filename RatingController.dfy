/** Ratings as customers submit, edit and withdraw them, and the recomputation
    of the averages each change triggers. */
module RatingController {

  import opened Common
  import opened MilkModel
  import opened OrderModel
  import opened RatingModel

  const MILK_RATING_REQUIRED: string := "Milk rating is required for milk rating type"
  const SELLER_RATING_REQUIRED: string := "Seller rating is required for seller rating type"
  const BOTH_REQUIRED: string := "Both milk and seller ratings are required"
  const ORDER_NOT_FOUND: string := "Order not found"
  const NOT_AUTHORIZED_RATE: string := "Not authorized to rate this order"
  const ONLY_DELIVERED: string := "Can only rate delivered orders"
  const ALREADY_RATED: string := "You have already rated this order"
  const CREATE_RATING_ERROR: string := "Error creating rating"
  const RATING_NOT_FOUND: string := "Rating not found"
  const NOT_AUTHORIZED_UPDATE: string := "Not authorized to update this rating"
  const UPDATE_RATING_ERROR: string := "Error updating rating"
  const NOT_AUTHORIZED_DELETE: string := "Not authorized to delete this rating"

  /** The body of a rating submission; `None` means the field is absent. */
  datatype RatingRequest = RatingRequest(
    seller: Option<UserId>,
    milk: Option<nat>,
    order: Option<nat>,
    ratingType: string,
    milkRating: Option<real>,
    sellerRating: Option<real>,
    milkReview: Option<string>,
    sellerReview: Option<string>)

  /** A score counts as given when present and non-zero. */
  predicate Given(x: Option<real>)
  {
    x.Some? && x.value != 0.0
  }

  /** What is stored for a submitted score: a zero score is dropped. */
  function StoredScore(x: Option<real>): (r: Option<real>)
    ensures r.Some? <==> Given(x)
    ensures r.Some? ==> r == x
  {
    if Given(x) then x else None
  }

  /** What is stored for a submitted review: an empty review is dropped. */
  function StoredReview(x: Option<string>): (r: Option<string>)
    ensures r.Some? <==> x.Some? && x.value != ""
    ensures r.Some? ==> r == x
  {
    if x.Some? && x.value != "" then x else None
  }

  /** The scores the declared rating type demands are given. */
  predicate TypeRuleHolds(ratingType: string, milkRating: Option<real>, sellerRating: Option<real>)
  {
    && (ratingType == "milk" ==> Given(milkRating))
    && (ratingType == "seller" ==> Given(sellerRating))
    && (ratingType == "both" ==> Given(milkRating) && Given(sellerRating))
  }

  /** `customer` has already rated order `order`. */
  predicate AlreadyRated(ratings: seq<Rating>, customer: UserId, order: nat)
  {
    exists i :: 0 <= i < |ratings| && ratings[i].customer == customer && ratings[i].order == Some(order)
  }

  /** The order a rating names exists, was placed by the caller, was delivered
      and has not been rated by the caller yet. */
  predicate MayRateOrder(orders: seq<Order>, ratings: seq<Rating>, caller: UserId, o: nat)
  {
    o < |orders| && orders[o].customer == caller && orders[o].status == Delivered
    && !AlreadyRated(ratings, caller, o)
  }

  /** `createRating` before the insert: the rating-type rules, then the order
      checks, then the schema (seller and rating type required, scores in
      [1, 5]), the first failure winning. */
  function CheckRating(orders: seq<Order>, ratings: seq<Rating>, caller: UserId,
                       req: RatingRequest, nextId: nat): (r: Outcome<Rating>)
    ensures req.ratingType == "milk" && !Given(req.milkRating) ==> r == Fail(BadRequest(MILK_RATING_REQUIRED))
    ensures req.ratingType == "seller" && !Given(req.sellerRating) ==> r == Fail(BadRequest(SELLER_RATING_REQUIRED))
    ensures req.ratingType == "both" && !(Given(req.milkRating) && Given(req.sellerRating))
            ==> r == Fail(BadRequest(BOTH_REQUIRED))
    ensures TypeRuleHolds(req.ratingType, req.milkRating, req.sellerRating) && req.order.Some? ==>
              var o := req.order.value;
              && (o >= |orders| ==> r == Fail(NotFound(ORDER_NOT_FOUND)))
              && (o < |orders| && orders[o].customer != caller ==> r == Fail(Forbidden(NOT_AUTHORIZED_RATE)))
              && (o < |orders| && orders[o].customer == caller && orders[o].status != Delivered
                  ==> r == Fail(BadRequest(ONLY_DELIVERED)))
              && ((o < |orders| && orders[o].customer == caller && orders[o].status == Delivered
                   && AlreadyRated(ratings, caller, o)) ==> r == Fail(BadRequest(ALREADY_RATED)))
    ensures r.Success? <==>
              && TypeRuleHolds(req.ratingType, req.milkRating, req.sellerRating)
              && (req.order.Some? ==> MayRateOrder(orders, ratings, caller, req.order.value))
              && req.seller.Some? && ParseRatingType(req.ratingType).Some?
              && ScoreValid(StoredScore(req.milkRating)) && ScoreValid(StoredScore(req.sellerRating))
    ensures r.Success? ==>
              && r.value.id == nextId && r.value.customer == caller && r.value.seller == req.seller.value
              && r.value.milk == req.milk && r.value.order == req.order
              && r.value.milkRating == StoredScore(req.milkRating)
              && r.value.sellerRating == StoredScore(req.sellerRating)
              && r.value.milkReview == StoredReview(req.milkReview)
              && r.value.sellerReview == StoredReview(req.sellerReview)
    ensures r.Success? ==>
              && RatingSchemaValid(r.value)
              && (r.value.ratingType == ForMilk ==> r.value.milkRating.Some?)
              && (r.value.ratingType == ForSeller ==> r.value.sellerRating.Some?)
              && (r.value.ratingType == ForBoth ==> r.value.milkRating.Some? && r.value.sellerRating.Some?)
  {
    var m := req.milkRating;
    var s := req.sellerRating;
    if req.ratingType == "milk" && !Given(m) then Fail(BadRequest(MILK_RATING_REQUIRED))
    else if req.ratingType == "seller" && !Given(s) then Fail(BadRequest(SELLER_RATING_REQUIRED))
    else if req.ratingType == "both" && (!Given(m) || !Given(s)) then Fail(BadRequest(BOTH_REQUIRED))
    else if req.order.Some? && req.order.value >= |orders| then Fail(NotFound(ORDER_NOT_FOUND))
    else if req.order.Some? && orders[req.order.value].customer != caller then
      Fail(Forbidden(NOT_AUTHORIZED_RATE))
    else if req.order.Some? && orders[req.order.value].status != Delivered then
      Fail(BadRequest(ONLY_DELIVERED))
    else if req.order.Some? && AlreadyRated(ratings, caller, req.order.value) then
      Fail(BadRequest(ALREADY_RATED))
    else
      var kind := ParseRatingType(req.ratingType);
      if req.seller.None? || kind.None? then Fail(ServerError(CREATE_RATING_ERROR))
      else if !ScoreValid(StoredScore(m)) || !ScoreValid(StoredScore(s)) then
        Fail(ServerError(CREATE_RATING_ERROR))
      else Success(Rating(nextId, caller, req.seller.value, req.milk, req.order, kind.value,
                          StoredScore(m), StoredScore(s), StoredReview(req.milkReview),
                          StoredReview(req.sellerReview)))
  }

  /** An accepted rating keeps the collection well formed: fresh identifier,
      valid scores, and at most one rating per customer and order. */
  lemma CreateKeepsValid(orders: seq<Order>, ratings: seq<Rating>, nextId: nat, caller: UserId,
                         req: RatingRequest)
    requires RatingsValid(ratings, nextId)
    requires CheckRating(orders, ratings, caller, req, nextId).Success?
    ensures RatingsValid(ratings + [CheckRating(orders, ratings, caller, req, nextId).value], nextId + 1)
  {
    var r := CheckRating(orders, ratings, caller, req, nextId).value;
    var after := ratings + [r];
    assert after[|ratings|] == r;
  }

  /** After an order has been rated, the same customer's next rating for it —
      once the rating-type rules pass — is refused as a duplicate. */
  lemma SecondRatingRefused(orders: seq<Order>, ratings: seq<Rating>, nextId: nat, caller: UserId,
                            req: RatingRequest, req2: RatingRequest)
    requires CheckRating(orders, ratings, caller, req, nextId).Success?
    requires req.order.Some? && req2.order == req.order
    requires TypeRuleHolds(req2.ratingType, req2.milkRating, req2.sellerRating)
    ensures var after := ratings + [CheckRating(orders, ratings, caller, req, nextId).value];
            CheckRating(orders, after, caller, req2, nextId + 1) == Fail(BadRequest(ALREADY_RATED))
  {
    var after := ratings + [CheckRating(orders, ratings, caller, req, nextId).value];
    assert after[|ratings|].customer == caller && after[|ratings|].order == req2.order;
    assert AlreadyRated(after, caller, req2.order.value);
  }

  /** Under the intended index, a rating without an order is never refused
      because of earlier ratings: the customer may submit any number of them.
      The program refuses the second one (`OrderlessRatingLimitedAsWritten`). */
  lemma OrderlessRatingsUnlimited(orders: seq<Order>, ratings: seq<Rating>, ratings2: seq<Rating>,
                                  nextId: nat, caller: UserId, req: RatingRequest)
    requires req.order.None?
    ensures CheckRating(orders, ratings, caller, req, nextId).Success?
            == CheckRating(orders, ratings2, caller, req, nextId).Success?
  {
  }

  /** An accepted rating adds exactly its own scores to the seller's and the
      listing's score lists, so each count grows by one per score given. */
  lemma CreatedRatingCounted(orders: seq<Order>, ratings: seq<Rating>, nextId: nat, caller: UserId,
                             req: RatingRequest)
    requires CheckRating(orders, ratings, caller, req, nextId).Success?
    ensures var r := CheckRating(orders, ratings, caller, req, nextId).value;
            && SellerScores(ratings + [r], r.seller)
               == SellerScores(ratings, r.seller) + (if Given(req.sellerRating) then [req.sellerRating.value] else [])
            && (r.milk.Some? ==>
                  MilkScores(ratings + [r], r.milk.value)
                  == MilkScores(ratings, r.milk.value) + (if Given(req.milkRating) then [req.milkRating.value] else []))
  {
    var r := CheckRating(orders, ratings, caller, req, nextId).value;
    var milk := if r.milk.Some? then r.milk.value else 0;
    ScoresConcat(ratings, [r], r.seller, milk);
    assert [r][1..] == [];
  }

  /** `createRating` under the intended (customer, order) index, where only
      ratings of the same order collide: insert the accepted rating under a
      fresh identifier and run the post-save recomputation; change nothing on
      refusal.  `CreateRatingAsWritten` is the operation under the index as
      the program declares it. */
  method CreateRating(store: RatingCollection, orders: seq<Order>, caller: UserId, req: RatingRequest,
                      sellers: SellerDirectory, milks: MilkCollection)
    returns (r: Outcome<Rating>)
    requires store.Valid() && milks.Valid()
    modifies store, sellers, milks`listings
    ensures r == CheckRating(orders, old(store.ratings), caller, req, old(store.nextId))
    ensures store.Valid() && milks.Valid()
    ensures r.Success? ==>
              && store.ratings == old(store.ratings) + [r.value]
              && store.nextId == old(store.nextId) + 1
              && Recomputed(r.value, store.ratings, old(sellers.stats), sellers.stats,
                            old(milks.listings), milks.listings)
    ensures r.Fail? ==>
              && store.ratings == old(store.ratings) && store.nextId == old(store.nextId)
              && sellers.stats == old(sellers.stats) && milks.listings == old(milks.listings)
  {
    r := CheckRating(orders, store.ratings, caller, req, store.nextId);
    if r.Success? {
      CreateKeepsValid(orders, store.ratings, store.nextId, caller, req);
      store.ratings := store.ratings + [r.value];
      store.nextId := store.nextId + 1;
      AfterSave(r.value, store.ratings, sellers, milks);
    }
  }

  // ---- updateRating: partial update of the scores and reviews ----

  /** The fields an update may supply; `None` means not supplied. */
  datatype RatingPatch = RatingPatch(
    milkRating: Option<real>,
    sellerRating: Option<real>,
    milkReview: Option<string>,
    sellerReview: Option<string>)

  function Override<T>(supplied: Option<T>, current: Option<T>): Option<T>
  {
    if supplied.Some? then supplied else current
  }

  /** Every supplied field takes its new value; every other field, including
      the rating type, the seller, the listing and the order, keeps its old one. */
  function ApplyRatingPatch(r: Rating, p: RatingPatch): (q: Rating)
    ensures q.id == r.id && q.customer == r.customer && q.seller == r.seller
    ensures q.milk == r.milk && q.order == r.order && q.ratingType == r.ratingType
    ensures q.milkRating == (if p.milkRating.Some? then p.milkRating else r.milkRating)
    ensures q.sellerRating == (if p.sellerRating.Some? then p.sellerRating else r.sellerRating)
    ensures q.milkReview == (if p.milkReview.Some? then p.milkReview else r.milkReview)
    ensures q.sellerReview == (if p.sellerReview.Some? then p.sellerReview else r.sellerReview)
  {
    r.(milkRating := Override(p.milkRating, r.milkRating),
       sellerRating := Override(p.sellerRating, r.sellerRating),
       milkReview := Override(p.milkReview, r.milkReview),
       sellerReview := Override(p.sellerReview, r.sellerReview))
  }

  /** Sending the same update twice changes nothing the second time, and an
      empty update changes nothing at all. */
  lemma RatingPatchIdempotent(r: Rating, p: RatingPatch)
    ensures ApplyRatingPatch(ApplyRatingPatch(r, p), p) == ApplyRatingPatch(r, p)
    ensures ApplyRatingPatch(r, RatingPatch(None, None, None, None)) == r
  {
  }

  /** `updateRating` before the save: the rating must exist and belong to the
      caller, and the edited rating must pass the schema. */
  function RatingUpdate(ratings: seq<Rating>, id: nat, caller: UserId, p: RatingPatch): (r: Outcome<Rating>)
    ensures IndexOfRating(ratings, id).None? ==> r == Fail(NotFound(RATING_NOT_FOUND))
    ensures IndexOfRating(ratings, id).Some? ==>
              var current := ratings[IndexOfRating(ratings, id).value];
              && (current.customer != caller ==> r == Fail(Forbidden(NOT_AUTHORIZED_UPDATE)))
              && (current.customer == caller ==>
                    && (r.Success? <==> RatingSchemaValid(ApplyRatingPatch(current, p)))
                    && (r.Success? ==> r.value == ApplyRatingPatch(current, p))
                    && (r.Fail? ==> r == Fail(ServerError(UPDATE_RATING_ERROR))))
  {
    match IndexOfRating(ratings, id)
    case None => Fail(NotFound(RATING_NOT_FOUND))
    case Some(i) =>
      if ratings[i].customer != caller then Fail(Forbidden(NOT_AUTHORIZED_UPDATE))
      else
        var q := ApplyRatingPatch(ratings[i], p);
        if !RatingSchemaValid(q) then Fail(ServerError(UPDATE_RATING_ERROR)) else Success(q)
  }

  /** An accepted update keeps the collection well formed. */
  lemma UpdateKeepsValid(ratings: seq<Rating>, nextId: nat, id: nat, caller: UserId, p: RatingPatch)
    requires RatingsValid(ratings, nextId)
    requires RatingUpdate(ratings, id, caller, p).Success?
    ensures RatingsValid(ratings[IndexOfRating(ratings, id).value := RatingUpdate(ratings, id, caller, p).value],
                         nextId)
  {
    var i := IndexOfRating(ratings, id).value;
    var q := RatingUpdate(ratings, id, caller, p).value;
    var after := ratings[i := q];
    assert forall j :: 0 <= j < |after| ==>
             after[j].id == ratings[j].id && after[j].customer == ratings[j].customer
             && after[j].order == ratings[j].order;
  }

  /** `updateRating`: store the edited rating in place and run the post-save
      recomputation; change nothing on refusal. */
  method UpdateRating(store: RatingCollection, id: nat, caller: UserId, p: RatingPatch,
                      sellers: SellerDirectory, milks: MilkCollection)
    returns (r: Outcome<Rating>)
    requires store.Valid() && milks.Valid()
    modifies store`ratings, sellers, milks`listings
    ensures r == RatingUpdate(old(store.ratings), id, caller, p)
    ensures store.Valid() && milks.Valid()
    ensures r.Success? ==>
              && store.ratings == old(store.ratings)[IndexOfRating(old(store.ratings), id).value := r.value]
              && Recomputed(r.value, store.ratings, old(sellers.stats), sellers.stats,
                            old(milks.listings), milks.listings)
    ensures r.Fail? ==>
              && store.ratings == old(store.ratings)
              && sellers.stats == old(sellers.stats) && milks.listings == old(milks.listings)
  {
    r := RatingUpdate(store.ratings, id, caller, p);
    if r.Success? {
      UpdateKeepsValid(store.ratings, store.nextId, id, caller, p);
      var i := IndexOfRating(store.ratings, id).value;
      store.ratings := store.ratings[i := r.value];
      AfterSave(r.value, store.ratings, sellers, milks);
    }
  }

  // ---- deleteRating ----

  /** `deleteRating`'s checks: the position of the rating to remove. */
  function RatingDeletion(ratings: seq<Rating>, id: nat, caller: UserId): (r: Outcome<nat>)
    ensures r.Success? <==> exists i :: 0 <= i < |ratings| && ratings[i].id == id && ratings[i].customer == caller
                                        && IndexOfRating(ratings, id) == Some(i)
    ensures r.Success? ==> r.value < |ratings| && ratings[r.value].id == id && ratings[r.value].customer == caller
    ensures IndexOfRating(ratings, id).None? ==> r == Fail(NotFound(RATING_NOT_FOUND))
    ensures IndexOfRating(ratings, id).Some? && r.Fail? ==> r == Fail(Forbidden(NOT_AUTHORIZED_DELETE))
  {
    match IndexOfRating(ratings, id)
    case None => Fail(NotFound(RATING_NOT_FOUND))
    case Some(i) =>
      if ratings[i].customer != caller then Fail(Forbidden(NOT_AUTHORIZED_DELETE)) else Success(i)
  }

  function RemoveAt(ratings: seq<Rating>, i: nat): (r: seq<Rating>)
    requires i < |ratings|
    ensures |r| == |ratings| - 1
  {
    ratings[..i] + ratings[i + 1..]
  }

  /** Removing a rating keeps the others, in order, and keeps the collection
      well formed; its identifier is then gone. */
  lemma RemoveAtFacts(ratings: seq<Rating>, nextId: nat, i: nat)
    requires i < |ratings| && RatingsValid(ratings, nextId)
    ensures forall j :: 0 <= j < |RemoveAt(ratings, i)| ==>
              RemoveAt(ratings, i)[j] == ratings[if j < i then j else j + 1]
    ensures RatingsValid(RemoveAt(ratings, i), nextId)
    ensures forall j :: 0 <= j < |RemoveAt(ratings, i)| ==> RemoveAt(ratings, i)[j].id != ratings[i].id
  {
    var r := RemoveAt(ratings, i);
    assert forall j :: 0 <= j < |r| ==> r[j] == ratings[if j < i then j else j + 1];
  }

  /** Deleting a rating removes exactly its own scores from the seller's and
      the listing's score lists. */
  lemma DeletedRatingUncounted(ratings: seq<Rating>, i: nat)
    requires i < |ratings|
    ensures var d := ratings[i];
            && |SellerScores(RemoveAt(ratings, i), d.seller)|
               == |SellerScores(ratings, d.seller)| - (if d.sellerRating.Some? then 1 else 0)
            && (d.milk.Some? ==>
                  |MilkScores(RemoveAt(ratings, i), d.milk.value)|
                  == |MilkScores(ratings, d.milk.value)| - (if d.milkRating.Some? then 1 else 0))
  {
    var d := ratings[i];
    var milk := if d.milk.Some? then d.milk.value else 0;
    assert ratings == ratings[..i] + ([d] + ratings[i + 1..]);
    ScoresConcat(ratings[..i], [d] + ratings[i + 1..], d.seller, milk);
    ScoresConcat([d], ratings[i + 1..], d.seller, milk);
    ScoresConcat(ratings[..i], ratings[i + 1..], d.seller, milk);
    assert ([d] + ratings[i + 1..])[1..] == ratings[i + 1..];
    assert [d][1..] == [];
  }

  /** When the deleted rating held the seller's only seller score, the
      recomputation finds nothing to average and the seller document keeps the
      average and count of the rating that no longer exists. */
  lemma DeletingLastScoreKeepsStaleAverage(ratings: seq<Rating>, i: nat,
                                           before: map<UserId, RatingStats>, after: map<UserId, RatingStats>)
    requires i < |ratings| && ratings[i].sellerRating.Some?
    requires |SellerScores(ratings, ratings[i].seller)| == 1
    ensures SellerStatsAfter(RemoveAt(ratings, i), ratings[i].seller, before, after) <==> after == before
  {
    DeletedRatingUncounted(ratings, i);
  }

  /** `deleteRating`: remove the rating, then recompute the seller's average
      if it carried a seller score and the listing's if it carried a milk
      score and named a listing. */
  method DeleteRating(store: RatingCollection, id: nat, caller: UserId,
                      sellers: SellerDirectory, milks: MilkCollection)
    returns (r: Outcome<()>)
    requires store.Valid() && milks.Valid()
    modifies store`ratings, sellers, milks`listings
    ensures store.Valid() && milks.Valid()
    ensures match RatingDeletion(old(store.ratings), id, caller)
            case Fail(f) =>
              && r == Fail(f) && store.ratings == old(store.ratings)
              && sellers.stats == old(sellers.stats) && milks.listings == old(milks.listings)
            case Success(i) =>
              && r == Success(())
              && store.ratings == RemoveAt(old(store.ratings), i)
              && Recomputed(old(store.ratings)[i], store.ratings, old(sellers.stats), sellers.stats,
                            old(milks.listings), milks.listings)
  {
    var check := RatingDeletion(store.ratings, id, caller);
    if check.Fail? {
      return Fail(check.failure);
    }
    var i := check.value;
    var rating := store.ratings[i];
    RemoveAtFacts(store.ratings, store.nextId, i);
    store.ratings := RemoveAt(store.ratings, i);
    if rating.sellerRating.Some? {
      UpdateSellerRating(store.ratings, sellers, rating.seller);
    }
    if rating.milkRating.Some? && rating.milk.Some? {
      UpdateMilkRating(store.ratings, milks, rating.milk.value);
    }
    r := Success(());
  }

  // ---- the unique (customer, order) index ----

  /** The unique index on (customer, order) as the document store enforces a
      sparse compound index: a rating without an order is still indexed, under
      a missing order, because its customer is present, so it collides with
      every other order-less rating of the same customer. */
  predicate IndexAdmitsAsWritten(ratings: seq<Rating>, r: Rating)
  {
    forall i :: 0 <= i < |ratings| ==> !(ratings[i].customer == r.customer && ratings[i].order == r.order)
  }

  /** The index as intended: only ratings tied to the same order collide. */
  predicate IndexAdmits(ratings: seq<Rating>, r: Rating)
  {
    r.order.None? || IndexAdmitsAsWritten(ratings, r)
  }

  /** `customer` already holds a rating tied to no order. */
  predicate HasOrderlessRating(ratings: seq<Rating>, customer: UserId)
  {
    exists i :: 0 <= i < |ratings| && ratings[i].customer == customer && ratings[i].order.None?
  }

  /** `createRating` as the program runs it: the checks of `CheckRating`, then
      the insert, which the declared sparse index refuses with the 500 of the
      catch when the customer already holds a rating with the same (possibly
      missing) order. */
  function CheckRatingAsWritten(orders: seq<Order>, ratings: seq<Rating>, caller: UserId,
                                req: RatingRequest, nextId: nat): (r: Outcome<Rating>)
    ensures r.Success? ==> r == CheckRating(orders, ratings, caller, req, nextId)
    ensures r.Fail? && CheckRating(orders, ratings, caller, req, nextId).Success?
            ==> r == Fail(ServerError(CREATE_RATING_ERROR))
    ensures CheckRating(orders, ratings, caller, req, nextId).Fail?
            ==> r == CheckRating(orders, ratings, caller, req, nextId)
  {
    var c := CheckRating(orders, ratings, caller, req, nextId);
    if c.Success? && !IndexAdmitsAsWritten(ratings, c.value) then Fail(ServerError(CREATE_RATING_ERROR))
    else c
  }

  /** The program and the intended index disagree exactly on a rating without
      an order from a customer who already holds one: every other request gets
      the same answer from both. */
  lemma CheckRatingsDiffer(orders: seq<Order>, ratings: seq<Rating>, caller: UserId,
                           req: RatingRequest, nextId: nat)
    ensures CheckRatingAsWritten(orders, ratings, caller, req, nextId)
              != CheckRating(orders, ratings, caller, req, nextId)
            <==> CheckRating(orders, ratings, caller, req, nextId).Success?
                 && req.order.None? && HasOrderlessRating(ratings, caller)
  {
    var c := CheckRating(orders, ratings, caller, req, nextId);
    if c.Success? {
      if req.order.None? && HasOrderlessRating(ratings, caller) {
        var i :| 0 <= i < |ratings| && ratings[i].customer == caller && ratings[i].order.None?;
        assert ratings[i].customer == c.value.customer && ratings[i].order == c.value.order;
      }
      if !IndexAdmitsAsWritten(ratings, c.value) {
        var i :| 0 <= i < |ratings| && ratings[i].customer == c.value.customer && ratings[i].order == c.value.order;
      }
    }
  }

  /** As the program runs, a customer's rating without an order is refused
      once the customer holds one, whatever else the request says. */
  lemma OrderlessRatingLimitedAsWritten(orders: seq<Order>, ratings: seq<Rating>, caller: UserId,
                                        req: RatingRequest, nextId: nat)
    requires req.order.None? && HasOrderlessRating(ratings, caller)
    ensures CheckRatingAsWritten(orders, ratings, caller, req, nextId).Fail?
  {
    CheckRatingsDiffer(orders, ratings, caller, req, nextId);
  }

  /** `createRating` as the program runs it: `CreateRating`, except that the
      insert the declared index refuses leaves everything unchanged. */
  method CreateRatingAsWritten(store: RatingCollection, orders: seq<Order>, caller: UserId,
                               req: RatingRequest, sellers: SellerDirectory, milks: MilkCollection)
    returns (r: Outcome<Rating>)
    requires store.Valid() && milks.Valid()
    modifies store, sellers, milks`listings
    ensures r == CheckRatingAsWritten(orders, old(store.ratings), caller, req, old(store.nextId))
    ensures store.Valid() && milks.Valid()
    ensures r.Success? ==>
              && store.ratings == old(store.ratings) + [r.value]
              && store.nextId == old(store.nextId) + 1
              && Recomputed(r.value, store.ratings, old(sellers.stats), sellers.stats,
                            old(milks.listings), milks.listings)
    ensures r.Fail? ==>
              && store.ratings == old(store.ratings) && store.nextId == old(store.nextId)
              && sellers.stats == old(sellers.stats) && milks.listings == old(milks.listings)
  {
    r := CheckRatingAsWritten(orders, store.ratings, caller, req, store.nextId);
    if r.Success? {
      CreateKeepsValid(orders, store.ratings, store.nextId, caller, req);
      store.ratings := store.ratings + [r.value];
      store.nextId := store.nextId + 1;
      AfterSave(r.value, store.ratings, sellers, milks);
    }
  }

  /** A customer who rated a listing without an order and then rates a seller
      without an order: the creation check accepts the second request, the
      program answers it with "Error creating rating". */
  lemma SecondOrderlessRatingRefused()
    ensures var first := Rating(0, 7, 9, Some(1), None, ForMilk, Some(4.0), None, None, None);
            var req := RatingRequest(Some(9), None, None, "seller", None, Some(5.0), None, None);
            && CheckRating([], [first], 7, req, 1).Success?
            && IndexAdmits([first], CheckRating([], [first], 7, req, 1).value)
            && CheckRatingAsWritten([], [first], 7, req, 1) == Fail(ServerError(CREATE_RATING_ERROR))
  {
    var first := Rating(0, 7, 9, Some(1), None, ForMilk, Some(4.0), None, None, None);
    var req := RatingRequest(Some(9), None, None, "seller", None, Some(5.0), None, None);
    var second := CheckRating([], [first], 7, req, 1).value;
    assert [first][0].customer == second.customer && [first][0].order == second.order;
  }

  /** Every rating `createRating` accepts is admitted by the intended index. */
  lemma AcceptedRatingAdmitted(orders: seq<Order>, ratings: seq<Rating>, nextId: nat, caller: UserId,
                               req: RatingRequest)
    requires CheckRating(orders, ratings, caller, req, nextId).Success?
    ensures IndexAdmits(ratings, CheckRating(orders, ratings, caller, req, nextId).value)
  {
  }
}

/** Customer ratings of sellers and listings, and the running averages kept on
    the rated seller's user document and on the rated listing. */
module RatingModel {

  import opened Common
  import opened MilkModel

  datatype RatingType = ForMilk | ForSeller | ForBoth

  /** The rating type named `s` ('milk', 'seller', 'both'), if any. */
  function ParseRatingType(s: string): (r: Option<RatingType>)
    ensures r.Some? <==> s in {"milk", "seller", "both"}
  {
    if s == "milk" then Some(ForMilk)
    else if s == "seller" then Some(ForSeller)
    else if s == "both" then Some(ForBoth)
    else None
  }

  /** A stored rating; `milk` and `order` are the rated listing's and order's
      identifiers, when given. */
  datatype Rating = Rating(
    id: nat,
    customer: UserId,
    seller: UserId,
    milk: Option<nat>,
    order: Option<nat>,
    ratingType: RatingType,
    milkRating: Option<real>,
    sellerRating: Option<real>,
    milkReview: Option<string>,
    sellerReview: Option<string>)

  /** A star score, when present, lies in [1, 5]. */
  predicate ScoreValid(x: Option<real>)
  {
    x.None? || 1.0 <= x.value <= 5.0
  }

  predicate RatingSchemaValid(r: Rating)
  {
    ScoreValid(r.milkRating) && ScoreValid(r.sellerRating)
  }

  /** The two rating fields of a rated seller or listing. */
  datatype RatingStats = RatingStats(averageRating: real, totalRatings: nat)

  /** The present seller scores given to `seller`, in collection order. */
  function SellerScores(ratings: seq<Rating>, seller: UserId): seq<real>
  {
    if ratings == [] then []
    else
      var rest := SellerScores(ratings[1..], seller);
      if ratings[0].seller == seller && ratings[0].sellerRating.Some?
      then [ratings[0].sellerRating.value] + rest else rest
  }

  /** The present milk scores given to listing `milk`, in collection order. */
  function MilkScores(ratings: seq<Rating>, milk: nat): seq<real>
  {
    if ratings == [] then []
    else
      var rest := MilkScores(ratings[1..], milk);
      if ratings[0].milk == Some(milk) && ratings[0].milkRating.Some?
      then [ratings[0].milkRating.value] + rest else rest
  }

  function Sum(xs: seq<real>): real
  {
    if xs == [] then 0.0 else xs[0] + Sum(xs[1..])
  }

  /** `Math.round(x * 10) / 10`: the nearest multiple of 0.1, halves rounded up. */
  function RoundToTenth(x: real): (r: real)
    ensures r - 0.05 <= x < r + 0.05
    ensures (r * 10.0).Floor as real == r * 10.0
  {
    ((x * 10.0 + 0.5).Floor as real) / 10.0
  }

  /** Average (rounded to one decimal) and count of a list of scores; `None`
      when there is nothing to average. */
  function Aggregate(scores: seq<real>): (r: Option<RatingStats>)
    ensures r.None? <==> scores == []
    ensures r.Some? ==> r.value.totalRatings == |scores|
  {
    if scores == [] then None
    else Some(RatingStats(RoundToTenth(Sum(scores) / (|scores| as real)), |scores|))
  }

  /** Every score is a valid star score. */
  ghost predicate ScoresInRange(xs: seq<real>)
  {
    forall i :: 0 <= i < |xs| ==> 1.0 <= xs[i] <= 5.0
  }

  lemma {:induction false} SumBounds(xs: seq<real>)
    requires ScoresInRange(xs)
    ensures |xs| as real <= Sum(xs) <= 5.0 * (|xs| as real)
  {
    if xs != [] {
      SumBounds(xs[1..]);
    }
  }

  /** Rounding to a tenth keeps a value of [1, 5] in [1, 5]. */
  lemma RoundToTenthInRange(x: real)
    requires 1.0 <= x <= 5.0
    ensures 1.0 <= RoundToTenth(x) <= 5.0
  {
    var k := (x * 10.0 + 0.5).Floor;
    assert 10 <= k <= 50;
  }

  /** Multiplying by a positive factor keeps a strict order. */
  lemma MulStrict(x: real, y: real, b: real)
    requires x < y && b > 0.0
    ensures x * b < y * b
  {
    assert (y - x) * b > 0.0;
  }

  /** A quotient by a positive divisor lies between bounds that the dividend
      lies between once scaled by the divisor. */
  lemma DivBounds(a: real, b: real, lo: real, hi: real)
    requires b > 0.0 && lo * b <= a <= hi * b
    ensures lo <= a / b <= hi
  {
    var q := a / b;
    assert q * b == a;
    if q < lo {
      MulStrict(q, lo, b);
      assert false;
    }
    if q > hi {
      MulStrict(hi, q, b);
      assert false;
    }
  }

  /** A stored average of valid scores lies in [1, 5] and within 0.05 of the
      exact mean. */
  lemma AggregateInRange(scores: seq<real>)
    requires scores != [] && ScoresInRange(scores)
    ensures 1.0 <= Aggregate(scores).value.averageRating <= 5.0
    ensures var mean := Sum(scores) / (|scores| as real);
            mean - 0.05 < Aggregate(scores).value.averageRating <= mean + 0.05
  {
    var n := |scores| as real;
    SumBounds(scores);
    DivBounds(Sum(scores), n, 1.0, 5.0);
    RoundToTenthInRange(Sum(scores) / n);
  }

  /** Every rating a list of stored ratings contributes is a valid one. */
  lemma {:induction false} SellerScoresInRange(ratings: seq<Rating>, seller: UserId)
    requires forall i :: 0 <= i < |ratings| ==> RatingSchemaValid(ratings[i])
    ensures ScoresInRange(SellerScores(ratings, seller))
    ensures |SellerScores(ratings, seller)| <= |ratings|
  {
    if ratings != [] {
      SellerScoresInRange(ratings[1..], seller);
    }
  }

  lemma {:induction false} MilkScoresInRange(ratings: seq<Rating>, milk: nat)
    requires forall i :: 0 <= i < |ratings| ==> RatingSchemaValid(ratings[i])
    ensures ScoresInRange(MilkScores(ratings, milk))
    ensures |MilkScores(ratings, milk)| <= |ratings|
  {
    if ratings != [] {
      MilkScoresInRange(ratings[1..], milk);
    }
  }

  /** The rating-related fields of the stored user documents, by user: a user
      without an entry has no document. */
  class SellerDirectory {
    var stats: map<UserId, RatingStats>

    constructor (users: map<UserId, RatingStats>)
      ensures stats == users
    {
      stats := users;
    }
  }

  /** Identifiers are unique and handed out in increasing order, every stored
      score is in range, and a customer rates a given order at most once. */
  ghost predicate RatingsValid(ratings: seq<Rating>, nextId: nat)
  {
    && (forall i :: 0 <= i < |ratings| ==> ratings[i].id < nextId && RatingSchemaValid(ratings[i]))
    && (forall i, j :: 0 <= i < j < |ratings| ==> ratings[i].id != ratings[j].id)
    && (forall i, j :: 0 <= i < j < |ratings| && ratings[i].order.Some? ==>
          !(ratings[i].customer == ratings[j].customer && ratings[i].order == ratings[j].order))
  }

  /** The rating collection, in insertion order. */
  class RatingCollection {
    var ratings: seq<Rating>
    var nextId: nat

    ghost predicate Valid()
      reads this
    {
      RatingsValid(ratings, nextId)
    }

    constructor ()
      ensures Valid() && ratings == [] && nextId == 0
    {
      ratings := [];
      nextId := 0;
    }
  }

  /** The seller document after `updateSellerRating` over `ratings`: the new
      average and count, or unchanged when no seller score for it is left or
      no user document with that identifier exists. */
  predicate SellerStatsAfter(ratings: seq<Rating>, seller: UserId,
                             before: map<UserId, RatingStats>, after: map<UserId, RatingStats>)
  {
    match Aggregate(SellerScores(ratings, seller))
    case None => after == before
    case Some(st) => after == if seller in before then before[seller := st] else before
  }

  /** The listings after `updateMilkRating` over `ratings`: the listing's new
      average and count, or unchanged when the listing is gone or no milk
      score for it is left. */
  predicate MilkStatsAfter(ratings: seq<Rating>, milk: nat, before: seq<Milk>, after: seq<Milk>)
  {
    match (Aggregate(MilkScores(ratings, milk)), IndexOfListing(before, milk))
    case (Some(st), Some(i)) =>
      after == before[i := before[i].(averageRating := st.averageRating, totalRatings := st.totalRatings)]
    case _ => after == before
  }

  /** What the recomputation triggered by rating `r` leaves behind: the seller
      only when `r` carries a seller score, the listing only when it carries a
      milk score and names a listing. */
  predicate Recomputed(r: Rating, ratings: seq<Rating>,
                       statsBefore: map<UserId, RatingStats>, statsAfter: map<UserId, RatingStats>,
                       listingsBefore: seq<Milk>, listingsAfter: seq<Milk>)
  {
    && (if r.sellerRating.Some? then SellerStatsAfter(ratings, r.seller, statsBefore, statsAfter)
        else statsAfter == statsBefore)
    && (if r.milkRating.Some? && r.milk.Some? then MilkStatsAfter(ratings, r.milk.value, listingsBefore, listingsAfter)
        else listingsAfter == listingsBefore)
  }

  /** `updateSellerRating`: store the seller's average and count; change
      nothing when no rating with a seller score is left or the seller has no
      user document. */
  method UpdateSellerRating(ratings: seq<Rating>, sellers: SellerDirectory, seller: UserId)
    modifies sellers
    ensures SellerStatsAfter(ratings, seller, old(sellers.stats), sellers.stats)
  {
    var result := Aggregate(SellerScores(ratings, seller));
    if result.Some? && seller in sellers.stats {
      sellers.stats := sellers.stats[seller := result.value];
    }
  }

  /** `updateMilkRating`: store the listing's average and count, if the
      listing still exists and some rating with a milk score for it is left. */
  method UpdateMilkRating(ratings: seq<Rating>, milks: MilkCollection, milk: nat)
    requires milks.Valid()
    modifies milks`listings
    ensures milks.Valid()
    ensures MilkStatsAfter(ratings, milk, old(milks.listings), milks.listings)
  {
    var result := Aggregate(MilkScores(ratings, milk));
    var index := IndexOfListing(milks.listings, milk);
    if result.Some? && index.Some? {
      var i := index.value;
      milks.listings := milks.listings[i := milks.listings[i].(
        averageRating := result.value.averageRating, totalRatings := result.value.totalRatings)];
    }
  }

  /** The hook run after a rating is saved: recompute the seller's average when
      the rating carries a seller score, and the listing's when it carries a
      milk score and names a listing. */
  method AfterSave(saved: Rating, ratings: seq<Rating>, sellers: SellerDirectory, milks: MilkCollection)
    requires milks.Valid()
    modifies sellers, milks`listings
    ensures milks.Valid()
    ensures Recomputed(saved, ratings, old(sellers.stats), sellers.stats, old(milks.listings), milks.listings)
  {
    if saved.sellerRating.Some? {
      UpdateSellerRating(ratings, sellers, saved.seller);
    }
    if saved.milkRating.Some? && saved.milk.Some? {
      UpdateMilkRating(ratings, milks, saved.milk.value);
    }
  }

  /** The scores of a concatenation are the concatenation of the scores. */
  lemma {:induction false} ScoresConcat(a: seq<Rating>, b: seq<Rating>, seller: UserId, milk: nat)
    ensures SellerScores(a + b, seller) == SellerScores(a, seller) + SellerScores(b, seller)
    ensures MilkScores(a + b, milk) == MilkScores(a, milk) + MilkScores(b, milk)
  {
    SellerScoresConcat(a, b, seller);
    MilkScoresConcat(a, b, milk);
  }

  lemma {:induction false} SellerScoresConcat(a: seq<Rating>, b: seq<Rating>, seller: UserId)
    ensures SellerScores(a + b, seller) == SellerScores(a, seller) + SellerScores(b, seller)
  {
    if a == [] {
      assert a + b == b;
    } else {
      assert (a + b)[1..] == a[1..] + b;
      SellerScoresConcat(a[1..], b, seller);
    }
  }

  lemma {:induction false} MilkScoresConcat(a: seq<Rating>, b: seq<Rating>, milk: nat)
    ensures MilkScores(a + b, milk) == MilkScores(a, milk) + MilkScores(b, milk)
  {
    if a == [] {
      assert a + b == b;
    } else {
      assert (a + b)[1..] == a[1..] + b;
      MilkScoresConcat(a[1..], b, milk);
    }
  }

  /** Position of the rating with identifier `id`, if any. */
  function IndexOfRating(ratings: seq<Rating>, id: nat): (r: Option<nat>)
    ensures r.Some? ==> r.value < |ratings| && ratings[r.value].id == id
    ensures r.None? ==> forall i :: 0 <= i < |ratings| ==> ratings[i].id != id
  {
    if ratings == [] then None
    else if ratings[0].id == id then Some(0)
    else match IndexOfRating(ratings[1..], id)
      case None => None
      case Some(k) => Some(k + 1)
  }
}

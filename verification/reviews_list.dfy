/**
 * The review list: one card per review, in input order, each with five
 * stars of which star i is filled exactly when i < rating.
 */
module ReviewsList {
  import opened MockProducts

  /** The five stars of a card: star `i` is filled iff `i < rating`. */
  function Stars(rating: int): seq<bool> {
    seq(5, i requires 0 <= i < 5 => i < rating)
  }

  /** Number of filled stars among the first `k`. */
  function FilledUpTo(stars: seq<bool>, k: nat): nat
    requires k <= |stars|
  {
    if k == 0 then 0 else FilledUpTo(stars, k - 1) + (if stars[k - 1] then 1 else 0)
  }

  function Clamp(v: int, lo: int, hi: int): int
    requires lo <= hi
  {
    if v < lo then lo else if v > hi then hi else v
  }

  /** Among the first `k` stars, `clamp(rating, 0, k)` are filled. */
  lemma {:induction false} FilledUpToClamp(rating: int, k: nat)
    requires k <= 5
    ensures FilledUpTo(Stars(rating), k) == Clamp(rating, 0, k)
  {
    if k > 0 {
      FilledUpToClamp(rating, k - 1);
    }
  }

  /** A card shows exactly five stars, `clamp(rating, 0, 5)` of them filled, and the filled ones come first. */
  lemma StarsRule(rating: int)
    ensures |Stars(rating)| == 5
    ensures FilledUpTo(Stars(rating), 5) == Clamp(rating, 0, 5)
    ensures 1 <= rating <= 5 ==> FilledUpTo(Stars(rating), 5) == rating
    ensures forall i, j :: 0 <= i < j < 5 && Stars(rating)[j] ==> Stars(rating)[i]
  {
    FilledUpToClamp(rating, 5);
  }

  datatype ReviewCard = ReviewCard(
    avatar: string, user: string, date: string, stars: seq<bool>, text: string, category: string)

  function CardOf(r: Review): ReviewCard {
    ReviewCard(r.avatar, r.user, r.date, Stars(r.rating), r.text, r.category)
  }

  /** `reviews.map(review => …)`: one card per review. */
  function Cards(reviews: seq<Review>): seq<ReviewCard> {
    seq(|reviews|, k requires 0 <= k < |reviews| => CardOf(reviews[k]))
  }

  /** One card per review, in input order, each showing that review's own text and rating. */
  lemma CardsFollowReviews(reviews: seq<Review>)
    ensures |Cards(reviews)| == |reviews|
    ensures forall k :: 0 <= k < |reviews| ==>
      && Cards(reviews)[k].user == reviews[k].user
      && Cards(reviews)[k].text == reviews[k].text
      && FilledUpTo(Cards(reviews)[k].stars, 5) == Clamp(reviews[k].rating, 0, 5)
  {
    forall k | 0 <= k < |reviews|
      ensures FilledUpTo(Cards(reviews)[k].stars, 5) == Clamp(reviews[k].rating, 0, 5)
    {
      StarsRule(reviews[k].rating);
    }
  }
}

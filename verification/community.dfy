/**
 * The community page: every review of every catalog product, flattened in
 * catalog order and annotated with its product's name, and a row of
 * filter buttons whose selection does not change the list.
 */
module Community {
  import opened MockProducts
  import ReviewsList

  /** A review with the `productName` field added (`{ ...r, productName: p.name }`). */
  datatype AnnotatedReview = AnnotatedReview(
    id: string, user: string, avatar: string, rating: int,
    text: string, date: string, category: string, productName: string)

  function Annotate(r: Review, productName: string): AnnotatedReview {
    AnnotatedReview(r.id, r.user, r.avatar, r.rating, r.text, r.date, r.category, productName)
  }

  /** The review fields of an annotated review. */
  function Strip(a: AnnotatedReview): Review {
    Review(a.id, a.user, a.avatar, a.rating, a.text, a.date, a.category)
  }

  /** Annotation keeps every review field and only adds the product name. */
  lemma AnnotateKeepsFields(r: Review, productName: string)
    ensures Strip(Annotate(r, productName)) == r
    ensures Annotate(r, productName).productName == productName
  {}

  /** `p.reviews.map(r => ({ ...r, productName: p.name }))`. */
  function AnnotatedOf(p: Product): seq<AnnotatedReview> {
    seq(|p.reviews|, k requires 0 <= k < |p.reviews| => Annotate(p.reviews[k], p.name))
  }

  /** Total number of reviews over a list of products. */
  function ReviewCount(catalog: seq<Product>): nat {
    if catalog == [] then 0 else |catalog[0].reviews| + ReviewCount(catalog[1..])
  }

  /** `allReviews`: the catalog's `flatMap` of annotated reviews. */
  function AllReviews(catalog: seq<Product>): (all: seq<AnnotatedReview>)
    ensures |all| == ReviewCount(catalog)
  {
    if catalog == [] then [] else AnnotatedOf(catalog[0]) + AllReviews(catalog[1..])
  }

  /**
   * Every entry is a review of some product, labelled with that product's
   * name; and every review of every product appears, so labelled.
   */
  lemma {:induction false} AllReviewsMembers(catalog: seq<Product>)
    ensures forall a :: a in AllReviews(catalog) ==>
      exists i :: 0 <= i < |catalog| && Strip(a) in catalog[i].reviews && a.productName == catalog[i].name
    ensures forall i, k :: 0 <= i < |catalog| && 0 <= k < |catalog[i].reviews| ==>
      Annotate(catalog[i].reviews[k], catalog[i].name) in AllReviews(catalog)
  {
    if catalog != [] {
      AllReviewsMembers(catalog[1..]);
      var head := AnnotatedOf(catalog[0]);
      var all := AllReviews(catalog);
      assert all == head + AllReviews(catalog[1..]);
      forall a | a in all
        ensures exists i :: 0 <= i < |catalog| && Strip(a) in catalog[i].reviews && a.productName == catalog[i].name
      {
        if a in head {
          var k :| 0 <= k < |head| && head[k] == a;
          assert Strip(a) == catalog[0].reviews[k];
        } else {
          var i :| 0 <= i < |catalog[1..]| && Strip(a) in catalog[1..][i].reviews && a.productName == catalog[1..][i].name;
          assert catalog[1..][i] == catalog[i + 1];
        }
      }
      forall i, k | 0 <= i < |catalog| && 0 <= k < |catalog[i].reviews|
        ensures Annotate(catalog[i].reviews[k], catalog[i].name) in all
      {
        if i == 0 {
          assert head[k] == Annotate(catalog[i].reviews[k], catalog[i].name);
        } else {
          assert catalog[1..][i - 1] == catalog[i];
        }
      }
    }
  }

  /**
   * A single product's entries are its own reviews, in their order, each
   * labelled with its name; with `AllReviewsAppend` this fixes the whole list.
   */
  lemma AllReviewsSingle(p: Product)
    ensures AllReviews([p]) == AnnotatedOf(p)
    ensures forall k :: 0 <= k < |p.reviews| ==>
      Strip(AllReviews([p])[k]) == p.reviews[k] && AllReviews([p])[k].productName == p.name
  {
    assert [p][1..] == [];
    assert AllReviews([p]) == AnnotatedOf(p) + AllReviews([]);
  }

  /** Flattening follows catalog order: the reviews of a concatenation are concatenated. */
  lemma {:induction false} AllReviewsAppend(a: seq<Product>, b: seq<Product>)
    ensures AllReviews(a + b) == AllReviews(a) + AllReviews(b)
  {
    if a == [] {
      assert a + b == b;
    } else {
      assert (a + b)[0] == a[0];
      assert (a + b)[1..] == a[1..] + b;
      AllReviewsAppend(a[1..], b);
    }
  }

  /** The filter buttons, in order; "Newest" is selected at first. */
  const Filters: seq<string> := ["Most helpful", "Newest", "Taste", "Sustainability", "Packaging"]

  datatype CommunityState = CommunityState(activeFilter: string)

  const InitialState: CommunityState := CommunityState("Newest")

  function SelectFilter(st: CommunityState, f: string): (r: CommunityState)
    ensures r.activeFilter == f
  {
    st.(activeFilter := f)
  }

  /** The list handed to the review list: always the unfiltered `allReviews`. */
  function ShownReviews(catalog: seq<Product>, st: CommunityState): seq<ReviewsList.ReviewCard> {
    var all := AllReviews(catalog);
    ReviewsList.Cards(seq(|all|, k requires 0 <= k < |all| => Strip(all[k])))
  }

  /** Five filters with distinct labels, "Newest" the default; the choice never changes the list. */
  lemma FiltersDoNotFilter(catalog: seq<Product>, st: CommunityState, f: string)
    ensures |Filters| == 5
    ensures forall i, j :: 0 <= i < j < |Filters| ==> Filters[i] != Filters[j]
    ensures InitialState.activeFilter == Filters[1]
    ensures ShownReviews(catalog, SelectFilter(st, f)) == ShownReviews(catalog, st)
    ensures |ShownReviews(catalog, st)| == ReviewCount(catalog)
  {}

  /** The catalog's seven reviews, the milk's three first. */
  lemma CatalogReviews()
    ensures |AllReviews(Catalog)| == 7
    ensures AllReviews(Catalog)[0].productName == "Alpine Fresh Whole Milk"
    ensures AllReviews(Catalog)[6].productName == "Nordic Oat Drink"
  {
    var all := AllReviews(Catalog);
    assert Catalog[1..][1..] == [Oat];
    assert ReviewCount([Oat]) == 2;
    assert all == AnnotatedOf(Milk) + AllReviews([Juice, Oat]);
    assert AllReviews([Juice, Oat]) == AnnotatedOf(Juice) + AllReviews([Oat]);
    assert AllReviews([Oat]) == AnnotatedOf(Oat) + AllReviews([]);
  }
}

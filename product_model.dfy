/**
 * The product document of the API's data store: its fields with their
 * defaults, and `calculateAverageRating`, which recomputes `rating` and
 * `numReviews` from the embedded reviews.
 */
module ProductModel {
  import opened Wrappers

  /** An embedded review. Only its star rating matters here. */
  datatype Review = Review(name: string, rating: int, comment: string)

  /** A product as the API sends it to the storefront. `images` is the empty
      sequence when the document has none (the schema declares no such field). */
  datatype Product = Product(
    id: string, name: string, image: string, images: seq<string>, category: string,
    description: string, rating: real, numReviews: int, price: int, countInStock: int)

  /** `reviews.reduce((acc, review) => acc + review.rating, 0)`. */
  function RatingSum(reviews: seq<Review>): int {
    if reviews == [] then 0 else reviews[0].rating + RatingSum(reviews[1..])
  }

  function MinRating(reviews: seq<Review>): (m: int)
    requires reviews != []
    ensures forall i :: 0 <= i < |reviews| ==> m <= reviews[i].rating
    ensures exists i :: 0 <= i < |reviews| && m == reviews[i].rating
  {
    if |reviews| == 1 then reviews[0].rating
    else
      var rest := MinRating(reviews[1..]);
      assert forall i :: 1 <= i < |reviews| ==> reviews[i] == reviews[1..][i - 1];
      if reviews[0].rating <= rest then reviews[0].rating else rest
  }

  function MaxRating(reviews: seq<Review>): (m: int)
    requires reviews != []
    ensures forall i :: 0 <= i < |reviews| ==> reviews[i].rating <= m
    ensures exists i :: 0 <= i < |reviews| && m == reviews[i].rating
  {
    if |reviews| == 1 then reviews[0].rating
    else
      var rest := MaxRating(reviews[1..]);
      assert forall i :: 1 <= i < |reviews| ==> reviews[i] == reviews[1..][i - 1];
      if reviews[0].rating >= rest then reviews[0].rating else rest
  }

  /** The sum of n ratings lies between n times the least and n times the greatest. */
  lemma {:induction false} RatingSumBounds(reviews: seq<Review>)
    requires reviews != []
    ensures |reviews| * MinRating(reviews) <= RatingSum(reviews) <= |reviews| * MaxRating(reviews)
  {
    if |reviews| > 1 {
      var rest := reviews[1..];
      RatingSumBounds(rest);
      var lo, hi := MinRating(reviews), MaxRating(reviews);
      var restLo, restHi := MinRating(rest), MaxRating(rest);
      assert lo <= restLo && restHi <= hi by {
        var j :| 0 <= j < |rest| && restLo == rest[j].rating;
        assert rest[j] == reviews[j + 1];
        var k :| 0 <= k < |rest| && restHi == rest[k].rating;
        assert rest[k] == reviews[k + 1];
      }
      assert RatingSum(reviews) == reviews[0].rating + RatingSum(rest);
      assert |reviews| == |rest| + 1;
      StepBound(|rest|, lo, restLo, reviews[0].rating, RatingSum(rest));
      StepBoundAbove(|rest|, hi, restHi, reviews[0].rating, RatingSum(rest));
    }
  }

  /** One induction step of RatingSumBounds, kept apart because it is nonlinear. */
  lemma StepBound(n: nat, lo: int, restLo: int, first: int, restSum: int)
    requires lo <= restLo && lo <= first && n * restLo <= restSum
    ensures (n + 1) * lo <= first + restSum
  {
    assert n * lo <= n * restLo;
  }

  lemma StepBoundAbove(n: nat, hi: int, restHi: int, first: int, restSum: int)
    requires restHi <= hi && first <= hi && restSum <= n * restHi
    ensures first + restSum <= (n + 1) * hi
  {
    assert n * restHi <= n * hi;
  }

  /** The average star rating of a non-empty list of reviews. */
  function AverageRating(reviews: seq<Review>): (avg: real)
    requires reviews != []
    ensures MinRating(reviews) as real <= avg <= MaxRating(reviews) as real
  {
    RatingSumBounds(reviews);
    AverageWithin(RatingSum(reviews), |reviews|, MinRating(reviews), MaxRating(reviews));
    RatingSum(reviews) as real / |reviews| as real
  }

  lemma AverageWithin(s: int, n: int, lo: int, hi: int)
    requires n > 0 && n * lo <= s <= n * hi
    ensures lo as real <= s as real / n as real <= hi as real
  {
    var q := s as real / n as real;
    assert q * n as real == s as real;
    assert (n * lo) as real == n as real * lo as real;
    assert (n * hi) as real == n as real * hi as real;
  }

  /** With every review giving the same rating, the average is that rating. */
  lemma UniformAverage(reviews: seq<Review>, stars: int)
    requires reviews != [] && forall i :: 0 <= i < |reviews| ==> reviews[i].rating == stars
    ensures AverageRating(reviews) == stars as real
  {
    assert MinRating(reviews) == stars;
    assert MaxRating(reviews) == stars;
  }

  /** A product document. */
  class ProductDocument {
    var name: string
    var image: string
    var category: string
    var description: string
    var rating: real
    var numReviews: int
    var price: int
    var countInStock: int
    var reviews: seq<Review>

    /** `rating` and `numReviews` agree with the reviews, as `calculateAverageRating` leaves them. */
    predicate RatingUpToDate()
      reads this
    {
      if reviews == [] then rating == 0.0 && numReviews == 0
      else numReviews == |reviews| && rating == AverageRating(reviews)
    }

    /** A new document; the numeric fields that are not given default to 0. */
    constructor (name: string, image: string, category: string, description: string,
                 rating: Option<real>, numReviews: Option<int>, price: Option<int>, countInStock: Option<int>,
                 reviews: seq<Review>)
      ensures this.name == name && this.image == image && this.category == category
      ensures this.description == description && this.reviews == reviews
      ensures this.rating == (if rating.Some? then rating.value else 0.0)
      ensures this.numReviews == (if numReviews.Some? then numReviews.value else 0)
      ensures this.price == (if price.Some? then price.value else 0)
      ensures this.countInStock == (if countInStock.Some? then countInStock.value else 0)
    {
      this.name := name;
      this.image := image;
      this.category := category;
      this.description := description;
      this.rating := rating.GetOr(0.0);
      this.numReviews := numReviews.GetOr(0);
      this.price := price.GetOr(0);
      this.countInStock := countInStock.GetOr(0);
      this.reviews := reviews;
    }

    /** `calculateAverageRating`: sets `rating` and `numReviews` from the reviews and changes nothing else. */
    method CalculateAverageRating()
      modifies this
      ensures RatingUpToDate()
      ensures reviews == old(reviews) && name == old(name) && image == old(image)
      ensures category == old(category) && description == old(description)
      ensures price == old(price) && countInStock == old(countInStock)
      ensures reviews == [] ==> rating == 0.0 && numReviews == 0
      ensures reviews != [] ==>
                numReviews == |reviews| && rating == RatingSum(reviews) as real / |reviews| as real
      ensures reviews != [] ==> MinRating(reviews) as real <= rating <= MaxRating(reviews) as real
      // running it again on unchanged reviews changes nothing
      ensures old(RatingUpToDate()) ==> rating == old(rating) && numReviews == old(numReviews)
    {
      if |reviews| == 0 {
        rating := 0.0;
        numReviews := 0;
      } else {
        rating := AverageRating(reviews);
        numReviews := |reviews|;
      }
    }
  }
}

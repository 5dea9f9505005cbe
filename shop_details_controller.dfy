/**
 * ShopDetailsController: a product's page in the shop. Posting a review with
 * its rating, reading the product with its ratings, and asking whether the
 * user bought the product (which decides whether they may rate it).
 */
module ShopDetailsController {
  import opened Common
  import opened Http

  const NoSession: string := "We couldn't find a valid login session. " + "Please verify your credentials and try again."
  const UnknownProduct: string := "Invalid ProductId. " + "Product with such ProductId does not exist."

  // ---------------------------------------------------------------------------
  // PostProductRating.

  /** AddProductRatings: the four fields the action reads. */
  datatype RatingRequest = RatingRequest(review: Option<string>, rate: Int32, userId: Int32, productId: Int32)

  /** A review, a non-zero rate (of any size or sign), a user and a product. */
  predicate RatingAccepted(q: RatingRequest)
  {
    !IsNullOrEmpty(q.review) && q.rate != 0 && q.userId != 0 && q.productId != 0
  }

  function RatingFailure(f: Failure): (r: Reply<string>)
    ensures r.status in {400, 404, 500} && r.body.Api? && r.body.data == None
    ensures !IsRaised(f) ==> r == ServerFault()
  {
    if !IsRaised(f) then ServerFault()
    else if Contains(f.message, "Review cannot be NULL or empty.") then BadRequest("Review cannot be NULL or empty")
    else if Contains(f.message, "UserId cannot be NULL or empty.") then Plain(404, NoSession)
    else if Contains(f.message, "Rate is required.") then BadRequest("Rate is required.")
    else if Contains(f.message, "ProductId cannot be NULL or empty.") then BadRequest("Invalid product data.")
    else if Contains(f.message, UnknownProduct) then BadRequest("Invalid product data.")
    else ServerFault()
  }

  /** PostProductRating's tests in the order the action makes them. */
  function RatingChecks(q: RatingRequest): seq<Check>
  {
    [Check(!IsNullOrEmpty(q.review), "Review is required"),
     Check(q.rate != 0, "Rating is required"),
     Check(q.userId != 0, "Invalid user, kindly check & try again"),
     Check(q.productId != 0, "ProductId is required")]
  }

  function RatingGuard(q: RatingRequest): (m: Option<string>)
    ensures m.None? <==> RatingAccepted(q)
  {
    if IsNullOrEmpty(q.review) then Some("Review is required")
    else if q.rate == 0 then Some("Rating is required")
    else if q.userId == 0 then Some("Invalid user, kindly check & try again")
    else if q.productId == 0 then Some("ProductId is required")
    else None
  }

  /** PostProductRating refuses with the message of the first test, in the
      order above, that the request fails. */
  lemma RatingGuardOrder(q: RatingRequest)
    ensures RatingGuard(q) == FirstFailed(RatingChecks(q))
  {
    var c := RatingChecks(q);
    if IsNullOrEmpty(q.review) { FirstFailedAt(c, 0); }
    else if q.rate == 0 { FirstFailedAt(c, 1); }
    else if q.userId == 0 { FirstFailedAt(c, 2); }
    else if q.productId == 0 { FirstFailedAt(c, 3); }
  }

  /** PostProductRating(addProductsRating), with the id the insert returned. */
  function PostProductRating(q: RatingRequest, inserted: Outcome<Int32>): (r: Reply<string>)
    ensures !RatingAccepted(q) ==> r.status == 400 && r.body.Api? && r.body.data == None
    // a refused request is told about the first test it fails, in the order of RatingChecks
    ensures FirstFailed(RatingChecks(q)).Some? <==> !RatingAccepted(q)
    ensures FirstFailed(RatingChecks(q)).Some? ==> r == BadRequest(FirstFailed(RatingChecks(q)).value)
    ensures IsNullOrEmpty(q.review) ==> r == BadRequest("Review is required")
    ensures RatingAccepted(q) && inserted.Ok? ==>
              r == if inserted.value != 0 then Plain(201, "Comment and rating added successfully.") else ServerFault()
    ensures RatingAccepted(q) && inserted.Threw? ==> r == RatingFailure(inserted.failure)
  {
    RatingGuardOrder(q);
    if RatingGuard(q).Some? then BadRequest(RatingGuard(q).value)
    else match inserted
      case Ok(id) => if id != 0 then Plain(201, "Comment and rating added successfully.") else ServerFault()
      case Threw(f) => RatingFailure(f)
  }

  /** The rate has no range check: any non-zero rate is accepted. */
  lemma RateIsNotRangeChecked(q: RatingRequest, rate: Int32)
    requires RatingAccepted(q) && rate != 0
    ensures PostProductRating(q.(rate := rate), Ok(1)) == Plain(201, "Comment and rating added successfully.")
  {
  }

  /** A missing user on the database side (error 50000) is a 404. */
  lemma MissingUserIsNotFound()
    ensures RatingFailure(SqlFailure(50000, "UserId cannot be NULL or empty.")) == Plain(404, NoSession)
  {
    var m := "UserId cannot be NULL or empty.";
    CharNotContained(m, "Review cannot be NULL or empty.", 0);
    ContainsItself(m);
  }

  // ---------------------------------------------------------------------------
  // GetProductsAndRating.

  /** ProductRatingDetails: the ratings and the product, either possibly null. */
  datatype RatedProduct<R, P> = RatedProduct(retDetails: Option<R>, prodDetails: Option<P>)

  function ProductRatingFailure(f: Failure): (r: Reply<string>)
    ensures r.status in {400, 404, 500} && r.body.Api? && r.body.data == None
    ensures !IsRaised(f) ==> r == ServerFault()
    // an unknown product is a 404 unless the message also reports a bad id
    ensures r.status == 404 <==>
              IsRaised(f) && !Contains(f.message, "ProductId is required.")
              && !Contains(f.message, "ProductId must be a positive integer.") && Contains(f.message, UnknownProduct)
  {
    if !IsRaised(f) then ServerFault()
    else if Contains(f.message, "ProductId is required.") then BadRequest("Invalid product data try again.")
    else if Contains(f.message, "ProductId must be a positive integer.") then BadRequest("Invalid product data try again.")
    else if Contains(f.message, UnknownProduct) then Plain(404, "Product not exists")
    else ServerFault()
  }

  /** GetProductsAndRating(productId), with the pair the repository returned. */
  function GetProductsAndRating<R, P>(productId: Int32, fetched: Outcome<RatedProduct<R, P>>): (r: Reply<RatedProduct<R, P>>)
    ensures productId == 0 ==> r == BadRequest("ProductId is required.")
    ensures productId != 0 && fetched.Ok? ==>
              && r.status == 200 && r.body.Api?
              && (r.body.data.Some? <==> fetched.value.retDetails.Some? || fetched.value.prodDetails.Some?)
              && (r.body.data.Some? ==> r.body.data.value == fetched.value)
              && r.body.message == Some(if r.body.data.Some? then "Products rating retrieved successfully."
                                        else "Products rating not found.")
    ensures productId != 0 && fetched.Threw? ==> r == Retyped(ProductRatingFailure(fetched.failure))
  {
    if productId == 0 then BadRequest("ProductId is required.")
    else match fetched
      case Ok(details) =>
        if details.prodDetails.Some? || details.retDetails.Some? then
          WithData(200, "Products rating retrieved successfully.", Some(details))
        else WithData(200, "Products rating not found.", None)
      case Threw(f) => Retyped(ProductRatingFailure(f))
  }

  // ---------------------------------------------------------------------------
  // CheckProductPurchasing.

  function PurchaseFailure(f: Failure): (r: Reply<string>)
    ensures r.status in {400, 404, 500} && r.body.Api? && r.body.data == None
    ensures !IsRaised(f) ==> r == ServerFault()
  {
    if !IsRaised(f) then ServerFault()
    else if Contains(f.message, "ProductId cannot be NULL or empty.") then BadRequest("Invalid product data try again.")
    else if Contains(f.message, "UserId Id cannot be NULL or empty.") then BadRequest("Invalid user.")
    else if Contains(f.message, UnknownProduct) then Plain(404, "Product not exists")
    else ServerFault()
  }

  /** CheckProductPurchasing(userId, productId), with the count the
      repository returned: a user who has not bought the product gets a 400,
      not a 500. */
  function CheckProductPurchasing(userId: Int32, productId: Int32, purchased: Outcome<Int32>): (r: Reply<string>)
    ensures productId == 0 ==> r == BadRequest("ProductId is required.")
    ensures productId != 0 && userId == 0 ==> r == BadRequest("Invalid user..kindly check & try again")
    ensures productId != 0 && userId != 0 && purchased.Ok? ==>
              (r.status == 200 <==> purchased.value != 0) && r.status in {200, 400} && r.body.Api? && r.body.data == None
    ensures productId != 0 && userId != 0 && purchased.Threw? ==> r == PurchaseFailure(purchased.failure)
  {
    if productId == 0 then BadRequest("ProductId is required.")
    else if userId == 0 then BadRequest("Invalid user..kindly check & try again")
    else match purchased
      case Ok(count) =>
        if count != 0 then Plain(200, "Products purchased by user.")
        else BadRequest("You have not purchased this product..can't give rating")
      case Threw(f) => PurchaseFailure(f)
  }
}

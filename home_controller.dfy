/**
 * HomeController: the two product strips of the home page, top products by
 * kind and best sellers. Both are open to anonymous callers.
 */
module HomeController {
  import opened Common
  import opened Http

  const UnknownKind: string := "FruitOrVeg must be one of the following values: " + "All Products, Vegetables, Fruits"

  function TopProductsFailure(f: Failure): (r: Reply<string>)
    ensures r.status in {404, 500} && r.body.Api? && r.body.data == None
    ensures r.status == 404 <==> IsRaised(f) && Contains(f.message, UnknownKind)
  {
    if IsRaised(f) && Contains(f.message, UnknownKind) then Plain(404, "Category not exists")
    else ServerFault()
  }

  /** GetTopProducts(vegOrFruits), with the list the repository returned
      (None for null). An empty list is reported like a missing one, and is
      passed back as the data. */
  function GetTopProducts<P>(vegOrFruits: Option<string>, fetched: Outcome<Option<seq<P>>>): (r: Reply<seq<P>>)
    ensures IsNullOrEmpty(vegOrFruits) ==> r == BadRequest("Invalid Product..")
    ensures !IsNullOrEmpty(vegOrFruits) && fetched.Ok? ==>
              && r.status == 200 && r.body.Api? && r.body.data == fetched.value
              && (r.body.message == Some("Top products data retrieved successfully.")
                  <==> fetched.value.Some? && |fetched.value.value| > 0)
    ensures !IsNullOrEmpty(vegOrFruits) && fetched.Threw? ==> r == Retyped(TopProductsFailure(fetched.failure))
  {
    if IsNullOrEmpty(vegOrFruits) then BadRequest("Invalid Product..")
    else match fetched
      case Ok(products) =>
        if products.Some? && |products.value| > 0 then
          WithData(200, "Top products data retrieved successfully.", products)
        else WithData(200, "No top products data available.", products)
      case Threw(f) => Retyped(TopProductsFailure(f))
  }

  /** GetBestSellerProducts(), with the list the repository returned (None
      for null); every exception is a 500. */
  function GetBestSellerProducts<L>(fetched: Outcome<Option<L>>): (r: Reply<L>)
    ensures fetched.Ok? ==> r.status == 200 && r.body.Api? && r.body.data == fetched.value
    ensures fetched.Ok? && fetched.value.None? ==> r.body.message == Some("No best seller products data available")
    ensures fetched.Threw? ==> r == ServerFault()
  {
    match fetched
      case Ok(products) =>
        if products.Some? then WithData(200, "Best seller products data retrieved successfully.", products)
        else WithData(200, "No best seller products data available", None)
      case Threw(_) => ServerFault()
  }
}

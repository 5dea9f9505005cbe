/**
 * ShopController: the shop page's product list, filtered by category and
 * price and sorted.
 */
module ShopController {
  import opened Common
  import opened Http

  /** ShopFilterCriterio: the three fields the action reads. */
  datatype ShopFilter = ShopFilter(categoryName: Option<string>, priceValue: Int32, sortValue: Option<string>)

  /** A category, a non-zero price value and a sort order. */
  predicate ShopFilterAccepted(q: ShopFilter)
  {
    !IsNullOrEmpty(q.categoryName) && q.priceValue != 0 && !IsNullOrEmpty(q.sortValue)
  }

  function ShopFailure(f: Failure): (r: Reply<string>)
    ensures r.status in {400, 500} && r.body.Api? && r.body.data == None
    ensures !IsRaised(f) ==> r == ServerFault()
    // only the three null-filter messages are the caller's fault
    ensures r.status == 400 <==>
              IsRaised(f) && (Contains(f.message, "Category can not be null.") || Contains(f.message, "Price can not be null.")
                              || Contains(f.message, "Sorting can not be null"))
  {
    if !IsRaised(f) then ServerFault()
    else if Contains(f.message, "Category can not be null.") then BadRequest("Category can not be null")
    else if Contains(f.message, "Price can not be null.") then BadRequest("Price can not be null")
    else if Contains(f.message, "Sorting can not be null") then BadRequest("Sorting can not be null")
    else ServerFault()
  }

  /** GetAllShopDetails's tests in the order the action makes them. */
  function ShopFilterChecks(q: ShopFilter): seq<Check>
  {
    [Check(!IsNullOrEmpty(q.categoryName), "Category is required"),
     Check(q.priceValue != 0, "PriceValue is required"),
     Check(!IsNullOrEmpty(q.sortValue), "SortValue is required")]
  }

  function ShopFilterGuard(q: ShopFilter): (m: Option<string>)
    ensures m.None? <==> ShopFilterAccepted(q)
  {
    if IsNullOrEmpty(q.categoryName) then Some("Category is required")
    else if q.priceValue == 0 then Some("PriceValue is required")
    else if IsNullOrEmpty(q.sortValue) then Some("SortValue is required")
    else None
  }

  /** GetAllShopDetails refuses with the message of the first test, in the
      order above, that the filter fails. */
  lemma ShopFilterGuardOrder(q: ShopFilter)
    ensures ShopFilterGuard(q) == FirstFailed(ShopFilterChecks(q))
  {
    var c := ShopFilterChecks(q);
    if IsNullOrEmpty(q.categoryName) { FirstFailedAt(c, 0); }
    else if q.priceValue == 0 { FirstFailedAt(c, 1); }
    else if IsNullOrEmpty(q.sortValue) { FirstFailedAt(c, 2); }
  }

  /** GetAllShopDetails(shopFilterCriterio), with the list the repository
      returned (None for null). */
  function GetAllShopDetails<L>(q: ShopFilter, fetched: Outcome<Option<L>>): (r: Reply<L>)
    ensures !ShopFilterAccepted(q) ==> r.status == 400 && r.body.Api? && r.body.data == None
    // a refused filter is told about the first test it fails, in the order of ShopFilterChecks
    ensures FirstFailed(ShopFilterChecks(q)).Some? <==> !ShopFilterAccepted(q)
    ensures FirstFailed(ShopFilterChecks(q)).Some? ==> r == BadRequest(FirstFailed(ShopFilterChecks(q)).value)
    ensures IsNullOrEmpty(q.categoryName) ==> r == BadRequest("Category is required")
    ensures ShopFilterAccepted(q) && fetched.Ok? ==>
              && r.status == 200 && r.body.Api? && r.body.data == fetched.value
              && (fetched.value.None? <==> r.body.message == Some("No products available"))
    ensures ShopFilterAccepted(q) && fetched.Threw? ==> r == Retyped(ShopFailure(fetched.failure))
  {
    ShopFilterGuardOrder(q);
    if ShopFilterGuard(q).Some? then BadRequest(ShopFilterGuard(q).value)
    else match fetched
      case Ok(products) =>
        if products.Some? then WithData(200, "All shop details..", products)
        else WithData(200, "No products available", None)
      case Threw(f) => Retyped(ShopFailure(f))
  }

  /** Each of the three database complaints (error 50000) is a 400 that
      hands the complaint back to the caller. */
  lemma NullCategoryComplaint()
    ensures ShopFailure(SqlFailure(50000, "Category can not be null.")) == BadRequest("Category can not be null")
  {
    ContainsItself("Category can not be null.");
  }

  lemma NullPriceComplaint()
    ensures ShopFailure(SqlFailure(50000, "Price can not be null.")) == BadRequest("Price can not be null")
  {
    LongerNotContained("Price can not be null.", "Category can not be null.");
    ContainsItself("Price can not be null.");
  }

  lemma NullSortingComplaint()
    ensures ShopFailure(SqlFailure(50000, "Sorting can not be null")) == BadRequest("Sorting can not be null")
  {
    LongerNotContained("Sorting can not be null", "Category can not be null.");
    CharNotContained("Sorting can not be null", "Price can not be null.", 0);
    ContainsItself("Sorting can not be null");
  }
}

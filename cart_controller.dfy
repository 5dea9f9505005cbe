/**
 * CartController: the two cart reads, the delete, and the create and update
 * of a cart line. Each action validates its input with a chain of guards
 * (the first that fails answers 400), then maps what the cart repository
 * returned, or the exception it threw, to a status and message. The
 * repository's answer is an input.
 */
module CartController {
  import opened Common
  import opened Http

  const InvalidUserDetails: string := "Invalid user details..please check and try again."
  const MaxPrice: real := 999999.99

  // ---------------------------------------------------------------------------
  // The two reads.

  /** The catch blocks of both reads, which look at the message only, not at
      the error number. */
  function CartReadFailure(f: Failure): (r: Reply<string>)
    ensures r.status in {400, 404, 500} && r.body.Api? && r.body.data == None
    ensures f.OtherFailure? ==> r == ServerFault()
  {
    if f.OtherFailure? then ServerFault()
    else if Contains(f.message, "User Id required.") then Plain(400, "User Id required.")
    else if Contains(f.message, "Invalid User Id. User with such User Id does not exist.") then
      Plain(404, "Invalid user..Please check & try again")
    else ServerFault()
  }

  /** CartWithTotalDetails: the cart lines and the price summary. */
  datatype CartWithTotal<I, P> = CartWithTotal(cartDetails: Option<I>, priceDetails: Option<P>)

  /** GetProductsCartDetails(userId): the lines and the summary are returned
      only when both are there. */
  function GetProductsCartDetails<I, P>(userId: Int32, fetched: Outcome<CartWithTotal<I, P>>): (r: Reply<CartWithTotal<I, P>>)
    ensures userId == 0 ==> r == BadRequest(InvalidUserDetails)
    ensures userId != 0 && fetched.Ok? ==>
              && r.status == 200 && r.body.Api?
              && (r.body.data.Some? <==> fetched.value.cartDetails.Some? && fetched.value.priceDetails.Some?)
              && (r.body.data.Some? ==> r.body.data.value == fetched.value)
              && r.body.message == Some(if r.body.data.Some? then "Cart details.." else "No details available")
    ensures userId != 0 && fetched.Threw? ==> r == Retyped(CartReadFailure(fetched.failure))
  {
    if userId == 0 then BadRequest(InvalidUserDetails)
    else match fetched
      case Ok(details) =>
        if details.cartDetails.Some? && details.priceDetails.Some?
        then WithData(200, "Cart details..", Some(details))
        else WithData(200, "No details available", None)
      case Threw(f) => Retyped(CartReadFailure(f))
  }

  /** GetBagCounterDetails(userId). */
  function GetBagCounterDetails<B>(userId: Int32, fetched: Outcome<Option<B>>): (r: Reply<B>)
    ensures userId == 0 ==> r == BadRequest(InvalidUserDetails)
    ensures userId != 0 && fetched.Ok? ==> r.status == 200 && r.body.Api? && r.body.data == fetched.value
    ensures userId != 0 && fetched.Threw? ==> r == Retyped(CartReadFailure(fetched.failure))
  {
    if userId == 0 then BadRequest(InvalidUserDetails)
    else match fetched
      case Ok(counter) =>
        if counter.Some? then WithData(200, "Bag counter details..", counter)
        else WithData(200, "No counter details..", None)
      case Threw(f) => Retyped(CartReadFailure(f))
  }

  /** The reads' catch blocks do not test the error number: a SqlException of
      any number that reports the missing user id is a 400. */
  lemma CartReadIgnoresErrorNumber(number: int)
    ensures CartReadFailure(SqlFailure(number, "User Id required.")) == Plain(400, "User Id required.")
  {
    ContainsItself("User Id required.");
  }

  // ---------------------------------------------------------------------------
  // Delete.

  function CartDeleteFailure(f: Failure): (r: Reply<string>)
    ensures r.status in {400, 404, 500} && r.body.Api? && r.body.data == None
    ensures !IsRaised(f) ==> r == ServerFault()
    // a raised missing-field message is a 400; the unknown-id message alone is a 404
    ensures r.status == 400 <==> IsRaised(f) && Contains(f.message, "Cart Id parameter is required.")
    ensures r.status == 404 <==>
              IsRaised(f)
              && !Contains(f.message, "Cart Id parameter is required.")
              && Contains(f.message, "Invalid Card Id. Cart with such cart Id does not exist.")
  {
    if !IsRaised(f) then ServerFault()
    else if Contains(f.message, "Cart Id parameter is required.") then
      BadRequest("Invalid cart data please check and try again.")
    else if Contains(f.message, "Invalid Card Id. Cart with such cart Id does not exist.") then
      Plain(404, "Cart item not exists")
    else ServerFault()
  }

  /** DeleteCartItemById(cartId): exactly one deleted row is a 204. */
  function DeleteCartItemById(cartId: Int32, deleted: Outcome<Int32>): (r: Reply<string>)
    ensures cartId == 0 ==> r == BadRequest("Invalid cart details..please check and try again.")
    ensures cartId != 0 && deleted.Ok? ==> (r == NoContent() <==> deleted.value == 1)
    ensures cartId != 0 && deleted.Ok? && deleted.value != 1 ==> r == ServerFault()
    ensures cartId != 0 && deleted.Threw? ==> r == CartDeleteFailure(deleted.failure)
  {
    if cartId == 0 then BadRequest("Invalid cart details..please check and try again.")
    else match deleted
      case Ok(count) => if count == 1 then NoContent() else ServerFault()
      case Threw(f) => CartDeleteFailure(f)
  }

  // ---------------------------------------------------------------------------
  // Create.

  /** AddCartDetails (decimal fields as reals). */
  datatype CartEntry = CartEntry(productImage: Option<string>, productName: Option<string>, price: real,
                                 subTotal: real, userId: Int32, currentQuant: real)

  /** What CreateCartDetails lets through to the repository, field by field:
      a name of 1 to 255 characters, a price in (0, 999999.99], a user, a
      positive subtotal and a non-zero quantity (of either sign). */
  predicate CartEntryAccepted(d: CartEntry)
  {
    && 1 <= Length(d.productName) <= 255
    && 0.0 < d.price <= MaxPrice
    && d.userId != 0
    && d.subTotal > 0.0
    && d.currentQuant != 0.0
  }

  function CartEntryFailure(f: Failure): (r: Reply<string>)
    ensures r.status in {400, 404, 409, 500} && r.body.Api? && r.body.data == None
    ensures !IsRaised(f) ==> r == ServerFault()
  {
    if !IsRaised(f) then ServerFault()
    else if Contains(f.message, "ProductName cannot be NULL or empty.") then BadRequest("ProductName cannot be NULL or empty.")
    else if Contains(f.message, "Price must be a positive value.") then BadRequest("Price must be a positive value.")
    else if Contains(f.message, "Product image required.") then BadRequest("Product image required.")
    else if Contains(f.message, "User details required.") then BadRequest("User details required")
    else if Contains(f.message, "Product name not exists.") then Plain(404, "Product name not exists.")
    else if Contains(f.message, "Product already exists.") then
      Plain(409, "Hey there! Looks like this item is already in your cart. Adjust quantity as needed.")
    else if Contains(f.message, "User not exists.") then Plain(404, "Invalid user..login & try again")
    else if Contains(f.message, "Subtotal must be a positive value.") then BadRequest("Subtotal must be a positive value")
    else ServerFault()
  }

  /** CreateCartDetails's tests in the order the action makes them. The
      CurrentQuant sign test re-tests SubTotal, as the action does. */
  function CartEntryChecks(d: CartEntry): seq<Check>
  {
    EntryItemChecks(d) + EntryAmountChecks(d)
  }

  function EntryItemChecks(d: CartEntry): seq<Check>
  {
    [Check(!IsNullOrEmpty(d.productName), "ProductName is required."),
     Check(Length(d.productName) <= 255, "ProductName must be at most 255 characters long."),
     Check(d.price != 0.0, "Price can not be null"),
     Check(0.0 <= d.price <= MaxPrice, "Price must be between 1 and 999999.99.")]
  }

  function EntryAmountChecks(d: CartEntry): seq<Check>
  {
    [Check(d.userId != 0, "Invalid User..try again"),
     Check(d.subTotal != 0.0, "Subtotal can not be null"),
     Check(d.subTotal >= 0.0, "SubTotal must be positive value."),
     Check(d.currentQuant != 0.0, "CurrentQuant can not be null"),
     Check(d.subTotal >= 0.0, "CurrentQuant must be positive value.")]
  }

  function CartEntryGuard(d: CartEntry): (m: Option<string>)
    ensures m.None? <==> CartEntryAccepted(d)
  {
    if IsNullOrEmpty(d.productName) then Some("ProductName is required.")
    else if Length(d.productName) > 255 then Some("ProductName must be at most 255 characters long.")
    else if d.price == 0.0 then Some("Price can not be null")
    else if d.price < 0.0 || d.price > MaxPrice then Some("Price must be between 1 and 999999.99.")
    else if d.userId == 0 then Some("Invalid User..try again")
    else if d.subTotal == 0.0 then Some("Subtotal can not be null")
    else if d.subTotal < 0.0 then Some("SubTotal must be positive value.")
    else if d.currentQuant == 0.0 then Some("CurrentQuant can not be null")
    else if d.subTotal < 0.0 then Some("CurrentQuant must be positive value.")
    else None
  }

  /** CreateCartDetails refuses with the message of the first test, in the
      order above, that the request fails. */
  lemma CartEntryGuardOrder(d: CartEntry)
    ensures CartEntryGuard(d) == FirstFailed(CartEntryChecks(d))
  {
    FirstFailedAppend(EntryItemChecks(d), EntryAmountChecks(d));
    EntryItemChecksOrder(d);
    EntryAmountChecksOrder(d);
  }

  lemma EntryItemChecksOrder(d: CartEntry)
    ensures FirstFailed(EntryItemChecks(d)) ==
              if IsNullOrEmpty(d.productName) then Some("ProductName is required.")
              else if Length(d.productName) > 255 then Some("ProductName must be at most 255 characters long.")
              else if d.price == 0.0 then Some("Price can not be null")
              else if d.price < 0.0 || d.price > MaxPrice then Some("Price must be between 1 and 999999.99.")
              else None
  {
    var c := EntryItemChecks(d);
    if IsNullOrEmpty(d.productName) { FirstFailedAt(c, 0); }
    else if Length(d.productName) > 255 { FirstFailedAt(c, 1); }
    else if d.price == 0.0 { FirstFailedAt(c, 2); }
    else if d.price < 0.0 || d.price > MaxPrice { FirstFailedAt(c, 3); }
  }

  lemma EntryAmountChecksOrder(d: CartEntry)
    ensures FirstFailed(EntryAmountChecks(d)) ==
              if d.userId == 0 then Some("Invalid User..try again")
              else if d.subTotal == 0.0 then Some("Subtotal can not be null")
              else if d.subTotal < 0.0 then Some("SubTotal must be positive value.")
              else if d.currentQuant == 0.0 then Some("CurrentQuant can not be null")
              else None
  {
    var c := EntryAmountChecks(d);
    if d.userId == 0 { FirstFailedAt(c, 0); }
    else if d.subTotal == 0.0 { FirstFailedAt(c, 1); }
    else if d.subTotal < 0.0 { FirstFailedAt(c, 2); }
    else if d.currentQuant == 0.0 { FirstFailedAt(c, 3); }
  }

  /** CreateCartDetails(cartDetails), with the id the insert returns. */
  function CreateCartDetails(d: CartEntry, inserted: Outcome<Int32>): (r: Reply<string>)
    ensures !CartEntryAccepted(d) ==> r.status == 400 && r.body.Api? && r.body.data == None
    // a refused request is told about the first test it fails, in the order of CartEntryChecks
    ensures FirstFailed(CartEntryChecks(d)).Some? <==> !CartEntryAccepted(d)
    ensures FirstFailed(CartEntryChecks(d)).Some? ==> r == BadRequest(FirstFailed(CartEntryChecks(d)).value)
    ensures IsNullOrEmpty(d.productName) ==> r == BadRequest("ProductName is required.")
    ensures CartEntryAccepted(d) && inserted.Ok? ==>
              r == if inserted.value != 0 then Plain(201, "Item added to cart..") else ServerFault()
    ensures CartEntryAccepted(d) && inserted.Threw? ==> r == CartEntryFailure(inserted.failure)
  {
    CartEntryGuardOrder(d);
    if CartEntryGuard(d).Some? then BadRequest(CartEntryGuard(d).value)
    else match inserted
      case Ok(id) => if id != 0 then Plain(201, "Item added to cart..") else ServerFault()
      case Threw(f) => CartEntryFailure(f)
  }

  /** The CurrentQuant sign check re-tests SubTotal, which an earlier guard
      has already refused when negative: its message is never the answer. */
  lemma CurrentQuantSignNeverChecked(d: CartEntry, inserted: Outcome<Int32>)
    ensures CreateCartDetails(d, inserted) != BadRequest("CurrentQuant must be positive value.")
  {
  }

  /** A negative quantity goes through to the repository. */
  lemma NegativeCurrentQuantAccepted()
    ensures CreateCartDetails(CartEntry(None, Some("Mango"), 10.0, 10.0, 7, -3.0), Ok(1)) == Plain(201, "Item added to cart..")
  {
  }

  /** The product already being in the cart (error 50000) is a 409. */
  lemma DuplicateCartLineConflict()
    ensures CartEntryFailure(SqlFailure(50000, "Product already exists.")).status == 409
  {
    var m := "Product already exists.";
    LongerNotContained(m, "ProductName cannot be NULL or empty.");
    LongerNotContained(m, "Price must be a positive value.");
    SameLengthNotContained(m, "Product image required.");
    CharNotContained(m, "User details required.", 0);
    LongerNotContained(m, "Product name not exists.");
    ContainsItself(m);
  }

  // ---------------------------------------------------------------------------
  // Update.

  /** UpdateCartDetails (decimal fields as reals). */
  datatype CartChange = CartChange(cartId: Int32, price: real, quantity: Int32, subTotal: real,
                                   userId: Int32, productName: Option<string>,
                                   increaseOrDecrease: Option<string>, totalQuant: real)

  /** What UpdateCartDetails lets through: a cart line, a price in
      (0, 999999.99], a quantity in [1, 10000], a user, a positive subtotal
      and a non-zero total quantity (of either sign). */
  predicate CartChangeAccepted(d: CartChange)
  {
    && d.cartId != 0
    && 0.0 < d.price <= MaxPrice
    && 1 <= d.quantity <= 10000
    && d.userId != 0
    && d.subTotal > 0.0
    && d.totalQuant != 0.0
  }

  function CartChangeFailure(f: Failure): (r: Reply<string>)
    ensures r.status in {400, 404, 500} && r.body.Api? && r.body.data == None
    ensures !IsRaised(f) ==> r == ServerFault()
  {
    if !IsRaised(f) then ServerFault()
    else if Contains(f.message, "CartId cannot be NULL or empty.") then BadRequest("Invalid cart details.")
    else if Contains(f.message, "Price must be a positive value.") then BadRequest("Price must be a positive value.")
    else if Contains(f.message, "Quantity must be a positive value.") then BadRequest("Quantity must be a positive value.")
    else if Contains(f.message, "User details required.") then BadRequest("User details required")
    else if Contains(f.message, "User not exists.") then Plain(404, "User not exists..login again")
    else if Contains(f.message, "Subtotal must be a positive value.") then BadRequest("Subtotal must be a positive value")
    else if Contains(f.message, "Current item is out of stock.") then BadRequest("Current item is out of stock.")
    else if Contains(f.message, "Cart details not exists.") then Plain(404, "Cart details not exists.")
    else ServerFault()
  }

  /** UpdateCartDetails's tests in the order the action makes them. The
      TotalQuant sign test re-tests SubTotal, as the action does. */
  function CartChangeChecks(d: CartChange): seq<Check>
  {
    ChangeItemChecks(d) + ChangeAmountChecks(d)
  }

  function ChangeItemChecks(d: CartChange): seq<Check>
  {
    [Check(d.cartId != 0, "Invalid cart details"),
     Check(d.price != 0.0, "Price can not be null"),
     Check(0.0 <= d.price <= MaxPrice, "Price must be between 1 and 999999.99."),
     Check(d.quantity != 0, "Quantity is required."),
     Check(1 <= d.quantity <= 10000, "Quantity must be between 1 and 10000")]
  }

  function ChangeAmountChecks(d: CartChange): seq<Check>
  {
    [Check(d.userId != 0, "Invalid User..try again"),
     Check(d.subTotal != 0.0, "Subtotal can not be null"),
     Check(d.subTotal >= 0.0, "SubTotal must be positive value."),
     Check(d.totalQuant != 0.0, "TotalQuant can not be null"),
     Check(d.subTotal >= 0.0, "TotalQuant must be positive value.")]
  }

  function CartChangeGuard(d: CartChange): (m: Option<string>)
    ensures m.None? <==> CartChangeAccepted(d)
    ensures d.cartId == 0 ==> m == Some("Invalid cart details")
  {
    if d.cartId == 0 then Some("Invalid cart details")
    else if d.price == 0.0 then Some("Price can not be null")
    else if d.price < 0.0 || d.price > MaxPrice then Some("Price must be between 1 and 999999.99.")
    else if d.quantity == 0 then Some("Quantity is required.")
    else if d.quantity < 1 || d.quantity > 10000 then Some("Quantity must be between 1 and 10000")
    else if d.userId == 0 then Some("Invalid User..try again")
    else if d.subTotal == 0.0 then Some("Subtotal can not be null")
    else if d.subTotal < 0.0 then Some("SubTotal must be positive value.")
    else if d.totalQuant == 0.0 then Some("TotalQuant can not be null")
    else if d.subTotal < 0.0 then Some("TotalQuant must be positive value.")
    else None
  }

  /** UpdateCartDetails refuses with the message of the first test, in the
      order above, that the request fails. */
  lemma CartChangeGuardOrder(d: CartChange)
    ensures CartChangeGuard(d) == FirstFailed(CartChangeChecks(d))
  {
    FirstFailedAppend(ChangeItemChecks(d), ChangeAmountChecks(d));
    ChangeItemChecksOrder(d);
    ChangeAmountChecksOrder(d);
  }

  lemma ChangeItemChecksOrder(d: CartChange)
    ensures FirstFailed(ChangeItemChecks(d)) ==
              if d.cartId == 0 then Some("Invalid cart details")
              else if d.price == 0.0 then Some("Price can not be null")
              else if d.price < 0.0 || d.price > MaxPrice then Some("Price must be between 1 and 999999.99.")
              else if d.quantity == 0 then Some("Quantity is required.")
              else if d.quantity < 1 || d.quantity > 10000 then Some("Quantity must be between 1 and 10000")
              else None
  {
    var c := ChangeItemChecks(d);
    if d.cartId == 0 { FirstFailedAt(c, 0); }
    else if d.price == 0.0 { FirstFailedAt(c, 1); }
    else if d.price < 0.0 || d.price > MaxPrice { FirstFailedAt(c, 2); }
    else if d.quantity == 0 { FirstFailedAt(c, 3); }
    else if d.quantity < 1 || d.quantity > 10000 { FirstFailedAt(c, 4); }
  }

  lemma ChangeAmountChecksOrder(d: CartChange)
    ensures FirstFailed(ChangeAmountChecks(d)) ==
              if d.userId == 0 then Some("Invalid User..try again")
              else if d.subTotal == 0.0 then Some("Subtotal can not be null")
              else if d.subTotal < 0.0 then Some("SubTotal must be positive value.")
              else if d.totalQuant == 0.0 then Some("TotalQuant can not be null")
              else None
  {
    var c := ChangeAmountChecks(d);
    if d.userId == 0 { FirstFailedAt(c, 0); }
    else if d.subTotal == 0.0 { FirstFailedAt(c, 1); }
    else if d.subTotal < 0.0 { FirstFailedAt(c, 2); }
    else if d.totalQuant == 0.0 { FirstFailedAt(c, 3); }
  }

  /** UpdateCartDetails(cartDetails), with the count the update returns. */
  function UpdateCartDetails(d: CartChange, updated: Outcome<Int32>): (r: Reply<string>)
    ensures !CartChangeAccepted(d) ==> r.status == 400 && r.body.Api? && r.body.data == None
    // a refused request is told about the first test it fails, in the order of CartChangeChecks
    ensures FirstFailed(CartChangeChecks(d)).Some? <==> !CartChangeAccepted(d)
    ensures FirstFailed(CartChangeChecks(d)).Some? ==> r == BadRequest(FirstFailed(CartChangeChecks(d)).value)
    ensures d.cartId == 0 ==> r == BadRequest("Invalid cart details")
    ensures CartChangeAccepted(d) && updated.Ok? ==>
              r == if updated.value != 0 then Plain(200, "Item updated successfully..") else ServerFault()
    ensures CartChangeAccepted(d) && updated.Threw? ==> r == CartChangeFailure(updated.failure)
  {
    CartChangeGuardOrder(d);
    if CartChangeGuard(d).Some? then BadRequest(CartChangeGuard(d).value)
    else match updated
      case Ok(count) => if count != 0 then Plain(200, "Item updated successfully..") else ServerFault()
      case Threw(f) => CartChangeFailure(f)
  }

  /** The TotalQuant sign check re-tests SubTotal: its message is never the
      answer, and a negative TotalQuant goes through. */
  lemma TotalQuantSignNeverChecked(d: CartChange, updated: Outcome<Int32>)
    ensures UpdateCartDetails(d, updated) != BadRequest("TotalQuant must be positive value.")
    ensures UpdateCartDetails(CartChange(3, 10.0, 2, 20.0, 7, None, None, -1.0), Ok(1)).status == 200
  {
  }

  /** The product being out of stock (error 50000) is a 400. */
  lemma OutOfStockRefused()
    ensures CartChangeFailure(SqlFailure(50000, "Current item is out of stock.")) == BadRequest("Current item is out of stock.")
  {
    var m := "Current item is out of stock.";
    LongerNotContained(m, "CartId cannot be NULL or empty.");
    LongerNotContained(m, "Price must be a positive value.");
    LongerNotContained(m, "Quantity must be a positive value.");
    CharNotContained(m, "User details required.", 0);
    CharNotContained(m, "User not exists.", 0);
    LongerNotContained(m, "Subtotal must be a positive value.");
    ContainsItself(m);
  }
}

/**
 * OrderController: placing an order (a check of every cart line, then of the
 * totals, then the payment repository), completing the payment, reading a
 * user's orders and changing an order's status.
 */
module OrderController {
  import opened Common
  import opened Http

  const MaxPrice: real := 999999.99
  const ProductDetailRequired: string := "Product detail is required."

  // ---------------------------------------------------------------------------
  // The cart lines of an order.

  /** OrderCartDetails (decimal price as a real). */
  datatype OrderItem = OrderItem(productImage: Option<string>, productName: Option<string>, price: real, quantity: Int32)

  /** What the loop accepts of one line: an image, a name of 1 to 255
      characters, a price in (0, 999999.99] and a positive quantity. */
  predicate ItemAccepted(item: OrderItem)
  {
    && !IsNullOrEmpty(item.productImage)
    && 1 <= Length(item.productName) <= 255
    && 0.0 < item.price <= MaxPrice
    && item.quantity > 0
  }

  /** The checks the loop body makes on one line: the message of the first
      that fails, if any. */
  function ItemFailure(item: OrderItem): (m: Option<string>)
    ensures m.None? <==> ItemAccepted(item)
    ensures IsNullOrEmpty(item.productImage) || IsNullOrEmpty(item.productName) ==> m == Some(ProductDetailRequired)
  {
    if IsNullOrEmpty(item.productImage) then Some(ProductDetailRequired)
    else if IsNullOrEmpty(item.productName) then Some(ProductDetailRequired)
    else if Length(item.productName) > 255 then Some("ProductName must be at most 255 characters long.")
    else if item.price == 0.0 then Some("Price can not be null")
    else if item.price < 0.0 || item.price > MaxPrice then Some("Price must be between 1 and 999999.99.")
    else if item.quantity == 0 then Some("Quantity can not be null")
    else if item.quantity < 0 then Some("Quantity must be a non-negative value")
    else None
  }

  /** The foreach over the cart lines: the first failing check of the first
      failing line, in list order; nothing when every line passes. */
  function FirstItemFailure(items: seq<OrderItem>): (m: Option<string>)
    ensures m.None? <==> forall i | 0 <= i < |items| :: ItemAccepted(items[i])
  {
    if items == [] then None
    else if ItemFailure(items[0]).Some? then ItemFailure(items[0])
    else
      assert forall i | 1 <= i < |items| :: items[i] == items[1..][i - 1];
      FirstItemFailure(items[1..])
  }

  /** The message reported is that of the first line that fails. */
  lemma {:induction false} FirstItemFailureIsFirst(items: seq<OrderItem>)
    ensures FirstItemFailure(items).Some? ==> exists k | 0 <= k < |items| ::
              && ItemFailure(items[k]) == FirstItemFailure(items)
              && forall j | 0 <= j < k :: ItemAccepted(items[j])
  {
    if items != [] && ItemFailure(items[0]).None? && FirstItemFailure(items).Some? {
      var rest := items[1..];
      FirstItemFailureIsFirst(rest);
      var k :| 0 <= k < |rest| && ItemFailure(rest[k]) == FirstItemFailure(rest)
               && forall j | 0 <= j < k :: ItemAccepted(rest[j]);
      assert items[k + 1] == rest[k];
      forall j | 0 <= j < k + 1 ensures ItemAccepted(items[j]) {
        if j > 0 { assert items[j] == rest[j - 1]; }
      }
    } else if items != [] && FirstItemFailure(items).Some? {
      assert ItemFailure(items[0]) == FirstItemFailure(items);
    }
  }

  /** A failing line hides everything after it: lines behind it are not
      looked at, whatever they hold. */
  lemma {:induction false} FailingLineStopsTheLoop(before: seq<OrderItem>, bad: OrderItem, after: seq<OrderItem>)
    requires forall i | 0 <= i < |before| :: ItemAccepted(before[i])
    requires !ItemAccepted(bad)
    ensures FirstItemFailure(before + [bad] + after) == ItemFailure(bad)
    decreases |before|
  {
    var items := before + [bad] + after;
    if before == [] {
      assert items[0] == bad;
    } else {
      assert items[0] == before[0];
      assert items[1..] == before[1..] + [bad] + after;
      FailingLineStopsTheLoop(before[1..], bad, after);
    }
  }

  // ---------------------------------------------------------------------------
  // CreateOrderDetails.

  /** AddOrderDetails (decimal amounts as reals); the cart list is non-null. */
  datatype OrderRequest = OrderRequest(cartDetails: seq<OrderItem>, subTotal: real, charges: real, total: real,
                                       userId: Int32, modeOfPayment: Option<string>)

  /** What CreateOrderDetails passes to the payment repository: every line
      accepted, and positive subtotal, charges and total, a user and a mode of
      payment. */
  predicate OrderAccepted(o: OrderRequest)
  {
    && (forall i | 0 <= i < |o.cartDetails| :: ItemAccepted(o.cartDetails[i]))
    && o.subTotal > 0.0
    && o.charges > 0.0
    && o.total > 0.0
    && o.userId != 0
    && !IsNullOrEmpty(o.modeOfPayment)
  }

  function OrderFailure(f: Failure): (r: Reply<string>)
    ensures r.status in {400, 500} && r.body.Api? && r.body.data == None
    ensures !IsRaised(f) ==> r == ServerFault()
  {
    if !IsRaised(f) then ServerFault()
    else if Contains(f.message, "Product image required.") then BadRequest("Invalid product data")
    else if Contains(f.message, "ProductName cannot be NULL or empty.") then BadRequest("ProductName cannot be NULL or empty.")
    else if Contains(f.message, "Price must be a positive value.") then BadRequest("Price must be a positive value.")
    else if Contains(f.message, "Quantity must be a non-negative value.") then BadRequest("Quantity must be a non-negative value.")
    else if Contains(f.message, "Subtotal must be a positive value.") then BadRequest("Subtotal must be a positive value.")
    else if Contains(f.message, "Charges must be a positive value.") then BadRequest("Charges must be a positive value.")
    else if Contains(f.message, "Total must be a positive value.") then BadRequest("Total must be a positive value.")
    else if Contains(f.message, "User Id required.") then BadRequest("Invalid user")
    else if Contains(f.message, "RazorPayOrderId is required.") then BadRequest("Invalid user")
    else if Contains(f.message, "Order status required.") then BadRequest("Invalid order")
    else if Contains(f.message, "Mode of payment cannot be NULL or empty.") then BadRequest("Kindly select mode of payment")
    else if Contains(f.message, "Amount is required.") then BadRequest("Invalid amount")
    else if Contains(f.message, "Amount due is not filled.") then BadRequest("Invalid amount")
    else if Contains(f.message, "Currency is required.") then BadRequest("Invalid order details")
    else if Contains(f.message, "Receipt is required.") then BadRequest("Invalid order details")
    else ServerFault()
  }

  /** CreateOrderDetails's tests in the order the action makes them: the
      cart lines first (the message is the first failing line's), then the
      amounts, the user and the mode of payment. */
  function OrderChecks(o: OrderRequest): seq<Check>
  {
    [Check(FirstItemFailure(o.cartDetails).None?, OrEmpty(FirstItemFailure(o.cartDetails))),
     Check(o.subTotal != 0.0, "Subtotal can not be null"),
     Check(o.subTotal >= 0.0, "SubTotal must be positive value."),
     Check(o.charges != 0.0, "Charges can not be null"),
     Check(o.charges >= 0.0, "Charges must be a non-negative value"),
     Check(o.total != 0.0, "Total can not be null"),
     Check(o.total >= 0.0, "Total must be a non-negative value"),
     Check(o.userId != 0, "Invalid User..try again"),
     Check(!IsNullOrEmpty(o.modeOfPayment), "Kindly select mode of payment.")]
  }

  function OrderGuard(o: OrderRequest): (m: Option<string>)
    ensures m.None? <==> OrderAccepted(o)
  {
    var item := FirstItemFailure(o.cartDetails);
    if item.Some? then item
    else if o.subTotal == 0.0 then Some("Subtotal can not be null")
    else if o.subTotal < 0.0 then Some("SubTotal must be positive value.")
    else if o.charges == 0.0 then Some("Charges can not be null")
    else if o.charges < 0.0 then Some("Charges must be a non-negative value")
    else if o.total == 0.0 then Some("Total can not be null")
    else if o.total < 0.0 then Some("Total must be a non-negative value")
    else if o.userId == 0 then Some("Invalid User..try again")
    else if IsNullOrEmpty(o.modeOfPayment) then Some("Kindly select mode of payment.")
    else None
  }

  /** CreateOrderDetails refuses with the message of the first test, in the
      order above, that the request fails. */
  lemma OrderGuardOrder(o: OrderRequest)
    ensures OrderGuard(o) == FirstFailed(OrderChecks(o))
  {
    var c := OrderChecks(o);
    if FirstItemFailure(o.cartDetails).Some? { FirstFailedAt(c, 0); }
    else if o.subTotal == 0.0 { FirstFailedAt(c, 1); }
    else if o.subTotal < 0.0 { FirstFailedAt(c, 2); }
    else if o.charges == 0.0 { FirstFailedAt(c, 3); }
    else if o.charges < 0.0 { FirstFailedAt(c, 4); }
    else if o.total == 0.0 { FirstFailedAt(c, 5); }
    else if o.total < 0.0 { FirstFailedAt(c, 6); }
    else if o.userId == 0 { FirstFailedAt(c, 7); }
    else if IsNullOrEmpty(o.modeOfPayment) { FirstFailedAt(c, 8); }
  }

  /** CreateOrderDetails(orderDetails), with what ProcessOrderAsync returned
      (None for a null order). */
  function CreateOrderDetails<O>(o: OrderRequest, processed: Outcome<Option<O>>): (r: Reply<O>)
    ensures !OrderAccepted(o) ==> r.status == 400 && r.body.Api? && r.body.data == None
    // a refused request is told about the first test it fails, in the order of OrderChecks
    ensures FirstFailed(OrderChecks(o)).Some? <==> !OrderAccepted(o)
    ensures FirstFailed(OrderChecks(o)).Some? ==> r == BadRequest(FirstFailed(OrderChecks(o)).value)
    ensures FirstItemFailure(o.cartDetails).Some? ==> r == BadRequest(FirstItemFailure(o.cartDetails).value)
    ensures OrderAccepted(o) && processed.Ok? ==>
              if processed.value.Some? then r == WithData(201, "Order created successfully.", processed.value)
              else r == ServerFault()
    ensures OrderAccepted(o) && processed.Threw? ==> r == Retyped(OrderFailure(processed.failure))
  {
    OrderGuardOrder(o);
    if OrderGuard(o).Some? then BadRequest(OrderGuard(o).value)
    else match processed
      case Ok(order) => if order.Some? then WithData(201, "Order created successfully.", order) else ServerFault()
      case Threw(f) => Retyped(OrderFailure(f))
  }

  /** Zero charges are refused, although the message for negative charges
      says they must be non-negative. */
  lemma ZeroChargesRefused(o: OrderRequest, processed: Outcome<Option<int>>)
    requires forall i | 0 <= i < |o.cartDetails| :: ItemAccepted(o.cartDetails[i])
    requires o.subTotal > 0.0 && o.charges == 0.0
    ensures CreateOrderDetails(o, processed) == BadRequest("Charges can not be null")
  {
  }

  /** An order without cart lines is not refused by the controller. */
  lemma EmptyCartReachesRepository()
    ensures CreateOrderDetails(OrderRequest([], 10.0, 1.0, 11.0, 7, Some("UPI")), Ok(Some(42)))
              == WithData(201, "Order created successfully.", Some(42))
  {
  }

  // ---------------------------------------------------------------------------
  // CompleteOrderProcess.

  /** CompleteOrderProcess. */
  datatype Completion = Completion(orderId: Int32, razorpayOrderId: Option<string>, paymentId: Option<string>,
                                   signature: Option<string>, modeOfPayment: Option<string>, userId: Int32)

  predicate CompletionAccepted(c: Completion)
  {
    && c.orderId != 0
    && !IsNullOrEmpty(c.razorpayOrderId)
    && !IsNullOrEmpty(c.paymentId)
    && !IsNullOrEmpty(c.signature)
    && !IsNullOrEmpty(c.modeOfPayment)
    && c.userId != 0
  }

  function CompletionFailure(f: Failure): (r: Reply<string>)
    ensures r.status in {400, 500} && r.body.Api? && r.body.data == None
    ensures !IsRaised(f) ==> r == ServerFault()
  {
    if !IsRaised(f) then ServerFault()
    else if Contains(f.message, "OrderId cannot be NULL or empty.") then BadRequest("Invalid order details")
    else if Contains(f.message, "User details required.") then BadRequest("User details required")
    else if Contains(f.message, "Mode of payment required.") then BadRequest("Mode of payment required")
    else if Contains(f.message, "Order status required.") then BadRequest("Invalid order details")
    else ServerFault()
  }

  /** CompleteOrderProcess's tests in the order the action makes them. */
  function CompletionChecks(c: Completion): seq<Check>
  {
    [Check(c.orderId != 0, "Invalid order details"),
     Check(!IsNullOrEmpty(c.razorpayOrderId), "Invalid order details"),
     Check(!IsNullOrEmpty(c.paymentId), "Invalid payment details"),
     Check(!IsNullOrEmpty(c.signature), "Invalid payment details"),
     Check(!IsNullOrEmpty(c.modeOfPayment), "Invalid mode of payment"),
     Check(c.userId != 0, "Invalid user details")]
  }

  function CompletionGuard(c: Completion): (m: Option<string>)
    ensures m.None? <==> CompletionAccepted(c)
  {
    if c.orderId == 0 then Some("Invalid order details")
    else if IsNullOrEmpty(c.razorpayOrderId) then Some("Invalid order details")
    else if IsNullOrEmpty(c.paymentId) then Some("Invalid payment details")
    else if IsNullOrEmpty(c.signature) then Some("Invalid payment details")
    else if IsNullOrEmpty(c.modeOfPayment) then Some("Invalid mode of payment")
    else if c.userId == 0 then Some("Invalid user details")
    else None
  }

  /** CompleteOrderProcess refuses with the message of the first test, in
      the order above, that the request fails. */
  lemma CompletionGuardOrder(c: Completion)
    ensures CompletionGuard(c) == FirstFailed(CompletionChecks(c))
  {
    var k := CompletionChecks(c);
    if c.orderId == 0 { FirstFailedAt(k, 0); }
    else if IsNullOrEmpty(c.razorpayOrderId) { FirstFailedAt(k, 1); }
    else if IsNullOrEmpty(c.paymentId) { FirstFailedAt(k, 2); }
    else if IsNullOrEmpty(c.signature) { FirstFailedAt(k, 3); }
    else if IsNullOrEmpty(c.modeOfPayment) { FirstFailedAt(k, 4); }
    else if c.userId == 0 { FirstFailedAt(k, 5); }
  }

  /** CompleteOrderProcess(completeOrderProcess), with the count the
      repository returned. */
  function CompleteOrderProcess(c: Completion, completed: Outcome<Int32>): (r: Reply<string>)
    ensures !CompletionAccepted(c) ==> r.status == 400 && r.body.Api? && r.body.data == None
    // a refused request is told about the first test it fails, in the order of CompletionChecks
    ensures FirstFailed(CompletionChecks(c)).Some? <==> !CompletionAccepted(c)
    ensures FirstFailed(CompletionChecks(c)).Some? ==> r == BadRequest(FirstFailed(CompletionChecks(c)).value)
    ensures c.orderId == 0 || (c.orderId != 0 && IsNullOrEmpty(c.razorpayOrderId)) ==> r == BadRequest("Invalid order details")
    ensures CompletionAccepted(c) && completed.Ok? ==>
              r == if completed.value != 0 then Plain(200, "Order and payment done successfully.") else ServerFault()
    ensures CompletionAccepted(c) && completed.Threw? ==> r == CompletionFailure(completed.failure)
  {
    CompletionGuardOrder(c);
    if CompletionGuard(c).Some? then BadRequest(CompletionGuard(c).value)
    else match completed
      case Ok(count) => if count != 0 then Plain(200, "Order and payment done successfully.") else ServerFault()
      case Threw(f) => CompletionFailure(f)
  }

  /** The payment checks come before the user check: a request missing both
      its signature and its user is answered about the payment. */
  lemma PaymentCheckedBeforeUser()
    ensures CompleteOrderProcess(Completion(5, Some("order_1"), Some("pay_1"), None, Some("UPI"), 0), Ok(1))
              == BadRequest("Invalid payment details")
  {
  }

  // ---------------------------------------------------------------------------
  // GetOrderDetailsByUserId.

  function OrderReadFailure(f: Failure): (r: Reply<string>)
    ensures r.status in {400, 500} && r.body.Api? && r.body.data == None
    ensures IsRaised(f) && Contains(f.message, "User details required.") <==> r.status == 400
  {
    if IsRaised(f) && Contains(f.message, "User details required.") then BadRequest("Category cannot be NULL")
    else ServerFault()
  }

  /** GetOrderDetailsByUserId(userId), with the list the repository
      returned (None for null). */
  function GetOrderDetailsByUserId<L>(userId: Int32, fetched: Outcome<Option<L>>): (r: Reply<L>)
    ensures userId == 0 ==> r == BadRequest("Invalid user details..please check and try again.")
    ensures userId != 0 && fetched.Ok? ==>
              && r.status == 200 && r.body.Api? && r.body.data == fetched.value
              && (fetched.value.None? <==> r.body.message == Some("Order details not found.."))
    ensures userId != 0 && fetched.Threw? ==> r == Retyped(OrderReadFailure(fetched.failure))
  {
    if userId == 0 then BadRequest("Invalid user details..please check and try again.")
    else match fetched
      case Ok(orders) =>
        if orders.Some? then WithData(200, "Order details..", orders)
        else WithData(200, "Order details not found..", None)
      case Threw(f) => Retyped(OrderReadFailure(f))
  }

  // ---------------------------------------------------------------------------
  // UpdateOrderStatusDetails.

  /** The two fields of UpdateOrderStatus the action reads. */
  datatype StatusChange = StatusChange(orderStatus: Option<string>, userId: Int32)

  /** A status that is present (possibly empty) and a positive user id. */
  predicate StatusChangeAccepted(s: StatusChange)
  {
    s.orderStatus.Some? && s.userId > 0
  }

  function StatusChangeFailure(f: Failure): (r: Reply<string>)
    ensures r.status in {400, 404, 500} && r.body.Api? && r.body.data == None
    ensures !IsRaised(f) ==> r == ServerFault()
    // a raised missing-field message is a 400; the unknown-id message alone is a 404
    ensures r.status == 400 <==>
              IsRaised(f)
              && (Contains(f.message, "Order Status cannot be NULL or empty.")
                  || Contains(f.message, "UserId cannot be NULL or empty."))
    ensures r.status == 404 <==>
              IsRaised(f)
              && !Contains(f.message, "Order Status cannot be NULL or empty.")
              && !Contains(f.message, "UserId cannot be NULL or empty.")
              && Contains(f.message, "Invalid User Id. User with such User Id does not exist.")
  {
    if !IsRaised(f) then ServerFault()
    else if Contains(f.message, "Order Status cannot be NULL or empty.") then BadRequest("Invalid order")
    else if Contains(f.message, "UserId cannot be NULL or empty.") then BadRequest("Invalid user")
    else if Contains(f.message, "Invalid User Id. User with such User Id does not exist.") then Plain(404, "User not exists")
    else ServerFault()
  }

  /** UpdateOrderStatusDetails's tests in the order the action makes them. */
  function StatusChangeChecks(s: StatusChange): seq<Check>
  {
    [Check(s.orderStatus.Some?, "Order status can not be null"),
     Check(s.userId > 0, "Invalid user")]
  }

  function StatusChangeGuard(s: StatusChange): (m: Option<string>)
    ensures m.None? <==> StatusChangeAccepted(s)
  {
    if s.orderStatus.None? then Some("Order status can not be null")
    else if s.userId <= 0 then Some("Invalid user")
    else None
  }

  /** UpdateOrderStatusDetails refuses a null status before it looks at the user. */
  lemma StatusChangeGuardOrder(s: StatusChange)
    ensures StatusChangeGuard(s) == FirstFailed(StatusChangeChecks(s))
  {
    if s.orderStatus.None? { FirstFailedAt(StatusChangeChecks(s), 0); }
    else if s.userId <= 0 { FirstFailedAt(StatusChangeChecks(s), 1); }
  }

  /** UpdateOrderStatusDetails(updateStatus), with the count the repository
      returned. */
  function UpdateOrderStatusDetails(s: StatusChange, updated: Outcome<Int32>): (r: Reply<string>)
    ensures !StatusChangeAccepted(s) ==> r.status == 400 && r.body.Api? && r.body.data == None
    // a refused request is told about the first test it fails, in the order of StatusChangeChecks
    ensures FirstFailed(StatusChangeChecks(s)).Some? <==> !StatusChangeAccepted(s)
    ensures FirstFailed(StatusChangeChecks(s)).Some? ==> r == BadRequest(FirstFailed(StatusChangeChecks(s)).value)
    ensures StatusChangeAccepted(s) && updated.Ok? ==>
              r == if updated.value != 0 then Plain(200, "Order status updated successfully..") else ServerFault()
    ensures StatusChangeAccepted(s) && updated.Threw? ==> r == StatusChangeFailure(updated.failure)
  {
    StatusChangeGuardOrder(s);
    if StatusChangeGuard(s).Some? then BadRequest(StatusChangeGuard(s).value)
    else match updated
      case Ok(count) => if count != 0 then Plain(200, "Order status updated successfully..") else ServerFault()
      case Threw(f) => StatusChangeFailure(f)
  }

  /** Only a null status is refused: an empty one reaches the repository. */
  lemma EmptyStatusPasses()
    ensures UpdateOrderStatusDetails(StatusChange(Some(""), 3), Ok(1)) == Plain(200, "Order status updated successfully..")
    ensures UpdateOrderStatusDetails(StatusChange(None, 3), Ok(1)) == BadRequest("Order status can not be null")
  {
  }
}

/**
 * ProductsController: the product list, the admin's create-or-update of a
 * product (a form with an uploaded image) and the delete. The image is seen
 * through what the guards read of it: its length, its declared content type
 * and its decoded width and height.
 */
module ProductsController {
  import opened Common
  import opened Http

  const MaxPrice: real := 999999.99

  /** GetAllProducts(), with the list the repository returned (None for
      null); every exception is a 500. */
  function GetAllProducts<L>(fetched: Outcome<Option<L>>): (r: Reply<L>)
    ensures fetched.Ok? ==> r.status == 200 && r.body.Api? && r.body.data == fetched.value
    ensures fetched.Ok? && fetched.value.None? ==> r.body == Api(200, Some("No products found.."), None)
    ensures fetched.Threw? ==> r == ServerFault()
  {
    match fetched
      case Ok(products) =>
        if products.Some? then WithData(200, "Products details..", products)
        else WithData(200, "No products found..", None)
      case Threw(_) => ServerFault()
  }

  // ---------------------------------------------------------------------------
  // Content types, compared with StringComparison.OrdinalIgnoreCase.

  function FoldCase(c: char): char
  {
    if 'A' <= c <= 'Z' then (c as int + 32) as char else c
  }

  predicate EqualsIgnoreCase(a: string, b: string)
  {
    |a| == |b| && forall i | 0 <= i < |a| :: FoldCase(a[i]) == FoldCase(b[i])
  }

  predicate AllowedContentType(t: string)
  {
    EqualsIgnoreCase(t, "image/jpeg") || EqualsIgnoreCase(t, "image/jpg") || EqualsIgnoreCase(t, "image/png")
  }

  const NoImage: string := "Image can not be null"
  const BadFormat: string := "Invalid file format please upload a JPG or PNG or JPEG file"
  const BadResolution: string := "Invalid image resolution. Please upload an image with resolution 500 x 500"

  /** The upload as the guards see it. */
  datatype Upload = Upload(length: nat, contentType: Option<string>, width: int, height: int)

  /** A non-empty upload whose declared type, if any, is JPEG or PNG and
      whose sides are both in [500, 505]. */
  predicate ImageAccepted(image: Option<Upload>)
  {
    && image.Some? && image.value.length > 0
    && (image.value.contentType.Some? ==> AllowedContentType(image.value.contentType.value))
    && 500 <= image.value.width <= 505
    && 500 <= image.value.height <= 505
  }

  /** The three image guards, in order: the message of the first that
      fails, if any. */
  function ImageFailure(image: Option<Upload>): (m: Option<string>)
    ensures m.None? <==> ImageAccepted(image)
  {
    if image.None? || image.value.length == 0 then Some(NoImage)
    else if image.value.contentType.Some? && !AllowedContentType(image.value.contentType.value) then
      Some(BadFormat)
    else if image.value.width < 500 || image.value.width > 505 || image.value.height < 500 || image.value.height > 505 then
      Some(BadResolution)
    else None
  }

  // ---------------------------------------------------------------------------
  // CreateUpdateProducts.

  /** AddUpdateProductsDetails (decimal fields as reals, ImageData as an
      Upload or None for null). */
  datatype ProductForm = ProductForm(
    productId: Option<string>,
    adminId: Option<string>,
    categoryId: Int32,
    productName: Option<string>,
    productDescription: Option<string>,
    price: real,
    stockQuantity: real,
    imageData: Option<Upload>)

  /** What CreateUpdateProducts sends to the repository: a category, an
      admin, a name of 1 to 255 characters, a price in (0, 999999.99], a
      stock in [1, 10000], an acceptable image, and a description longer than
      150 characters. */
  predicate ProductAccepted(p: ProductForm)
  {
    && p.categoryId != 0
    && !IsNullOrEmpty(p.adminId)
    && 1 <= Length(p.productName) <= 255
    && 0.0 < p.price <= MaxPrice
    && 1.0 <= p.stockQuantity <= 10000.0
    && ImageAccepted(p.imageData)
    && Length(p.productDescription) > 150
  }

  function ProductFailure(f: Failure): (r: Reply<string>)
    ensures r.status in {400, 409, 500} && r.body.Api? && r.body.data == None
    ensures !IsRaised(f) ==> r == ServerFault()
  {
    if !IsRaised(f) then ServerFault()
    else if Contains(f.message, "Category does not exist.") then BadRequest("Category does not exist.")
    else if Contains(f.message, "ProductName cannot be NULL or empty.") then BadRequest("ProductName cannot be NULL or empty.")
    else if Contains(f.message, "Product name already exists.") then Plain(409, "Product name already exists")
    else if Contains(f.message, "Price must be a positive value.") then BadRequest("Price must be a positive value.")
    else if Contains(f.message, "StockQuantity must be a non-negative value.") then
      BadRequest("Invalid stock quantity please check and try again.")
    else if Contains(f.message, "Product image required.") then BadRequest("Image required")
    else if Contains(f.message, "Admin details required.") then BadRequest("Admin details required.")
    else ServerFault()
  }

  /** CreateUpdateProducts's tests in the order the action makes them: the
      category, admin, name, price and stock tests, then the image and the
      description. The image test answers with the message of the first
      image guard that fails. */
  function ProductChecks(p: ProductForm): seq<Check>
  {
    FieldChecks(p) + ImageDescriptionChecks(p)
  }

  function FieldChecks(p: ProductForm): seq<Check>
  {
    [Check(p.categoryId != 0, "CategoryId is required."),
     Check(!IsNullOrEmpty(p.adminId), "Admin details is required."),
     Check(!IsNullOrEmpty(p.productName), "ProductName is required."),
     Check(Length(p.productName) <= 255, "ProductName must be at most 255 characters long."),
     Check(p.price != 0.0, "Price can not be null"),
     Check(0.0 <= p.price <= MaxPrice, "Price must be between 1 and 999999.99."),
     Check(p.stockQuantity != 0.0, "StockQuantity is required."),
     Check(1.0 <= p.stockQuantity <= 10000.0, "StockQuantity must be between 1 and 10000")]
  }

  function ImageDescriptionChecks(p: ProductForm): seq<Check>
  {
    [Check(ImageFailure(p.imageData).None?, OrEmpty(ImageFailure(p.imageData))),
     Check(!IsNullOrEmpty(p.productDescription), "ProductDescription is required."),
     Check(Length(p.productDescription) > 150, "ProductDescription must be at least 150 characters long.")]
  }

  function ProductGuard(p: ProductForm): (m: Option<string>)
    ensures m.None? <==> ProductAccepted(p)
  {
    if p.categoryId == 0 then Some("CategoryId is required.")
    else if IsNullOrEmpty(p.adminId) then Some("Admin details is required.")
    else if IsNullOrEmpty(p.productName) then Some("ProductName is required.")
    else if Length(p.productName) > 255 then Some("ProductName must be at most 255 characters long.")
    else if p.price == 0.0 then Some("Price can not be null")
    else if p.price < 0.0 || p.price > MaxPrice then Some("Price must be between 1 and 999999.99.")
    else if p.stockQuantity == 0.0 then Some("StockQuantity is required.")
    else if p.stockQuantity < 1.0 || p.stockQuantity > 10000.0 then Some("StockQuantity must be between 1 and 10000")
    else if ImageFailure(p.imageData).Some? then ImageFailure(p.imageData)
    else if IsNullOrEmpty(p.productDescription) then Some("ProductDescription is required.")
    else if Length(p.productDescription) <= 150 then Some("ProductDescription must be at least 150 characters long.")
    else None
  }

  /** CreateUpdateProducts refuses with the message of the first test, in
      the order above, that the request fails. */
  lemma ProductGuardOrder(p: ProductForm)
    ensures ProductGuard(p) == FirstFailed(ProductChecks(p))
  {
    FirstFailedAppend(FieldChecks(p), ImageDescriptionChecks(p));
    FieldChecksOrder(p);
    ImageDescriptionChecksOrder(p);
  }

  lemma FieldChecksOrder(p: ProductForm)
    ensures FirstFailed(FieldChecks(p)) ==
              if p.categoryId == 0 then Some("CategoryId is required.")
              else if IsNullOrEmpty(p.adminId) then Some("Admin details is required.")
              else if IsNullOrEmpty(p.productName) then Some("ProductName is required.")
              else if Length(p.productName) > 255 then Some("ProductName must be at most 255 characters long.")
              else if p.price == 0.0 then Some("Price can not be null")
              else if p.price < 0.0 || p.price > MaxPrice then Some("Price must be between 1 and 999999.99.")
              else if p.stockQuantity == 0.0 then Some("StockQuantity is required.")
              else if p.stockQuantity < 1.0 || p.stockQuantity > 10000.0 then Some("StockQuantity must be between 1 and 10000")
              else None
  {
    var c := FieldChecks(p);
    if p.categoryId == 0 { FirstFailedAt(c, 0); }
    else if IsNullOrEmpty(p.adminId) { FirstFailedAt(c, 1); }
    else if IsNullOrEmpty(p.productName) { FirstFailedAt(c, 2); }
    else if Length(p.productName) > 255 { FirstFailedAt(c, 3); }
    else if p.price == 0.0 { FirstFailedAt(c, 4); }
    else if p.price < 0.0 || p.price > MaxPrice { FirstFailedAt(c, 5); }
    else if p.stockQuantity == 0.0 { FirstFailedAt(c, 6); }
    else if p.stockQuantity < 1.0 || p.stockQuantity > 10000.0 { FirstFailedAt(c, 7); }
  }

  lemma ImageDescriptionChecksOrder(p: ProductForm)
    ensures FirstFailed(ImageDescriptionChecks(p)) ==
              if ImageFailure(p.imageData).Some? then ImageFailure(p.imageData)
              else if IsNullOrEmpty(p.productDescription) then Some("ProductDescription is required.")
              else if Length(p.productDescription) <= 150 then Some("ProductDescription must be at least 150 characters long.")
              else None
  {
    var c := ImageDescriptionChecks(p);
    if ImageFailure(p.imageData).Some? { FirstFailedAt(c, 0); }
    else if IsNullOrEmpty(p.productDescription) { FirstFailedAt(c, 1); }
    else if Length(p.productDescription) <= 150 { FirstFailedAt(c, 2); }
  }

  /** CreateUpdateProducts(addProductsDetails), with the count the
      insert-or-update returned. ProductId "0" asks for an insert. */
  function CreateUpdateProducts(p: ProductForm, saved: Outcome<Int32>): (r: Reply<string>)
    ensures !ProductAccepted(p) ==> r.status == 400 && r.body.Api? && r.body.data == None
    // a refused request is told about the first test it fails, in the order of ProductChecks
    ensures FirstFailed(ProductChecks(p)).Some? <==> !ProductAccepted(p)
    ensures FirstFailed(ProductChecks(p)).Some? ==> r == BadRequest(FirstFailed(ProductChecks(p)).value)
    ensures p.categoryId == 0 ==> r == BadRequest("CategoryId is required.")
    ensures ProductAccepted(p) && saved.Ok? && saved.value != 0 ==>
              r == if p.productId == Some("0") then Plain(201, "Products added successfully.")
                   else Plain(200, "Product updated successfully.")
    ensures ProductAccepted(p) && saved.Ok? && saved.value == 0 ==> r == ServerFault()
    ensures ProductAccepted(p) && saved.Threw? ==> r == ProductFailure(saved.failure)
  {
    ProductGuardOrder(p);
    if ProductGuard(p).Some? then BadRequest(ProductGuard(p).value)
    else match saved
      case Ok(count) =>
        if count != 0 then
          if p.productId == Some("0") then Plain(201, "Products added successfully.")
          else Plain(200, "Product updated successfully.")
        else ServerFault()
      case Threw(f) => ProductFailure(f)
  }

  /** A description of exactly 150 characters is refused although the
      message asks for at least 150; 151 are needed. */
  lemma DescriptionNeeds151(p: ProductForm, description: string)
    requires ProductAccepted(p)
    ensures |description| == 150 ==> !ProductAccepted(p.(productDescription := Some(description)))
    ensures |description| == 151 ==> ProductAccepted(p.(productDescription := Some(description)))
  {
  }

  /** The content type is compared ignoring case. */
  lemma ContentTypeIgnoresCase()
    ensures AllowedContentType("IMAGE/PNG")
    ensures !AllowedContentType("image/gif")
  {
    var upper, lower := "IMAGE/PNG", "image/png";
    forall i | 0 <= i < |upper| ensures FoldCase(upper[i]) == FoldCase(lower[i]) {
    }
    var gif := "image/gif";
    assert FoldCase(gif[6]) != FoldCase("image/jpg"[6]);
    assert FoldCase(gif[6]) != FoldCase("image/png"[6]);
  }

  /** An upload that declares no content type skips the comparison. */
  lemma MissingContentTypeSkipsCheck(p: ProductForm)
    requires ProductAccepted(p)
    ensures ProductAccepted(p.(imageData := Some(p.imageData.value.(contentType := None))))
  {
  }

  /** An otherwise acceptable product saved under ProductId "0" is created
      (201); under any other id, null included, it is updated (200). */
  lemma InsertOrUpdate(p: ProductForm)
    requires ProductAccepted(p)
    ensures CreateUpdateProducts(p.(productId := Some("0")), Ok(1)).status == 201
    ensures CreateUpdateProducts(p.(productId := None), Ok(1)).status == 200
    ensures CreateUpdateProducts(p.(productId := Some("12")), Ok(1)).status == 200
  {
  }

  /** A clash of product names (error 50000) is a 409. */
  lemma DuplicateProductNameConflict()
    ensures ProductFailure(SqlFailure(50000, "Product name already exists.")).status == 409
  {
    var m := "Product name already exists.";
    CharNotContained(m, "Category does not exist.", 0);
    LongerNotContained(m, "ProductName cannot be NULL or empty.");
    ContainsItself(m);
  }

  // ---------------------------------------------------------------------------
  // DeleteProductById.

  function ProductDeleteFailure(f: Failure): (r: Reply<string>)
    ensures r.status in {400, 404, 500} && r.body.Api? && r.body.data == None
    ensures !IsRaised(f) ==> r == ServerFault()
    // a raised missing-field message is a 400; the unknown-id message alone is a 404
    ensures r.status == 400 <==> IsRaised(f) && Contains(f.message, "ProductId parameter is required.")
    ensures r.status == 404 <==>
              IsRaised(f)
              && !Contains(f.message, "ProductId parameter is required.")
              && Contains(f.message, "Invalid ProductId. Product with such ProductId does not exist.")
  {
    if !IsRaised(f) then ServerFault()
    else if Contains(f.message, "ProductId parameter is required.") then
      BadRequest("Invalid product data please check and try again.")
    else if Contains(f.message, "Invalid ProductId. Product with such ProductId does not exist.") then
      Plain(404, "Product not exists")
    else ServerFault()
  }

  /** DeleteProductById(productId): exactly one deleted row is a 204. */
  function DeleteProductById(productId: Int32, deleted: Outcome<Int32>): (r: Reply<string>)
    ensures productId == 0 ==> r == BadRequest("Invalid product..please check and try again.")
    ensures productId != 0 && deleted.Ok? ==> (r == NoContent() <==> deleted.value == 1)
    ensures productId != 0 && deleted.Ok? && deleted.value != 1 ==> r == ServerFault()
    ensures productId != 0 && deleted.Threw? ==> r == ProductDeleteFailure(deleted.failure)
  {
    if productId == 0 then BadRequest("Invalid product..please check and try again.")
    else match deleted
      case Ok(count) => if count == 1 then NoContent() else ServerFault()
      case Threw(f) => ProductDeleteFailure(f)
  }
}

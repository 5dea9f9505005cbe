/**
 * CategoryController: the category lists, and the admin's create and delete
 * of a category.
 */
module CategoryController {
  import opened Common
  import opened Http

  const UnknownCategory: string := "Invalid categoryId. " + "Category with such categoryId does not exist."

  /** The products-still-present message, written in pieces so that facts
      about its characters can be checked piece by piece. */
  const CategoryInUse: string :=
    "You can not delete " + "this Category kindly " + "delete products under " + "this category."

  /** GetAllCateGories(), with the list the repository returned (None for
      null); every exception is a 500. */
  function GetAllCategories<L>(fetched: Outcome<Option<L>>): (r: Reply<L>)
    ensures fetched.Ok? ==> r.status == 200 && r.body.Api? && r.body.data == fetched.value
    ensures fetched.Ok? && fetched.value.None? ==> r.body == Api(200, Some("No category found.."), None)
    ensures fetched.Threw? ==> r == ServerFault()
  {
    match fetched
      case Ok(categories) =>
        if categories.Some? then WithData(200, "Category details..", categories)
        else WithData(200, "No category found..", None)
      case Threw(_) => ServerFault()
  }

  /** GetCategoryWithProductsCounts(): the same message whether or not a
      list came back. */
  function GetCategoryWithProductsCounts<L>(fetched: Outcome<Option<L>>): (r: Reply<L>)
    ensures fetched.Ok? ==> r == WithData(200, "Category with product count details..", fetched.value)
    ensures fetched.Threw? ==> r == ServerFault()
  {
    match fetched
      case Ok(counts) =>
        if counts.Some? then WithData(200, "Category with product count details..", counts)
        else WithData(200, "Category with product count details..", None)
      case Threw(_) => ServerFault()
  }

  // ---------------------------------------------------------------------------
  // CreateCategory.

  /** AddCategoryDetails: the two fields the action reads. */
  datatype CategoryRequest = CategoryRequest(categoryName: Option<string>, adminId: Int32)

  /** A name of 1 to 100 characters and an admin. */
  predicate CategoryAccepted(c: CategoryRequest)
  {
    1 <= Length(c.categoryName) <= 100 && c.adminId != 0
  }

  function CategoryFailure(f: Failure): (r: Reply<string>)
    ensures r.status in {400, 409, 500} && r.body.Api? && r.body.data == None
    ensures !IsRaised(f) ==> r == ServerFault()
  {
    if !IsRaised(f) then ServerFault()
    else if Contains(f.message, "category cannot be NULL or empty.") then BadRequest("Category cannot be NULL")
    else if Contains(f.message, "Category already exists.") then Plain(409, "Category already exists")
    else if Contains(f.message, "Admin details required.") then BadRequest("Admin details required.")
    else ServerFault()
  }

  /** CreateCategory's tests in the order the action makes them. */
  function CategoryChecks(c: CategoryRequest): seq<Check>
  {
    [Check(!IsNullOrEmpty(c.categoryName), "CategoryName is required."),
     Check(Length(c.categoryName) <= 100, "CategoryName must be at most 100 characters long."),
     Check(c.adminId != 0, "AdminId is required.")]
  }

  function CategoryGuard(c: CategoryRequest): (m: Option<string>)
    ensures m.None? <==> CategoryAccepted(c)
  {
    if IsNullOrEmpty(c.categoryName) then Some("CategoryName is required.")
    else if Length(c.categoryName) > 100 then Some("CategoryName must be at most 100 characters long.")
    else if c.adminId == 0 then Some("AdminId is required.")
    else None
  }

  /** CreateCategory refuses with the message of the first test, in the
      order above, that the request fails. */
  lemma CategoryGuardOrder(c: CategoryRequest)
    ensures CategoryGuard(c) == FirstFailed(CategoryChecks(c))
  {
    var k := CategoryChecks(c);
    if IsNullOrEmpty(c.categoryName) { FirstFailedAt(k, 0); }
    else if Length(c.categoryName) > 100 { FirstFailedAt(k, 1); }
    else if c.adminId == 0 { FirstFailedAt(k, 2); }
  }

  /** CreateCategory(addcategoryDetails), with the id the insert returned. */
  function CreateCategory(c: CategoryRequest, inserted: Outcome<Int32>): (r: Reply<string>)
    ensures !CategoryAccepted(c) ==> r.status == 400 && r.body.Api? && r.body.data == None
    // a refused request is told about the first test it fails, in the order of CategoryChecks
    ensures FirstFailed(CategoryChecks(c)).Some? <==> !CategoryAccepted(c)
    ensures FirstFailed(CategoryChecks(c)).Some? ==> r == BadRequest(FirstFailed(CategoryChecks(c)).value)
    ensures IsNullOrEmpty(c.categoryName) ==> r == BadRequest("CategoryName is required.")
    ensures CategoryAccepted(c) && inserted.Ok? ==>
              r == if inserted.value != 0 then Plain(201, "Category added successfully.") else ServerFault()
    ensures CategoryAccepted(c) && inserted.Threw? ==> r == CategoryFailure(inserted.failure)
  {
    CategoryGuardOrder(c);
    if CategoryGuard(c).Some? then BadRequest(CategoryGuard(c).value)
    else match inserted
      case Ok(id) => if id != 0 then Plain(201, "Category added successfully.") else ServerFault()
      case Threw(f) => CategoryFailure(f)
  }

  /** A name that is already taken (error 50000) is a 409; the same text
      under another error number is a 500. */
  lemma DuplicateCategoryConflict(number: int)
    ensures CategoryFailure(SqlFailure(50000, "Category already exists.")) == Plain(409, "Category already exists")
    ensures number != 50000 ==> CategoryFailure(SqlFailure(number, "Category already exists.")) == ServerFault()
  {
    var m := "Category already exists.";
    LongerNotContained(m, "category cannot be NULL or empty.");
    ContainsItself(m);
  }

  // ---------------------------------------------------------------------------
  // DeleteCategoryById.

  function CategoryDeleteFailure(f: Failure): (r: Reply<string>)
    ensures r.status in {400, 404, 409, 500} && r.body.Api? && r.body.data == None
    ensures !IsRaised(f) ==> r == ServerFault()
    // the raised texts are tried in order: missing id, unknown id, category in use
    ensures r.status == 400 <==> IsRaised(f) && Contains(f.message, "Category Id parameter is required.")
    ensures r.status == 404 <==>
              IsRaised(f)
              && !Contains(f.message, "Category Id parameter is required.")
              && Contains(f.message, UnknownCategory)
    ensures r.status == 409 <==>
              IsRaised(f)
              && !Contains(f.message, "Category Id parameter is required.")
              && !Contains(f.message, UnknownCategory)
              && Contains(f.message, CategoryInUse)
    ensures r.status == 409 ==> r == Plain(409, CategoryInUse)
    // any other failure, a raised one with none of the three texts included, is a 500
    ensures r.status == 500 <==>
              !IsRaised(f)
              || (!Contains(f.message, "Category Id parameter is required.")
                  && !Contains(f.message, UnknownCategory)
                  && !Contains(f.message, CategoryInUse))
  {
    if !IsRaised(f) then ServerFault()
    else if Contains(f.message, "Category Id parameter is required.") then
      BadRequest("Invalid category data... Please check and try again.")
    else if Contains(f.message, UnknownCategory) then
      Plain(404, "Category not exists")
    else if Contains(f.message, CategoryInUse) then Plain(409, CategoryInUse)
    else ServerFault()
  }

  /** DeleteCategoryById(categoryId): exactly one deleted row is a 204. */
  function DeleteCategoryById(categoryId: Int32, deleted: Outcome<Int32>): (r: Reply<string>)
    ensures categoryId == 0 ==> r == BadRequest("Invalid category..please check and try again.")
    ensures categoryId != 0 && deleted.Ok? ==> (r == NoContent() <==> deleted.value == 1)
    ensures categoryId != 0 && deleted.Ok? && deleted.value != 1 ==> r == ServerFault()
    ensures categoryId != 0 && deleted.Threw? ==> r == CategoryDeleteFailure(deleted.failure)
  {
    if categoryId == 0 then BadRequest("Invalid category..please check and try again.")
    else match deleted
      case Ok(count) => if count == 1 then NoContent() else ServerFault()
      case Threw(f) => CategoryDeleteFailure(f)
  }

  /** A category that still has products (error 50000) is a 409. */
  lemma CategoryInUseConflict()
    ensures CategoryDeleteFailure(SqlFailure(50000, CategoryInUse)) == Plain(409, CategoryInUse)
  {
    CategoryInUseLacksCapitalI();
    CharNotContained(CategoryInUse, "Category Id parameter is required.", 9);
    assert UnknownCategory[0] == 'I';
    CharNotContained(CategoryInUse, UnknownCategory, 0);
    ContainsItself(CategoryInUse);
  }

  lemma CategoryInUseLacksCapitalI()
    ensures 'I' !in CategoryInUse
  {
    assert 'I' !in "You can not delete ";
    assert 'I' !in "this Category kindly ";
    assert 'I' !in "delete products under ";
    assert 'I' !in "this category.";
  }
}

/**
 * AddressController: a user's delivery addresses, listed, created, deleted
 * and selected. The numeric fields are checked through the length of their
 * decimal text, so a sign counts as a digit.
 */
module AddressController {
  import opened Common
  import opened Http

  // ---------------------------------------------------------------------------
  // GetAllAddressDetailsByUserId.

  function AddressReadFailure(f: Failure): (r: Reply<string>)
    ensures r.status in {400, 404, 500} && r.body.Api? && r.body.data == None
    ensures !IsRaised(f) ==> r == ServerFault()
    // an unknown user is a 404 unless the message also reports a missing id
    ensures r.status == 404 <==>
              IsRaised(f) && !Contains(f.message, "User Id required.")
              && Contains(f.message, "Invalid User Id. User with such User Id does not exist.")
  {
    if !IsRaised(f) then ServerFault()
    else if Contains(f.message, "User Id required.") then BadRequest("User Id required.")
    else if Contains(f.message, "Invalid User Id. User with such User Id does not exist.") then
      Plain(404, "Invalid user..Please check & try again")
    else ServerFault()
  }

  /** GetAllAddressDetailsByUserId(userId), with the list the repository
      returned (None for null). */
  function GetAllAddressDetailsByUserId<L>(userId: Int32, fetched: Outcome<Option<L>>): (r: Reply<L>)
    ensures userId == 0 ==> r == BadRequest("Invalid user..please check and try again.")
    ensures userId != 0 && fetched.Ok? ==>
              && r.status == 200 && r.body.Api? && r.body.data == fetched.value
              && (fetched.value.None? <==> r.body.message == Some("No address available"))
    ensures userId != 0 && fetched.Threw? ==> r == Retyped(AddressReadFailure(fetched.failure))
  {
    if userId == 0 then BadRequest("Invalid user..please check and try again.")
    else match fetched
      case Ok(addresses) =>
        if addresses.Some? then WithData(200, "Address details..", addresses)
        else WithData(200, "No address available", None)
      case Threw(f) => Retyped(AddressReadFailure(f))
  }

  // ---------------------------------------------------------------------------
  // CreateNewAddress.

  /** AddAddressDetails. */
  datatype AddressRequest = AddressRequest(
    firstName: Option<string>,
    lastName: Option<string>,
    streetAddress: Option<string>,
    postalCode: Int64,
    city: Option<string>,
    state: Option<string>,
    country: Option<string>,
    phoneNumber: Int64,
    email: Option<string>,
    userId: Int32)

  /** What CreateNewAddress lets through: every text field present, a valid
      email, a postal code written with at least 6 characters and a phone
      number with at least 10, and a user. */
  predicate AddressAccepted(a: AddressRequest)
  {
    && !IsNullOrEmpty(a.firstName)
    && !IsNullOrEmpty(a.lastName)
    && !IsNullOrEmpty(a.streetAddress)
    && !IsNullOrEmpty(a.email) && IsValidEmail(a.email.value)
    && a.postalCode != 0 && |IntToString(a.postalCode)| >= 6
    && !IsNullOrEmpty(a.city)
    && !IsNullOrEmpty(a.state)
    && a.phoneNumber != 0 && |IntToString(a.phoneNumber)| >= 10
    && a.userId != 0
    && !IsNullOrEmpty(a.country)
  }

  function AddressFailure(f: Failure): (r: Reply<string>)
    ensures r.status in {400, 500} && r.body.Api? && r.body.data == None
    ensures !IsRaised(f) ==> r == ServerFault()
  {
    if !IsRaised(f) then ServerFault()
    else if Contains(f.message, "User name cannot be null.") then BadRequest("User name cannot be null.")
    else if Contains(f.message, "User details required.") then BadRequest("User details required.")
    else if Contains(f.message, "Last name cannot be null.") then BadRequest("Last name cannot be null.")
    else if Contains(f.message, "StreetAddress cannot be null.") then BadRequest("StreetAddress cannot be null.")
    else if Contains(f.message, "Postal code must be at least 6 digits.") then BadRequest("Postal code must be at least 6 digits.")
    else if Contains(f.message, "City cannot be null.") then BadRequest("City cannot be null.")
    else if Contains(f.message, "State cannot be null.") then BadRequest("State cannot be null.")
    else if Contains(f.message, "Phone number must be at least 10 digits.") then BadRequest("Phone number must be at least 10 digits.")
    else if Contains(f.message, "Email cannot be null.") then BadRequest("Email cannot be null.")
    else if Contains(f.message, "Country cannot be null.") then BadRequest("Country cannot be null.")
    else ServerFault()
  }

  /** CreateNewAddress's tests in the order the action makes them: the
      name, street and e-mail tests, then postal code, city, state, phone,
      user and country. */
  function AddressChecks(a: AddressRequest): seq<Check>
  {
    ContactChecks(a) + PlaceChecks(a)
  }

  function ContactChecks(a: AddressRequest): seq<Check>
  {
    [Check(!IsNullOrEmpty(a.firstName), "FirstName is required."),
     Check(!IsNullOrEmpty(a.lastName), "LastName is required."),
     Check(!IsNullOrEmpty(a.streetAddress), "StreetAddress is required."),
     Check(!IsNullOrEmpty(a.email), "Email is required."),
     Check(IsValidEmail(OrEmpty(a.email)), "Invalid email format..kindly try with proper email")]
  }

  function PlaceChecks(a: AddressRequest): seq<Check>
  {
    PostalChecks(a) + PhoneChecks(a)
  }

  function PostalChecks(a: AddressRequest): seq<Check>
  {
    [Check(a.postalCode != 0, "PostalCode can not be null"),
     Check(|IntToString(a.postalCode)| >= 6, "PostalCode must be atleast 6 digits"),
     Check(!IsNullOrEmpty(a.city), "City is required."),
     Check(!IsNullOrEmpty(a.state), "State is required.")]
  }

  function PhoneChecks(a: AddressRequest): seq<Check>
  {
    [Check(a.phoneNumber != 0, "PhoneNumber is required."),
     Check(|IntToString(a.phoneNumber)| >= 10, "PhoneNumber is atleast 10 characters long."),
     Check(a.userId != 0, "User details is required."),
     Check(!IsNullOrEmpty(a.country), "Country is required.")]
  }

  function AddressGuard(a: AddressRequest): (m: Option<string>)
    ensures m.None? <==> AddressAccepted(a)
  {
    if IsNullOrEmpty(a.firstName) then Some("FirstName is required.")
    else if IsNullOrEmpty(a.lastName) then Some("LastName is required.")
    else if IsNullOrEmpty(a.streetAddress) then Some("StreetAddress is required.")
    else if IsNullOrEmpty(a.email) then Some("Email is required.")
    else if !IsValidEmail(a.email.value) then Some("Invalid email format..kindly try with proper email")
    else if a.postalCode == 0 then Some("PostalCode can not be null")
    else if |IntToString(a.postalCode)| < 6 then Some("PostalCode must be atleast 6 digits")
    else if IsNullOrEmpty(a.city) then Some("City is required.")
    else if IsNullOrEmpty(a.state) then Some("State is required.")
    else if a.phoneNumber == 0 then Some("PhoneNumber is required.")
    else if |IntToString(a.phoneNumber)| < 10 then Some("PhoneNumber is atleast 10 characters long.")
    else if a.userId == 0 then Some("User details is required.")
    else if IsNullOrEmpty(a.country) then Some("Country is required.")
    else None
  }

  /** CreateNewAddress refuses with the message of the first test, in the
      order above, that the request fails. */
  lemma AddressGuardOrder(a: AddressRequest)
    ensures AddressGuard(a) == FirstFailed(AddressChecks(a))
  {
    FirstFailedAppend(ContactChecks(a), PlaceChecks(a));
    FirstFailedAppend(PostalChecks(a), PhoneChecks(a));
    ContactChecksOrder(a);
    PostalChecksOrder(a);
    PhoneChecksOrder(a);
  }

  lemma ContactChecksOrder(a: AddressRequest)
    ensures FirstFailed(ContactChecks(a)) ==
              if IsNullOrEmpty(a.firstName) then Some("FirstName is required.")
              else if IsNullOrEmpty(a.lastName) then Some("LastName is required.")
              else if IsNullOrEmpty(a.streetAddress) then Some("StreetAddress is required.")
              else if IsNullOrEmpty(a.email) then Some("Email is required.")
              else if !IsValidEmail(a.email.value) then Some("Invalid email format..kindly try with proper email")
              else None
  {
    var c := ContactChecks(a);
    if IsNullOrEmpty(a.firstName) { FirstFailedAt(c, 0); }
    else if IsNullOrEmpty(a.lastName) { FirstFailedAt(c, 1); }
    else if IsNullOrEmpty(a.streetAddress) { FirstFailedAt(c, 2); }
    else if IsNullOrEmpty(a.email) { FirstFailedAt(c, 3); }
    else if !IsValidEmail(a.email.value) { FirstFailedAt(c, 4); }
  }

  lemma PostalChecksOrder(a: AddressRequest)
    ensures FirstFailed(PostalChecks(a)) ==
              if a.postalCode == 0 then Some("PostalCode can not be null")
              else if |IntToString(a.postalCode)| < 6 then Some("PostalCode must be atleast 6 digits")
              else if IsNullOrEmpty(a.city) then Some("City is required.")
              else if IsNullOrEmpty(a.state) then Some("State is required.")
              else None
  {
    var c := PostalChecks(a);
    if a.postalCode == 0 { FirstFailedAt(c, 0); }
    else if |IntToString(a.postalCode)| < 6 { FirstFailedAt(c, 1); }
    else if IsNullOrEmpty(a.city) { FirstFailedAt(c, 2); }
    else if IsNullOrEmpty(a.state) { FirstFailedAt(c, 3); }
  }

  lemma PhoneChecksOrder(a: AddressRequest)
    ensures FirstFailed(PhoneChecks(a)) ==
              if a.phoneNumber == 0 then Some("PhoneNumber is required.")
              else if |IntToString(a.phoneNumber)| < 10 then Some("PhoneNumber is atleast 10 characters long.")
              else if a.userId == 0 then Some("User details is required.")
              else if IsNullOrEmpty(a.country) then Some("Country is required.")
              else None
  {
    var c := PhoneChecks(a);
    if a.phoneNumber == 0 { FirstFailedAt(c, 0); }
    else if |IntToString(a.phoneNumber)| < 10 { FirstFailedAt(c, 1); }
    else if a.userId == 0 { FirstFailedAt(c, 2); }
    else if IsNullOrEmpty(a.country) { FirstFailedAt(c, 3); }
  }

  /** CreateNewAddress(addaddressDetails), with the id the insert returned. */
  function CreateNewAddress(a: AddressRequest, inserted: Outcome<Int32>): (r: Reply<string>)
    ensures !AddressAccepted(a) ==> r.status == 400 && r.body.Api? && r.body.data == None
    // a refused request is told about the first test it fails, in the order of AddressChecks
    ensures FirstFailed(AddressChecks(a)).Some? <==> !AddressAccepted(a)
    ensures FirstFailed(AddressChecks(a)).Some? ==> r == BadRequest(FirstFailed(AddressChecks(a)).value)
    ensures IsNullOrEmpty(a.firstName) ==> r == BadRequest("FirstName is required.")
    ensures AddressAccepted(a) && inserted.Ok? ==>
              r == if inserted.value != 0 then Plain(201, "Address added successfully.") else ServerFault()
    ensures AddressAccepted(a) && inserted.Threw? ==> r == AddressFailure(inserted.failure)
  {
    AddressGuardOrder(a);
    if AddressGuard(a).Some? then BadRequest(AddressGuard(a).value)
    else match inserted
      case Ok(id) => if id != 0 then Plain(201, "Address added successfully.") else ServerFault()
      case Threw(f) => AddressFailure(f)
  }

  /** The postal code check in numbers: at least 100000, or at most -10000
      (whose minus sign makes up the sixth character). */
  lemma PostalCodeLength(p: Int64)
    ensures |IntToString(p)| >= 6 <==> p >= 100000 || p <= -10000
  {
    IntToStringShorter(p, 6);
    assert Pow10(4) == 10000;
    assert Pow10(5) == 100000;
  }

  /** The phone number check in numbers: at least 10^9, or at most -10^8. */
  lemma PhoneNumberLength(n: Int64)
    ensures |IntToString(n)| >= 10 <==> n >= 1_000_000_000 || n <= -100_000_000
  {
    IntToStringShorter(n, 10);
    assert Pow10(8) == 100_000_000;
    assert Pow10(9) == 1_000_000_000;
  }

  /** Among otherwise acceptable addresses, the five-digit postal code 99999
      is refused while -10000 goes through. */
  lemma NegativePostalCodeAccepted(a: AddressRequest)
    requires AddressAccepted(a)
    ensures !AddressAccepted(a.(postalCode := 99999))
    ensures AddressAccepted(a.(postalCode := -10000))
  {
    PostalCodeLength(99999);
    PostalCodeLength(-10000);
  }

  // ---------------------------------------------------------------------------
  // DeleteAddressById.

  function AddressDeleteFailure(f: Failure): (r: Reply<string>)
    ensures r.status in {400, 404, 500} && r.body.Api? && r.body.data == None
    ensures !IsRaised(f) ==> r == ServerFault()
    // a raised missing-field message is a 400; the unknown-id message alone is a 404
    ensures r.status == 400 <==> IsRaised(f) && Contains(f.message, "Address Id parameter is required.")
    ensures r.status == 404 <==>
              IsRaised(f)
              && !Contains(f.message, "Address Id parameter is required.")
              && Contains(f.message, "Invalid Address Id. Address with such address Id does not exist.")
  {
    if !IsRaised(f) then ServerFault()
    else if Contains(f.message, "Address Id parameter is required.") then
      BadRequest("Invalid address data please check and try again.")
    else if Contains(f.message, "Invalid Address Id. Address with such address Id does not exist.") then
      Plain(404, "Address not exists")
    else ServerFault()
  }

  /** DeleteAddressById(addressId): exactly one deleted row is a 204. */
  function DeleteAddressById(addressId: Int32, deleted: Outcome<Int32>): (r: Reply<string>)
    ensures addressId == 0 ==> r == BadRequest("Invalid address..please check and try again.")
    ensures addressId != 0 && deleted.Ok? ==> (r == NoContent() <==> deleted.value == 1)
    ensures addressId != 0 && deleted.Ok? && deleted.value != 1 ==> r == ServerFault()
    ensures addressId != 0 && deleted.Threw? ==> r == AddressDeleteFailure(deleted.failure)
  {
    if addressId == 0 then BadRequest("Invalid address..please check and try again.")
    else match deleted
      case Ok(count) => if count == 1 then NoContent() else ServerFault()
      case Threw(f) => AddressDeleteFailure(f)
  }

  // ---------------------------------------------------------------------------
  // UpdateAddressSelectionById.

  function SelectionFailure(f: Failure): (r: Reply<string>)
    ensures r.status in {400, 404, 500} && r.body.Api? && r.body.data == None
    ensures !IsRaised(f) ==> r == ServerFault()
    // a raised missing-field message is a 400; the unknown-id message alone is a 404
    ensures r.status == 400 <==>
              IsRaised(f)
              && (Contains(f.message, "Address details cannot be NULL or empty.")
                  || Contains(f.message, "Selection details cannot be NULL or empty."))
    ensures r.status == 404 <==>
              IsRaised(f)
              && !Contains(f.message, "Address details cannot be NULL or empty.")
              && !Contains(f.message, "Selection details cannot be NULL or empty.")
              && Contains(f.message, "Invalid Address Id. Address with such address Id does not exist.")
  {
    if !IsRaised(f) then ServerFault()
    else if Contains(f.message, "Address details cannot be NULL or empty.") then BadRequest("Address details required")
    else if Contains(f.message, "Selection details cannot be NULL or empty.") then BadRequest("Kindly select the address")
    else if Contains(f.message, "Invalid Address Id. Address with such address Id does not exist.") then
      Plain(404, "Address not exists")
    else ServerFault()
  }

  /** UpdateAddressSelectionById(addressId, isSelected), with the count the
      update returned. */
  function UpdateAddressSelectionById(addressId: Int32, isSelected: Option<string>, updated: Outcome<Int32>): (r: Reply<string>)
    ensures addressId == 0 ==> r == BadRequest("Address is required.")
    ensures addressId != 0 && IsNullOrEmpty(isSelected) ==> r == BadRequest("No address selected.")
    ensures addressId != 0 && !IsNullOrEmpty(isSelected) && updated.Ok? ==>
              r == if updated.value != 0 then Plain(200, "Address changed successfully.") else ServerFault()
    ensures addressId != 0 && !IsNullOrEmpty(isSelected) && updated.Threw? ==> r == SelectionFailure(updated.failure)
  {
    if addressId == 0 then BadRequest("Address is required.")
    else if IsNullOrEmpty(isSelected) then BadRequest("No address selected.")
    else match updated
      case Ok(count) => if count != 0 then Plain(200, "Address changed successfully.") else ServerFault()
      case Threw(f) => SelectionFailure(f)
  }
}

/**
 * UserRepository: the password-reset and one-time-password flows over the
 * user table, the stored reset codes and OTPs (one per user id) and the
 * mail the flows send. The random draws, the BCrypt hash, the HTML encoder,
 * the mail service's failure and the id an insert procedure reports are
 * inputs.
 */
module UserRepository {
  import opened Common
  import opened Models
  import opened UrlEncoding

  // ---------------------------------------------------------------------------
  // Result texts.

  const EmailNotFound: string := "We are not able to find your email in the system, Please try again."
  const ResetMailSent: string := "Password reset email sent successfully..Check your email"
  const ResetInsertProblem: string := "Problem while forgot password..please try again."
  const ServiceUnavailable: string := "Service is temporarily unavailable..try after sometime"
  const OtpSent: string := "OTP sent successfully..Check your email"
  const OtpInsertProblem: string := "Problem while OTP sending..please try again."
  const OtpDrawProblem: string := "Problem while send OTP..please try again."
  const OtpNotFound: string := "OTP not found.."
  const OtpConfirmed: string := "OTP validation sucessfull."
  const OtpMismatch: string := "Invalid OTP try again."
  const InvalidUser: string := "Invalid user details"
  const PasswordUpdated: string := "Your password has been updated successfully."
  const PasswordUpdateProblem: string :=
    "There is some problem. We are not able to reset your password, Please contact to administrator."
  const LinkExpired: string :=
    "Your password reset link has been expired, Please generate a different link and try again."

  /** OperationResult<string>; a fresh one has Success false and a null Message. */
  datatype OperationResult = OperationResult(success: bool, message: Option<string>)

  /** ForgotPasswordDetails: the stored reset code (URL-encoded) of a user. */
  datatype ResetCodeRecord = ResetCodeRecord(userName: string, code: string, userId: Int32, email: string)

  /** InsertOTPDetails / OTPDetails. */
  datatype OtpRecord = OtpRecord(userName: string, otp: int, userId: Int32, email: string)

  /** A message handed to the mail service. */
  datatype Mail = ResetLinkMail(to: string, name: string, link: string)
                | OtpMail(to: string, name: string, otp: int)

  // ---------------------------------------------------------------------------
  // The reset code.

  const ResetCodeLength: nat := 10

  /** The 72 characters the code draws from, in the order of the source's
      literal: upper-case letters, lower-case letters, ten symbols, digits. */
  const UpperLetters: string := "ABCDEFGHIJKLMNOPQRSTUVWXYZ"
  const LowerLetters: string := "abcdefghijklmnopqrstuvwxyz"
  const CodeSymbols: string := "!@#$%^&*+_"
  const CodeDigits: string := "0123456789"
  const ResetCodeAlphabet: string := UpperLetters + LowerLetters + CodeSymbols + CodeDigits

  /** Random.Next(72) draws, one per character. */
  predicate ValidDraws(draws: seq<int>)
  {
    |draws| == ResetCodeLength && forall i | 0 <= i < |draws| :: 0 <= draws[i] < |ResetCodeAlphabet|
  }

  /** The code a sequence of draws selects. */
  function ResetCode(draws: seq<int>): string
    requires forall i | 0 <= i < |draws| :: 0 <= draws[i] < |ResetCodeAlphabet|
  {
    seq(|draws|, i requires 0 <= i < |draws| => ResetCodeAlphabet[draws[i]])
  }

  lemma AsciiConcat(a: string, b: string)
    requires IsAscii(a) && IsAscii(b)
    ensures IsAscii(a + b)
  {
    forall i | 0 <= i < |a + b| ensures (a + b)[i] as int < 0x80 {
      if i >= |a| {
        assert (a + b)[i] == b[i - |a|];
      }
    }
  }

  lemma UpperLettersAscii() ensures IsAscii(UpperLetters) {}
  lemma LowerLettersAscii() ensures IsAscii(LowerLetters) {}
  lemma CodeSymbolsAscii() ensures IsAscii(CodeSymbols) {}
  lemma CodeDigitsAscii() ensures IsAscii(CodeDigits) {}

  lemma AlphabetIsAscii()
    ensures |ResetCodeAlphabet| == 72
    ensures IsAscii(ResetCodeAlphabet)
  {
    UpperLettersAscii();
    LowerLettersAscii();
    CodeSymbolsAscii();
    CodeDigitsAscii();
    AsciiConcat(UpperLetters, LowerLetters);
    AsciiConcat(UpperLetters + LowerLetters, CodeSymbols);
    AsciiConcat(UpperLetters + LowerLetters + CodeSymbols, CodeDigits);
  }

  /** GeneratePasswordResetToken: ten characters drawn from the alphabet. */
  method GeneratePasswordResetToken(draws: seq<int>) returns (token: string)
    requires ValidDraws(draws)
    ensures token == ResetCode(draws)
    ensures |token| == ResetCodeLength
    ensures forall i | 0 <= i < |token| :: token[i] in ResetCodeAlphabet
    ensures IsAscii(token)
  {
    AlphabetIsAscii();
    var builder := "";
    for i := 0 to ResetCodeLength
      invariant |builder| == i
      invariant forall k | 0 <= k < i :: builder[k] == ResetCodeAlphabet[draws[k]]
    {
      builder := builder + [ResetCodeAlphabet[draws[i]]];
    }
    token := builder;
  }

  /** The link mailed for a reset: the configured page, the user id and the
      URL-encoded code as query parameters. */
  function CallbackUrl(resetUrl: string, userId: Int32, code: string): string
  {
    resetUrl + "?userId=" + IntToString(userId) + "&code=" + UrlEncode(code)
  }

  /** The two values the link carries come back unchanged: the user id text
      reads back as the id, and the encoded code decodes to the code; the
      encoded code holds no '&', '=', '#' or space, so it is the whole value. */
  lemma ResetLinkRoundTrip(userId: Int32, draws: seq<int>)
    requires ValidDraws(draws)
    ensures ParseInt32(IntToString(userId)) == Some(userId)
    ensures UrlDecode(UrlEncode(ResetCode(draws))) == ResetCode(draws)
    ensures forall i | 0 <= i < |UrlEncode(ResetCode(draws))| ::
              IsEncodedChar(UrlEncode(ResetCode(draws))[i])
  {
    ParseIntToString(userId);
    AlphabetIsAscii();
    assert IsAscii(ResetCode(draws));
    UrlRoundTrip(ResetCode(draws));
    EncodedChars(ResetCode(draws));
  }

  // ---------------------------------------------------------------------------
  // Lookups over the user table (the procedures return the first matching row).

  predicate UniqueIds(users: seq<UserDetails>)
  {
    forall i, j | 0 <= i < j < |users| :: users[i].userId != users[j].userId
  }

  predicate UniqueEmails(users: seq<UserDetails>)
  {
    forall i, j | 0 <= i < j < |users| :: users[i].email != users[j].email
  }

  function FindByEmail(users: seq<UserDetails>, email: string): (r: Option<UserDetails>)
    ensures r.Some? ==> r.value in users && r.value.email == email
    ensures r.None? <==> forall i | 0 <= i < |users| :: users[i].email != email
  {
    if users == [] then None
    else if users[0].email == email then Some(users[0])
    else FindByEmail(users[1..], email)
  }

  function FindById(users: seq<UserDetails>, id: int): (r: Option<UserDetails>)
    ensures r.Some? ==> r.value in users && r.value.userId == id
    ensures r.None? <==> forall i | 0 <= i < |users| :: users[i].userId != id
  {
    if users == [] then None
    else if users[0].userId == id then Some(users[0])
    else FindById(users[1..], id)
  }

  function FindByName(users: seq<UserDetails>, name: string): (r: Option<UserDetails>)
    ensures r.Some? ==> r.value in users && r.value.userName == name
    ensures r.None? <==> forall i | 0 <= i < |users| :: users[i].userName != name
  {
    if users == [] then None
    else if users[0].userName == name then Some(users[0])
    else FindByName(users[1..], name)
  }

  /** With unique ids, looking a user's id up finds that user. */
  lemma {:induction false} FindOwnId(users: seq<UserDetails>, k: nat)
    requires UniqueIds(users) && k < |users|
    ensures FindById(users, users[k].userId) == Some(users[k])
  {
    if k > 0 {
      assert users[0].userId != users[k].userId;
      assert users[1..][k - 1] == users[k];
      FindOwnId(users[1..], k - 1);
    }
  }

  /** With unique e-mails, looking a user's e-mail up finds that user. */
  lemma {:induction false} FindOwnEmail(users: seq<UserDetails>, k: nat)
    requires UniqueEmails(users) && k < |users|
    ensures FindByEmail(users, users[k].email) == Some(users[k])
  {
    if k > 0 {
      assert users[0].email != users[k].email;
      assert users[1..][k - 1] == users[k];
      FindOwnEmail(users[1..], k - 1);
    }
  }

  /** stp_SetResetPasswordByMail: every row with the e-mail gets the new hash. */
  function WithPassword(users: seq<UserDetails>, email: string, hash: string): (r: seq<UserDetails>)
    ensures |r| == |users|
    ensures forall i | 0 <= i < |r| ::
              r[i] == if users[i].email == email then users[i].(passwordHash := hash) else users[i]
  {
    seq(|users|, i requires 0 <= i < |users| =>
      if users[i].email == email then users[i].(passwordHash := hash) else users[i])
  }

  /** Setting a password changes no id and no e-mail, and leaves the account
      findable by its id with the new hash. */
  lemma NewPasswordStored(users: seq<UserDetails>, user: UserDetails, hash: string)
    requires UniqueIds(users) && UniqueEmails(users) && user in users
    ensures var updated := WithPassword(users, user.email, hash);
            && UniqueIds(updated) && UniqueEmails(updated)
            && FindById(updated, user.userId) == Some(user.(passwordHash := hash))
  {
    var updated := WithPassword(users, user.email, hash);
    assert forall i | 0 <= i < |users| :: updated[i].userId == users[i].userId;
    assert forall i | 0 <= i < |users| :: updated[i].email == users[i].email;
    var k :| 0 <= k < |users| && users[k] == user;
    FindOwnId(updated, k);
  }

  /** Rows the update touches. */
  function CountEmail(users: seq<UserDetails>, email: string): (n: nat)
    ensures n == 0 <==> forall i | 0 <= i < |users| :: users[i].email != email
  {
    if users == [] then 0
    else (if users[0].email == email then 1 else 0) + CountEmail(users[1..], email)
  }

  // ---------------------------------------------------------------------------
  // The decisions, over the rows the lookups returned.

  /** A request for a reset code or an OTP names an account: it must exist and
      have the role the request states. */
  predicate Registered(user: Option<UserDetails>, role: string)
  {
    user.Some? && user.value.role == role
  }

  datatype ResetStep = UnknownUser | NoCode | Mismatch | Matched(user: UserDetails)

  /** The compare step of ResetPasswordAsync: the stored code is decoded and
      compared with the one supplied. */
  function ResetCheck(user: Option<UserDetails>, stored: Option<ResetCodeRecord>, supplied: string): (s: ResetStep)
    ensures s == UnknownUser <==> user.None?
    ensures s == NoCode <==> user.Some? && stored.None?
    ensures s.Matched? <==> user.Some? && stored.Some? && UrlDecode(stored.value.code) == supplied
    ensures s.Matched? ==> s.user == user.value
  {
    if user.None? then UnknownUser
    else if stored.None? then NoCode
    else if UrlDecode(stored.value.code) == supplied then Matched(user.value)
    else Mismatch
  }

  /** What ResetPasswordAsync reports, given the rows the update touched. A
      known user without a stored code gets the untouched default result. */
  function ResetResult(step: ResetStep, updated: int): (r: OperationResult)
    ensures r.success <==> step.Matched? && updated != 0
    ensures step == NoCode ==> r == OperationResult(false, None)
    ensures step != NoCode ==> r.message.Some?
  {
    match step
    case UnknownUser => OperationResult(false, Some(InvalidUser))
    case NoCode => OperationResult(false, None)
    case Mismatch => OperationResult(false, Some(LinkExpired))
    case Matched(_) =>
      if updated == 0 then OperationResult(false, Some(PasswordUpdateProblem))
      else OperationResult(true, Some(PasswordUpdated))
  }

  /** ConfirmOTPAsync's decision: the account must exist, have an OTP on
      record, and that OTP must equal the one supplied. */
  function OtpCheck(user: Option<UserDetails>, stored: Option<OtpRecord>, otp: int): (r: OperationResult)
    ensures r.success <==> user.Some? && stored.Some? && stored.value.otp == otp
    ensures r.message == Some(if user.None? then EmailNotFound
                              else if stored.None? then OtpNotFound
                              else if stored.value.otp == otp then OtpConfirmed
                              else OtpMismatch)
  {
    if user.None? then OperationResult(false, Some(EmailNotFound))
    else if stored.None? then OperationResult(false, Some(OtpNotFound))
    else if stored.value.otp == otp then OperationResult(true, Some(OtpConfirmed))
    else OperationResult(false, Some(OtpMismatch))
  }

  /** Every outcome ForgotPaswordEmailAsync can have. */
  predicate ForgotPasswordOutcome(r: Outcome<OperationResult>)
  {
    r.Threw? || r == Ok(OperationResult(false, Some(EmailNotFound))) || r == Ok(OperationResult(true, Some(ResetMailSent)))
  }

  /** Every outcome SendOTPByEmailAsync can have. */
  predicate SendOtpOutcome(r: Outcome<OperationResult>)
  {
    r.Threw? || r == Ok(OperationResult(false, Some(EmailNotFound))) || r == Ok(OperationResult(true, Some(OtpSent)))
  }

  /** What ForgotPaswordEmailAsync answers, from the state it starts in.
      `mailFailure` is the mail service throwing; `insertFailure` is the
      insert procedure throwing once the mail has gone out. */
  function ForgotPasswordAnswer(outage: Option<Failure>, users: seq<UserDetails>, email: string, role: string,
                                mailFailure: Option<Failure>, insertFailure: Option<Failure>): (r: Outcome<OperationResult>)
    ensures ForgotPasswordOutcome(r)
    ensures r.Ok? && r.value.success <==>
              outage.None? && Registered(FindByEmail(users, email), role) && mailFailure.None? && insertFailure.None?
    // the insert is reached only by a registered account whose mail went out
    ensures outage.None? && Registered(FindByEmail(users, email), role) && mailFailure.None? && insertFailure.Some? ==>
              r == Threw(insertFailure.value)
  {
    if outage.Some? then Threw(outage.value)
    else if !Registered(FindByEmail(users, email), role) then Ok(OperationResult(false, Some(EmailNotFound)))
    else if mailFailure.Some? then Threw(mailFailure.value)
    else if insertFailure.Some? then Threw(insertFailure.value)
    else Ok(OperationResult(true, Some(ResetMailSent)))
  }

  /** What SendOTPByEmailAsync answers, from the state it starts in, with the
      same two failures after the lookup. */
  function SendOtpAnswer(outage: Option<Failure>, users: seq<UserDetails>, email: string, role: string,
                         mailFailure: Option<Failure>, insertFailure: Option<Failure>): (r: Outcome<OperationResult>)
    ensures SendOtpOutcome(r)
    ensures r.Ok? && r.value.success <==>
              outage.None? && Registered(FindByEmail(users, email), role) && mailFailure.None? && insertFailure.None?
    ensures outage.None? && Registered(FindByEmail(users, email), role) && mailFailure.None? && insertFailure.Some? ==>
              r == Threw(insertFailure.value)
  {
    if outage.Some? then Threw(outage.value)
    else if !Registered(FindByEmail(users, email), role) then Ok(OperationResult(false, Some(EmailNotFound)))
    else if mailFailure.Some? then Threw(mailFailure.value)
    else if insertFailure.Some? then Threw(insertFailure.value)
    else Ok(OperationResult(true, Some(OtpSent)))
  }

  /** The user id parses, names an account, and that account's stored code
      decodes to the one supplied: the password update is reached. */
  predicate CodeMatches(users: seq<UserDetails>, codes: map<int, ResetCodeRecord>, userIdText: string, code: string)
  {
    && ParseInt32(userIdText).Some?
    && var user := FindById(users, ParseInt32(userIdText).value);
       user.Some? && user.value.userId in codes && UrlDecode(codes[user.value.userId].code) == code
  }

  /** What ResetPasswordAsync answers, from the state it starts in.
      `updateFailure` is the password update throwing once both lookups
      have succeeded. */
  function ResetAnswer(outage: Option<Failure>, users: seq<UserDetails>, codes: map<int, ResetCodeRecord>,
                       userIdText: string, code: string, updateFailure: Option<Failure>): (r: Outcome<OperationResult>)
    ensures ParseInt32(userIdText).None? ==> r == Threw(OtherFailure)
    ensures ParseInt32(userIdText).Some? && outage.Some? ==> r == Threw(outage.value)
    ensures outage.None? && CodeMatches(users, codes, userIdText, code) && updateFailure.Some? ==>
              r == Threw(updateFailure.value)
    ensures r.Ok? <==>
              ParseInt32(userIdText).Some? && outage.None? &&
              !(CodeMatches(users, codes, userIdText, code) && updateFailure.Some?)
    // success exactly when the account has a code that decodes to the one
    // supplied and the update touched a row
    ensures r.Ok? ==>
              var user := FindById(users, ParseInt32(userIdText).value);
              (r.value.success <==>
                 && user.Some? && user.value.userId in codes && UrlDecode(codes[user.value.userId].code) == code
                 && CountEmail(users, user.value.email) != 0)
  {
    if ParseInt32(userIdText).None? then Threw(OtherFailure)
    else if outage.Some? then Threw(outage.value)
    else
      var user := FindById(users, ParseInt32(userIdText).value);
      var step := ResetCheck(user, if user.Some? then CodeOf(codes, user.value.userId) else None, code);
      if step.Matched? && updateFailure.Some? then Threw(updateFailure.value)
      else Ok(ResetResult(step, if step.Matched? then CountEmail(users, step.user.email) else 0))
  }

  /** The account found by id is itself a row with its e-mail. */
  lemma FoundUserHasRow(users: seq<UserDetails>, id: int)
    ensures FindById(users, id).Some? ==> CountEmail(users, FindById(users, id).value.email) != 0
  {
  }

  /** The update by e-mail always touches the account found by id, so a
      matching code always succeeds and the "some problem" answer of
      ResetPasswordAsync never arises from the table alone. */
  lemma ResetNeverReportsUpdateProblem(outage: Option<Failure>, users: seq<UserDetails>,
                                       codes: map<int, ResetCodeRecord>, userIdText: string, code: string,
                                       updateFailure: Option<Failure>)
    ensures var r := ResetAnswer(outage, users, codes, userIdText, code, updateFailure);
            r.Ok? ==>
              && r.value.message != Some(PasswordUpdateProblem)
              && var user := FindById(users, ParseInt32(userIdText).value);
                 (r.value.success <==>
                    user.Some? && user.value.userId in codes && UrlDecode(codes[user.value.userId].code) == code)
  {
  }

  function CodeOf(codes: map<int, ResetCodeRecord>, id: int): Option<ResetCodeRecord>
  {
    if id in codes then Some(codes[id]) else None
  }

  function OtpOf(otps: map<int, OtpRecord>, id: int): Option<OtpRecord>
  {
    if id in otps then Some(otps[id]) else None
  }

  // ---------------------------------------------------------------------------

  /**
   * The user table, the stored codes, and the mail sent so far. `outage`
   * stands for the database being unreachable: while it holds a failure,
   * every stored procedure throws it. A procedure that throws on its own,
   * after earlier calls of the same flow succeeded, is a failure the
   * method takes as an input.
   */
  class UserStore {
    var users: seq<UserDetails>
    var resetCodes: map<int, ResetCodeRecord>
    var otps: map<int, OtpRecord>
    var outbox: seq<Mail>
    var outage: Option<Failure>

    /** Ids and e-mails are unique; a stored code is filed under its user's id. */
    ghost predicate Valid()
      reads this
    {
      UniqueIds(users) && UniqueEmails(users)
      && (forall id | id in resetCodes :: resetCodes[id].userId == id)
      && (forall id | id in otps :: otps[id].userId == id)
    }

    constructor (users: seq<UserDetails>)
      requires UniqueIds(users) && UniqueEmails(users)
      ensures Valid()
      ensures this.users == users && resetCodes == map[] && otps == map[] && outbox == [] && outage == None
    {
      this.users := users;
      resetCodes := map[];
      otps := map[];
      outbox := [];
      outage := None;
    }

    /** GetUserByEmailAsync */
    function GetUserByEmail(email: string): (r: Outcome<Option<UserDetails>>)
      reads this
      ensures r == if outage.Some? then Threw(outage.value) else Ok(FindByEmail(users, email))
    {
      if outage.Some? then Threw(outage.value) else Ok(FindByEmail(users, email))
    }

    /** GetUserByNameAsync */
    function GetUserByName(name: string): (r: Outcome<Option<UserDetails>>)
      reads this
      ensures r == if outage.Some? then Threw(outage.value) else Ok(FindByName(users, name))
    {
      if outage.Some? then Threw(outage.value) else Ok(FindByName(users, name))
    }

    /** ConfirmOTPAsync: a read-only decision, so repeating it gives the same answer. */
    function ConfirmOtp(email: string, otp: int): (r: Outcome<OperationResult>)
      reads this
      ensures outage.Some? ==> r == Threw(outage.value)
      ensures outage.None? ==> r.Ok? && (r.value.success <==>
                var user := FindByEmail(users, email);
                user.Some? && user.value.userId in otps && otps[user.value.userId].otp == otp)
    {
      if outage.Some? then Threw(outage.value)
      else
        var user := FindByEmail(users, email);
        if user.None? then Ok(OtpCheck(user, None, otp))
        else Ok(OtpCheck(user, OtpOf(otps, user.value.userId), otp))
    }

    /** InsertForgetPasswordAsync: stp_SetForgotPasswordDetails reports an id;
        a non-zero id means the code was filed under the user's id. `failure`
        is the procedure throwing (a raised error), which files nothing. */
    method InsertResetCode(record: ResetCodeRecord, reportedId: int, failure: Option<Failure>) returns (r: Outcome<int>)
      requires Valid()
      modifies this
      ensures Valid()
      ensures users == old(users) && otps == old(otps) && outbox == old(outbox) && outage == old(outage)
      ensures old(outage).Some? ==> r == Threw(old(outage).value) && resetCodes == old(resetCodes)
      ensures old(outage).None? && failure.Some? ==> r == Threw(failure.value) && resetCodes == old(resetCodes)
      ensures old(outage).None? && failure.None? ==> r == Ok(reportedId)
      ensures old(outage).None? && failure.None? ==>
                resetCodes == if reportedId != 0 then old(resetCodes)[record.userId := record] else old(resetCodes)
    {
      if outage.Some? {
        return Threw(outage.value);
      }
      if failure.Some? {
        return Threw(failure.value);
      }
      if reportedId != 0 {
        resetCodes := resetCodes[record.userId := record];
      }
      r := Ok(reportedId);
    }

    /** InsertOTPAsync, with the same reading of the reported id and of `failure`. */
    method InsertOtp(record: OtpRecord, reportedId: int, failure: Option<Failure>) returns (r: Outcome<int>)
      requires Valid()
      modifies this
      ensures Valid()
      ensures users == old(users) && resetCodes == old(resetCodes) && outbox == old(outbox) && outage == old(outage)
      ensures old(outage).Some? ==> r == Threw(old(outage).value) && otps == old(otps)
      ensures old(outage).None? && failure.Some? ==> r == Threw(failure.value) && otps == old(otps)
      ensures old(outage).None? && failure.None? ==> r == Ok(reportedId)
      ensures old(outage).None? && failure.None? ==>
                otps == if reportedId != 0 then old(otps)[record.userId := record] else old(otps)
    {
      if outage.Some? {
        return Threw(outage.value);
      }
      if failure.Some? {
        return Threw(failure.value);
      }
      if reportedId != 0 {
        otps := otps[record.userId := record];
      }
      r := Ok(reportedId);
    }

    /**
     * ForgotPaswordEmailAsync. Once the mail has gone out the result is set to
     * success, whatever the insert reported; a failing mail service is rethrown
     * before anything is stored.
     */
    method ForgotPasswordEmail(email: string, role: string, draws: seq<int>, resetUrl: string,
                               htmlEncode: string -> string, mailFailure: Option<Failure>,
                               reportedId: int, insertFailure: Option<Failure>)
      returns (r: Outcome<OperationResult>)
      requires Valid()
      requires ValidDraws(draws)
      modifies this
      ensures Valid()
      ensures r == ForgotPasswordAnswer(old(outage), old(users), email, role, mailFailure, insertFailure)
      ensures users == old(users) && otps == old(otps) && outage == old(outage)
      ensures old(outage).Some? ==> r == Threw(old(outage).value) && unchanged(this)
      ensures old(outage).None? && !Registered(FindByEmail(old(users), email), role) ==>
                r == Ok(OperationResult(false, Some(EmailNotFound))) && unchanged(this)
      ensures old(outage).None? && Registered(FindByEmail(old(users), email), role) && mailFailure.Some? ==>
                r == Threw(mailFailure.value) && unchanged(this)
      // a failing insert is rethrown with the link already mailed and no code filed
      ensures old(outage).None? && Registered(FindByEmail(old(users), email), role) && mailFailure.None? &&
              insertFailure.Some? ==>
                var u := FindByEmail(old(users), email).value;
                && r == Threw(insertFailure.value)
                && outbox == old(outbox) + [ResetLinkMail(email, u.userName, htmlEncode(CallbackUrl(resetUrl, u.userId, ResetCode(draws))))]
                && resetCodes == old(resetCodes)
      ensures old(outage).None? && Registered(FindByEmail(old(users), email), role) && mailFailure.None? &&
              insertFailure.None? ==>
                var u := FindByEmail(old(users), email).value;
                var code := ResetCode(draws);
                && r == Ok(OperationResult(true, Some(ResetMailSent)))
                && outbox == old(outbox) + [ResetLinkMail(email, u.userName, htmlEncode(CallbackUrl(resetUrl, u.userId, code)))]
                && resetCodes == (if reportedId != 0
                                  then old(resetCodes)[u.userId := ResetCodeRecord(u.userName, UrlEncode(code), u.userId, u.email)]
                                  else old(resetCodes))
      // the code in the mailed link, once decoded, passes the reset check
      ensures old(outage).None? && Registered(FindByEmail(old(users), email), role) && mailFailure.None? &&
              insertFailure.None? && reportedId != 0 ==>
                var u := FindByEmail(old(users), email).value;
                ResetCheck(FindById(users, u.userId), CodeOf(resetCodes, u.userId), ResetCode(draws)) == Matched(u)
    {
      var result := OperationResult(false, None);
      var userDetails := GetUserByEmail(email);
      if userDetails.Threw? {
        return Threw(userDetails.failure);
      }
      if userDetails.value.None? || role != userDetails.value.value.role {
        result := result.(message := Some(EmailNotFound));
        result := result.(success := false);
      } else {
        var u := userDetails.value.value;
        var code := GeneratePasswordResetToken(draws);
        var callbackUrl := CallbackUrl(resetUrl, u.userId, code);
        if mailFailure.Some? {
          result := result.(message := Some(ServiceUnavailable));
          result := result.(success := false);
          return Threw(mailFailure.value);
        }
        outbox := outbox + [ResetLinkMail(email, u.userName, htmlEncode(callbackUrl))];
        var record := ResetCodeRecord(u.userName, UrlEncode(code), u.userId, u.email);
        var inserted := InsertResetCode(record, reportedId, insertFailure);
        match inserted {
          case Threw(f) => return Threw(f);
          case Ok(id) =>
            if id != 0 {
            } else {
              result := result.(message := Some(ResetInsertProblem));
              result := result.(success := false);
            }
        }
        result := result.(message := Some(ResetMailSent));
        result := result.(success := true);
        if reportedId != 0 {
          ResetLinkRoundTrip(u.userId, draws);
          ghost var k :| 0 <= k < |users| && users[k] == u;
          FindOwnId(users, k);
        }
      }
      return Ok(result);
    }

    /**
     * SendOTPByEmailAsync. `otp` is Random.Next(1000, 10000). As with the
     * reset code, the result is success once the mail has gone out.
     */
    method SendOtpByEmail(email: string, role: string, otp: int, mailFailure: Option<Failure>, reportedId: int,
                          insertFailure: Option<Failure>)
      returns (r: Outcome<OperationResult>)
      requires Valid()
      requires 1000 <= otp < 10000
      modifies this
      ensures Valid()
      ensures r == SendOtpAnswer(old(outage), old(users), email, role, mailFailure, insertFailure)
      ensures users == old(users) && resetCodes == old(resetCodes) && outage == old(outage)
      ensures old(outage).Some? ==> r == Threw(old(outage).value) && unchanged(this)
      ensures old(outage).None? && !Registered(FindByEmail(old(users), email), role) ==>
                r == Ok(OperationResult(false, Some(EmailNotFound))) && unchanged(this)
      ensures old(outage).None? && Registered(FindByEmail(old(users), email), role) && mailFailure.Some? ==>
                r == Threw(mailFailure.value) && unchanged(this)
      // a failing insert is rethrown with the OTP already mailed and nothing filed
      ensures old(outage).None? && Registered(FindByEmail(old(users), email), role) && mailFailure.None? &&
              insertFailure.Some? ==>
                var u := FindByEmail(old(users), email).value;
                && r == Threw(insertFailure.value)
                && outbox == old(outbox) + [OtpMail(email, u.userName, otp)]
                && otps == old(otps)
      ensures old(outage).None? && Registered(FindByEmail(old(users), email), role) && mailFailure.None? &&
              insertFailure.None? ==>
                var u := FindByEmail(old(users), email).value;
                && r == Ok(OperationResult(true, Some(OtpSent)))
                && outbox == old(outbox) + [OtpMail(email, u.userName, otp)]
                && otps == (if reportedId != 0
                            then old(otps)[u.userId := OtpRecord(u.userName, otp, u.userId, u.email)]
                            else old(otps))
      // the mailed OTP confirms, for as long as it stays on record
      ensures old(outage).None? && Registered(FindByEmail(old(users), email), role) && mailFailure.None? &&
              insertFailure.None? && reportedId != 0 ==>
                ConfirmOtp(email, otp) == Ok(OperationResult(true, Some(OtpConfirmed)))
    {
      var result := OperationResult(false, None);
      var userDetails := GetUserByEmail(email);
      if userDetails.Threw? {
        return Threw(userDetails.failure);
      }
      if userDetails.value.None? || role != userDetails.value.value.role {
        result := result.(message := Some(EmailNotFound));
        result := result.(success := false);
      } else {
        var u := userDetails.value.value;
        if otp == 0 {
          result := result.(message := Some(OtpDrawProblem));
          result := result.(success := false);
        } else {
          if mailFailure.Some? {
            result := result.(message := Some(ServiceUnavailable));
            result := result.(success := false);
            return Threw(mailFailure.value);
          }
          outbox := outbox + [OtpMail(email, u.userName, otp)];
          var record := OtpRecord(u.userName, otp, u.userId, u.email);
          var inserted := InsertOtp(record, reportedId, insertFailure);
          match inserted {
            case Threw(f) => return Threw(f);
            case Ok(id) =>
              if id != 0 {
              } else {
                result := result.(message := Some(OtpInsertProblem));
                result := result.(success := false);
              }
          }
          result := result.(message := Some(OtpSent));
          result := result.(success := true);
        }
      }
      return Ok(result);
    }

    /** ResetPasswordAsync. `userIdText` goes through Convert.ToInt32, which
        throws on text that is not an Int32; `updateFailure` is
        UpdatePasswordByMailAsync throwing, which changes nothing. */
    method ResetPassword(userIdText: string, code: string, password: string, hash: string -> string,
                         updateFailure: Option<Failure>)
      returns (r: Outcome<OperationResult>)
      requires Valid()
      modifies this
      ensures Valid()
      ensures resetCodes == old(resetCodes) && otps == old(otps) && outbox == old(outbox) && outage == old(outage)
      ensures r == ResetAnswer(old(outage), old(users), old(resetCodes), userIdText, code, updateFailure)
      ensures ParseInt32(userIdText).None? ==> unchanged(this)
      ensures ParseInt32(userIdText).Some? && old(outage).Some? ==> r == Threw(old(outage).value) && unchanged(this)
      ensures old(outage).None? && ParseInt32(userIdText).Some? ==>
                var user := FindById(old(users), ParseInt32(userIdText).value);
                var step := ResetCheck(user, if user.Some? then CodeOf(old(resetCodes), user.value.userId) else None, code);
                && r == (if step.Matched? && updateFailure.Some? then Threw(updateFailure.value)
                         else Ok(ResetResult(step, if step.Matched? then CountEmail(old(users), step.user.email) else 0)))
                && users == (if step.Matched? && updateFailure.None? then WithPassword(old(users), step.user.email, hash(password))
                             else old(users))
      // a successful reset leaves the new hash on the account
      ensures r.Ok? && r.value.success ==>
                var user := FindById(users, ParseInt32(userIdText).value);
                user.Some? && user.value.passwordHash == hash(password)
    {
      var result := OperationResult(false, None);
      var currentUserId := ParseInt32(userIdText);
      if currentUserId.None? {
        return Threw(OtherFailure);
      }
      if outage.Some? {
        return Threw(outage.value);
      }
      var user := FindById(users, currentUserId.value);
      if user.Some? {
        var codeDetails := CodeOf(resetCodes, user.value.userId);
        if codeDetails.Some? {
          var decodeCode := UrlDecode(codeDetails.value.code);
          if decodeCode == code {
            var uPassword := hash(password);
            if updateFailure.Some? {
              return Threw(updateFailure.value);
            }
            var updated := CountEmail(users, user.value.email);
            users := WithPassword(users, user.value.email, uPassword);
            if updated == 0 {
              result := OperationResult(false, Some(PasswordUpdateProblem));
            } else {
              result := OperationResult(true, Some(PasswordUpdated));
            }
            NewPasswordStored(old(users), user.value, uPassword);
          } else {
            result := OperationResult(false, Some(LinkExpired));
          }
        }
      } else {
        result := OperationResult(false, Some(InvalidUser));
      }
      return Ok(result);
    }
  }
}

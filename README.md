# Fruitables back end — a Dafny model of its core

Fruitables is an online fruit and vegetable shop. Its back end is an ASP.NET
Web API over SQL Server stored procedures. This project models the parts of
it that decide things:

- the token repository, which reuses a live access or refresh token row
  or files a fresh one;
- the user repository's password-reset and one-time-password (OTP) flows,
  including the ten-character reset code, its URL encoding in the reset
  link and the check of that code;
- the background job that sweeps expired tokens every second and
  abandoned carts between midnight and six in the morning;
- the role filter in front of the protected endpoints;
- the guard chain and outcome mapping of every action in the
  authentication, cart, order, address, products, category, shop details,
  shop and home controllers.

How it is modelled:

- **Controller actions** are functions from the request and the outcome of
  the repository call to a `Reply` (HTTP status and `ApiResponse` body).
  The outcome is `Ok(value)` or `Threw(failure)`; a failure is a
  `SqlException` with its number and message, or any other exception.
  Each action's acceptance condition is stated as a predicate, and its
  tests are listed in source order as a sequence of `Check`s. Its contract
  says that a refused request is answered with the message of the first
  failing test in that list (`FirstFailed`), what an accepted request
  returns for each result, and that every catch block maps an unexpected
  failure to a 500.
- **Flows that read and write the token and user tables** (login, Google
  login, logout, the mail requests, reset and OTP confirmation) are methods
  on two classes, `TokenStore` and `UserStore`. Each is proved equal to a
  pure function of the old state, and that function's properties are
  proved as lemmas.
- **The cron job** is a method with the source's `while` loop. It is proved
  to produce the trace defined by a recursive `Run`, and the schedule is
  proved about `Run`.

Times are milliseconds on one clock. Nullable strings are `Option<string>`.
`int` and `long` are subset types of `int` with their .NET ranges, and
`decimal` is `real`.

## Model

| member | source | states |
|---|---|---|
| Http.FirstFailed | FruitStoreWebAPI/Controllers/CategoryController.cs:172-195 | the message of the first failing test of an early-return chain; none iff every test passes |
| Http.FirstFailedAt | FruitStoreWebAPI/Controllers/CategoryController.cs:172-195 | when every test before k passes and test k fails, the chain answers with test k's message |
| Http.FirstFailedAppend | FruitStoreWebAPI/Controllers/AuthenticaticationController.cs:75-135 | a chain made of two chains answers with the first one's failure, else the second one's |
| Common.IsValidEmail | CommonHelperUtility/UserValidator.cs:7-10 | the e-mail attribute's rule |
| Common.ValidEmailShape | CommonHelperUtility/UserValidator.cs:7-10 | an accepted address has exactly one '@', neither first nor last |
| Common.ParseInt32 | FruitStoreRepositories/Implementation/UserRepository.cs:37 | Convert.ToInt32: a plain digit string parses iff its value fits in Int32, to that value; leading and trailing white space, a sign and trailing NULs are accepted |
| Common.PaddedIntParses | FruitStoreRepositories/Implementation/UserRepository.cs:37 | any Int32's text, with white space before and after and NULs at the end, parses back to that Int32 |
| Common.ParseIntToString | FruitStoreRepositories/Implementation/UserRepository.cs:37 | the user id written in the reset link parses back to the same Int32 |
| Common.IntToStringShorter | FruitStoreWebAPI/Controllers/AddressController.cs:201 | a number's text is shorter than n characters exactly when it lies strictly between -10^(n-2) and 10^(n-1) |
| Authorization.OnAuthorization | CommonHelperUtility/CustomAuthorizeAttribute.cs:25-43 | an unauthenticated caller gets 401; an authenticated one proceeds iff its role claim equals the required role, otherwise gets 403 |
| Authorization.AuthenticationFirst | CommonHelperUtility/CustomAuthorizeAttribute.cs:29-34 | authentication is checked before the role |
| Authorization.MissingRoleDenied | CommonHelperUtility/CustomAuthorizeAttribute.cs:36-42 | a principal with no role claim never proceeds |
| Authorization.ProceedOnlyWithRole | CommonHelperUtility/CustomAuthorizeAttribute.cs:25-43 | proceeding iff authenticated with the required role; every denial is 401 or 403 |
| Authorization.RoleComparisonIsExact | CommonHelperUtility/CustomAuthorizeAttribute.cs:37 | example: "Admin" does not satisfy a filter for "admin" |
| TokenRepository.Decide | FruitStoreRepositories/Implementation/TokenRepository.cs:132-173 | insert iff there is no row and a token; reuse iff the row is unexpired; otherwise nothing |
| TokenRepository.Issue | FruitStoreRepositories/Implementation/TokenRepository.cs:126-180 | a failed lookup or insert propagates; a reused row is returned as is; null exactly when the row expired, no token came, or the insert or re-read found nothing |
| TokenRepository.Unexpired | FruitStoreRepositories/Implementation/TokenRepository.cs:447-465 | the sweep keeps exactly the rows whose expiry lies after now |
| TokenRepository.AfterSweepIssueSucceeds | FruitStoreRepositories/Implementation/TokenRepository.cs:447-465 | after a sweep an expired row no longer blocks a new token |
| TokenRepository.IssuedRowBelongsToUser | FruitStoreRepositories/Implementation/TokenRepository.cs:134-163 | filing keeps every row under its own e-mail, and an issued row carries the user's e-mail |
| TokenRepository.FirstIssueIsFresh | FruitStoreRepositories/Implementation/TokenRepository.cs:138-163 | with no row yet, the row issued is the one just inserted, expiring one lifetime from now |
| TokenRepository.TokenStore.constructor | FruitStoreRepositories/Implementation/TokenRepository.cs:16-21 | both token tables start empty |
| TokenRepository.TokenStore.Get | FruitStoreRepositories/Implementation/TokenRepository.cs:244-339 | the lookup by e-mail returns that e-mail's row or null, or throws during an outage |
| TokenRepository.TokenStore.Put | FruitStoreRepositories/Implementation/TokenRepository.cs:342-444 | the insert files the row under its e-mail, reports that e-mail, and leaves the other table alone |
| TokenRepository.TokenStore.Generate | FruitStoreRepositories/Implementation/TokenRepository.cs:126-241 | returns Issued of the old table and leaves the table as Filed of it; the other table is unchanged |
| TokenRepository.TokenStore.DeleteOnLogout | FruitStoreRepositories/Implementation/TokenRepository.cs:75-123 | removes the e-mail from both tables and reports the count, or throws unchanged |
| TokenRepository.TokenStore.Sweep | FruitStoreRepositories/Implementation/TokenRepository.cs:447-465 | both tables keep exactly their unexpired rows |
| CronJob.TimeOfDay | FruitStoreRepositories/Implementation/CronJobRepository.cs:29 | the time of day lies in [0, 24h) and differs from the time by whole days |
| CronJob.Iteration | FruitStoreRepositories/Implementation/CronJobRepository.cs:27-40 | one pass of the loop moves time forward when it continues |
| CronJob.IterationShape | FruitStoreRepositories/Implementation/CronJobRepository.cs:29-39 | a continuing pass is a token sweep one second in, then a cart sweep one minute later when the pre-delay time was in the window |
| CronJob.RunStep | FruitStoreRepositories/Implementation/CronJobRepository.cs:27-40 | the run is the first pass followed by the run from where it ended |
| CronJob.RunStartsWithTokenSweep | FruitStoreRepositories/Implementation/CronJobRepository.cs:31-33 | a non-empty trace starts with a token sweep one second after the start |
| CronJob.RunAfterTokenSweep | FruitStoreRepositories/Implementation/CronJobRepository.cs:33-38 | after a token sweep comes a cart sweep exactly when the pass began in the window |
| CronJob.RunCartSweepsInWindow | FruitStoreRepositories/Implementation/CronJobRepository.cs:35-38 | every cart sweep comes one minute after a token sweep whose pass began between 00:00 and 06:00 |
| CronJob.RunAfterCartSweep | FruitStoreRepositories/Implementation/CronJobRepository.cs:27-40 | a cart sweep is followed by the next pass's token sweep one second later |
| CronJob.RunFollowsSchedule | FruitStoreRepositories/Implementation/CronJobRepository.cs:27-40 | the whole trace follows the schedule |
| CronJob.RunWithinShutdown | FruitStoreRepositories/Implementation/CronJobRepository.cs:27-31 | no sweep happens after cancellation |
| CronJob.RunFailureIsLast | FruitStoreRepositories/Implementation/CronJobRepository.cs:43-47 | a failing sweep ends the job, and it is the last event |
| CronJob.ReliableSweepsEndByCancellation | FruitStoreRepositories/Implementation/CronJobRepository.cs:27-41 | when no sweep fails, the job ends by the loop test or a cancelled delay |
| CronJob.WindowUsesPreDelayTime | FruitStoreRepositories/Implementation/CronJobRepository.cs:29-35 | the window test uses the time read before the one-second delay; example: a pass that began at 05:59:59.5 sweeps carts after 06:00 |
| CronJob.ExecuteAsync | FruitStoreRepositories/Implementation/CronJobRepository.cs:21-48 | the loop's log equals Run, follows the schedule, and every sweep lies after the start and no later than cancellation |
| UrlEncoding.Utf8 | FruitStoreRepositories/Implementation/UserRepository.cs:146 | a character encodes to one to four bytes, one exactly when it is ASCII |
| UrlEncoding.HexValue | FruitStoreRepositories/Implementation/UserRepository.cs:49 | a hex digit's value is below 16 |
| UrlEncoding.EncodedChars | FruitStoreRepositories/Implementation/UserRepository.cs:146 | the encoding consists only of safe characters, '+' and '%' |
| UrlEncoding.HexRoundTrip | FruitStoreRepositories/Implementation/UserRepository.cs:49 | the two hex digits written for a byte read back as that byte |
| UrlEncoding.DecodeEncodedChar | FruitStoreRepositories/Implementation/UserRepository.cs:49 | decoding the encoding of an ASCII character gives it back |
| UrlEncoding.UrlRoundTrip | FruitStoreRepositories/Implementation/UserRepository.cs:146-164 | decode(encode(s)) == s for every ASCII string |
| UserRepository.AlphabetIsAscii | FruitStoreRepositories/Implementation/UserRepository.cs:832 | the reset-code alphabet has 72 characters, all ASCII |
| UserRepository.GeneratePasswordResetToken | FruitStoreRepositories/Implementation/UserRepository.cs:824-865 | the loop builds ten characters drawn from the alphabet, so the code is ASCII |
| UserRepository.ResetLinkRoundTrip | FruitStoreRepositories/Implementation/UserRepository.cs:144-164 | the link's user id parses back, and the stored URL-encoded code decodes to the mailed code |
| UserRepository.FindByEmail | FruitStoreRepositories/Implementation/UserRepository.cs:204-251 | a found account has that e-mail; none is found iff no account has it |
| UserRepository.FindById | FruitStoreRepositories/Implementation/UserRepository.cs:415-462 | a found account has that id; none is found iff no account has it |
| UserRepository.FindByName | FruitStoreRepositories/Implementation/UserRepository.cs:254-301 | a found account has that name; none is found iff no account has it |
| UserRepository.FindOwnId | FruitStoreRepositories/Implementation/UserRepository.cs:415-462 | with unique ids, the lookup by an account's id finds that account |
| UserRepository.FindOwnEmail | FruitStoreRepositories/Implementation/UserRepository.cs:204-251 | with unique e-mails, the lookup by an account's e-mail finds that account |
| UserRepository.WithPassword | FruitStoreRepositories/Implementation/UserRepository.cs:367-412 | exactly the accounts with that e-mail get the new hash; nothing else changes |
| UserRepository.NewPasswordStored | FruitStoreRepositories/Implementation/UserRepository.cs:57-75 | after the update, the account is found by e-mail and id with the new hash |
| UserRepository.CountEmail | FruitStoreRepositories/Implementation/UserRepository.cs:367-412 | the update touches no row iff no account has that e-mail |
| UserRepository.ResetCheck | FruitStoreRepositories/Implementation/UserRepository.cs:41-95 | unknown user, no code, or a match iff the decoded stored code equals the supplied one |
| UserRepository.ResetResult | FruitStoreRepositories/Implementation/UserRepository.cs:61-95 | success iff the code matched and a row was updated; no code leaves the message null |
| UserRepository.OtpCheck | FruitStoreRepositories/Implementation/UserRepository.cs:760-821 | success iff the account exists and its stored OTP equals the one typed in, with the source's messages |
| UserRepository.ForgotPasswordAnswer | FruitStoreRepositories/Implementation/UserRepository.cs:109-201 | success iff no outage, an account with that e-mail and role, the mail sent and the code insert not throwing; unknown accounts get "not found"; an insert that throws after the mail is rethrown |
| UserRepository.SendOtpAnswer | FruitStoreRepositories/Implementation/UserRepository.cs:619-703 | success iff no outage, an account with that e-mail and role, the mail sent and the OTP insert not throwing; an insert that throws after the mail is rethrown |
| UserRepository.ResetAnswer | FruitStoreRepositories/Implementation/UserRepository.cs:29-106 | an unparsable user id throws and an outage throws; a matching code whose password update throws rethrows that failure; otherwise an answer, which is success iff the account exists, has a code whose decoded form equals the supplied one, and the update by its e-mail touches a row |
| UserRepository.FoundUserHasRow | FruitStoreRepositories/Implementation/UserRepository.cs:39-61 | the account found by id has its own e-mail, so the update by that e-mail touches at least one row |
| UserRepository.ResetNeverReportsUpdateProblem | FruitStoreRepositories/Implementation/UserRepository.cs:51-75 | derived from the table, the update count is never 0: the "some problem" message never comes back, and success is exactly a matching code |
| UserRepository.UserStore.constructor | FruitStoreRepositories/Implementation/UserRepository.cs:22-27 | the given accounts, with no codes, OTPs or mail |
| UserRepository.UserStore.GetUserByEmail | FruitStoreRepositories/Implementation/UserRepository.cs:204-251 | the account with that e-mail or null, or a throw during an outage |
| UserRepository.UserStore.GetUserByName | FruitStoreRepositories/Implementation/UserRepository.cs:254-301 | the account with that name or null, or a throw during an outage |
| UserRepository.UserStore.ConfirmOtp | FruitStoreRepositories/Implementation/UserRepository.cs:760-821 | success iff the account exists and its stored OTP equals the one given |
| UserRepository.UserStore.InsertResetCode | FruitStoreRepositories/Implementation/UserRepository.cs:465-516 | files the code under the user id when the insert reports an id; a throwing procedure files nothing; nothing else changes |
| UserRepository.UserStore.InsertOtp | FruitStoreRepositories/Implementation/UserRepository.cs:706-757 | files the OTP under the user id when the insert reports an id; a throwing procedure files nothing; nothing else changes |
| UserRepository.UserStore.ForgotPasswordEmail | FruitStoreRepositories/Implementation/UserRepository.cs:109-201 | returns ForgotPasswordAnswer; a registered account is mailed the link and its encoded code is filed; when the insert throws, the link is already mailed, nothing is filed and the failure is rethrown |
| UserRepository.UserStore.SendOtpByEmail | FruitStoreRepositories/Implementation/UserRepository.cs:619-703 | returns SendOtpAnswer; a registered account is mailed the OTP, which is filed; when the insert throws, the OTP is already mailed, nothing is filed and the failure is rethrown |
| UserRepository.UserStore.ResetPassword | FruitStoreRepositories/Implementation/UserRepository.cs:29-106 | returns ResetAnswer (user id parsed as Convert.ToInt32 does, white space included); a success stores the new hash for the account; a throwing update changes no account |
| AuthController.EmailGuard | FruitStoreWebAPI/Controllers/AuthenticaticationController.cs:704-716 | no message iff the e-mail is present and valid; a missing one is reported first |
| AuthController.EmailGuardOrder | FruitStoreWebAPI/Controllers/AuthenticaticationController.cs:90-104 | the if-chain answers with the message of the first test in source order that fails: missing, then malformed, then too long |
| AuthController.RegistrationGuard | FruitStoreWebAPI/Controllers/AuthenticaticationController.cs:75-134 | no message iff the registration is acceptable; a missing name is reported first |
| AuthController.RegistrationGuardOrder | FruitStoreWebAPI/Controllers/AuthenticaticationController.cs:75-135 | the if-chain answers with the message of the first test in source order that fails: name, e-mail, password, role |
| AuthController.NameChecksOrder | FruitStoreWebAPI/Controllers/AuthenticaticationController.cs:75-84 | a missing name is reported before a long one |
| AuthController.PasswordRoleChecksOrder | FruitStoreWebAPI/Controllers/AuthenticaticationController.cs:111-135 | a missing password, a bad length, a missing role and an unknown role are reported in that order |
| AuthController.Conflict | FruitStoreWebAPI/Controllers/AuthenticaticationController.cs:183-197 | the registration conflicts answer 409 with body code 400 |
| AuthController.RegistrationFailure | FruitStoreWebAPI/Controllers/AuthenticaticationController.cs:163-214 | the catch answers 400, 409 (body code 400) or 500; unexpected failures are 500 |
| AuthController.RegisterUser | FruitStoreWebAPI/Controllers/AuthenticaticationController.cs:69-215 | refused requests are 400 with the first failing test's message in source order; the insert receives the hashed password; a new id is 201 with the welcome, 0 is 500 |
| AuthController.AdminLimitConflict | FruitStoreWebAPI/Controllers/AuthenticaticationController.cs:163-200 | the fourth administrator is refused with 409 and the limit message |
| AuthController.SignIn | FruitStoreWebAPI/Controllers/AuthenticaticationController.cs:335-360 | a returned pair holds the access row and the refresh row issued for the user |
| AuthController.SignInWithoutRows | FruitStoreWebAPI/Controllers/AuthenticaticationController.cs:335-360 | an account with no rows gets the tokens just generated |
| AuthController.SignInRowsBelongToUser | FruitStoreWebAPI/Controllers/AuthenticaticationController.cs:335-360 | both rows of a returned pair carry the account's e-mail |
| AuthController.SignInReusesLiveRow | FruitStoreRepositories/Implementation/TokenRepository.cs:167-171 | live rows are handed back unchanged, whatever token was generated |
| AuthController.ExpiredRowBlocksSignIn | FruitStoreRepositories/Implementation/TokenRepository.cs:167-173 | an expired row not yet swept yields no pair |
| AuthController.IssueTokens | FruitStoreWebAPI/Controllers/AuthenticaticationController.cs:335-337 | the two repository calls return SignIn of the old tables and leave them as SignedIn |
| AuthController.LoginGuard | FruitStoreWebAPI/Controllers/AuthenticaticationController.cs:248-281 | no message iff the credentials are acceptable; a missing name is reported first |
| AuthController.LoginGuardOrder | FruitStoreWebAPI/Controllers/AuthenticaticationController.cs:248-281 | the if-chain answers with the message of the first test in source order that fails: missing name, long name, missing password, missing role |
| AuthController.LoginFailure | FruitStoreWebAPI/Controllers/AuthenticaticationController.cs:362-416 | the catch answers 400, 404 or 500; unexpected failures are 500 |
| AuthController.LoginReply | FruitStoreWebAPI/Controllers/AuthenticaticationController.cs:242-417 | refused input is a 400 with the first failing test's message in source order; 404 for an unknown name; a role or name that is not the account's is a 400 "Admin not exists" when the claimed role is admin, else "User not exists"; a password that does not verify is a 400 "Wrong password... Kindly try again"; else the sign-in outcome |
| AuthController.LoginNeedsPassword | FruitStoreWebAPI/Controllers/AuthenticaticationController.cs:293-360 | a 200 needs the claimed role, name and a verified password, and carries rows for that account |
| AuthController.UnknownNameWithOtherRole | FruitStoreWebAPI/Controllers/AuthenticaticationController.cs:362-416 | "does not exist" for a role other than user or admin falls through to 500 |
| AuthController.LoginUser | FruitStoreWebAPI/Controllers/AuthenticaticationController.cs:242-417 | returns LoginReply of the lookup; the token tables change only when the password is accepted |
| AuthController.GoogleFailure | FruitStoreWebAPI/Controllers/AuthenticaticationController.cs:538-587 | the catch answers 400, 404 or 500; unexpected failures are 500 |
| AuthController.GoogleLoginReply | FruitStoreWebAPI/Controllers/AuthenticaticationController.cs:444-588 | a bad e-mail is a 400 with the first failing e-mail test's message in source order; 404 when unknown; 400 for an administrator; else the sign-in outcome |
| AuthController.GoogleLoginWithoutPassword | FruitStoreWebAPI/Controllers/AuthenticaticationController.cs:479-533 | any non-administrator with no rows signs in with its e-mail alone |
| AuthController.GoogleLogin | FruitStoreWebAPI/Controllers/AuthenticaticationController.cs:444-588 | returns GoogleLoginReply of the lookup; the tables change only for a found non-administrator |
| AuthController.LogoutFailure | FruitStoreWebAPI/Controllers/AuthenticaticationController.cs:652-670 | the catch answers 400 or 500 |
| AuthController.Logout | FruitStoreWebAPI/Controllers/AuthenticaticationController.cs:615-671 | a valid e-mail loses both rows and gets 200 whatever the count; a 200 means the e-mail has no row left |
| AuthController.MailRequestGuard | FruitStoreWebAPI/Controllers/AuthenticaticationController.cs:704-727 | no message iff the e-mail is valid and a role is given |
| AuthController.MailRequestGuardOrder | FruitStoreWebAPI/Controllers/AuthenticaticationController.cs:704-727 | the if-chain answers with the message of the first test in source order that fails: the three e-mail tests, then the role |
| AuthController.ResultReply | FruitStoreWebAPI/Controllers/AuthenticaticationController.cs:736-764 | a success is 200 with its message; other answers keep the repository's message unless they are 500 |
| AuthController.ForgotPasswordFailure | FruitStoreWebAPI/Controllers/AuthenticaticationController.cs:766-802 | the catch answers 400 or 500 |
| AuthController.ForgotPasswordReply | FruitStoreWebAPI/Controllers/AuthenticaticationController.cs:728-803 | the repository's answer goes through ResultReply, a throw through the catch |
| AuthController.ForgotPasswordNever503 | FruitStoreWebAPI/Controllers/AuthenticaticationController.cs:752-758 | the 503 branch is unreachable: the repository throws rather than answering with the service text |
| AuthController.ForgotInsertRaiseAfterMail | FruitStoreWebAPI/Controllers/AuthenticaticationController.cs:764-775 | example: the code insert raising "UserName cannot be null." after the mail reaches the catch's 400 |
| AuthController.SendForgotPasswordEmail | FruitStoreWebAPI/Controllers/AuthenticaticationController.cs:698-803 | refused input is a 400 with the first failing test's message in source order; otherwise the reply is ForgotPasswordReply of the repository's answer, including an insert that throws after the mail; never 503 |
| AuthController.SendOtpFailure | FruitStoreWebAPI/Controllers/AuthenticaticationController.cs:1014-1050 | the catch answers 400 or 500 |
| AuthController.SendOtpReply | FruitStoreWebAPI/Controllers/AuthenticaticationController.cs:984-1051 | the repository's answer goes through ResultReply, a throw through the catch |
| AuthController.SendOtpNever503 | FruitStoreWebAPI/Controllers/AuthenticaticationController.cs:1000-1006 | the 503 branch is unreachable |
| AuthController.SendOtpInsertRaiseAfterMail | FruitStoreWebAPI/Controllers/AuthenticaticationController.cs:1012-1030 | example: the OTP insert raising "OTP cannot be null." after the mail reaches the catch's 400 |
| AuthController.SendOTPDetails | FruitStoreWebAPI/Controllers/AuthenticaticationController.cs:947-1051 | refused input is a 400 with the first failing test's message in source order; otherwise the reply is SendOtpReply of the repository's answer, including an insert that throws after the mail; never 503 |
| AuthController.ResetGuard | FruitStoreWebAPI/Controllers/AuthenticaticationController.cs:834-865 | no message iff password, user id and code are present; a missing password is reported first |
| AuthController.ResetGuardOrder | FruitStoreWebAPI/Controllers/AuthenticaticationController.cs:834-865 | the if-chain answers with the message of the first test in source order that fails: missing password, password length, missing user id, missing code |
| AuthController.ResetFailure | FruitStoreWebAPI/Controllers/AuthenticaticationController.cs:887-917 | the catch answers 400, 404 or 500 |
| AuthController.ResetReply | FruitStoreWebAPI/Controllers/AuthenticaticationController.cs:874-885 | 200 iff the result succeeded, else 500, carrying the result's message either way |
| AuthController.ResetRefusalsAre500 | FruitStoreWebAPI/Controllers/AuthenticaticationController.cs:874-885 | an unknown user, a stale code and a missing code all answer 500 |
| AuthController.ResetPassword | FruitStoreWebAPI/Controllers/AuthenticaticationController.cs:828-918 | refused input is a 400 with the first failing test's message in source order and changes nothing; otherwise the reply is ResetReply of the repository's answer, a throwing update included; a 200 means the account now holds the hash of the new password |
| AuthController.ConfirmGuard | FruitStoreWebAPI/Controllers/AuthenticaticationController.cs:1082-1113 | no message iff the e-mail is valid and the OTP text has at least four characters |
| AuthController.ConfirmGuardOrder | FruitStoreWebAPI/Controllers/AuthenticaticationController.cs:1082-1113 | the if-chain answers with the message of the first test in source order that fails: the three e-mail tests, a zero OTP, then an OTP shorter than four characters |
| AuthController.OtpLength | FruitStoreWebAPI/Controllers/AuthenticaticationController.cs:1108-1112 | the four-character test passes iff the OTP is at least 1000 or at most -100 |
| AuthController.NegativeOtpAccepted | FruitStoreWebAPI/Controllers/AuthenticaticationController.cs:1102-1112 | example: -100 passes the guards while 999 does not |
| AuthController.ConfirmFailure | FruitStoreWebAPI/Controllers/AuthenticaticationController.cs:1193-1240 | the catch answers 400, 404 or 500 |
| AuthController.ConfirmReply | FruitStoreWebAPI/Controllers/AuthenticaticationController.cs:1122-1191 | an unconfirmed OTP is 500; a 200 carries fresh rows for the account |
| AuthController.ConfirmedOtpIssuesFreshTokens | FruitStoreWebAPI/Controllers/AuthenticaticationController.cs:1128-1182 | after a confirmation the account's old rows are gone, so the pair is the tokens just generated |
| AuthController.ConfirmOTPDetails | FruitStoreWebAPI/Controllers/AuthenticaticationController.cs:1075-1241 | returns ConfirmReply; rows are deleted and reissued only after a confirmed OTP |
| CartController.CartReadFailure | FruitStoreWebAPI/Controllers/CartController.cs:114-138 | the catch answers 400, 404 or 500, and matches messages whatever the error number |
| CartController.GetProductsCartDetails | FruitStoreWebAPI/Controllers/CartController.cs:79-140 | 400 without a user; otherwise 200 with the items and totals iff both are present ("Cart details.."), else 200 with no data and "No details available"; or the catch |
| CartController.GetBagCounterDetails | FruitStoreWebAPI/Controllers/CartController.cs:179-233 | 400 without a user; otherwise 200 with the counter, or the catch |
| CartController.CartReadIgnoresErrorNumber | FruitStoreWebAPI/Controllers/CartController.cs:114-132 | a matching message is a 400 under any error number |
| CartController.CartDeleteFailure | FruitStoreWebAPI/Controllers/CartController.cs:292-316 | the catch answers 400, 404 or 500: 400 iff the missing-cart-id message was raised, 404 iff the unknown-id message was raised without it |
| CartController.DeleteCartItemById | FruitStoreWebAPI/Controllers/CartController.cs:260-318 | 204 iff exactly one row was deleted; any other count is 500 |
| CartController.CartEntryFailure | FruitStoreWebAPI/Controllers/CartController.cs:457-519 | the catch answers 400, 404, 409 or 500 |
| CartController.CartEntryGuard | FruitStoreWebAPI/Controllers/CartController.cs:360-431 | no message iff the cart line is acceptable |
| CartController.CartEntryGuardOrder | FruitStoreWebAPI/Controllers/CartController.cs:360-431 | the if-chain answers with the message of the first test in source order that fails |
| CartController.EntryItemChecksOrder | FruitStoreWebAPI/Controllers/CartController.cs:360-388 | missing name, long name, zero price and out-of-range price are reported in that order |
| CartController.EntryAmountChecksOrder | FruitStoreWebAPI/Controllers/CartController.cs:394-431 | missing user, zero subtotal, negative subtotal and zero quantity are reported in that order |
| CartController.CreateCartDetails | FruitStoreWebAPI/Controllers/CartController.cs:354-521 | refused requests are 400 with the first failing test's message in source order; a new id is 201, 0 is 500 |
| CartController.CurrentQuantSignNeverChecked | FruitStoreWebAPI/Controllers/CartController.cs:360-432 | the "must be positive" reply for CurrentQuant is never produced |
| CartController.NegativeCurrentQuantAccepted | FruitStoreWebAPI/Controllers/CartController.cs:360-432 | a negative CurrentQuant reaches the repository |
| CartController.DuplicateCartLineConflict | FruitStoreWebAPI/Controllers/CartController.cs:457-519 | a product already in the cart is a 409 |
| CartController.CartChangeFailure | FruitStoreWebAPI/Controllers/CartController.cs:666-728 | the catch answers 400, 404 or 500 |
| CartController.CartChangeGuard | FruitStoreWebAPI/Controllers/CartController.cs:560-641 | no message iff the change is acceptable; a zero cart id is reported first |
| CartController.CartChangeGuardOrder | FruitStoreWebAPI/Controllers/CartController.cs:560-641 | the if-chain answers with the message of the first test in source order that fails |
| CartController.ChangeItemChecksOrder | FruitStoreWebAPI/Controllers/CartController.cs:560-598 | zero cart id, zero price, out-of-range price, zero quantity and out-of-range quantity are reported in that order |
| CartController.ChangeAmountChecksOrder | FruitStoreWebAPI/Controllers/CartController.cs:603-641 | missing user, zero subtotal, negative subtotal and zero total quantity are reported in that order |
| CartController.UpdateCartDetails | FruitStoreWebAPI/Controllers/CartController.cs:554-730 | refused requests are 400 with the first failing test's message in source order; a changed row is 200, none is 500 |
| CartController.TotalQuantSignNeverChecked | FruitStoreWebAPI/Controllers/CartController.cs:560-641 | the "must be positive" reply for TotalQuant is never produced; a negative one is accepted |
| CartController.OutOfStockRefused | FruitStoreWebAPI/Controllers/CartController.cs:666-728 | an out-of-stock error is a 400 with the repository's text |
| OrderController.ItemFailure | FruitStoreWebAPI/Controllers/OrderController.cs:92-142 | no message iff the cart line is acceptable |
| OrderController.FirstItemFailure | FruitStoreWebAPI/Controllers/OrderController.cs:92-142 | the loop passes iff every line is acceptable |
| OrderController.FirstItemFailureIsFirst | FruitStoreWebAPI/Controllers/OrderController.cs:92-142 | the loop's message is the first failing line's |
| OrderController.FailingLineStopsTheLoop | FruitStoreWebAPI/Controllers/OrderController.cs:92-142 | after acceptable lines, a failing line decides the answer whatever follows it |
| OrderController.OrderFailure | FruitStoreWebAPI/Controllers/OrderController.cs:221-325 | the catch answers 400 or 500 |
| OrderController.OrderGuard | FruitStoreWebAPI/Controllers/OrderController.cs:92-201 | no message iff every cart line and the order's totals, user and payment mode are acceptable |
| OrderController.OrderGuardOrder | FruitStoreWebAPI/Controllers/OrderController.cs:92-201 | the if-chain answers with the message of the first test in source order that fails, the cart lines first |
| OrderController.CreateOrderDetails | FruitStoreWebAPI/Controllers/OrderController.cs:88-326 | refused orders are 400 with the first failing test's message in source order, the cart lines first; a processed order is 201 with its data, none is 500 |
| OrderController.ZeroChargesRefused | FruitStoreWebAPI/Controllers/OrderController.cs:145-167 | zero charges are refused even with a positive subtotal |
| OrderController.EmptyCartReachesRepository | FruitStoreWebAPI/Controllers/OrderController.cs:92-220 | an order with no cart lines passes the guards |
| OrderController.CompletionFailure | FruitStoreWebAPI/Controllers/OrderController.cs:435-472 | the catch answers 400 or 500 |
| OrderController.CompletionGuard | FruitStoreWebAPI/Controllers/OrderController.cs:368-418 | no message iff the completion names an order, payment details and a user |
| OrderController.CompletionGuardOrder | FruitStoreWebAPI/Controllers/OrderController.cs:368-418 | the if-chain answers with the message of the first test in source order that fails |
| OrderController.CompleteOrderProcess | FruitStoreWebAPI/Controllers/OrderController.cs:362-474 | refused requests are 400 with the first failing test's message in source order; a completed order is 200, none is 500 |
| OrderController.PaymentCheckedBeforeUser | FruitStoreWebAPI/Controllers/OrderController.cs:386-417 | a missing signature is reported before a missing user |
| OrderController.OrderReadFailure | FruitStoreWebAPI/Controllers/OrderController.cs:553-572 | 400 iff the procedure raised "User details required.", else 500 |
| OrderController.GetOrderDetailsByUserId | FruitStoreWebAPI/Controllers/OrderController.cs:522-574 | 400 without a user; otherwise 200 with the orders, or the catch |
| OrderController.StatusChangeFailure | FruitStoreWebAPI/Controllers/OrderController.cs:656-684 | the catch answers 400, 404 or 500: 400 iff the missing-status or missing-user message was raised, 404 iff the unknown-id message was raised without it |
| OrderController.StatusChangeGuard | FruitStoreWebAPI/Controllers/OrderController.cs:617-632 | no message iff a status is given and the user id is positive |
| OrderController.StatusChangeGuardOrder | FruitStoreWebAPI/Controllers/OrderController.cs:617-632 | the if-chain answers with the message of the first test in source order that fails |
| OrderController.UpdateOrderStatusDetails | FruitStoreWebAPI/Controllers/OrderController.cs:611-686 | refused requests are 400 with the first failing test's message in source order; a changed row is 200, none is 500 |
| OrderController.EmptyStatusPasses | FruitStoreWebAPI/Controllers/OrderController.cs:617-633 | an empty status passes while a null one is refused |
| AddressController.AddressReadFailure | FruitStoreWebAPI/Controllers/AddressController.cs:82-109 | the catch answers 400, 404 or 500; 404 exactly when the unknown-user message is raised without the missing-id one |
| AddressController.GetAllAddressDetailsByUserId | FruitStoreWebAPI/Controllers/AddressController.cs:55-111 | 400 without a user; otherwise 200 with the list, "No address available" iff there is none |
| AddressController.AddressFailure | FruitStoreWebAPI/Controllers/AddressController.cs:286-360 | the catch answers 400 or 500 |
| AddressController.AddressGuard | FruitStoreWebAPI/Controllers/AddressController.cs:150-261 | no message iff the address is acceptable |
| AddressController.AddressGuardOrder | FruitStoreWebAPI/Controllers/AddressController.cs:150-261 | the if-chain answers with the message of the first test in source order that fails |
| AddressController.ContactChecksOrder | FruitStoreWebAPI/Controllers/AddressController.cs:150-189 | first name, last name, street, missing e-mail and malformed e-mail are reported in that order |
| AddressController.PostalChecksOrder | FruitStoreWebAPI/Controllers/AddressController.cs:195-225 | a zero postal code, a short one, a missing city and a missing state are reported in that order |
| AddressController.PhoneChecksOrder | FruitStoreWebAPI/Controllers/AddressController.cs:231-261 | a zero phone number, a short one, a missing user and a missing country are reported in that order |
| AddressController.CreateNewAddress | FruitStoreWebAPI/Controllers/AddressController.cs:144-362 | refused requests are 400 with the first failing test's message in source order; a new id is 201, 0 is 500 |
| AddressController.PostalCodeLength | FruitStoreWebAPI/Controllers/AddressController.cs:195-206 | the six-character test passes iff the code is at least 100000 or at most -10000 |
| AddressController.PhoneNumberLength | FruitStoreWebAPI/Controllers/AddressController.cs:231-240 | the ten-character test passes iff the number is at least 10^9 or at most -10^8 |
| AddressController.NegativePostalCodeAccepted | FruitStoreWebAPI/Controllers/AddressController.cs:195-206 | example: 99999 is refused while -10000 passes |
| AddressController.AddressDeleteFailure | FruitStoreWebAPI/Controllers/AddressController.cs:417-442 | the catch answers 400, 404 or 500: 400 iff the missing-address-id message was raised, 404 iff the unknown-id message was raised without it |
| AddressController.DeleteAddressById | FruitStoreWebAPI/Controllers/AddressController.cs:387-444 | 204 iff exactly one row was deleted |
| AddressController.SelectionFailure | FruitStoreWebAPI/Controllers/AddressController.cs:515-547 | the catch answers 400, 404 or 500: 400 iff the missing-address or missing-selection message was raised, 404 iff the unknown-id message was raised without it |
| AddressController.UpdateAddressSelectionById | FruitStoreWebAPI/Controllers/AddressController.cs:470-549 | 400 without an address or a selection; a changed row is 200, none is 500 |
| ProductsController.GetAllProducts | FruitStoreWebAPI/Controllers/ProductsController.cs:53-86 | 200 with the list, or "No products found.." when it is null |
| ProductsController.ImageFailure | FruitStoreWebAPI/Controllers/ProductsController.cs:200-240 | no message iff the image is present, JPEG or PNG when typed, and 500 to 505 pixels on each side |
| ProductsController.ProductFailure | FruitStoreWebAPI/Controllers/ProductsController.cs:298-355 | the catch answers 400, 409 or 500 |
| ProductsController.ProductGuard | FruitStoreWebAPI/Controllers/ProductsController.cs:129-254 | no message iff the form is acceptable |
| ProductsController.ProductGuardOrder | FruitStoreWebAPI/Controllers/ProductsController.cs:129-254 | the if-chain answers with the message of the first test in source order that fails, the image tests between stock and description |
| ProductsController.FieldChecksOrder | FruitStoreWebAPI/Controllers/ProductsController.cs:129-195 | category, admin, name, name length, price, price range, stock and stock range are reported in that order |
| ProductsController.ImageDescriptionChecksOrder | FruitStoreWebAPI/Controllers/ProductsController.cs:202-254 | the image's failure is reported before a missing description, and that before a short one |
| ProductsController.CreateUpdateProducts | FruitStoreWebAPI/Controllers/ProductsController.cs:122-357 | refused forms are 400 with the first failing test's message in source order; a saved product is 201 for ProductId "0", else 200 |
| ProductsController.DescriptionNeeds151 | FruitStoreWebAPI/Controllers/ProductsController.cs:244-255 | a 150-character description is refused; 151 characters pass |
| ProductsController.ContentTypeIgnoresCase | FruitStoreWebAPI/Controllers/ProductsController.cs:209-222 | example: "IMAGE/PNG" is accepted and "image/gif" refused |
| ProductsController.MissingContentTypeSkipsCheck | FruitStoreWebAPI/Controllers/ProductsController.cs:209-222 | an image without a content type skips the format check |
| ProductsController.InsertOrUpdate | FruitStoreWebAPI/Controllers/ProductsController.cs:260-283 | ProductId "0" creates (201); any other id, null included, updates (200) |
| ProductsController.DuplicateProductNameConflict | FruitStoreWebAPI/Controllers/ProductsController.cs:298-355 | a duplicate product name is a 409 |
| ProductsController.ProductDeleteFailure | FruitStoreWebAPI/Controllers/ProductsController.cs:410-435 | the catch answers 400, 404 or 500: 400 iff the missing-product-id message was raised, 404 iff the unknown-id message was raised without it |
| ProductsController.DeleteProductById | FruitStoreWebAPI/Controllers/ProductsController.cs:380-437 | 204 iff exactly one row was deleted |
| CategoryController.GetAllCategories | FruitStoreWebAPI/Controllers/CategoryController.cs:52-81 | 200 with the list, or "No category found.." when it is null |
| CategoryController.GetCategoryWithProductsCounts | FruitStoreWebAPI/Controllers/CategoryController.cs:103-136 | 200 with the counts whether or not a list came back |
| CategoryController.CategoryFailure | FruitStoreWebAPI/Controllers/CategoryController.cs:220-253 | the catch answers 400, 409 or 500 |
| CategoryController.CategoryGuard | FruitStoreWebAPI/Controllers/CategoryController.cs:172-194 | no message iff the name has 1 to 100 characters and an admin is given |
| CategoryController.CategoryGuardOrder | FruitStoreWebAPI/Controllers/CategoryController.cs:172-194 | the if-chain answers with the message of the first test in source order that fails |
| CategoryController.CreateCategory | FruitStoreWebAPI/Controllers/CategoryController.cs:166-255 | refused requests are 400 with the first failing test's message in source order; a new id is 201, 0 is 500 |
| CategoryController.DuplicateCategoryConflict | FruitStoreWebAPI/Controllers/CategoryController.cs:220-248 | a duplicate name is 409 only under error 50000 |
| CategoryController.CategoryDeleteFailure | FruitStoreWebAPI/Controllers/CategoryController.cs:311-339 | 400 iff the missing-id text was raised; 404 iff the unknown-id text without it; 409 with the in-use text iff that text without the other two; 500 for anything else, an unmatched raised message included |
| CategoryController.DeleteCategoryById | FruitStoreWebAPI/Controllers/CategoryController.cs:281-340 | 204 iff exactly one row was deleted |
| CategoryController.CategoryInUseConflict | FruitStoreWebAPI/Controllers/CategoryController.cs:311-334 | a category that still has products is a 409 |
| ShopDetailsController.RatingFailure | FruitStoreWebAPI/Controllers/ShopDetailsController.cs:116-154 | the catch answers 400, 404 or 500 |
| ShopDetailsController.RatingGuard | FruitStoreWebAPI/Controllers/ShopDetailsController.cs:64-94 | no message iff a review, a rate, a user and a product are given |
| ShopDetailsController.RatingGuardOrder | FruitStoreWebAPI/Controllers/ShopDetailsController.cs:64-94 | the if-chain answers with the message of the first test in source order that fails |
| ShopDetailsController.PostProductRating | FruitStoreWebAPI/Controllers/ShopDetailsController.cs:58-155 | refused requests are 400 with the first failing test's message in source order; a new id is 201, 0 is 500 |
| ShopDetailsController.RateIsNotRangeChecked | FruitStoreWebAPI/Controllers/ShopDetailsController.cs:71-78 | any non-zero rate is accepted |
| ShopDetailsController.MissingUserIsNotFound | FruitStoreWebAPI/Controllers/ShopDetailsController.cs:116-149 | a missing user is answered with 404 |
| ShopDetailsController.ProductRatingFailure | FruitStoreWebAPI/Controllers/ShopDetailsController.cs:213-240 | the catch answers 400, 404 or 500; 404 exactly when the unknown-product message is raised without either bad-id message |
| ShopDetailsController.GetProductsAndRating | FruitStoreWebAPI/Controllers/ShopDetailsController.cs:177-241 | 400 without a product; otherwise 200 with the product and ratings iff either is present ("Products rating retrieved successfully."), else 200 with no data and "Products rating not found."; or the catch |
| ShopDetailsController.PurchaseFailure | FruitStoreWebAPI/Controllers/ShopDetailsController.cs:307-334 | the catch answers 400, 404 or 500 |
| ShopDetailsController.CheckProductPurchasing | FruitStoreWebAPI/Controllers/ShopDetailsController.cs:265-335 | the product is checked before the user; then the purchase count decides |
| ShopController.ShopFailure | FruitStoreWebAPI/Controllers/ShopController.cs:105-137 | the catch answers 400 or 500; 400 exactly when a null category, price or sorting is raised |
| ShopController.ShopFilterGuard | FruitStoreWebAPI/Controllers/ShopController.cs:58-82 | no message iff a category, a price value and a sort order are given |
| ShopController.ShopFilterGuardOrder | FruitStoreWebAPI/Controllers/ShopController.cs:58-82 | the if-chain answers with the message of the first test in source order that fails |
| ShopController.GetAllShopDetails | FruitStoreWebAPI/Controllers/ShopController.cs:52-138 | refused filters are 400 with the first failing test's message in source order; otherwise 200 with the list, or the catch |
| ShopController.NullCategoryComplaint | FruitStoreWebAPI/Controllers/ShopController.cs:105-131 | the procedure's null-category error is a 400 |
| ShopController.NullPriceComplaint | FruitStoreWebAPI/Controllers/ShopController.cs:105-131 | the procedure's null-price error is a 400 |
| ShopController.NullSortingComplaint | FruitStoreWebAPI/Controllers/ShopController.cs:105-131 | the procedure's null-sorting error is a 400 |
| HomeController.TopProductsFailure | FruitStoreWebAPI/Controllers/HomeController.cs:89-106 | 404 iff the procedure raised the unknown-kind error, else 500 |
| HomeController.GetTopProducts | FruitStoreWebAPI/Controllers/HomeController.cs:54-107 | 400 without a kind; otherwise 200 with the list, or the catch |
| HomeController.GetBestSellerProducts | FruitStoreWebAPI/Controllers/HomeController.cs:128-152 | 200 with the list, or the "no best seller" message when it is null |

## Left out

- Asynchrony, logging, dependency injection and concurrent requests are
  not modelled. Each action runs alone, and each repository call is one
  atomic step.
- The JWT service is not part of this model. The tokens it produces are
  inputs (`Outcome<string>`): `GetToken` returns a string or throws. The
  controllers' null-token branches therefore never run and are not
  modelled.
- BCrypt is a function-typed input. `Verify` throwing on a malformed hash
  is not modelled.
- The e-mail service is not part of this model. Whether a mail fails is an
  input, and the HTML encoding of the link in the mail body is not
  modelled.
- The stored procedures' own checks are not modelled. The message and
  number they raise, and the ids and counts the controllers receive, are
  inputs. The repositories modelled here are the exception: their counts
  are derived from the tables (see the next two lines). Whether one of
  their procedures throws on its own is an input too: `outage` makes every
  call fail, while the code and OTP inserts and the password update each
  take a failure of their own, which arises after the earlier calls of
  the flow have succeeded.
- UserRepository.ResetAnswer: the count of rows the password update
  touches is derived from the user table (`CountEmail`), not taken as an
  input. The account found by id always has a row with its e-mail, so the
  "There is some problem…" result (UserRepository.cs:63-67) never arises
  in the model (`ResetNeverReportsUpdateProblem`); a row removed between
  the lookup and the update is not modelled. UserStore.ResetPassword
  inherits this.
- TokenRepository.TokenStore.DeleteOnLogout: the count it reports is
  derived from whether the e-mail has rows in the two token tables.
- Tables are maps or sequences with exact, case-sensitive matching. SQL
  collation is not modelled, so LoginUser's check that the name found
  equals the name typed never fails in the model.
- Tokens, codes and OTPs are stored without the database's own columns.
  Random draws and the clock are inputs.
- Common.IsValidEmail: models the .NET e-mail attribute's rule (exactly one
  '@', neither first nor last). Any stricter checking the attribute may do
  is not modelled.
- UrlEncoding.UrlDecode: multi-byte UTF-8 sequences are not decoded; each
  %hh escape of a byte from 0x80 up becomes U+FFFD on its own. The round
  trip is proved for ASCII text, which covers the reset codes.
- ProductsController: image decoding is an input (width and height), and
  the case-insensitive comparison folds only ASCII letters. `Image.Load`
  (ProductsController.cs:229) runs outside every `try`, so bytes that do
  not decode throw out of the action; the model always has a width and a
  height, and that path is not modelled.
- Length guards: .NET's `string.Length` counts UTF-16 code units, while
  the model's `|s|` counts Unicode characters. The two differ only for
  characters outside the Basic Multilingual Plane, which count twice in
  .NET. For such text every length guard can answer differently: names up
  to 50, 100 or 255, e-mails up to 100, passwords of 6 to 255 and product
  descriptions over 150. For example, 100 characters including one emoji
  pass the model's category-name test but are refused by the action.
- OrderController.CreateOrderDetails: a null cart list is not modelled; the
  list is always present.
- These DTO files are not part of this model: UpdateOrderStatus,
  AddCategoryDetails, AddProductRatings, ShopFilterCriterio, LoginUser,
  EmailData, ConfirmOTP, ResetPassword, AddForgotPasswordDetails and
  AddOTPDetails. Their fields are taken from the way the controllers read
  them.
- UserRoles is not part of this model. Its constants are taken to be
  "admin" and "user", the values used elsewhere in the source.
- CronJob: sweeps take no time. The cart sweep (CartDetailsRepository) is
  an input that may fail.
- TokenRepository.DeleteTokenDetailsByMailAsync (TokenRepository.cs:24-72)
  is not modelled, because no modelled action calls it.
- The other repositories (payment, orders, products and so on) are not
  part of this model. Their calls are the outcomes the controllers
  receive.
- The AdminOrder and AboutUs controllers are not part of this model.

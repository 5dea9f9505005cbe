/**
 * The records the repositories and controllers pass around: a user row,
 * an access- or refresh-token row, the request to insert one, and the pair
 * of token rows a successful login returns.
 */
module Models {
  import opened Common

  /** The two roles an account can have (UserRoles.Admin, UserRoles.User). */
  const AdminRole: string := "admin"
  const UserRole: string := "user"

  /** UserDetails: one row of the user table. */
  datatype UserDetails = UserDetails(
    userId: Int32,
    userName: string,
    email: string,
    role: string,
    passwordHash: string)

  /** AccessTokenDetails / RefreshTokenDetails: a stored token, the instant it
      stops being valid (milliseconds on the server clock) and the account it
      belongs to. */
  datatype TokenRecord = TokenRecord(
    userId: Int32,
    email: string,
    token: string,
    expiry: int,
    userName: string,
    role: string)

  /** InsertAccessTokenDetails / InsertRefreshTokenDetails. */
  datatype TokenInsert = TokenInsert(email: string, token: string, expiry: int)

  /** TokenDetails: what a successful login hands to the client. */
  datatype TokenDetails = TokenDetails(access: TokenRecord, refresh: TokenRecord)
}

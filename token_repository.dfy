/**
 * TokenRepository: at most one access-token row and one refresh-token row per
 * e-mail address. Issuing reuses a row that has not expired, inserts one when
 * there is none, and refuses (null) when the row has expired but has not yet
 * been swept.
 */
module TokenRepository {
  import opened Common
  import opened Models

  /** Minutes a freshly inserted row stays valid, in milliseconds. */
  const AccessLifetime: int := 120 * 60_000
  const RefreshLifetime: int := 125 * 60_000

  datatype Kind = Access | Refresh

  function Lifetime(kind: Kind): int
  {
    if kind == Access then AccessLifetime else RefreshLifetime
  }

  /** The three-way choice after the lookup by e-mail. */
  datatype Step = Reuse(record: TokenRecord) | Insert(request: TokenInsert) | Refuse

  function Decide(existing: Option<TokenRecord>, token: Option<string>, email: string,
                  now: int, lifetime: int): (d: Step)
    ensures d.Insert? <==> existing.None? && token.Some?
    ensures d.Reuse? <==> existing.Some? && existing.value.expiry > now
  {
    if existing.None? then
      if token.Some? then Insert(TokenInsert(email, token.value, now + lifetime)) else Refuse
    else if existing.value.expiry > now then Reuse(existing.value)
    else Refuse
  }

  /**
   * GenerateJwtTokenDetailsAsync / GenerateRefreshTokenDetailsAsync, given
   * the outcome of each call it makes: the lookup by the user's e-mail, the
   * insert (consulted only when one is made), and the re-read by the e-mail
   * the insert reported (consulted only when it reported one).
   */
  function Issue(lookup: Outcome<Option<TokenRecord>>, token: Option<string>, email: string,
                 now: int, lifetime: int,
                 inserted: Outcome<Option<string>>,
                 reread: Outcome<Option<TokenRecord>>): (r: Outcome<Option<TokenRecord>>)
    // a failing lookup is rethrown
    ensures lookup.Threw? ==> r == Threw(lookup.failure)
    // an existing row is returned only while it has not expired
    ensures lookup.Ok? && lookup.value.Some? ==>
              r == (if lookup.value.value.expiry > now then Ok(lookup.value) else Ok(None))
    // with no row, a failing insert is rethrown and a reported e-mail leads to the re-read
    ensures lookup == Ok(None) && token.Some? && inserted.Threw? ==> r == Threw(inserted.failure)
    ensures lookup == Ok(None) && token.Some? && inserted.Ok? && inserted.value.Some? ==> r == reread
    // exactly these cases give null
    ensures r == Ok(None) <==>
              (lookup.Ok? && lookup.value.Some? && lookup.value.value.expiry <= now)
              || (lookup == Ok(None) && (token.None? || inserted == Ok(None)
                                         || (inserted.Ok? && inserted.value.Some? && reread == Ok(None))))
  {
    match lookup
    case Threw(f) => Threw(f)
    case Ok(existing) =>
      match Decide(existing, token, email, now, lifetime)
      case Reuse(record) => Ok(Some(record))
      case Refuse => Ok(None)
      case Insert(_) =>
        match inserted
        case Threw(f) => Threw(f)
        case Ok(None) => Ok(None)
        case Ok(Some(_)) => reread
  }

  predicate KeyedByEmail(m: map<string, TokenRecord>)
  {
    forall e | e in m :: m[e].email == e
  }

  function Lookup(m: map<string, TokenRecord>, email: string): Option<TokenRecord>
  {
    if email in m then Some(m[email]) else None
  }

  /** The row stp_SetAccessTokenDetails / stp_SetRefreshTokenDetails stores:
      the request's e-mail, token and expiry, with the user id, name and role
      of the account that e-mail belongs to. */
  function Stored(request: TokenInsert, user: UserDetails): TokenRecord
  {
    TokenRecord(user.userId, request.email, request.token, request.expiry, user.userName, user.role)
  }

  /** Rows still valid at `now`: what stp_SetTokenSchedular keeps. */
  function Unexpired(m: map<string, TokenRecord>, now: int): (kept: map<string, TokenRecord>)
    ensures forall e | e in kept :: e in m && kept[e] == m[e] && m[e].expiry > now
    ensures forall e | e in m && m[e].expiry > now :: e in kept
  {
    map e | e in m && m[e].expiry > now :: m[e]
  }

  /** Rows swept at `now` are all that stand between an account and a fresh
      token: once swept, issuing with a token in hand never gives null when
      the insert reports the e-mail and the re-read finds the row. */
  lemma AfterSweepIssueSucceeds(m: map<string, TokenRecord>, now: int, email: string,
                                 token: string, lifetime: int, row: TokenRecord)
    ensures Issue(Ok(Lookup(Unexpired(m, now), email)), Some(token), email, now, lifetime,
                  Ok(Some(email)), Ok(Some(row))).value.Some?
  {
  }

  /** What issuing answers when the database is (or is not) out and the
      table of that kind reads `table`: the lookup, and for a new row the
      insert that files it under the user's e-mail and the re-read that
      finds it. */
  function Issued(outage: Option<Failure>, table: map<string, TokenRecord>, kind: Kind,
                  user: UserDetails, token: Option<string>, now: int): Outcome<Option<TokenRecord>>
  {
    var lookup := if outage.Some? then Threw(outage.value) else Ok(Lookup(table, user.email));
    var request := TokenInsert(user.email, OrEmpty(token), now + Lifetime(kind));
    Issue(lookup, token, user.email, now, Lifetime(kind), Ok(Some(user.email)), Ok(Some(Stored(request, user))))
  }

  /** The table after issuing: a row is added exactly when there was none
      and a token was supplied. */
  function Filed(outage: Option<Failure>, table: map<string, TokenRecord>, kind: Kind,
                 user: UserDetails, token: Option<string>, now: int): map<string, TokenRecord>
  {
    if outage.None? && user.email !in table && token.Some?
    then table[user.email := Stored(TokenInsert(user.email, token.value, now + Lifetime(kind)), user)]
    else table
  }

  /** Issuing keeps the table filed by e-mail, and every row it hands out
      belongs to the user's e-mail. */
  lemma IssuedRowBelongsToUser(outage: Option<Failure>, table: map<string, TokenRecord>, kind: Kind,
                               user: UserDetails, token: Option<string>, now: int)
    requires KeyedByEmail(table)
    ensures KeyedByEmail(Filed(outage, table, kind, user, token, now))
    ensures var r := Issued(outage, table, kind, user, token, now);
            r.Ok? && r.value.Some? ==> r.value.value.email == user.email
  {
  }

  /** With no row for the e-mail, a supplied token is always filed and
      handed back as a fresh row. */
  lemma FirstIssueIsFresh(table: map<string, TokenRecord>, kind: Kind, user: UserDetails, token: string, now: int)
    requires user.email !in table
    ensures Issued(None, table, kind, user, Some(token), now)
            == Ok(Some(Stored(TokenInsert(user.email, token, now + Lifetime(kind)), user)))
  {
  }

  /**
   * The token tables. `outage` stands for the database being unreachable:
   * while it holds a failure, every stored procedure throws it.
   */
  class TokenStore {
    var access: map<string, TokenRecord>
    var refresh: map<string, TokenRecord>
    var outage: Option<Failure>

    /** One row per e-mail, filed under that e-mail. */
    ghost predicate Valid()
      reads this
    {
      KeyedByEmail(access) && KeyedByEmail(refresh)
    }

    constructor ()
      ensures Valid()
      ensures access == map[] && refresh == map[] && outage == None
    {
      access := map[];
      refresh := map[];
      outage := None;
    }

    function Table(kind: Kind): map<string, TokenRecord>
      reads this
    {
      if kind == Access then access else refresh
    }

    /** GetAccessTokenByEmailDetailsAsync / GetRefreshTokenByEmailDetailsAsync. */
    method Get(kind: Kind, email: string) returns (r: Outcome<Option<TokenRecord>>)
      ensures outage.Some? ==> r == Threw(outage.value)
      ensures outage.None? ==> r == Ok(Lookup(Table(kind), email))
      ensures r.Ok? && r.value.Some? ==> email in Table(kind) && r.value.value == Table(kind)[email]
    {
      if outage.Some? {
        return Threw(outage.value);
      }
      r := Ok(Lookup(Table(kind), email));
    }

    /** InsertAccessTokenDetailsAsync / InsertRefreshTokenDetailsAsync: the row
        is filed under the request's e-mail, which is reported back. */
    method Put(kind: Kind, request: TokenInsert, user: UserDetails) returns (r: Outcome<Option<string>>)
      requires Valid()
      modifies this
      ensures Valid()
      ensures outage == old(outage)
      ensures old(outage).Some? ==> r == Threw(old(outage).value) && unchanged(this)
      ensures old(outage).None? ==> r == Ok(Some(request.email))
      ensures old(outage).None? ==> Table(kind) == old(Table(kind))[request.email := Stored(request, user)]
      ensures Table(if kind == Access then Refresh else Access)
              == old(Table(if kind == Access then Refresh else Access))
    {
      if outage.Some? {
        return Threw(outage.value);
      }
      if kind == Access {
        access := access[request.email := Stored(request, user)];
      } else {
        refresh := refresh[request.email := Stored(request, user)];
      }
      r := Ok(Some(request.email));
    }

    /** GenerateJwtTokenDetailsAsync (Access, 120 minutes) and
        GenerateRefreshTokenDetailsAsync (Refresh, 125 minutes). */
    method Generate(kind: Kind, user: UserDetails, token: Option<string>, now: int)
      returns (r: Outcome<Option<TokenRecord>>)
      requires Valid()
      modifies this
      ensures Valid()
      ensures outage == old(outage)
      ensures r == Issued(old(outage), old(Table(kind)), kind, user, token, now)
      ensures Table(kind) == Filed(old(outage), old(Table(kind)), kind, user, token, now)
      ensures Table(if kind == Access then Refresh else Access)
              == old(Table(if kind == Access then Refresh else Access))
    {
      var existing := Get(kind, user.email);
      if existing.Threw? {
        return Threw(existing.failure);
      }
      if existing.value.None? {
        if token.Some? {
          var entity := TokenInsert(user.email, token.value, now + Lifetime(kind));
          var email := Put(kind, entity, user);
          match email {
            case Threw(f) => return Threw(f);
            case Ok(None) =>
            case Ok(Some(inserted)) =>
              var details := Get(kind, inserted);
              match details {
                case Threw(f) => return Threw(f);
                case Ok(None) =>
                case Ok(Some(record)) => return Ok(Some(record));
              }
          }
        }
      } else if existing.value.value.expiry > now {
        return Ok(existing.value);
      }
      r := Ok(None);
    }

    /** DeleteTokenDetailsOnLogoutByMailAsync: both rows of the e-mail go; the
        procedure's @DeleteResult is the number of rows it removed. */
    method DeleteOnLogout(email: string) returns (r: Outcome<int>)
      requires Valid()
      modifies this
      ensures Valid()
      ensures outage == old(outage)
      ensures old(outage).Some? ==> r == Threw(old(outage).value) && unchanged(this)
      ensures old(outage).None? ==> access == old(access) - {email} && refresh == old(refresh) - {email}
      ensures old(outage).None? ==>
                r == Ok((if email in old(access) then 1 else 0) + (if email in old(refresh) then 1 else 0))
    {
      if outage.Some? {
        return Threw(outage.value);
      }
      var count := (if email in access then 1 else 0) + (if email in refresh then 1 else 0);
      access := access - {email};
      refresh := refresh - {email};
      r := Ok(count);
    }

    /** SetTokenSchedularAsync: stp_SetTokenSchedular drops every row whose
        validity has run out. */
    method Sweep(now: int) returns (r: Outcome<()>)
      requires Valid()
      modifies this
      ensures Valid()
      ensures outage == old(outage)
      ensures old(outage).Some? ==> r == Threw(old(outage).value) && unchanged(this)
      ensures old(outage).None? ==> r == Ok(())
      ensures old(outage).None? ==> access == Unexpired(old(access), now) && refresh == Unexpired(old(refresh), now)
    {
      if outage.Some? {
        return Threw(outage.value);
      }
      access := Unexpired(access, now);
      refresh := Unexpired(refresh, now);
      r := Ok(());
    }
  }
}

/**
 The `tokens` table and the statements that `pgsql_tokens.go` runs against it.

 A table maps row identifiers to rows. Each SQL statement is a `Where` clause together with a
 select, an insert, an update or a delete. `QueryRow` on a clause that several rows satisfy returns
 an arbitrary one of them: the row it returned (the *pick*) is an argument of the lookups below, and
 `Picks` says which picks the engine may make.
 */
module TokenTable {
  import opened Wrappers

  import SqlPlaceholders
  import TokenStatements

  type Provider = SqlPlaceholders.Provider

  const SYSTEM_SHARED_USER := "00000000-1111-2222-3333-444444444444"
  const LINKED_TOKEN := "LINKED TOKEN"
  const OAUTH2 := "OAuth2"
  const OIDC := "OIDC"

  datatype TokenType = Uaa | Cnsi

  /**
   A row. A token column is identified with the text its ciphertext decrypts to. `refresh` is `None`
   when the column holds the empty byte string, which `Decrypt` rejects as too short.
   */
  datatype Row = Row(
    tokenGuid: string,
    tokenType: TokenType,
    cnsiGuid: Option<string>,
    userGuid: string,
    auth: string,
    refresh: Option<string>,
    expiry: int,
    disconnected: bool,
    authType: string,
    metadata: Option<string>,
    linked: Option<string>)

  /** The part of `interfaces.TokenRecord` that the repository reads or writes. */
  datatype TokenRecord = TokenRecord(
    tokenGuid: string,
    authToken: string,
    refreshToken: string,
    expiry: int,
    disconnected: bool,
    authType: string,
    metadata: string,
    systemShared: bool,
    linkedGuid: string)

  datatype StoreError =
    | NoCnsiGuid
    | NoUserGuid
    | NoAuthToken
    | NoRefreshToken
    | NoRows
    | NoRowsUpdated
    | BadStatement
    | Undecryptable

  // ---------------------------------------------------------------- statements

  datatype Where =
    | UaaOf(user: string)
    | ByGuid(user: string, guid: string)
    | ByGuidConnected(user: string, guid: string)
    | Visible(cnsi: string, user: string)
    | VisibleConnected(cnsi: string, user: string)
    | CnsiOf(cnsi: string, user: string)
    | CnsiOfAuthType(cnsi: string, user: string, authType: string)
    | CnsiOfAnyone(cnsi: string)

  predicate IsCnsiOf(r: Row, cnsi: string, user: string) {
    r.tokenType.Cnsi? && r.cnsiGuid == Some(cnsi) && r.userGuid == user
  }

  predicate Matches(w: Where, r: Row) {
    match w
    case UaaOf(u) => r.tokenType.Uaa? && r.userGuid == u
    case ByGuid(u, g) => r.userGuid == u && r.tokenGuid == g
    case ByGuidConnected(u, g) => r.userGuid == u && r.tokenGuid == g && !r.disconnected
    case Visible(c, u) => IsCnsiOf(r, c, u) || IsCnsiOf(r, c, SYSTEM_SHARED_USER)
    case VisibleConnected(c, u) =>
      (IsCnsiOf(r, c, u) || IsCnsiOf(r, c, SYSTEM_SHARED_USER)) && !r.disconnected
    case CnsiOf(c, u) => IsCnsiOf(r, c, u)
    case CnsiOfAuthType(c, u, a) => IsCnsiOf(r, c, u) && r.authType == a
    case CnsiOfAnyone(c) => r.tokenType.Cnsi? && r.cnsiGuid == Some(c)
  }

  datatype Assignment =
    | SetAuth(auth: string, refresh: Option<string>, expiry: int)
    | SetCnsi(auth: string, refresh: Option<string>, expiry: int, disconnected: bool,
              metadata: Option<string>, linked: Option<string>)

  function Assign(a: Assignment, r: Row): Row {
    match a
    case SetAuth(x, y, e) => r.(auth := x, refresh := y, expiry := e)
    case SetCnsi(x, y, e, d, m, l) =>
      r.(auth := x, refresh := y, expiry := e, disconnected := d, metadata := m, linked := l)
  }

  datatype Table = Table(rows: map<nat, Row>, next: nat)

  ghost predicate WellFormed(t: Table) {
    forall i <- t.rows :: i < t.next
  }

  function Ids(t: Table, w: Where): set<nat> {
    set i | i in t.rows && Matches(w, t.rows[i])
  }

  function Insert(t: Table, r: Row): Table {
    Table(t.rows[t.next := r], t.next + 1)
  }

  function Update(t: Table, w: Where, a: Assignment): Table {
    t.(rows := map i | i in t.rows :: if Matches(w, t.rows[i]) then Assign(a, t.rows[i]) else t.rows[i])
  }

  function Delete(t: Table, w: Where): Table {
    t.(rows := map i | i in t.rows && !Matches(w, t.rows[i]) :: t.rows[i])
  }

  /** The rows `QueryRow` may return for clause `w`: any matching row, or none if none matches. */
  predicate Picks(t: Table, w: Where, pick: Option<nat>) {
    match pick
    case None => Ids(t, w) == {}
    case Some(i) => i in Ids(t, w)
  }

  ghost function AnyPick(t: Table, w: Where): (pick: Option<nat>)
    ensures Picks(t, w, pick)
  {
    if Ids(t, w) == {} then None else var i :| i in Ids(t, w); Some(i)
  }

  // ---------------------------------------------------------------- repository operations

  /** How the refresh token column is filled: an empty token is not encrypted. */
  function SealRefresh(text: string): Option<string> {
    if text == "" then None else Some(text)
  }

  function Decrypted(r: Row): Result<TokenRecord, StoreError> {
    if r.refresh.None? then Err(Undecryptable)
    else Ok(TokenRecord(
              r.tokenGuid, r.auth, r.refresh.value, r.expiry, r.disconnected, r.authType,
              if r.metadata.Some? then r.metadata.value else "",
              r.userGuid == SYSTEM_SHARED_USER,
              if r.linked.Some? then r.linked.value else ""))
  }

  function SaveAuth(t: Table, user: string, tr: TokenRecord, uuid: string): (Table, Result<(), StoreError>) {
    if user == "" then (t, Err(NoUserGuid))
    else if tr.authToken == "" then (t, Err(NoAuthToken))
    else if Ids(t, UaaOf(user)) == {} then
      (Insert(t, Row(uuid, Uaa, None, user, tr.authToken, SealRefresh(tr.refreshToken), tr.expiry,
                     false, OAUTH2, None, None)), Ok(()))
    else
      (Update(t, UaaOf(user), SetAuth(tr.authToken, SealRefresh(tr.refreshToken), tr.expiry)), Ok(()))
  }

  function FindAuth(t: Table, user: string, pick: Option<nat>): Result<TokenRecord, StoreError>
    requires Picks(t, UaaOf(user), pick)
  {
    if user == "" then Err(NoUserGuid)
    else match pick
      case None => Err(NoRows)
      case Some(i) =>
        match Decrypted(t.rows[i])
        case Err(e) => Err(e)
        case Ok(tr) => Ok(tr.(disconnected := false, systemShared := false, linkedGuid := ""))
  }

  function LinkedColumn(tr: TokenRecord): Option<string> {
    if tr.linkedGuid == "" then None else Some(tr.linkedGuid)
  }

  /** A linked record stores the text LINKED TOKEN in both token columns. */
  function Masked(tr: TokenRecord): TokenRecord {
    if tr.linkedGuid == "" then tr else tr.(authToken := LINKED_TOKEN, refreshToken := LINKED_TOKEN)
  }

  function SaveCnsi(t: Table, cnsi: string, user: string, tr: TokenRecord, uuid: string)
    : (Table, Result<(), StoreError>)
  {
    if cnsi == "" then (t, Err(NoCnsiGuid))
    else if user == "" then (t, Err(NoUserGuid))
    else if tr.authToken == "" then (t, Err(NoAuthToken))
    else
      var m := Masked(tr);
      if Ids(t, CnsiOf(cnsi, user)) == {} then
        (Insert(t, Row(uuid, Cnsi, Some(cnsi), user, m.authToken, SealRefresh(m.refreshToken), tr.expiry,
                       tr.disconnected, tr.authType, Some(tr.metadata), LinkedColumn(tr))), Ok(()))
      else
        var w := CnsiOfAuthType(cnsi, user, tr.authType);
        var t' := Update(t, w, SetCnsi(m.authToken, SealRefresh(m.refreshToken), tr.expiry,
                                       tr.disconnected, Some(tr.metadata), LinkedColumn(tr)));
        if Ids(t, w) == {} then (t', Err(NoRowsUpdated)) else (t', Ok(()))
  }

  function RowClause(cnsi: string, user: string, includeDisconnected: bool): Where {
    if includeDisconnected then Visible(cnsi, user) else VisibleConnected(cnsi, user)
  }

  function LinkClause(user: string, guid: string, includeDisconnected: bool): Where {
    if includeDisconnected then ByGuid(user, guid) else ByGuidConnected(user, guid)
  }

  /** The two rows that a lookup of an endpoint token may read. */
  datatype LookupPicks = LookupPicks(row: Option<nat>, link: Option<nat>)

  predicate PicksCnsi(t: Table, cnsi: string, user: string, includeDisconnected: bool, p: LookupPicks) {
    && Picks(t, RowClause(cnsi, user, includeDisconnected), p.row)
    && (p.row.Some? && t.rows[p.row.value].linked.Some? ==>
          Picks(t, LinkClause(user, t.rows[p.row.value].linked.value, includeDisconnected), p.link))
  }

  ghost function AnyCnsiPicks(t: Table, cnsi: string, user: string, includeDisconnected: bool): (p: LookupPicks)
    ensures PicksCnsi(t, cnsi, user, includeDisconnected, p)
  {
    var row := AnyPick(t, RowClause(cnsi, user, includeDisconnected));
    if row.Some? && t.rows[row.value].linked.Some? then
      LookupPicks(row, AnyPick(t, LinkClause(user, t.rows[row.value].linked.value, includeDisconnected)))
    else LookupPicks(row, None)
  }

  /** The statement that follows a link, and whether the provider executes it as it was meant. */
  predicate LinkStatementWorks(provider: Provider, includeDisconnected: bool) {
    TokenStatements.Works(
      provider, if includeDisconnected then TokenStatements.GetToken else TokenStatements.GetTokenConnected)
  }

  function FindCnsi(t: Table, cnsi: string, user: string, includeDisconnected: bool, provider: Provider, p: LookupPicks)
    : Result<TokenRecord, StoreError>
    requires PicksCnsi(t, cnsi, user, includeDisconnected, p)
  {
    if cnsi == "" then Err(NoCnsiGuid)
    else if user == "" then Err(NoUserGuid)
    else if p.row.None? then Err(NoRows)
    else
      var r := t.rows[p.row.value];
      if r.linked.None? then Decrypted(r)
      else if !LinkStatementWorks(provider, includeDisconnected) then Err(BadStatement)
      else if p.link.None? then Err(NoRows)
      else Decrypted(t.rows[p.link.value])
  }

  function DeleteCnsi(t: Table, cnsi: string, user: string): (Table, Result<(), StoreError>) {
    if cnsi == "" then (t, Err(NoCnsiGuid))
    else if user == "" then (t, Err(NoUserGuid))
    else (Delete(t, CnsiOf(cnsi, user)), Ok(()))
  }

  function DeleteCnsiOfAnyone(t: Table, cnsi: string): (Table, Result<(), StoreError>) {
    if cnsi == "" then (t, Err(NoCnsiGuid)) else (Delete(t, CnsiOfAnyone(cnsi)), Ok(()))
  }

  function UpdateTokenAuth(t: Table, user: string, tr: TokenRecord): (Table, Result<(), StoreError>) {
    if user == "" then (t, Err(NoUserGuid))
    else if tr.authToken == "" then (t, Err(NoAuthToken))
    else if tr.refreshToken == "" then (t, Err(NoRefreshToken))
    else
      var guid := if tr.linkedGuid == "" then tr.tokenGuid else tr.linkedGuid;
      var w := ByGuid(user, guid);
      var t' := Update(t, w, SetAuth(tr.authToken, SealRefresh(tr.refreshToken), tr.expiry));
      if Ids(t, w) == {} then (t', Err(NoRowsUpdated)) else (t', Ok(()))
  }
}

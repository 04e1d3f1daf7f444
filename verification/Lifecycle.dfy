/**
 The handlers that read and write the `tokens` and `cnsis` tables, as steps of a state machine.

 An `Event` is one request together with everything the request does not decide: the replies of
 remote servers, the rows the SQL engine picks, and new UUIDs. `Legal` says which choices the
 environment may make and `Apply` gives the tables after the request. Handlers are atomic.
 */
module Lifecycle {
  import opened Wrappers
  import opened TokenTable
  import opened TokenLaws

  /** A row of `cnsis`, whose primary key is its GUID. */
  datatype Endpoint = Endpoint(name: string, cnsiType: string, api: string, ssoAllowed: bool)

  type Endpoints = map<string, Endpoint>

  datatype Db = Db(tokens: Table, cnsis: Endpoints)

  /** What an access token says once decoded. */
  datatype Claims = Claims(subject: string, expiry: int, admin: bool)

  /**
   Configuration and the pure functions that belong to libraries: `claims` decodes a JWT, `parse`
   is `url.Parse` followed by `String`, `view` is the string of a stored URL after its path lost its
   trailing slashes, and `hash` is SHA-1 with base64.
   */
  datatype Config = Config(
    autoRegisterUrl: string,
    autoRegisterName: string,
    sso: bool,
    provider: Provider,
    claims: string -> Option<Claims>,
    parse: string -> Option<string>,
    view: string -> Option<string>,
    hash: string -> string)

  /** The reply of a token endpoint. */
  datatype Reply = Reply(access: string, refresh: string, id: string)

  datatype HandlerError =
    | BadRequest
    | DuplicateEndpoint
    | NotRegistered
    | Unauthorized
    | RemoteFailed
    | BadToken
    | StoreFailed(StoreError)
    | ProcessExit

  type Outcome = Result<(), HandlerError>

  function Stored(r: Result<(), StoreError>): Outcome {
    if r.Ok? then Ok(()) else Err(StoreFailed(r.error))
  }

  // ---------------------------------------------------------------- endpoints

  function TrimRight(s: string): string {
    if s != "" && s[|s| - 1] == '/' then TrimRight(s[..|s| - 1]) else s
  }

  function Lookup(cfg: Config, cnsis: Endpoints, guid: string): Option<Endpoint> {
    if guid in cnsis && cfg.view(cnsis[guid].api).Some? then Some(cnsis[guid]) else None
  }

  function GuidsOfApi(cnsis: Endpoints, api: string): set<string> {
    set g | g in cnsis && cnsis[g].api == api
  }

  predicate PicksApi(cnsis: Endpoints, api: string, pick: Option<string>) {
    match pick
    case None => GuidsOfApi(cnsis, api) == {}
    case Some(g) => g in GuidsOfApi(cnsis, api)
  }

  /** `info` is the endpoint type that the remote server reports, if it can be reached. */
  function Register(cfg: Config, cnsis: Endpoints, name: string, url: string, sso: bool, info: Option<string>)
    : (Endpoints, Result<string, HandlerError>)
  {
    if name == "" || url == "" then (cnsis, Err(BadRequest))
    else
      var api := TrimRight(url);
      if cfg.parse(api).None? then (cnsis, Err(BadRequest))
      else if GuidsOfApi(cnsis, api) != {} && cfg.view(api).Some? then (cnsis, Err(DuplicateEndpoint))
      else if info.None? then (cnsis, Err(RemoteFailed))
      else
        var normal := cfg.parse(api).value;
        var guid := cfg.hash(normal);
        if guid in cnsis then (cnsis, Err(DuplicateEndpoint))
        else (cnsis[guid := Endpoint(name, info.value, normal, sso)], Ok(guid))
  }

  function IsAutoRegistered(cfg: Config, e: Endpoint): bool {
    e.cnsiType == "cf" && cfg.view(e.api) == Some(TrimRight(cfg.autoRegisterUrl))
  }

  // ---------------------------------------------------------------- token records

  function UaaRecord(access: string, refresh: string, expiry: int): TokenRecord {
    TokenRecord("", access, refresh, expiry, false, OAUTH2, "", false, "")
  }

  function EndpointRecord(access: string, refresh: string, expiry: int, disconnected: bool): TokenRecord {
    TokenRecord("", access, refresh, expiry, disconnected, OAUTH2, "", false, "")
  }

  const CLEARED := "cleared_token"

  function ClearedRecord(): TokenRecord {
    EndpointRecord(CLEARED, CLEARED, 0, true)
  }

  // ---------------------------------------------------------------- handlers

  /** `saveAuthToken` for the user that the access token names. */
  function SaveLogin(cfg: Config, db: Db, reply: Reply, uuid: string): (Db, Outcome) {
    var claims := cfg.claims(reply.access);
    if claims.None? then (db, Err(BadToken))
    else
      var c := claims.value;
      var (t, r) := SaveAuth(db.tokens, c.subject, UaaRecord(reply.access, reply.refresh, c.expiry), uuid);
      (db.(tokens := t), Stored(r))
  }

  /** Whether the endpoint's UAA is the console's UAA, as far as the hook can tell. */
  datatype UaaMatch = Same | Different | BadUrl | Unreachable

  datatype HookChoices = HookChoices(
    known: Option<string>,          // row found by API endpoint
    info: Option<string>,           // reply to the registration probe
    lookup: LookupPicks,            // rows found for the user's endpoint token
    auth: Option<nat>,              // row found for the user's UAA token
    uaa: UaaMatch,
    connected: Option<TokenRecord>, // what connecting with credentials returned
    uuid: string)

  /** `DoLoginToCNSIwithConsoleUAAtoken`. */
  function LinkToUaa(cfg: Config, db: Db, guid: string, user: string, h: HookChoices): (Db, Outcome)
    requires Picks(db.tokens, UaaOf(user), h.auth)
  {
    match FindAuth(db.tokens, user, h.auth)
    case Err(e) => (db, Err(StoreFailed(e)))
    case Ok(uaa) =>
      var claims := cfg.claims(uaa.authToken);
      if claims.None? then (db, Err(BadToken))
      else match h.uaa
        case Unreachable => (db, Err(ProcessExit))
        case BadUrl => (db, Err(RemoteFailed))
        case Different => (db, Err(Unauthorized))
        case Same =>
          var (t, r) := SaveCnsi(db.tokens, guid, claims.value.subject, uaa.(linkedGuid := uaa.tokenGuid), h.uuid);
          var cnsis := if guid in db.cnsis then db.cnsis[guid := db.cnsis[guid].(ssoAllowed := true)] else db.cnsis;
          (Db(t, cnsis), Stored(r))
  }

  /** The part of `DoLoginToCNSI` after `connected` came back from the endpoint plugin. */
  function SaveConnected(cfg: Config, db: Db, guid: string, user: string, connected: Option<TokenRecord>, uuid: string)
    : (Db, Outcome)
  {
    if Lookup(cfg, db.cnsis, guid).None? then (db, Err(NotRegistered))
    else if connected.None? then (db, Err(RemoteFailed))
    else
      var (t, r) := SaveCnsi(db.tokens, guid, user, connected.value, uuid);
      (db.(tokens := t), Stored(r))
  }

  /** The endpoint the hook works on, registering it first if need be. */
  function HookEndpoint(cfg: Config, db: Db, h: HookChoices): (Db, Result<string, HandlerError>) {
    var api := TrimRight(cfg.autoRegisterUrl);
    if h.known.Some? && Lookup(cfg, db.cnsis, h.known.value).Some? && db.cnsis[h.known.value].cnsiType != "" then
      (db, Ok(h.known.value))
    else
      var name := if cfg.autoRegisterName == "" then "Cloud Foundry" else cfg.autoRegisterName;
      var (cnsis, r) := Register(cfg, db.cnsis, name, api, false, h.info);
      (db.(cnsis := cnsis), if r.Ok? then r else Err(ProcessExit))
  }

  predicate AutoConnectLegal(db: Db, guid: string, user: string, h: HookChoices) {
    PicksCnsi(db.tokens, guid, user, true, h.lookup) && Picks(db.tokens, UaaOf(user), h.auth)
  }

  predicate HookLegal(cfg: Config, db: Db, user: string, h: HookChoices) {
    && (h.info.Some? ==> h.info.value == "cf")
    && (h.connected.Some? ==> PluginRecord(h.connected.value))
    && (TrimRight(cfg.autoRegisterUrl) != "" ==>
          && PicksApi(db.cnsis, TrimRight(cfg.autoRegisterUrl), h.known)
          && var (db1, target) := HookEndpoint(cfg, db, h);
             target.Ok? ==> AutoConnectLegal(db1, target.value, user, h))
  }

  /** Endpoint plugins return unlinked, connected records. */
  predicate PluginRecord(tr: TokenRecord) {
    tr.linkedGuid == "" && !tr.disconnected
  }

  /** The second half of the hook: connect the user unless the user disconnected before. */
  function AutoConnect(cfg: Config, db: Db, guid: string, user: string, h: HookChoices): (Db, Outcome)
    requires AutoConnectLegal(db, guid, user, h)
  {
    var found := FindCnsi(db.tokens, guid, user, true, cfg.provider, h.lookup);
    if found.Ok? && found.value.disconnected then (db, Ok(()))
    else if cfg.sso then LinkToUaa(cfg, db, guid, user, h)
    else SaveConnected(cfg, db, guid, user, h.connected, h.uuid)
  }

  /** `cfLoginHook`, run for the user of the session after a login. */
  function Hook(cfg: Config, db: Db, user: string, h: HookChoices): (Db, Outcome)
    requires HookLegal(cfg, db, user, h)
  {
    if TrimRight(cfg.autoRegisterUrl) == "" then (db, Ok(()))
    else
      var (db1, target) := HookEndpoint(cfg, db, h);
      if target.Err? then (db1, Err(target.error))
      else AutoConnect(cfg, db1, target.value, user, h)
  }

  /** `getUAATokenWithRefreshToken` and what follows it, for a user whose UAA row was found. */
  function RefreshLogin(cfg: Config, db: Db, user: string, keepUser: bool, pick: Option<nat>, reply: Option<Reply>,
                        uuid: string)
    : (Db, Outcome)
    requires Picks(db.tokens, UaaOf(user), pick)
  {
    match FindAuth(db.tokens, user, pick)
    case Err(e) => (db, Err(StoreFailed(e)))
    case Ok(_) =>
      if reply.None? then (db, Err(RemoteFailed))
      else
        var claims := cfg.claims(reply.value.access);
        if claims.None? then (db, Err(BadToken))
        else
          var owner := if keepUser then user else claims.value.subject;
          var (t, r) := SaveAuth(db.tokens, owner,
                                 UaaRecord(reply.value.access, reply.value.refresh, claims.value.expiry), uuid);
          (db.(tokens := t), Stored(r))
  }

  /** Whether `user` is an administrator according to the stored UAA token. */
  function IsAdmin(cfg: Config, t: Table, user: string, pick: Option<nat>): bool
    requires Picks(t, UaaOf(user), pick)
  {
    var found := FindAuth(t, user, pick);
    found.Ok? && cfg.claims(found.value.authToken).Some? && cfg.claims(found.value.authToken).value.admin
  }

  /** `DoLoginToCNSI` as an explicit request. */
  function Connect(cfg: Config, db: Db, user: string, cnsi: string, shared: bool, auth: Option<nat>,
                   connected: Option<TokenRecord>, uuid: string): (Db, Outcome)
    requires Picks(db.tokens, UaaOf(user), auth)
  {
    if Lookup(cfg, db.cnsis, cnsi).None? then (db, Err(NotRegistered))
    else if shared && !IsAdmin(cfg, db.tokens, user, auth) then (db, Err(Unauthorized))
    else SaveConnected(cfg, db, cnsi, if shared then SYSTEM_SHARED_USER else user, connected, uuid)
  }

  /** `logoutOfCNSI`. */
  function Disconnect(cfg: Config, db: Db, user: string, cnsi: string, p: LookupPicks, auth: Option<nat>, uuid: string)
    : (Db, Outcome)
    requires PicksCnsi(db.tokens, cnsi, user, false, p) && Picks(db.tokens, UaaOf(user), auth)
  {
    if cnsi == "" then (db, Err(BadRequest))
    else if Lookup(cfg, db.cnsis, cnsi).None? then (db, Err(NotRegistered))
    else
      var found := FindCnsi(db.tokens, cnsi, user, false, cfg.provider, p);
      var shared := found.Ok? && found.value.systemShared;
      if shared && !IsAdmin(cfg, db.tokens, user, auth) then (db, Err(Unauthorized))
      else
        var owner := if shared then SYSTEM_SHARED_USER else user;
        var (t, r) := if IsAutoRegistered(cfg, db.cnsis[cnsi])
          then SaveCnsi(db.tokens, cnsi, owner, ClearedRecord(), uuid)
          else DeleteCnsi(db.tokens, cnsi, owner);
        (db.(tokens := t), Stored(r))
  }

  /** `RefreshOAuthToken`; on success also the record that the caller goes on with. */
  function RefreshOAuth(cfg: Config, db: Db, user: string, cnsi: string, p: LookupPicks, reply: Option<Reply>)
    : (Db, Result<TokenRecord, HandlerError>)
    requires PicksCnsi(db.tokens, cnsi, user, true, p)
  {
    match FindCnsi(db.tokens, cnsi, user, true, cfg.provider, p)
    case Err(e) => (db, Err(StoreFailed(e)))
    case Ok(found) =>
      if reply.None? then (db, Err(RemoteFailed))
      else
        var claims := cfg.claims(reply.value.access);
        if claims.None? then (db, Err(BadToken))
        else
          var tr := EndpointRecord(reply.value.access, reply.value.refresh, claims.value.expiry, found.disconnected)
                    .(tokenGuid := found.tokenGuid);
          var (t, r) := UpdateTokenAuth(db.tokens, user, tr);
          (db.(tokens := t), if r.Ok? then Ok(tr) else Err(StoreFailed(r.error)))
  }

  /** `RefreshOidcToken`, which saves the whole row and reads the claims of the ID token. */
  function RefreshOidc(cfg: Config, db: Db, user: string, cnsi: string, p: LookupPicks, reply: Option<Reply>,
                       uuid: string)
    : (Db, Result<TokenRecord, HandlerError>)
    requires PicksCnsi(db.tokens, cnsi, user, true, p)
  {
    match FindCnsi(db.tokens, cnsi, user, true, cfg.provider, p)
    case Err(e) => (db, Err(StoreFailed(e)))
    case Ok(found) =>
      if reply.None? then (db, Err(RemoteFailed))
      else
        var claims := cfg.claims(reply.value.id);
        if claims.None? then (db, Err(BadToken))
        else
          var tr := EndpointRecord(reply.value.access, reply.value.refresh, claims.value.expiry, found.disconnected)
                    .(authType := OIDC, metadata := found.metadata);
          var (t, r) := SaveCnsi(db.tokens, cnsi, user, tr, uuid);
          (db.(tokens := t), if r.Ok? then Ok(tr) else Err(StoreFailed(r.error)))
  }

  /** `unregisterCluster`, which ignores the errors of both deletes. */
  function Unregister(db: Db, cnsi: string): (Db, Outcome) {
    if cnsi == "" then (db, Err(BadRequest))
    else (Db(DeleteCnsiOfAnyone(db.tokens, cnsi).0, db.cnsis - {cnsi}), Ok(()))
  }

  // ---------------------------------------------------------------- events

  datatype Event =
    | LoginEvent(reply: Option<Reply>, uuid: string, hook: HookChoices)
    | StoreLoginEvent(reply: Option<Reply>, uuid: string)
    | RefreshUaaEvent(user: string, keepUser: bool, auth: Option<nat>, reply: Option<Reply>, uuid: string)
    | ConnectEvent(user: string, cnsi: string, shared: bool, auth: Option<nat>, connected: Option<TokenRecord>,
                   uuid: string)
    | DisconnectEvent(user: string, cnsi: string, picks: LookupPicks, auth: Option<nat>, uuid: string)
    | RefreshOAuthEvent(user: string, cnsi: string, picks: LookupPicks, reply: Option<Reply>)
    | RefreshOidcEvent(user: string, cnsi: string, picks: LookupPicks, reply: Option<Reply>, uuid: string)
    | RegisterEvent(name: string, url: string, sso: bool, info: Option<string>)
    | UnregisterEvent(cnsi: string)

  /** A refreshed access token names the same subject as the token it replaces. */
  predicate KeepsSubject(cfg: Config, before: string, after: string) {
    cfg.claims(before).Some? && cfg.claims(after).Some? ==>
      cfg.claims(before).value.subject == cfg.claims(after).value.subject
  }

  predicate RefreshKeepsSubject(cfg: Config, found: Result<TokenRecord, StoreError>, reply: Option<Reply>) {
    found.Ok? && reply.Some? ==> KeepsSubject(cfg, found.value.authToken, reply.value.access)
  }

  /** The login proper, before the hook. */
  function LoginSaved(cfg: Config, db: Db, reply: Option<Reply>, uuid: string): (Db, Outcome) {
    if reply.None? then (db, Err(RemoteFailed)) else SaveLogin(cfg, db, reply.value, uuid)
  }

  /** The choices that the SQL engine and the endpoint plugins make are possible ones. */
  predicate Choices(cfg: Config, db: Db, ev: Event) {
    match ev
    case LoginEvent(reply, uuid, h) =>
      var (db1, r) := LoginSaved(cfg, db, reply, uuid);
      r.Ok? ==> HookLegal(cfg, db1, cfg.claims(reply.value.access).value.subject, h)
    case RefreshUaaEvent(user, _, auth, _, _) => Picks(db.tokens, UaaOf(user), auth)
    case ConnectEvent(user, _, _, auth, connected, _) =>
      Picks(db.tokens, UaaOf(user), auth) && (connected.Some? ==> PluginRecord(connected.value))
    case DisconnectEvent(user, cnsi, picks, auth, _) =>
      PicksCnsi(db.tokens, cnsi, user, false, picks) && Picks(db.tokens, UaaOf(user), auth)
    case RefreshOAuthEvent(user, cnsi, picks, _) => PicksCnsi(db.tokens, cnsi, user, true, picks)
    case RefreshOidcEvent(user, cnsi, picks, _, _) => PicksCnsi(db.tokens, cnsi, user, true, picks)
    case _ => true
  }

  /** New UUIDs are new, and a refreshed access token names the subject it named before. */
  ghost predicate Honest(cfg: Config, db: Db, ev: Event)
    requires Choices(cfg, db, ev)
  {
    match ev
    case LoginEvent(reply, uuid, h) =>
      && Fresh(db.tokens, uuid)
      && var (db1, r) := LoginSaved(cfg, db, reply, uuid); (r.Ok? ==> Fresh(db1.tokens, h.uuid))
    case StoreLoginEvent(_, uuid) => Fresh(db.tokens, uuid)
    case RefreshUaaEvent(user, _, auth, reply, uuid) =>
      Fresh(db.tokens, uuid) && RefreshKeepsSubject(cfg, FindAuth(db.tokens, user, auth), reply)
    case ConnectEvent(_, _, _, _, _, uuid) => Fresh(db.tokens, uuid)
    case DisconnectEvent(_, _, _, _, uuid) => Fresh(db.tokens, uuid)
    case RefreshOAuthEvent(user, cnsi, picks, reply) =>
      RefreshKeepsSubject(cfg, FindCnsi(db.tokens, cnsi, user, true, cfg.provider, picks), reply)
    case RefreshOidcEvent(_, _, _, _, uuid) => Fresh(db.tokens, uuid)
    case RegisterEvent(_, _, _, _) => true
    case UnregisterEvent(_) => true
  }

  ghost predicate Legal(cfg: Config, db: Db, ev: Event) {
    Choices(cfg, db, ev) && Honest(cfg, db, ev)
  }

  /** A failed hook does not fail the login, unless it ends the process. */
  function LoginAnswer(hooked: Outcome): Outcome {
    if hooked == Err(ProcessExit) then hooked else Ok(())
  }

  function Apply(cfg: Config, db: Db, ev: Event): (Db, Outcome)
    requires Choices(cfg, db, ev)
  {
    match ev
    case LoginEvent(reply, uuid, h) =>
      var (db1, r) := LoginSaved(cfg, db, reply, uuid);
      if r.Err? then (db1, r)
      else
        var (db2, hooked) := Hook(cfg, db1, cfg.claims(reply.value.access).value.subject, h);
        (db2, LoginAnswer(hooked))
    case StoreLoginEvent(reply, uuid) => LoginSaved(cfg, db, reply, uuid)
    case RefreshUaaEvent(user, keepUser, auth, reply, uuid) => RefreshLogin(cfg, db, user, keepUser, auth, reply, uuid)
    case ConnectEvent(user, cnsi, shared, auth, connected, uuid) =>
      Connect(cfg, db, user, cnsi, shared, auth, connected, uuid)
    case DisconnectEvent(user, cnsi, picks, auth, uuid) => Disconnect(cfg, db, user, cnsi, picks, auth, uuid)
    case RefreshOAuthEvent(user, cnsi, picks, reply) =>
      var (db1, r) := RefreshOAuth(cfg, db, user, cnsi, picks, reply);
      (db1, if r.Ok? then Ok(()) else Err(r.error))
    case RefreshOidcEvent(user, cnsi, picks, reply, uuid) =>
      var (db1, r) := RefreshOidc(cfg, db, user, cnsi, picks, reply, uuid);
      (db1, if r.Ok? then Ok(()) else Err(r.error))
    case RegisterEvent(name, url, sso, info) =>
      var (cnsis, r) := Register(cfg, db.cnsis, name, url, sso, info);
      (db.(cnsis := cnsis), if r.Ok? then Ok(()) else Err(r.error))
    case UnregisterEvent(cnsi) => Unregister(db, cnsi)
  }

  ghost predicate LegalRun(cfg: Config, db: Db, evs: seq<Event>)
    decreases |evs|
  {
    evs != [] ==> Legal(cfg, db, evs[0]) && LegalRun(cfg, Apply(cfg, db, evs[0]).0, evs[1..])
  }

  ghost function Run(cfg: Config, db: Db, evs: seq<Event>): Db
    requires LegalRun(cfg, db, evs)
    decreases |evs|
  {
    if evs == [] then db else Run(cfg, Apply(cfg, db, evs[0]).0, evs[1..])
  }
}

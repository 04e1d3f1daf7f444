/** What each request does to the two tables, row by row, and when it succeeds. */
module LifecycleEffects {
  import opened Wrappers
  import opened TokenTable
  import opened TokenLaws
  import opened Lifecycle
  import opened LifecycleInvariants
  import opened LifecycleTheorems

  predicate HoldsTokens(r: Row, access: string, refresh: string, expiry: int) {
    r.auth == access && r.expiry == expiry && r.refresh == if refresh == "" then None else Some(refresh)
  }

  /** What was found holds the tokens of the row. */
  predicate ReadsTokens(tr: TokenRecord, r: Row) {
    tr.tokenGuid == r.tokenGuid && tr.authToken == r.auth && Some(tr.refreshToken) == r.refresh && tr.expiry == r.expiry
  }

  /** The user has a UAA row whose tokens can be read. */
  ghost predicate HasUaaToken(t: Table, user: string) {
    exists u <- t.rows :: t.rows[u].tokenType.Uaa? && t.rows[u].userGuid == user && t.rows[u].refresh.Some?
  }

  /** The user's row for the endpoint, if there is one, has this authentication type. */
  ghost predicate NoOtherAuthType(t: Table, cnsi: string, user: string, authType: string) {
    forall k <- t.rows :: IsCnsiOf(t.rows[k], cnsi, user) ==> t.rows[k].authType == authType
  }

  // ---------------------------------------------------------------- login and UAA refresh

  /** A login is stored exactly if its token can be decoded and names somebody, as that user's one UAA row. */
  lemma LoginWritesUaaRow(cfg: Config, db: Db, reply: Reply, uuid: string) returns (i: nat)
    requires Keys(db.tokens)
    ensures var (db', r) := SaveLogin(cfg, db, reply, uuid);
      var claims := cfg.claims(reply.access);
      && (r.Ok? <==> claims.Some? && claims.value.subject != "" && reply.access != "")
      && (r.Err? ==> db' == db)
      && (r.Ok? ==>
            && db'.cnsis == db.cnsis && OnlyRow(db.tokens, db'.tokens, i)
            && db'.tokens.rows[i].tokenType.Uaa? && db'.tokens.rows[i].userGuid == claims.value.subject
            && HoldsTokens(db'.tokens.rows[i], reply.access, reply.refresh, claims.value.expiry))
  {
    i := 0;
    if cfg.claims(reply.access).Some? {
      var c := cfg.claims(reply.access).value;
      i := SaveAuthWritesOneRow(db.tokens, c.subject, UaaRecord(reply.access, reply.refresh, c.expiry), uuid);
    }
  }

  /** A UAA refresh is stored for the user, or for whom the new token names, and writes no other row. */
  lemma RefreshWritesLogin(cfg: Config, db: Db, user: string, keepUser: bool, pick: Option<nat>, reply: Option<Reply>,
                           uuid: string) returns (i: nat)
    requires Keys(db.tokens) && Picks(db.tokens, UaaOf(user), pick)
    ensures var (db', r) := RefreshLogin(cfg, db, user, keepUser, pick, reply, uuid);
      && (r.Err? ==> db' == db)
      && (r.Ok? <==>
            && user != "" && HasUaaToken(db.tokens, user) && reply.Some? && reply.value.access != ""
            && cfg.claims(reply.value.access).Some?
            && (keepUser || cfg.claims(reply.value.access).value.subject != ""))
      && (r.Ok? ==>
            var claims := cfg.claims(reply.value.access).value;
            && db'.cnsis == db.cnsis && OnlyRow(db.tokens, db'.tokens, i) && db'.tokens.rows[i].tokenType.Uaa?
            && db'.tokens.rows[i].userGuid == (if keepUser then user else claims.subject)
            && HoldsTokens(db'.tokens.rows[i], reply.value.access, reply.value.refresh, claims.expiry))
  {
    i := 0;
    UaaLookup(db.tokens, user, pick);
    if reply.Some? && cfg.claims(reply.value.access).Some? {
      var c := cfg.claims(reply.value.access).value;
      i := SaveAuthWritesOneRow(db.tokens, if keepUser then user else c.subject,
                                UaaRecord(reply.value.access, reply.value.refresh, c.expiry), uuid);
    }
  }

  /** The UAA lookup answers exactly if there is a row that can be read, and gives what that row holds. */
  lemma UaaLookup(t: Table, user: string, pick: Option<nat>)
    requires Keys(t) && Picks(t, UaaOf(user), pick)
    ensures FindAuth(t, user, pick).Ok? <==> user != "" && HasUaaToken(t, user)
    ensures FindAuth(t, user, pick).Ok? ==>
      forall u <- t.rows | t.rows[u].tokenType.Uaa? && t.rows[u].userGuid == user ::
        var tr := FindAuth(t, user, pick).value;
        && ReadsTokens(tr, t.rows[u]) && !tr.systemShared && !tr.disconnected && tr.linkedGuid == ""
  {
    forall u <- t.rows | t.rows[u].tokenType.Uaa? && t.rows[u].userGuid == user
      ensures pick == Some(u)
    {
      assert u in Ids(t, UaaOf(user));
      assert Clash(t.rows[u], t.rows[pick.value]);
    }
  }

  /** Somebody is an administrator exactly if the stored UAA token can be read and says so. */
  lemma AdminBySavedToken(cfg: Config, t: Table, user: string, pick: Option<nat>)
    requires Keys(t) && Picks(t, UaaOf(user), pick)
    ensures IsAdmin(cfg, t, user, pick) <==>
      && user != ""
      && exists u <- t.rows ::
           && t.rows[u].tokenType.Uaa? && t.rows[u].userGuid == user && t.rows[u].refresh.Some?
           && cfg.claims(t.rows[u].auth).Some? && cfg.claims(t.rows[u].auth).value.admin
  {
    UaaLookup(t, user, pick);
  }

  // ---------------------------------------------------------------- linking to the console's UAA token

  /** Row `i` is the user's connected row for the endpoint, linked to the user's UAA row `j`. */
  ghost predicate IsLinked(t: Table, cnsi: string, user: string, i: nat, j: nat) {
    && i in t.rows && IsCnsiOf(t.rows[i], cnsi, user) && !t.rows[i].disconnected
    && LinksTo(t, i, j) && t.rows[i].auth == "LINKED TOKEN" && t.rows[i].refresh == Some("LINKED TOKEN")
  }

  /** Row `i` alone was written, and is linked to the UAA row that was found. */
  ghost predicate LinksRow(db: Db, db': Db, guid: string, user: string, i: nat, auth: Option<nat>) {
    OnlyRow(db.tokens, db'.tokens, i) && auth.Some? && IsLinked(db'.tokens, guid, user, i, auth.value)
  }

  /**
   The console token is linked only if the endpoint's UAA is the console's: if not, the answer is an
   error and neither a token row nor an endpoint changes.
   */
  lemma ForeignUaaIsRefused(cfg: Config, db: Db, guid: string, user: string, h: HookChoices)
    requires Picks(db.tokens, UaaOf(user), h.auth) && !h.uaa.Same?
    ensures var (db', r) := LinkToUaa(cfg, db, guid, user, h); r.Err? && db' == db
  {
  }

  /**
   If it is, linking succeeds exactly if the user's UAA token can be read and the endpoint row, if there
   is one, is an OAuth row. That row is then connected and linked to the UAA row, which like all other
   rows stays as it was.
   */
  lemma SameUaaIsLinked(cfg: Config, db: Db, guid: string, user: string, h: HookChoices) returns (i: nat)
    requires TokensInv(cfg, db.tokens) && Picks(db.tokens, UaaOf(user), h.auth) && h.uaa.Same?
    ensures var (db', r) := LinkToUaa(cfg, db, guid, user, h);
      && (r.Ok? <==> guid != "" && HasUaaToken(db.tokens, user) && NoOtherAuthType(db.tokens, guid, user, OAUTH2))
      && (r.Err? ==> db'.tokens == db.tokens)
      && (r.Ok? ==> LinksRow(db, db', guid, user, i, h.auth))
  {
    UaaLookup(db.tokens, user, h.auth);
    UaaUsersHaveNames(cfg, db.tokens, user);
    i := 0;
    if HasUaaToken(db.tokens, user) {
      i := LinkWritesRow(cfg, db, guid, user, h);
    }
  }

  lemma UaaUsersHaveNames(cfg: Config, t: Table, user: string)
    requires TokensInv(cfg, t)
    ensures HasUaaToken(t, user) ==> user != ""
  {
    assert forall u <- t.rows :: RowShape(cfg, t.rows[u]);
  }

  lemma LinkWritesRow(cfg: Config, db: Db, guid: string, user: string, h: HookChoices) returns (i: nat)
    requires TokensInv(cfg, db.tokens) && Picks(db.tokens, UaaOf(user), h.auth) && h.uaa.Same?
    requires FindAuth(db.tokens, user, h.auth).Ok?
    ensures var (db', r) := LinkToUaa(cfg, db, guid, user, h);
      && (r.Ok? <==> guid != "" && user != "" && NoOtherAuthType(db.tokens, guid, user, OAUTH2))
      && (r.Err? ==> db'.tokens == db.tokens)
      && (r.Ok? ==> LinksRow(db, db', guid, user, i, h.auth))
  {
    AuthLookup(cfg, db.tokens, user, h.auth);
    var uaa := FindAuth(db.tokens, user, h.auth).value;
    i := SaveCnsiWritesOneRow(db.tokens, guid, user, uaa.(linkedGuid := uaa.tokenGuid), h.uuid);
  }

  /** Which error it is, and that the endpoint allows single sign-on exactly if the link was tried. */
  lemma LinkMarksEndpoint(cfg: Config, db: Db, guid: string, user: string, h: HookChoices)
    requires TokensInv(cfg, db.tokens) && Picks(db.tokens, UaaOf(user), h.auth)
    ensures var (db', r) := LinkToUaa(cfg, db, guid, user, h);
      && db'.cnsis.Keys == db.cnsis.Keys
      && (forall g <- db.cnsis :: db'.cnsis[g] ==
            if g == guid && h.uaa.Same? && user != "" && HasUaaToken(db.tokens, user)
            then db.cnsis[g].(ssoAllowed := true) else db.cnsis[g])
      && (user != "" && HasUaaToken(db.tokens, user) ==>
            && (r == Err(ProcessExit) <==> h.uaa.Unreachable?)
            && (r == Err(RemoteFailed) <==> h.uaa.BadUrl?)
            && (r == Err(Unauthorized) <==> h.uaa.Different?))
  {
    UaaLookup(db.tokens, user, h.auth);
    if FindAuth(db.tokens, user, h.auth).Ok? {
      AuthLookup(cfg, db.tokens, user, h.auth);
    }
  }
  // ---------------------------------------------------------------- connecting with credentials

  /**
   A plugin's record is saved exactly if the endpoint is registered and the row of the endpoint and the
   owner, if there is one, has its authentication type; that row then holds the record and no other row
   or endpoint changes.
   */
  lemma ConnectedIsSaved(cfg: Config, db: Db, guid: string, owner: string, connected: Option<TokenRecord>, uuid: string)
    returns (i: nat)
    requires Keys(db.tokens) && (connected.Some? ==> PluginRecord(connected.value))
    ensures var (db', r) := SaveConnected(cfg, db, guid, owner, connected, uuid);
      && (r.Ok? <==>
            && Lookup(cfg, db.cnsis, guid).Some? && connected.Some? && guid != "" && owner != ""
            && connected.value.authToken != ""
            && NoOtherAuthType(db.tokens, guid, owner, connected.value.authType))
      && (r.Err? ==> db' == db)
      && (r.Ok? ==>
            && db'.cnsis == db.cnsis && OnlyRow(db.tokens, db'.tokens, i)
            && HoldsRecord(db'.tokens.rows[i], guid, owner, connected.value))
  {
    i := 0;
    if connected.Some? {
      i := SaveCnsiWritesOneRow(db.tokens, guid, owner, connected.value, uuid);
    }
  }

  predicate HoldsRecord(r: Row, cnsi: string, owner: string, tr: TokenRecord) {
    && IsCnsiOf(r, cnsi, owner) && HoldsTokens(r, tr.authToken, tr.refreshToken, tr.expiry)
    && !r.disconnected && r.linked.None? && r.authType == tr.authType && r.metadata == Some(tr.metadata)
  }

  /** A connect writes the row of the user or, for an administrator who shares it, of the system-shared user. */
  lemma ConnectWritesRow(cfg: Config, db: Db, user: string, cnsi: string, shared: bool, auth: Option<nat>,
                         connected: Option<TokenRecord>, uuid: string) returns (i: nat)
    requires Keys(db.tokens) && Picks(db.tokens, UaaOf(user), auth)
    requires connected.Some? ==> PluginRecord(connected.value)
    ensures var (db', r) := Connect(cfg, db, user, cnsi, shared, auth, connected, uuid);
      var owner := if shared then SYSTEM_SHARED_USER else user;
      && (r.Ok? <==>
            && Lookup(cfg, db.cnsis, cnsi).Some? && (shared ==> IsAdmin(cfg, db.tokens, user, auth))
            && connected.Some? && cnsi != "" && owner != "" && connected.value.authToken != ""
            && NoOtherAuthType(db.tokens, cnsi, owner, connected.value.authType))
      && (r.Err? ==> db' == db)
      && (r.Ok? ==>
            && db'.cnsis == db.cnsis && OnlyRow(db.tokens, db'.tokens, i)
            && HoldsRecord(db'.tokens.rows[i], cnsi, owner, connected.value))
  {
    i := ConnectedIsSaved(cfg, db, cnsi, if shared then SYSTEM_SHARED_USER else user, connected, uuid);
  }

  // ---------------------------------------------------------------- what an endpoint lookup reads

  /** A lookup reads a row of the user or of everybody, connected ones alone unless told otherwise. */
  lemma LookupReadsVisibleRow(t: Table, cnsi: string, user: string, inc: bool, provider: Provider, p: LookupPicks)
    requires PicksCnsi(t, cnsi, user, inc, p)
    ensures p.row.None? <==>
      forall k <- t.rows ::
        IsCnsiOf(t.rows[k], cnsi, user) || IsCnsiOf(t.rows[k], cnsi, SYSTEM_SHARED_USER) ==>
          t.rows[k].disconnected && !inc
    ensures p.row.None? ==> FindCnsi(t, cnsi, user, inc, provider, p).Err?
    ensures p.row.None? && cnsi != "" && user != "" ==> FindCnsi(t, cnsi, user, inc, provider, p) == Err(NoRows)
    ensures p.row.Some? && cnsi != "" && user != "" && t.rows[p.row.value].linked.None? ==>
      var found, r := FindCnsi(t, cnsi, user, inc, provider, p), t.rows[p.row.value];
      && (found.Ok? <==> r.refresh.Some?)
      && (found.Ok? ==>
            && ReadsTokens(found.value, r) && found.value.disconnected == r.disconnected
            && found.value.authType == r.authType && found.value.linkedGuid == ""
            && (found.value.systemShared <==> IsCnsiOf(r, cnsi, SYSTEM_SHARED_USER)))
  {
    forall k <- t.rows
      ensures k in Ids(t, RowClause(cnsi, user, inc)) <==>
        (IsCnsiOf(t.rows[k], cnsi, user) || IsCnsiOf(t.rows[k], cnsi, SYSTEM_SHARED_USER))
            && (inc || !t.rows[k].disconnected)
    {
    }
  }

  /**
   For a linked row the lookup reads the row of the same user that the link names, connected ones alone
   unless told otherwise, and fails if there is none.
   */
  lemma LookupFollowsLink(t: Table, cnsi: string, user: string, inc: bool, provider: Provider, p: LookupPicks)
    requires PicksCnsi(t, cnsi, user, inc, p) && cnsi != "" && user != "" && !provider.Mysql?
    requires p.row.Some? && t.rows[p.row.value].linked.Some?
    ensures var found, guid := FindCnsi(t, cnsi, user, inc, provider, p), t.rows[p.row.value].linked.value;
      && (p.link.None? <==>
            forall k <- t.rows :: t.rows[k].userGuid == user && t.rows[k].tokenGuid == guid
                ==> t.rows[k].disconnected && !inc)
      && (p.link.None? ==> found == Err(NoRows))
      && (p.link.Some? ==>
            && p.link.value in t.rows
            && var r := t.rows[p.link.value];
               && (found.Ok? <==> r.refresh.Some?)
               && (found.Ok? ==>
                     && ReadsTokens(found.value, r) && found.value.disconnected == r.disconnected
                     && found.value.authType == r.authType
                     && (found.value.linkedGuid == match r.linked case None => "" case Some(g) => g)
                     && (found.value.metadata == match r.metadata case None => "" case Some(m) => m)))
  {
    var guid := t.rows[p.row.value].linked.value;
    forall k <- t.rows
      ensures k in Ids(t, LinkClause(user, guid, inc)) <==>
        t.rows[k].userGuid == user && t.rows[k].tokenGuid == guid && (inc || !t.rows[k].disconnected)
    {
    }
  }

  /** A user without a visible row of their own finds the tokens that are shared with everybody. */
  lemma SharedRowIsFound(t: Table, cnsi: string, user: string, inc: bool, provider: Provider, p: LookupPicks, s: nat)
    requires Keys(t) && PicksCnsi(t, cnsi, user, inc, p) && cnsi != "" && user != ""
    requires s in t.rows && IsCnsiOf(t.rows[s], cnsi, SYSTEM_SHARED_USER) && (inc || !t.rows[s].disconnected)
    requires t.rows[s].linked.None? && t.rows[s].refresh.Some?
    requires forall k <- t.rows :: k != s && IsCnsiOf(t.rows[k], cnsi, user) ==> !inc && t.rows[k].disconnected
    ensures var found := FindCnsi(t, cnsi, user, inc, provider, p);
      found.Ok? && found.value.systemShared && ReadsTokens(found.value, t.rows[s])
  {
    LookupReadsVisibleRow(t, cnsi, user, inc, provider, p);
    assert Clash(t.rows[s], t.rows[p.row.value]) || p.row == Some(s);
  }

  // ---------------------------------------------------------------- disconnecting

  /** Only a Cloud Foundry under the configured URL, without its trailing slashes, is auto-registered. */
  lemma AutoRegisteredIsCloudFoundry(cfg: Config, e: Endpoint)
    ensures e.cnsiType != "cf" ==> !IsAutoRegistered(cfg, e)
    ensures e.cnsiType == "cf"
        ==> (IsAutoRegistered(cfg, e) <==> cfg.view(e.api) == Some(TrimRight(cfg.autoRegisterUrl)))
  {
  }

  /** A delete needs the GUIDs it deletes by, and then removes exactly the rows that have them. */
  lemma DeletesNeedGuids(t: Table, cnsi: string, user: string)
    ensures var (t', r) := DeleteCnsi(t, cnsi, user);
      && (r == Err(NoCnsiGuid) <==> cnsi == "") && (r == Err(NoUserGuid) <==> cnsi != "" && user == "")
      && (r.Err? ==> t' == t)
      && (r.Ok? ==> forall k :: k in t'.rows <==> k in t.rows && !IsCnsiOf(t.rows[k], cnsi, user))
      && forall k <- t'.rows :: t'.rows[k] == t.rows[k]
    ensures var (t', r) := DeleteCnsiOfAnyone(t, cnsi);
      && (if cnsi == "" then r == Err(NoCnsiGuid) && t' == t else r.Ok?)
      && forall k :: k in t.rows && k !in t'.rows ==> t.rows[k].tokenType.Cnsi? && t.rows[k].cnsiGuid == Some(cnsi)
  {
  }

  /** Whose row a disconnect is about: the shared one if that was found, or else the user's. */
  function Disconnected(cfg: Config, t: Table, cnsi: string, user: string, p: LookupPicks): string
    requires PicksCnsi(t, cnsi, user, false, p)
  {
    var found := FindCnsi(t, cnsi, user, false, cfg.provider, p);
    if found.Ok? && found.value.systemShared then SYSTEM_SHARED_USER else user
  }

  /** A disconnect fails without a change, or is about the one row of the endpoint and its owner. */
  lemma DisconnectSucceedsIff(cfg: Config, db: Db, user: string, cnsi: string, p: LookupPicks, auth: Option<nat>,
                              uuid: string)
    requires Keys(db.tokens) && user != SYSTEM_SHARED_USER
    requires PicksCnsi(db.tokens, cnsi, user, false, p) && Picks(db.tokens, UaaOf(user), auth)
    ensures var (db', r) := Disconnect(cfg, db, user, cnsi, p, auth, uuid);
      var owner := Disconnected(cfg, db.tokens, cnsi, user, p);
      && (r.Err? ==> db' == db) && db'.cnsis == db.cnsis
      && (r.Ok? <==>
            && cnsi != "" && user != "" && Lookup(cfg, db.cnsis, cnsi).Some?
            && (owner == SYSTEM_SHARED_USER ==> IsAdmin(cfg, db.tokens, user, auth))
            && (IsAutoRegistered(cfg, db.cnsis[cnsi]) ==> NoOtherAuthType(db.tokens, cnsi, owner, OAUTH2)))
  {
    var i := SaveCnsiWritesOneRow(db.tokens, cnsi, Disconnected(cfg, db.tokens, cnsi, user, p), ClearedRecord(), uuid);
  }

  /** After a disconnect from an endpoint that is not auto-registered that row is gone, and no other is. */
  lemma DisconnectRemovesRow(cfg: Config, db: Db, user: string, cnsi: string, p: LookupPicks, auth: Option<nat>,
                             uuid: string)
    requires PicksCnsi(db.tokens, cnsi, user, false, p) && Picks(db.tokens, UaaOf(user), auth)
    requires cnsi in db.cnsis && !IsAutoRegistered(cfg, db.cnsis[cnsi])
    requires Disconnect(cfg, db, user, cnsi, p, auth, uuid).1.Ok?
    ensures var t, t' := db.tokens, Disconnect(cfg, db, user, cnsi, p, auth, uuid).0.tokens;
      var owner := Disconnected(cfg, t, cnsi, user, p);
      && (forall k :: k in t'.rows <==> k in t.rows && !IsCnsiOf(t.rows[k], cnsi, owner))
      && (forall k <- t'.rows :: t'.rows[k] == t.rows[k])
  {
  }

  /** Without a shared row no later lookup of the user finds a token. */
  lemma DisconnectedIsNotFound(cfg: Config, db: Db, user: string, cnsi: string, p: LookupPicks, auth: Option<nat>,
                               uuid: string, inc: bool, provider: Provider, later: LookupPicks)
    requires PicksCnsi(db.tokens, cnsi, user, false, p) && Picks(db.tokens, UaaOf(user), auth)
    requires cnsi in db.cnsis && !IsAutoRegistered(cfg, db.cnsis[cnsi]) && NoShared(db.tokens, cnsi)
    requires Disconnect(cfg, db, user, cnsi, p, auth, uuid).1.Ok?
    requires PicksCnsi(Disconnect(cfg, db, user, cnsi, p, auth, uuid).0.tokens, cnsi, user, inc, later)
    ensures FindCnsi(Disconnect(cfg, db, user, cnsi, p, auth, uuid).0.tokens, cnsi, user, inc, provider, later)
        == Err(NoRows)
  {
    var t, t' := db.tokens, Disconnect(cfg, db, user, cnsi, p, auth, uuid).0.tokens;
    DisconnectRemovesRow(cfg, db, user, cnsi, p, auth, uuid);
    NothingShared(cfg, t, cnsi, user, p);
    LookupReadsVisibleRow(t', cnsi, user, inc, provider, later);
    forall k <- t'.rows
      ensures !IsCnsiOf(t'.rows[k], cnsi, user) && !IsCnsiOf(t'.rows[k], cnsi, SYSTEM_SHARED_USER)
    {
      assert k !in Ids(t, CnsiOf(cnsi, SYSTEM_SHARED_USER));
    }
  }

  lemma NothingShared(cfg: Config, t: Table, cnsi: string, user: string, p: LookupPicks)
    requires PicksCnsi(t, cnsi, user, false, p) && NoShared(t, cnsi)
    ensures Disconnected(cfg, t, cnsi, user, p) == user
  {
    assert p.row.Some? ==> p.row.value !in Ids(t, CnsiOf(cnsi, SYSTEM_SHARED_USER));
  }

  /** The auto-registered endpoint's row stays, cleared and disconnected, whoever it belonged to. */
  lemma DisconnectClearsRow(cfg: Config, db: Db, user: string, cnsi: string, p: LookupPicks, auth: Option<nat>,
                            uuid: string) returns (i: nat)
    requires Keys(db.tokens) && PicksCnsi(db.tokens, cnsi, user, false, p) && Picks(db.tokens, UaaOf(user), auth)
    requires cnsi in db.cnsis && IsAutoRegistered(cfg, db.cnsis[cnsi])
    requires Disconnect(cfg, db, user, cnsi, p, auth, uuid).1.Ok?
    ensures var t' := Disconnect(cfg, db, user, cnsi, p, auth, uuid).0.tokens;
      && OnlyRow(db.tokens, t', i) && ClearedRow(t'.rows[i], cnsi, Disconnected(cfg, db.tokens, cnsi, user, p))
      && HoldsTokens(t'.rows[i], "cleared_token", "cleared_token", 0) && t'.rows[i].metadata == Some("")
  {
    i := SaveCnsiWritesOneRow(db.tokens, cnsi, Disconnected(cfg, db.tokens, cnsi, user, p), ClearedRecord(), uuid);
  }

  // ---------------------------------------------------------------- refreshing endpoint tokens

  /** An OAuth refresh writes the reply and its expiry to the row with the GUID that was found, or nothing at all. */
  lemma RefreshOAuthWritesReply(cfg: Config, db: Db, user: string, cnsi: string, p: LookupPicks, reply: Option<Reply>)
    returns (i: nat)
    requires Keys(db.tokens) && PicksCnsi(db.tokens, cnsi, user, true, p)
    ensures var (db', r) := RefreshOAuth(cfg, db, user, cnsi, p, reply);
      var found := FindCnsi(db.tokens, cnsi, user, true, cfg.provider, p);
      && (r.Err? ==> db' == db)
      && (r.Ok? ==> found.Ok? && reply.Some? && cfg.claims(reply.value.access).Some?)
      && (r.Ok? ==>
            var expiry, rows := cfg.claims(reply.value.access).value.expiry, db.tokens.rows;
            && db'.cnsis == db.cnsis && i in rows && OnlyRow(db.tokens, db'.tokens, i)
            && rows[i].userGuid == user && rows[i].tokenGuid == found.value.tokenGuid
            && db'.tokens.rows[i] == rows[i].(auth := reply.value.access, refresh := Some(reply.value.refresh),
                                              expiry := expiry)
            && r.value.authToken == reply.value.access && r.value.refreshToken == reply.value.refresh
            && r.value.expiry == expiry && r.value.tokenGuid == found.value.tokenGuid
            && r.value.disconnected == found.value.disconnected && r.value.authType == "OAuth2"
            && r.value.metadata == "" && r.value.linkedGuid == "" && !r.value.systemShared)
  {
    var found := FindCnsi(db.tokens, cnsi, user, true, cfg.provider, p);
    i := 0;
    if found.Ok? && reply.Some? && cfg.claims(reply.value.access).Some? {
      var tr := EndpointRecord(reply.value.access, reply.value.refresh, cfg.claims(reply.value.access).value.expiry,
                               found.value.disconnected).(tokenGuid := found.value.tokenGuid);
      i := UpdateTokenAuthWritesOneRow(db.tokens, user, tr);
    }
  }

  /**
   An OIDC refresh takes the expiry from the ID token and writes the row of the endpoint and the user, with
   the metadata that was found; it succeeds exactly if that row, if there is one, is an OIDC row.
   */
  lemma RefreshOidcWritesReply(cfg: Config, db: Db, user: string, cnsi: string, p: LookupPicks, reply: Option<Reply>,
                               uuid: string) returns (i: nat)
    requires Keys(db.tokens) && PicksCnsi(db.tokens, cnsi, user, true, p)
    ensures var (db', r) := RefreshOidc(cfg, db, user, cnsi, p, reply, uuid);
      var found := FindCnsi(db.tokens, cnsi, user, true, cfg.provider, p);
      && (r.Err? ==> db' == db)
      && (r.Ok? <==>
            && found.Ok? && reply.Some? && reply.value.access != "" && cfg.claims(reply.value.id).Some?
            && NoOtherAuthType(db.tokens, cnsi, user, OIDC))
      && (r.Ok? ==>
            var expiry := cfg.claims(reply.value.id).value.expiry;
            && db'.cnsis == db.cnsis && OnlyRow(db.tokens, db'.tokens, i)
            && var row := db'.tokens.rows[i];
               && IsCnsiOf(row, cnsi, user) && HoldsTokens(row, reply.value.access, reply.value.refresh, expiry)
               && row.authType == "OIDC" && row.linked.None? && row.disconnected == found.value.disconnected
               && row.metadata == Some(found.value.metadata)
               && HoldsTokens(row, r.value.authToken, r.value.refreshToken, r.value.expiry)
               && r.value.linkedGuid == "" && !r.value.systemShared)
  {
    var found := FindCnsi(db.tokens, cnsi, user, true, cfg.provider, p);
    i := 0;
    if found.Ok? && reply.Some? && cfg.claims(reply.value.id).Some? {
      var tr := EndpointRecord(reply.value.access, reply.value.refresh, cfg.claims(reply.value.id).value.expiry,
                               found.value.disconnected).(authType := OIDC, metadata := found.value.metadata);
      i := SaveCnsiWritesOneRow(db.tokens, cnsi, user, tr, uuid);
    }
  }

  // ---------------------------------------------------------------- endpoints

  /** Unregistering removes the endpoint and its token rows, whoever owns them, and nothing else. */
  lemma UnregisterRemoves(db: Db, cnsi: string)
    ensures var (db', r) := Unregister(db, cnsi);
      && (r.Ok? <==> cnsi != "") && (r.Err? ==> db' == db)
      && (r.Ok? ==>
            && (forall g :: g in db'.cnsis <==> g in db.cnsis && g != cnsi)
            && (forall g <- db'.cnsis :: db'.cnsis[g] == db.cnsis[g])
            && (forall k :: k in db'.tokens.rows <==>
                  k in db.tokens.rows && !(db.tokens.rows[k].tokenType.Cnsi?
                                           && db.tokens.rows[k].cnsiGuid == Some(cnsi)))
            && (forall k <- db'.tokens.rows :: db'.tokens.rows[k] == db.tokens.rows[k]))
  {
  }

  /** Trimming takes trailing slashes away, all of them and nothing else. */
  lemma {:induction false} TrimRightTakesSlashes(s: string)
    ensures TrimRight(s) <= s && (TrimRight(s) != "" ==> TrimRight(s)[|TrimRight(s)| - 1] != '/')
    ensures forall i | |TrimRight(s)| <= i < |s| :: s[i] == '/'
    decreases |s|
  {
    if s != "" && s[|s| - 1] == '/' {
      TrimRightTakesSlashes(s[..|s| - 1]);
    }
  }

  /**
   A registration succeeds exactly if name and URL are given and parse, the server can be reached, and
   neither the API string nor the GUID is taken; it then adds the endpoint in normal form.
   */
  lemma RegisterAddsEndpoint(cfg: Config, cnsis: Endpoints, name: string, url: string, sso: bool, info: Option<string>)
    ensures var (cnsis', r) := Register(cfg, cnsis, name, url, sso, info);
      var normal := cfg.parse(TrimRight(url));
      && (r.Ok? <==>
            && name != "" && url != "" && normal.Some? && info.Some? && cfg.hash(normal.value) !in cnsis
            && (cfg.view(TrimRight(url)).Some? ==> forall g <- cnsis :: cnsis[g].api != TrimRight(url)))
      && (r.Err? ==> cnsis' == cnsis)
      && (r.Ok? ==>
            && r.value == cfg.hash(normal.value) && cnsis'.Keys == cnsis.Keys + {r.value}
            && (forall g <- cnsis :: cnsis'[g] == cnsis[g])
            && cnsis'[r.value].name == name && cnsis'[r.value].cnsiType == info.value
            && cnsis'[r.value].api == normal.value && cnsis'[r.value].ssoAllowed == sso)
      && (r == Err(BadRequest) <==> name == "" || url == "" || normal.None?)
  {
    assert GuidsOfApi(cnsis, TrimRight(url)) == {} <==> forall g <- cnsis :: cnsis[g].api != TrimRight(url) by {
      assert forall g <- cnsis :: cnsis[g].api == TrimRight(url) <==> g in GuidsOfApi(cnsis, TrimRight(url));
    }
  }

  // ---------------------------------------------------------------- the hook

  /** The hook works on the endpoint that was found, or on a new one that does not allow single sign-on. */
  lemma HookEndpointIsFoundOrNew(cfg: Config, db: Db, h: HookChoices)
    ensures var (db1, target) := HookEndpoint(cfg, db, h);
      && db1.tokens == db.tokens && (forall g <- db.cnsis :: g in db1.cnsis && db1.cnsis[g] == db.cnsis[g])
      && (h.known.Some? && Lookup(cfg, db.cnsis, h.known.value).Some? && db.cnsis[h.known.value].cnsiType != "" ==>
            db1 == db && target == Ok(h.known.value))
      && (target.Err? ==> db1 == db && target == Err(ProcessExit))
      && (target.Ok? ==> target.value in db1.cnsis)
      && (forall g <- db1.cnsis | g !in db.cnsis ::
            && target == Ok(g) && !db1.cnsis[g].ssoAllowed && h.info == Some(db1.cnsis[g].cnsiType)
            && cfg.parse(TrimRight(TrimRight(cfg.autoRegisterUrl))) == Some(db1.cnsis[g].api)
            && db1.cnsis[g].name == if cfg.autoRegisterName == "" then "Cloud Foundry" else cfg.autoRegisterName)
  {
  }

  /** When the endpoint was not found, it is registered exactly if that is possible, under whatever name. */
  lemma HookRegistersIfPossible(cfg: Config, db: Db, user: string, h: HookChoices)
    requires HookLegal(cfg, db, user, h) && TrimRight(cfg.autoRegisterUrl) != "" && h.known.None?
    ensures var (db1, target) := HookEndpoint(cfg, db, h);
      var normal := cfg.parse(TrimRight(cfg.autoRegisterUrl));
      && (target.Ok? <==> normal.Some? && h.info.Some? && cfg.hash(normal.value) !in db.cnsis)
      && (target.Ok? ==> target == Ok(cfg.hash(normal.value)) && db1.cnsis[target.value].cnsiType == "cf")
  {
    var url := TrimRight(cfg.autoRegisterUrl);
    TrimRightTwice(cfg.autoRegisterUrl);
    RegisterAddsEndpoint(cfg, db.cnsis, if cfg.autoRegisterName == "" then "Cloud Foundry" else cfg.autoRegisterName,
                         url, false, h.info);
    assert forall g <- db.cnsis :: db.cnsis[g].api == url <==> g in GuidsOfApi(db.cnsis, url);
  }

  /** Whether the hook leaves the user disconnected, because that is how it finds the endpoint. */
  predicate FoundDisconnected(cfg: Config, db: Db, guid: string, user: string, h: HookChoices)
    requires AutoConnectLegal(db, guid, user, h)
  {
    var found := FindCnsi(db.tokens, guid, user, true, cfg.provider, h.lookup);
    found.Ok? && found.value.disconnected
  }

  /** With a foreign UAA server the hook links nothing: token rows and endpoints stay as they were. */
  lemma HookRefusesForeignUaa(cfg: Config, db: Db, user: string, h: HookChoices)
    requires HookLegal(cfg, db, user, h) && cfg.sso && !h.uaa.Same? && TrimRight(cfg.autoRegisterUrl) != ""
    ensures var (db', r) := Hook(cfg, db, user, h);
      var (db1, target) := HookEndpoint(cfg, db, h);
      && db' == db1 && db'.tokens == db.tokens
           && (forall g <- db.cnsis :: g in db'.cnsis && db'.cnsis[g] == db.cnsis[g])
      && (r.Ok? <==> target.Ok? && FoundDisconnected(cfg, db1, target.value, user, h))
  {
    HookEndpointIsFoundOrNew(cfg, db, h);
    var (db1, target) := HookEndpoint(cfg, db, h);
    if target.Ok? {
      ForeignUaaIsRefused(cfg, db1, target.value, user, h);
    }
  }

  /**
   A hook that succeeds found the user disconnected and changed no row, or it wrote the user's row for the
   endpoint: linked to the UAA row with single sign-on, and otherwise with what the plugin returned.
   */
  lemma HookWritesRow(cfg: Config, db: Db, user: string, h: HookChoices) returns (i: nat)
    requires Inv(cfg, db) && HookLegal(cfg, db, user, h) && TrimRight(cfg.autoRegisterUrl) != ""
    ensures var (db', r) := Hook(cfg, db, user, h);
      var (db1, target) := HookEndpoint(cfg, db, h);
      && (r.Err? ==> db'.tokens == db.tokens) && (r.Ok? ==> target.Ok?)
      && (r.Ok? && FoundDisconnected(cfg, db1, target.value, user, h) ==> db' == db1)
      && (r.Ok? && !FoundDisconnected(cfg, db1, target.value, user, h) ==>
            if cfg.sso then h.uaa.Same? && LinksRow(db, db', target.value, user, i, h.auth)
            else && h.connected.Some? && OnlyRow(db.tokens, db'.tokens, i)
                 && HoldsRecord(db'.tokens.rows[i], target.value, user, h.connected.value))
  {
    HookEndpointIsFoundOrNew(cfg, db, h);
    var (db1, target) := HookEndpoint(cfg, db, h);
    i := 0;
    if target.Ok? {
      if !cfg.sso {
        i := ConnectedIsSaved(cfg, db1, target.value, user, h.connected, h.uuid);
      } else if h.uaa.Same? {
        i := SameUaaIsLinked(cfg, db1, target.value, user, h);
      } else {
        ForeignUaaIsRefused(cfg, db1, target.value, user, h);
      }
    }
  }
  // ---------------------------------------------------------------- a whole login

  /** A login that was saved is answered with an error exactly if the hook ends the process. */
  lemma LoginAnswers(cfg: Config, db: Db, reply: Reply, uuid: string, h: HookChoices)
    requires Inv(cfg, db) && Legal(cfg, db, LoginEvent(Some(reply), uuid, h)) && SaveLogin(cfg, db, reply, uuid).1.Ok?
    ensures var r := Apply(cfg, db, LoginEvent(Some(reply), uuid, h)).1;
      var saved, user := SaveLogin(cfg, db, reply, uuid).0, cfg.claims(reply.access).value.subject;
      var (db1, target) := HookEndpoint(cfg, saved, h);
      r.Err? <==>
        && TrimRight(cfg.autoRegisterUrl) != ""
        && (target.Err?
            || (cfg.sso && h.uaa.Unreachable? && HasUaaToken(saved.tokens, user)
                && !FoundDisconnected(cfg, db1, target.value, user, h)))
  {
    LoginKeepsInv(cfg, db, Some(reply), uuid);
    var saved, user := SaveLogin(cfg, db, reply, uuid).0, cfg.claims(reply.access).value.subject;
    var (db1, target) := HookEndpoint(cfg, saved, h);
    HookEndpointIsFoundOrNew(cfg, saved, h);
    if TrimRight(cfg.autoRegisterUrl) != "" && target.Ok? {
      UaaLookup(db1.tokens, user, h.auth);
      LinkMarksEndpoint(cfg, db1, target.value, user, h);
    }
  }

  /**
   After a login with single sign-on whose hook succeeds for a user who had not disconnected, the user's row
   for the endpoint is linked to a UAA row that holds the tokens of this very login.
   */
  lemma LoginConnects(cfg: Config, db: Db, reply: Reply, uuid: string, h: HookChoices) returns (i: nat, j: nat)
    requires Inv(cfg, db) && Legal(cfg, db, LoginEvent(Some(reply), uuid, h)) && SaveLogin(cfg, db, reply, uuid).1.Ok?
    requires cfg.sso && TrimRight(cfg.autoRegisterUrl) != ""
    requires var saved, user := SaveLogin(cfg, db, reply, uuid).0, cfg.claims(reply.access).value.subject;
      var (db1, target) := HookEndpoint(cfg, saved, h);
      && Hook(cfg, saved, user, h).1.Ok? && target.Ok? && !FoundDisconnected(cfg, db1, target.value, user, h)
    ensures var claims := cfg.claims(reply.access).value;
      var saved, t' := SaveLogin(cfg, db, reply, uuid).0, Apply(cfg, db, LoginEvent(Some(reply), uuid, h)).0.tokens;
      && IsLinked(t', HookEndpoint(cfg, saved, h).1.value, claims.subject, i, j)
      && HoldsTokens(t'.rows[j], reply.access, reply.refresh, claims.expiry)
  {
    var saved, user := SaveLogin(cfg, db, reply, uuid).0, cfg.claims(reply.access).value.subject;
    LoginKeepsInv(cfg, db, Some(reply), uuid);
    j := LoginWritesUaaRow(cfg, db, reply, uuid);
    i := HookWritesRow(cfg, saved, user, h);
    assert Clash(saved.tokens.rows[j], saved.tokens.rows[h.auth.value]);
  }
  // ---------------------------------------------------------------- errors, and requests as events

  /** Which error comes first when several apply. */
  lemma FirstErrors(cfg: Config, db: Db, user: string, cnsi: string, shared: bool, p: LookupPicks, auth: Option<nat>,
                    connected: Option<TokenRecord>, uuid: string)
    requires PicksCnsi(db.tokens, cnsi, user, false, p) && Picks(db.tokens, UaaOf(user), auth)
    ensures var r := Connect(cfg, db, user, cnsi, shared, auth, connected, uuid).1;
      && (r == Err(NotRegistered) <==> Lookup(cfg, db.cnsis, cnsi).None?)
      && (r == Err(Unauthorized)
          <==> Lookup(cfg, db.cnsis, cnsi).Some? && shared && !IsAdmin(cfg, db.tokens, user, auth))
      && (r == Err(RemoteFailed) ==> connected.None?)
    ensures var r := Disconnect(cfg, db, user, cnsi, p, auth, uuid).1;
      && (r == Err(BadRequest) <==> cnsi == "")
      && (r == Err(NotRegistered) <==> cnsi != "" && Lookup(cfg, db.cnsis, cnsi).None?)
  {
  }

  /** An endpoint can be used exactly if it is registered and its stored URL can be read. */
  lemma RegisteredEndpoint(cfg: Config, cnsis: Endpoints, guid: string)
    ensures Lookup(cfg, cnsis, guid).Some? <==> guid in cnsis && cfg.view(cnsis[guid].api).Some?
    ensures Lookup(cfg, cnsis, guid).Some? ==> Lookup(cfg, cnsis, guid).value == cnsis[guid]
  {
  }

  /** The answers to refreshes and registrations are those of the handlers, and what they wrote is kept. */
  lemma EventsAnswer(cfg: Config, db: Db, ev: Event)
    requires Choices(cfg, db, ev)
    ensures ev.RefreshOAuthEvent? ==>
      var r := RefreshOAuth(cfg, db, ev.user, ev.cnsi, ev.picks, ev.reply);
      Apply(cfg, db, ev).0 == r.0 && (Apply(cfg, db, ev).1.Ok? <==> r.1.Ok?)
    ensures ev.RefreshOidcEvent? ==>
      var r := RefreshOidc(cfg, db, ev.user, ev.cnsi, ev.picks, ev.reply, ev.uuid);
      Apply(cfg, db, ev).0 == r.0 && (Apply(cfg, db, ev).1.Ok? <==> r.1.Ok?)
    ensures ev.RegisterEvent? ==>
      var r := Register(cfg, db.cnsis, ev.name, ev.url, ev.sso, ev.info);
      && Apply(cfg, db, ev).0.tokens == db.tokens && Apply(cfg, db, ev).0.cnsis == r.0
      && (Apply(cfg, db, ev).1.Ok? <==> r.1.Ok?)
  {
  }
}

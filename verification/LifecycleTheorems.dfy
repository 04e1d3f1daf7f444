/** The promises of the token and endpoint stores, for every run. */
module LifecycleTheorems {
  import opened Wrappers
  import opened TokenTable
  import opened TokenLaws
  import opened Lifecycle
  import opened LifecycleInvariants

  import SqlPlaceholders

  // ---------------------------------------------------------------- table keys

  lemma AtMostOne(s: set<nat>)
    requires forall i, j | i in s && j in s :: i == j
    ensures |s| <= 1
  {
    if s != {} {
      var i :| i in s;
      assert s == {i};
    }
  }

  /** A clause whose rows would clash with each other matches at most one. */
  lemma OneRowPerKey(t: Table, w: Where)
    requires Keys(t) && (w.UaaOf? || w.CnsiOf? || w.ByGuid?)
    ensures |Ids(t, w)| <= 1
  {
    forall i, j | i in Ids(t, w) && j in Ids(t, w)
      ensures i == j
    {
      assert Clash(t.rows[i], t.rows[j]);
    }
    AtMostOne(Ids(t, w));
  }

  /** After every run each clause that addresses one row matches at most one. */
  lemma RunKeepsTableKeys(cfg: Config, db: Db, evs: seq<Event>, user: string, cnsi: string, guid: string)
    requires Inv(cfg, db) && LegalRun(cfg, db, evs)
    ensures var t := Run(cfg, db, evs).tokens;
      && |Ids(t, UaaOf(user))| <= 1 && |Ids(t, CnsiOf(cnsi, user))| <= 1 && |Ids(t, ByGuid(user, guid))| <= 1
  {
    RunKeepsInv(cfg, db, evs);
    var t := Run(cfg, db, evs).tokens;
    OneRowPerKey(t, UaaOf(user));
    OneRowPerKey(t, CnsiOf(cnsi, user));
    OneRowPerKey(t, ByGuid(user, guid));
  }

  // ---------------------------------------------------------------- endpoints

  /**
   After every run no two endpoints share an API string, whatever hash function and URL parser are
   in use, and every endpoint token belongs to a registered endpoint.
   */
  lemma RunKeepsEndpointKeys(cfg: Config, db: Db, evs: seq<Event>)
    requires Inv(cfg, db) && LegalRun(cfg, db, evs)
    ensures var end := Run(cfg, db, evs);
      && (forall g, g' | g in end.cnsis && g' in end.cnsis && end.cnsis[g].api == end.cnsis[g'].api :: g == g')
      && (forall i <- end.tokens.rows | end.tokens.rows[i].tokenType.Cnsi? ::
            exists g <- end.cnsis :: end.tokens.rows[i].cnsiGuid == Some(g))
  {
    RunKeepsInv(cfg, db, evs);
    var end := Run(cfg, db, evs);
    forall i <- end.tokens.rows | end.tokens.rows[i].tokenType.Cnsi?
      ensures exists g <- end.cnsis :: end.tokens.rows[i].cnsiGuid == Some(g)
    {
      assert RowShape(cfg, end.tokens.rows[i]);
      assert end.tokens.rows[i].cnsiGuid == Some(end.tokens.rows[i].cnsiGuid.value);
    }
  }

  /**
   Registering a URL again under any name and in any later state either fails without a change or
   stores the endpoint under the GUID it had; it succeeds once the endpoint is unregistered.
   */
  lemma ReregisterGivesSameGuid(cfg: Config, cnsis: Endpoints, later: Endpoints, name: string, name2: string,
                                url: string, sso: bool, info: Option<string>, info2: Option<string>)
    requires Register(cfg, cnsis, name, url, sso, info).1.Ok?
    requires GuidIsHash(cfg, later)
    ensures var guid := Register(cfg, cnsis, name, url, sso, info).1.value;
      var (after, again) := Register(cfg, later, name2, url, sso, info2);
      && (again.Ok? ==> again.value == guid && guid !in later && after.Keys == later.Keys + {guid})
      && (again.Err? ==> after == later)
      && (guid in later ==> again.Err?)
      && (guid !in later && name2 != "" && info2.Some? && cfg.parse(TrimRight(url)) == Some(TrimRight(url))
          ==> again.Ok?)
  {
    var api := TrimRight(url);
    if cfg.parse(api) == Some(api) && cfg.hash(api) !in later {
      assert forall g <- later :: g !in GuidsOfApi(later, api);
    }
  }

  /**
   Once the auto-registered endpoint is stored, the hook finds it again exactly when its configured
   URL is in normal form; otherwise every later login stops the process.
   */
  lemma HookFindsItsEndpoint(cfg: Config, db: Db, h: HookChoices)
    requires Inv(cfg, db) && PicksApi(db.cnsis, TrimRight(cfg.autoRegisterUrl), h.known)
    requires forall g <- db.cnsis :: cfg.parse(db.cnsis[g].api) == Some(db.cnsis[g].api)
    requires cfg.parse(TrimRight(cfg.autoRegisterUrl)).Some?
    requires var normal := cfg.parse(TrimRight(cfg.autoRegisterUrl)).value;
      && cfg.hash(normal) in db.cnsis && db.cnsis[cfg.hash(normal)].api == normal
      && db.cnsis[cfg.hash(normal)].cnsiType == "cf" && cfg.view(normal).Some?
    ensures var normal := cfg.parse(TrimRight(cfg.autoRegisterUrl)).value;
      var (db1, found) := HookEndpoint(cfg, db, h);
      && db1 == db
      && (if normal == TrimRight(cfg.autoRegisterUrl) then found == Ok(cfg.hash(normal)) else found == Err(ProcessExit))
  {
    var normal := cfg.parse(TrimRight(cfg.autoRegisterUrl)).value;
    TrimRightTwice(cfg.autoRegisterUrl);
    if normal == TrimRight(cfg.autoRegisterUrl) {
      assert cfg.hash(normal) in GuidsOfApi(db.cnsis, normal);
    } else {
      assert forall g <- db.cnsis :: g !in GuidsOfApi(db.cnsis, TrimRight(cfg.autoRegisterUrl));
    }
  }

  lemma {:induction false} TrimRightTwice(s: string)
    ensures TrimRight(TrimRight(s)) == TrimRight(s)
    decreases |s|
  {
    if s != "" && s[|s| - 1] == '/' {
      TrimRightTwice(s[..|s| - 1]);
    }
  }

  // ---------------------------------------------------------------- link coherence

  /** Two lookups agree: they give the same tokens of the same row, or the same error. */
  predicate SameTokens(a: Result<TokenRecord, StoreError>, b: Result<TokenRecord, StoreError>) {
    if a.Err? || b.Err? then a == b
    else && a.value.tokenGuid == b.value.tokenGuid && a.value.authToken == b.value.authToken
         && a.value.refreshToken == b.value.refreshToken && a.value.expiry == b.value.expiry
  }

  predicate NoShared(t: Table, cnsi: string) {
    Ids(t, CnsiOf(cnsi, SYSTEM_SHARED_USER)) == {}
  }

  /** Without a shared row the engine has only the user's own linked row to pick. */
  lemma OwnLinkedRowIsPicked(cfg: Config, t: Table, i: nat, cnsi: string, user: string, inc: bool, p: LookupPicks)
    requires TokensInv(cfg, t) && NoShared(t, cnsi)
    requires i in t.rows && IsCnsiOf(t.rows[i], cnsi, user) && t.rows[i].linked.Some?
    requires PicksCnsi(t, cnsi, user, inc, p)
    ensures p.row == Some(i) && cnsi != "" && user != ""
  {
    assert RowShape(cfg, t.rows[i]);
    assert i in Ids(t, RowClause(cnsi, user, inc));
    assert forall k <- t.rows ::
        IsCnsiOf(t.rows[k], cnsi, SYSTEM_SHARED_USER) ==> k in Ids(t, CnsiOf(cnsi, SYSTEM_SHARED_USER));
  }

  /**
   For a linked row the endpoint lookup is the lookup of the owner's UAA token, whichever rows the
   engine picks, exactly when the provider is not MySQL, where the statement that follows a link binds no
   argument; and the link does not dangle.
   */
  lemma LinkCoherence(cfg: Config, t: Table, i: nat, cnsi: string, user: string, inc: bool, p: LookupPicks,
                      pick: Option<nat>)
    requires TokensInv(cfg, t) && NoShared(t, cnsi)
    requires i in t.rows && IsCnsiOf(t.rows[i], cnsi, user) && t.rows[i].linked.Some?
    requires PicksCnsi(t, cnsi, user, inc, p) && Picks(t, UaaOf(user), pick)
    ensures p.row == Some(i) && pick.Some? && p.link == pick
    ensures var found, uaa := FindCnsi(t, cnsi, user, inc, cfg.provider, p), FindAuth(t, user, pick);
      && SameTokens(FindCnsi(t, cnsi, user, inc, SqlPlaceholders.Postgres, p), uaa)
      && (uaa.Ok? ==> (SameTokens(found, uaa) <==> !cfg.provider.Mysql?))
  {
    OwnLinkedRowIsPicked(cfg, t, i, cnsi, user, inc, p);
    LinkedLookup(cfg, t, cnsi, user, inc, p);
  }

  lemma RunKeepsLinksCoherent(cfg: Config, db: Db, evs: seq<Event>, i: nat, cnsi: string, user: string, inc: bool,
                              p: LookupPicks, pick: Option<nat>)
    requires Inv(cfg, db) && LegalRun(cfg, db, evs) && !cfg.provider.Mysql?
    requires var t := Run(cfg, db, evs).tokens;
      && NoShared(t, cnsi) && i in t.rows && IsCnsiOf(t.rows[i], cnsi, user) && t.rows[i].linked.Some?
      && PicksCnsi(t, cnsi, user, inc, p) && Picks(t, UaaOf(user), pick)
    ensures var t := Run(cfg, db, evs).tokens;
      SameTokens(FindCnsi(t, cnsi, user, inc, cfg.provider, p), FindAuth(t, user, pick))
  {
    RunKeepsInv(cfg, db, evs);
    LinkCoherence(cfg, Run(cfg, db, evs).tokens, i, cnsi, user, inc, p, pick);
  }

  /** The tokens of a record. */
  predicate HasTokens(r: Result<TokenRecord, StoreError>, tr: TokenRecord) {
    r.Ok? && r.value.authToken == tr.authToken && r.value.refreshToken == tr.refreshToken && r.value.expiry == tr.expiry
  }

  /** A refresh through a link is stored in the user's UAA row. */
  lemma RefreshWritesUaaRow(cfg: Config, db: Db, i: nat, cnsi: string, user: string, p: LookupPicks,
                            reply: Option<Reply>)
    requires Inv(cfg, db) && !cfg.provider.Mysql?
    requires i in db.tokens.rows && IsCnsiOf(db.tokens.rows[i], cnsi, user) && db.tokens.rows[i].linked.Some?
    requires NoShared(db.tokens, cnsi) && PicksCnsi(db.tokens, cnsi, user, true, p)
    requires RefreshOAuth(cfg, db, user, cnsi, p, reply).1.Ok?
    ensures var (db', r) := RefreshOAuth(cfg, db, user, cnsi, p, reply);
      Picks(db'.tokens, UaaOf(user), p.link) && HasTokens(FindAuth(db'.tokens, user, p.link), r.value)
  {
    var t := db.tokens;
    var (db', r) := RefreshOAuth(cfg, db, user, cnsi, p, reply);
    LinkRowIsUaa(cfg, t, i, cnsi, user, p);
    LinkCoherence(cfg, t, i, cnsi, user, true, p, p.link);
    var k := UpdateTokenAuthWritesOneRow(t, user, r.value);
    assert k == p.link.value;
    assert k in Ids(db'.tokens, UaaOf(user));
  }

  /**
   A refresh through a link is what the UAA lookup and the lookup of every endpoint linked to the
   same UAA row return from then on.
   */
  lemma RefreshThroughLinkIsShared(cfg: Config, db: Db, i: nat, cnsi: string, user: string, p: LookupPicks,
                                   reply: Option<Reply>,
                                   pick: Option<nat>, i2: nat, cnsi2: string, inc2: bool, p2: LookupPicks)
    requires Inv(cfg, db) && !cfg.provider.Mysql?
    requires i in db.tokens.rows && IsCnsiOf(db.tokens.rows[i], cnsi, user) && db.tokens.rows[i].linked.Some?
    requires NoShared(db.tokens, cnsi) && PicksCnsi(db.tokens, cnsi, user, true, p)
    requires RefreshKeepsSubject(cfg, FindCnsi(db.tokens, cnsi, user, true, cfg.provider, p), reply)
    requires RefreshOAuth(cfg, db, user, cnsi, p, reply).1.Ok?
    requires var t' := RefreshOAuth(cfg, db, user, cnsi, p, reply).0.tokens;
      && Picks(t', UaaOf(user), pick)
      && i2 in t'.rows && IsCnsiOf(t'.rows[i2], cnsi2, user) && t'.rows[i2].linked.Some? && NoShared(t', cnsi2)
      && PicksCnsi(t', cnsi2, user, inc2, p2)
    ensures var (db', r) := RefreshOAuth(cfg, db, user, cnsi, p, reply);
      && HasTokens(FindAuth(db'.tokens, user, pick), r.value)
      && HasTokens(FindCnsi(db'.tokens, cnsi2, user, inc2, cfg.provider, p2), r.value)
  {
    var t' := RefreshOAuth(cfg, db, user, cnsi, p, reply).0.tokens;
    RefreshOAuthKeepsInv(cfg, db, user, cnsi, p, reply);
    RefreshWritesUaaRow(cfg, db, i, cnsi, user, p, reply);
    LinkCoherence(cfg, t', i2, cnsi2, user, inc2, p2, pick);
    assert Clash(t'.rows[p.link.value], t'.rows[pick.value]);
  }

  lemma LinkRowIsUaa(cfg: Config, t: Table, i: nat, cnsi: string, user: string, p: LookupPicks)
    requires TokensInv(cfg, t) && NoShared(t, cnsi)
    requires i in t.rows && IsCnsiOf(t.rows[i], cnsi, user) && t.rows[i].linked.Some?
    requires PicksCnsi(t, cnsi, user, true, p)
    ensures p.row == Some(i) && p.link.Some? && LinksTo(t, i, p.link.value) && Picks(t, UaaOf(user), p.link)
  {
    OwnLinkedRowIsPicked(cfg, t, i, cnsi, user, true, p);
    LinkedLookup(cfg, t, cnsi, user, true, p);
    assert p.link.value in Ids(t, UaaOf(user));
  }

  /**
   A refresh that resolved an unlinked row is stored exactly when the refreshing user owns a row with
   its GUID and both new tokens are non-empty: for a system-shared row, whose owner is nobody, an
   ordinary user's refresh fails and changes nothing unless that user has a row with the same GUID.
   */
  lemma RefreshNeedsOwnRow(cfg: Config, db: Db, user: string, cnsi: string, p: LookupPicks, reply: Reply)
    requires Inv(cfg, db) && PicksCnsi(db.tokens, cnsi, user, true, p)
    requires FindCnsi(db.tokens, cnsi, user, true, cfg.provider, p).Ok? && cfg.claims(reply.access).Some?
    ensures var (db', r) := RefreshOAuth(cfg, db, user, cnsi, p, Some(reply));
      var guid := FindCnsi(db.tokens, cnsi, user, true, cfg.provider, p).value.tokenGuid;
      && (r.Ok? <==>
            && reply.access != "" && reply.refresh != ""
            && exists j <- db.tokens.rows :: Matches(ByGuid(user, guid), db.tokens.rows[j]))
      && (r.Err? ==> db' == db)
  {
    var found := FindCnsi(db.tokens, cnsi, user, true, cfg.provider, p).value;
    var tr := EndpointRecord(reply.access, reply.refresh, cfg.claims(reply.access).value.expiry, found.disconnected)
              .(tokenGuid := found.tokenGuid);
    var i := UpdateTokenAuthWritesOneRow(db.tokens, user, tr);
  }

  // ---------------------------------------------------------------- sticky disconnect

  /** Row `i` is the cleared, disconnected row of (`cnsi`, `user`). */
  predicate ClearedRow(r: Row, cnsi: string, user: string) {
    IsCnsiOf(r, cnsi, user) && r.disconnected && r.authType == OAUTH2 && r.linked.None? && r.refresh.Some?
  }

  ghost predicate Sticky(cfg: Config, db: Db, cnsi: string, user: string) {
    && user != SYSTEM_SHARED_USER
    && cnsi in db.cnsis && IsAutoRegistered(cfg, db.cnsis[cnsi])
    && NoShared(db.tokens, cnsi)
    && exists i <- db.tokens.rows :: ClearedRow(db.tokens.rows[i], cnsi, user)
  }

  /** No session belongs to the system-shared user, who is nobody. */
  predicate OrdinaryUsers(cfg: Config, ev: Event) {
    match ev
    case LoginEvent(reply, _, _) =>
      reply.Some? && cfg.claims(reply.value.access).Some? ==>
        cfg.claims(reply.value.access).value.subject != SYSTEM_SHARED_USER
    case ConnectEvent(user, _, _, _, _, _) => user != SYSTEM_SHARED_USER
    case DisconnectEvent(user, _, _, _, _) => user != SYSTEM_SHARED_USER
    case RefreshOidcEvent(user, _, _, _, _) => user != SYSTEM_SHARED_USER
    case _ => true
  }

  /** An explicit connect of the endpoint by this user or for everybody, or its unregistration. */
  predicate Reconnects(ev: Event, cnsi: string, user: string) {
    match ev
    case ConnectEvent(u, c, shared, _, _, _) => c == cnsi && (shared || u == user)
    case UnregisterEvent(c) => c == cnsi
    case _ => false
  }

  /** A cleared row hides the endpoint from its user: the connected lookup finds nothing. */
  lemma StickyMeansDisconnected(cfg: Config, db: Db, cnsi: string, user: string, p: LookupPicks)
    requires Inv(cfg, db) && Sticky(cfg, db, cnsi, user)
    requires PicksCnsi(db.tokens, cnsi, user, false, p)
    ensures FindCnsi(db.tokens, cnsi, user, false, cfg.provider, p) == Err(NoRows)
  {
    var t := db.tokens;
    var i :| i in t.rows && ClearedRow(t.rows[i], cnsi, user);
    assert forall k <- t.rows ::
        IsCnsiOf(t.rows[k], cnsi, SYSTEM_SHARED_USER) ==> k in Ids(t, CnsiOf(cnsi, SYSTEM_SHARED_USER));
    assert forall k <- t.rows :: !Matches(VisibleConnected(cnsi, user), t.rows[k]);
    assert RowShape(cfg, t.rows[i]);
  }

  /** A one-row write preserves stickiness unless it touches this row badly or adds a shared row. */
  lemma StickyFrame(cfg: Config, db: Db, t': Table, i: nat, cnsi: string, user: string)
    requires Sticky(cfg, db, cnsi, user) && OnlyRow(db.tokens, t', i)
    requires IsCnsiOf(t'.rows[i], cnsi, SYSTEM_SHARED_USER)
        ==> i in db.tokens.rows && SameKey(db.tokens.rows[i], t'.rows[i])
    requires i in db.tokens.rows && ClearedRow(db.tokens.rows[i], cnsi, user) ==> ClearedRow(t'.rows[i], cnsi, user)
    ensures Sticky(cfg, db.(tokens := t'), cnsi, user)
  {
    var t := db.tokens;
    var k :| k in t.rows && ClearedRow(t.rows[k], cnsi, user);
    assert ClearedRow(t'.rows[k], cnsi, user);
    forall j | j in t'.rows
      ensures !IsCnsiOf(t'.rows[j], cnsi, SYSTEM_SHARED_USER)
    {
      assert j in t.rows ==> j !in Ids(t, CnsiOf(cnsi, SYSTEM_SHARED_USER));
    }
  }

  lemma StickySaveAuth(cfg: Config, db: Db, who: string, tr: TokenRecord, uuid: string, cnsi: string, user: string)
    requires Inv(cfg, db) && Sticky(cfg, db, cnsi, user)
    ensures Sticky(cfg, db.(tokens := SaveAuth(db.tokens, who, tr, uuid).0), cnsi, user)
  {
    var i := SaveAuthWritesOneRow(db.tokens, who, tr, uuid);
    if SaveAuth(db.tokens, who, tr, uuid).1.Ok? {
      StickyFrame(cfg, db, SaveAuth(db.tokens, who, tr, uuid).0, i, cnsi, user);
    }
  }

  /** Saving a row of another owner or endpoint, a cleared record, or one of another type is harmless. */
  lemma StickySaveCnsi(cfg: Config, db: Db, c: string, who: string, tr: TokenRecord, uuid: string, cnsi: string,
                       user: string)
    requires Inv(cfg, db) && Sticky(cfg, db, cnsi, user)
    requires c == cnsi ==> who != SYSTEM_SHARED_USER
    requires c == cnsi && who == user ==> tr == ClearedRecord() || tr.authType != OAUTH2
    ensures Sticky(cfg, db.(tokens := SaveCnsi(db.tokens, c, who, tr, uuid).0), cnsi, user)
  {
    var i := SaveCnsiWritesOneRow(db.tokens, c, who, tr, uuid);
    if SaveCnsi(db.tokens, c, who, tr, uuid).1.Ok? {
      StickyFrame(cfg, db, SaveCnsi(db.tokens, c, who, tr, uuid).0, i, cnsi, user);
    }
  }

  lemma StickyHookEndpoint(cfg: Config, db: Db, h: HookChoices, cnsi: string, user: string)
    requires Inv(cfg, db) && Sticky(cfg, db, cnsi, user)
    ensures Inv(cfg, HookEndpoint(cfg, db, h).0) && Sticky(cfg, HookEndpoint(cfg, db, h).0, cnsi, user)
  {
  }

  /** Linking saves one record, if anything, and lets the endpoint allow single sign-on. */
  lemma LinkToUaaSaves(cfg: Config, db: Db, guid: string, who: string, h: HookChoices)
    requires TokensInv(cfg, db.tokens) && Picks(db.tokens, UaaOf(who), h.auth)
    ensures var db', uaa := LinkToUaa(cfg, db, guid, who, h).0, FindAuth(db.tokens, who, h.auth);
      || db' == db
      || (&& uaa.Ok?
          && db'.tokens == SaveCnsi(db.tokens, guid, who, uaa.value.(linkedGuid := uaa.value.tokenGuid), h.uuid).0
          && db'.cnsis == if guid in db.cnsis then db.cnsis[guid := db.cnsis[guid].(ssoAllowed := true)] else db.cnsis)
  {
    if FindAuth(db.tokens, who, h.auth).Ok? {
      AuthLookup(cfg, db.tokens, who, h.auth);
    }
  }

  lemma StickyLink(cfg: Config, db: Db, guid: string, who: string, h: HookChoices, cnsi: string, user: string)
    requires Inv(cfg, db) && Sticky(cfg, db, cnsi, user) && Picks(db.tokens, UaaOf(who), h.auth)
    requires who != SYSTEM_SHARED_USER && (guid != cnsi || who != user)
    ensures Sticky(cfg, LinkToUaa(cfg, db, guid, who, h).0, cnsi, user)
  {
    LinkToUaaSaves(cfg, db, guid, who, h);
    if FindAuth(db.tokens, who, h.auth).Ok? {
      var uaa := FindAuth(db.tokens, who, h.auth).value;
      StickySaveCnsi(cfg, db, guid, who, uaa.(linkedGuid := uaa.tokenGuid), h.uuid, cnsi, user);
    }
  }

  lemma StickySaveConnected(cfg: Config, db: Db, c: string, who: string, connected: Option<TokenRecord>, uuid: string,
                            cnsi: string, user: string)
    requires Inv(cfg, db) && Sticky(cfg, db, cnsi, user)
    requires c == cnsi ==> who != SYSTEM_SHARED_USER && who != user
    ensures Sticky(cfg, SaveConnected(cfg, db, c, who, connected, uuid).0, cnsi, user)
  {
    if connected.Some? {
      StickySaveCnsi(cfg, db, c, who, connected.value, uuid, cnsi, user);
    }
  }

  /** The hook looks up the user's row with disconnected rows included, and finds the cleared row. */
  lemma HookSeesClearedRow(cfg: Config, db: Db, cnsi: string, user: string, p: LookupPicks)
    requires Inv(cfg, db) && Sticky(cfg, db, cnsi, user) && PicksCnsi(db.tokens, cnsi, user, true, p)
    ensures var found := FindCnsi(db.tokens, cnsi, user, true, cfg.provider, p); found.Ok? && found.value.disconnected
  {
    var t := db.tokens;
    var i :| i in t.rows && ClearedRow(t.rows[i], cnsi, user);
    assert i in Ids(t, Visible(cnsi, user));
    assert forall k <- t.rows ::
        IsCnsiOf(t.rows[k], cnsi, SYSTEM_SHARED_USER) ==> k in Ids(t, CnsiOf(cnsi, SYSTEM_SHARED_USER));
    assert p.row == Some(i);
    assert RowShape(cfg, t.rows[i]);
  }

  lemma StickyHook(cfg: Config, db: Db, who: string, h: HookChoices, cnsi: string, user: string)
    requires Inv(cfg, db) && Sticky(cfg, db, cnsi, user) && HookLegal(cfg, db, who, h)
    requires who != SYSTEM_SHARED_USER
    ensures Sticky(cfg, Hook(cfg, db, who, h).0, cnsi, user)
  {
    var (db1, target) := HookEndpoint(cfg, db, h);
    StickyHookEndpoint(cfg, db, h, cnsi, user);
    if TrimRight(cfg.autoRegisterUrl) != "" && target.Ok? {
      if target.value == cnsi && who == user {
        HookSeesClearedRow(cfg, db1, cnsi, user, h.lookup);
      } else {
        StickyLink(cfg, db1, target.value, who, h, cnsi, user);
        StickySaveConnected(cfg, db1, target.value, who, h.connected, h.uuid, cnsi, user);
      }
    }
  }

  lemma StickyRefreshOAuth(cfg: Config, db: Db, who: string, c: string, p: LookupPicks, reply: Option<Reply>,
                           cnsi: string, user: string)
    requires Inv(cfg, db) && Sticky(cfg, db, cnsi, user) && PicksCnsi(db.tokens, c, who, true, p)
    ensures Sticky(cfg, RefreshOAuth(cfg, db, who, c, p, reply).0, cnsi, user)
  {
    var found := FindCnsi(db.tokens, c, who, true, cfg.provider, p);
    if found.Ok? && reply.Some? && cfg.claims(reply.value.access).Some? {
      var tr := EndpointRecord(reply.value.access, reply.value.refresh, cfg.claims(reply.value.access).value.expiry,
                               found.value.disconnected).(tokenGuid := found.value.tokenGuid);
      var i := UpdateTokenAuthWritesOneRow(db.tokens, who, tr);
      if UpdateTokenAuth(db.tokens, who, tr).1.Ok? {
        StickyFrame(cfg, db, UpdateTokenAuth(db.tokens, who, tr).0, i, cnsi, user);
      }
    }
  }

  lemma StickyDisconnectOther(cfg: Config, db: Db, who: string, c: string, p: LookupPicks, auth: Option<nat>,
                              uuid: string, cnsi: string, user: string)
    requires Inv(cfg, db) && Sticky(cfg, db, cnsi, user) && who != SYSTEM_SHARED_USER
    requires PicksCnsi(db.tokens, c, who, false, p) && Picks(db.tokens, UaaOf(who), auth)
    ensures Sticky(cfg, Disconnect(cfg, db, who, c, p, auth, uuid).0, cnsi, user)
  {
    var t := db.tokens;
    if c == cnsi {
      OwnRowIsNotShared(cfg, t, cnsi, who, p);
      StickySaveCnsi(cfg, db, c, who, ClearedRecord(), uuid, cnsi, user);
    } else {
      forall owner
        ensures Sticky(cfg, db.(tokens := SaveCnsi(t, c, owner, ClearedRecord(), uuid).0), cnsi, user)
        ensures Sticky(cfg, db.(tokens := DeleteCnsi(t, c, owner).0), cnsi, user)
      {
        StickySaveCnsi(cfg, db, c, owner, ClearedRecord(), uuid, cnsi, user);
        StickyDelete(cfg, db, CnsiOf(c, owner), cnsi, user);
      }
    }
  }

  /** Without a shared row, what an ordinary user's connected lookup finds is not shared. */
  lemma OwnRowIsNotShared(cfg: Config, t: Table, cnsi: string, who: string, p: LookupPicks)
    requires NoShared(t, cnsi) && who != SYSTEM_SHARED_USER && PicksCnsi(t, cnsi, who, false, p)
    ensures var found := FindCnsi(t, cnsi, who, false, cfg.provider, p); found.Ok? ==> !found.value.systemShared
  {
    assert forall k <- t.rows ::
        IsCnsiOf(t.rows[k], cnsi, SYSTEM_SHARED_USER) ==> k in Ids(t, CnsiOf(cnsi, SYSTEM_SHARED_USER));
  }

  lemma StickyDelete(cfg: Config, db: Db, w: Where, cnsi: string, user: string)
    requires Sticky(cfg, db, cnsi, user)
    requires w.CnsiOf? || w.CnsiOfAnyone?
    requires w.cnsi != cnsi
    ensures Sticky(cfg, db.(tokens := Delete(db.tokens, w)), cnsi, user)
  {
    var t := db.tokens;
    var i :| i in t.rows && ClearedRow(t.rows[i], cnsi, user);
    var t' := Delete(t, w);
    assert i in t'.rows && ClearedRow(t'.rows[i], cnsi, user);
    forall k <- t'.rows
      ensures !IsCnsiOf(t'.rows[k], cnsi, SYSTEM_SHARED_USER)
    {
      assert k !in Ids(t, CnsiOf(cnsi, SYSTEM_SHARED_USER));
    }
  }

  lemma StickyLoginEvent(cfg: Config, db: Db, reply: Option<Reply>, uuid: string, h: HookChoices, cnsi: string,
                         user: string)
    requires Inv(cfg, db) && Sticky(cfg, db, cnsi, user)
    requires Legal(cfg, db, LoginEvent(reply, uuid, h)) && OrdinaryUsers(cfg, LoginEvent(reply, uuid, h))
    ensures Sticky(cfg, Apply(cfg, db, LoginEvent(reply, uuid, h)).0, cnsi, user)
  {
    StickyLogin(cfg, db, reply, uuid, cnsi, user);
    LoginKeepsInv(cfg, db, reply, uuid);
    var (db1, r) := LoginSaved(cfg, db, reply, uuid);
    if r.Ok? {
      StickyHook(cfg, db1, cfg.claims(reply.value.access).value.subject, h, cnsi, user);
    }
  }

  lemma StickyRegister(cfg: Config, db: Db, name: string, url: string, sso: bool, info: Option<string>, cnsi: string,
                       user: string)
    requires Sticky(cfg, db, cnsi, user)
    ensures Sticky(cfg, Apply(cfg, db, RegisterEvent(name, url, sso, info)).0, cnsi, user)
  {
    assert Apply(cfg, db, RegisterEvent(name, url, sso, info)).0.tokens == db.tokens;
  }

  lemma StickyStep(cfg: Config, db: Db, ev: Event, cnsi: string, user: string)
    requires Inv(cfg, db) && Sticky(cfg, db, cnsi, user)
    requires Legal(cfg, db, ev) && OrdinaryUsers(cfg, ev) && !Reconnects(ev, cnsi, user)
    ensures Sticky(cfg, Apply(cfg, db, ev).0, cnsi, user)
  {
    match ev
    case LoginEvent(reply, uuid, h) => StickyLoginEvent(cfg, db, reply, uuid, h, cnsi, user);
    case StoreLoginEvent(reply, uuid) => StickyLogin(cfg, db, reply, uuid, cnsi, user);
    case RefreshUaaEvent(who, keepUser, auth, reply, uuid) =>
      StickyRefreshUaa(cfg, db, who, keepUser, auth, reply, uuid, cnsi, user);
    case ConnectEvent(who, c, shared, auth, connected, uuid) =>
      StickySaveConnected(cfg, db, c, if shared then SYSTEM_SHARED_USER else who, connected, uuid, cnsi, user);
    case DisconnectEvent(who, c, picks, auth, uuid) =>
      StickyDisconnectOther(cfg, db, who, c, picks, auth, uuid, cnsi, user);
    case RefreshOAuthEvent(who, c, picks, reply) => StickyRefreshOAuth(cfg, db, who, c, picks, reply, cnsi, user);
    case RefreshOidcEvent(who, c, picks, reply, uuid) =>
      StickyRefreshOidc(cfg, db, who, c, picks, reply, uuid, cnsi, user);
    case RegisterEvent(name, url, sso, info) => StickyRegister(cfg, db, name, url, sso, info, cnsi, user);
    case UnregisterEvent(c) => StickyDelete(cfg, db, CnsiOfAnyone(c), cnsi, user);
  }

  lemma StickyLogin(cfg: Config, db: Db, reply: Option<Reply>, uuid: string, cnsi: string, user: string)
    requires Inv(cfg, db) && Sticky(cfg, db, cnsi, user)
    ensures Sticky(cfg, LoginSaved(cfg, db, reply, uuid).0, cnsi, user)
  {
    if reply.Some? && cfg.claims(reply.value.access).Some? {
      var c := cfg.claims(reply.value.access).value;
      StickySaveAuth(cfg, db, c.subject, UaaRecord(reply.value.access, reply.value.refresh, c.expiry), uuid, cnsi,
                     user);
    }
  }

  lemma StickyRefreshUaa(cfg: Config, db: Db, who: string, keepUser: bool, auth: Option<nat>, reply: Option<Reply>,
                         uuid: string, cnsi: string, user: string)
    requires Inv(cfg, db) && Sticky(cfg, db, cnsi, user) && Picks(db.tokens, UaaOf(who), auth)
    ensures Sticky(cfg, RefreshLogin(cfg, db, who, keepUser, auth, reply, uuid).0, cnsi, user)
  {
    if reply.Some? && cfg.claims(reply.value.access).Some? {
      var c := cfg.claims(reply.value.access).value;
      StickySaveAuth(cfg, db, if keepUser then who else c.subject,
                     UaaRecord(reply.value.access, reply.value.refresh, c.expiry), uuid, cnsi, user);
    }
  }

  lemma StickyRefreshOidc(cfg: Config, db: Db, who: string, c: string, p: LookupPicks, reply: Option<Reply>,
                          uuid: string, cnsi: string, user: string)
    requires Inv(cfg, db) && Sticky(cfg, db, cnsi, user) && PicksCnsi(db.tokens, c, who, true, p)
    requires who != SYSTEM_SHARED_USER
    ensures Sticky(cfg, RefreshOidc(cfg, db, who, c, p, reply, uuid).0, cnsi, user)
  {
    var found := FindCnsi(db.tokens, c, who, true, cfg.provider, p);
    if found.Ok? && reply.Some? && cfg.claims(reply.value.id).Some? {
      var tr := EndpointRecord(reply.value.access, reply.value.refresh, cfg.claims(reply.value.id).value.expiry,
                               found.value.disconnected).(authType := OIDC, metadata := found.value.metadata);
      StickySaveCnsi(cfg, db, c, who, tr, uuid, cnsi, user);
    }
  }

  /**
   Sticky disconnect: no run of logins, login hooks, refreshes, disconnects, registrations and other
   users' connects makes the cleared row of an auto-registered endpoint connected again.
   */
  lemma {:induction false} StickyDisconnect(cfg: Config, db: Db, evs: seq<Event>, cnsi: string, user: string)
    requires Inv(cfg, db) && Sticky(cfg, db, cnsi, user) && LegalRun(cfg, db, evs)
    requires forall ev <- evs :: OrdinaryUsers(cfg, ev) && !Reconnects(ev, cnsi, user)
    ensures Sticky(cfg, Run(cfg, db, evs), cnsi, user)
    decreases |evs|
  {
    if evs != [] {
      StickyStep(cfg, db, evs[0], cnsi, user);
      StepKeepsInv(cfg, db, evs[0]);
      StickyDisconnect(cfg, Apply(cfg, db, evs[0]).0, evs[1..], cnsi, user);
    }
  }

  lemma ClearingIsSticky(cfg: Config, db: Db, user: string, cnsi: string, uuid: string)
    requires Inv(cfg, db) && user != SYSTEM_SHARED_USER && NoShared(db.tokens, cnsi)
    requires cnsi in db.cnsis && IsAutoRegistered(cfg, db.cnsis[cnsi])
    requires SaveCnsi(db.tokens, cnsi, user, ClearedRecord(), uuid).1.Ok?
    ensures Sticky(cfg, db.(tokens := SaveCnsi(db.tokens, cnsi, user, ClearedRecord(), uuid).0), cnsi, user)
  {
    var t := db.tokens;
    var t' := SaveCnsi(t, cnsi, user, ClearedRecord(), uuid).0;
    var i := SaveCnsiWritesOneRow(t, cnsi, user, ClearedRecord(), uuid);
    assert ClearedRow(t'.rows[i], cnsi, user);
    forall k <- t'.rows
      ensures !IsCnsiOf(t'.rows[k], cnsi, SYSTEM_SHARED_USER)
    {
      assert k in t.rows ==> k !in Ids(t, CnsiOf(cnsi, SYSTEM_SHARED_USER));
    }
  }

  /** A successful disconnect from an auto-registered endpoint without a shared row starts it. */
  lemma DisconnectIsSticky(cfg: Config, db: Db, user: string, cnsi: string, p: LookupPicks, auth: Option<nat>,
                           uuid: string)
    requires Inv(cfg, db) && user != SYSTEM_SHARED_USER && NoShared(db.tokens, cnsi)
    requires PicksCnsi(db.tokens, cnsi, user, false, p) && Picks(db.tokens, UaaOf(user), auth)
    requires cnsi in db.cnsis && IsAutoRegistered(cfg, db.cnsis[cnsi])
    requires Disconnect(cfg, db, user, cnsi, p, auth, uuid).1.Ok?
    ensures Sticky(cfg, Disconnect(cfg, db, user, cnsi, p, auth, uuid).0, cnsi, user)
  {
    OwnRowIsNotShared(cfg, db.tokens, cnsi, user, p);
    ClearingIsSticky(cfg, db, user, cnsi, uuid);
  }

  // ---------------------------------------------------------------- what a shared row does to it

  /** A lookup that reads the shared row `r` says that the endpoint is disconnected. */
  predicate ReadsDisconnected(r: Row) {
    r.linked.None? && r.refresh.Some? && r.disconnected
  }

  /** A system-shared row of the endpoint that a lookup fails on, or reads as connected. */
  predicate MisleadingRow(t: Table, cnsi: string, s: nat) {
    s in t.rows && IsCnsiOf(t.rows[s], cnsi, SYSTEM_SHARED_USER) && !ReadsDisconnected(t.rows[s])
  }

  ghost predicate Misleading(t: Table, cnsi: string) {
    exists s <- t.rows :: MisleadingRow(t, cnsi, s)
  }

  /** With single sign-on the hook needs the user's UAA token; otherwise the credentials are at hand. */
  ghost predicate CanConnect(cfg: Config, t: Table, user: string) {
    cfg.sso ==> exists u <- Ids(t, UaaOf(user)) :: t.rows[u].refresh.Some?
  }

  /** The endpoint is the one the hook works on, and row `own` is the user's cleared row for it. */
  ghost predicate Cleared(cfg: Config, db: Db, cnsi: string, user: string, own: nat) {
    && user != SYSTEM_SHARED_USER && TrimRight(cfg.autoRegisterUrl) != ""
    && cnsi in db.cnsis && IsAutoRegistered(cfg, db.cnsis[cnsi]) && db.cnsis[cnsi].api == TrimRight(cfg.autoRegisterUrl)
    && own in db.tokens.rows && ClearedRow(db.tokens.rows[own], cnsi, user)
  }

  /** A run of the hook for the user leaves the user's row connected. */
  ghost predicate Reconnected(cfg: Config, db: Db, user: string, own: nat, h: HookChoices)
    requires HookLegal(cfg, db, user, h)
  {
    var t := Hook(cfg, db, user, h).0.tokens;
    own in t.rows && !t.rows[own].disconnected
  }

  /** The hook finds the endpoint, which is the only one with its API string. */
  lemma HookWorksOn(cfg: Config, db: Db, cnsi: string, user: string, own: nat, h: HookChoices)
    requires Inv(cfg, db) && Cleared(cfg, db, cnsi, user, own)
    requires PicksApi(db.cnsis, TrimRight(cfg.autoRegisterUrl), h.known)
    ensures h.known == Some(cnsi) && HookEndpoint(cfg, db, h) == (db, Ok(cnsi))
  {
    assert cnsi in GuidsOfApi(db.cnsis, TrimRight(cfg.autoRegisterUrl));
  }

  /** No user has a row with the GUID that a shared row is linked to: the lookup through it fails. */
  lemma SharedLinkIsNobodys(cfg: Config, t: Table, cnsi: string, user: string, s: nat)
    requires TokensInv(cfg, t) && user != SYSTEM_SHARED_USER
    requires s in t.rows && IsCnsiOf(t.rows[s], cnsi, SYSTEM_SHARED_USER) && t.rows[s].linked.Some?
    ensures Ids(t, LinkClause(user, t.rows[s].linked.value, true)) == {}
  {
    var j :| j in t.rows && LinksTo(t, s, j);
    forall k <- t.rows
      ensures !Matches(ByGuid(user, t.rows[s].linked.value), t.rows[k])
    {
      assert t.rows[k].tokenGuid == t.rows[j].tokenGuid ==> Clash(t.rows[k], t.rows[j]);
    }
  }

  /** Without a misleading row every lookup of the hook finds a disconnected record. */
  lemma HookFindsDisconnected(cfg: Config, db: Db, cnsi: string, user: string, own: nat, p: LookupPicks)
    requires Inv(cfg, db) && Cleared(cfg, db, cnsi, user, own) && !Misleading(db.tokens, cnsi)
    requires PicksCnsi(db.tokens, cnsi, user, true, p)
    ensures var found := FindCnsi(db.tokens, cnsi, user, true, cfg.provider, p); found.Ok? && found.value.disconnected
  {
    var t := db.tokens;
    assert own in Ids(t, Visible(cnsi, user));
    var k := p.row.value;
    assert Clash(t.rows[own], t.rows[k]) || IsCnsiOf(t.rows[k], cnsi, SYSTEM_SHARED_USER);
    assert IsCnsiOf(t.rows[k], cnsi, SYSTEM_SHARED_USER) ==> !MisleadingRow(t, cnsi, k);
    assert RowShape(cfg, t.rows[own]);
  }

  /** The picks of a hook that reads the misleading row. */
  ghost function MisledPicks(t: Table, user: string, s: nat): LookupPicks
    requires s in t.rows
  {
    LookupPicks(Some(s),
                if t.rows[s].linked.Some? then AnyPick(t, LinkClause(user, t.rows[s].linked.value, true)) else None)
  }

  lemma MisledLookup(cfg: Config, db: Db, cnsi: string, user: string, s: nat)
    requires Inv(cfg, db) && user != SYSTEM_SHARED_USER && MisleadingRow(db.tokens, cnsi, s)
    ensures var p := MisledPicks(db.tokens, user, s);
      && PicksCnsi(db.tokens, cnsi, user, true, p)
      && var found := FindCnsi(db.tokens, cnsi, user, true, cfg.provider, p); (found.Err? || !found.value.disconnected)
  {
    assert s in Ids(db.tokens, Visible(cnsi, user));
    if db.tokens.rows[s].linked.Some? {
      SharedLinkIsNobodys(cfg, db.tokens, cnsi, user, s);
    }
  }

  /** A connected OAuth record replaces the cleared one in the user's row. */
  lemma ConnectingClearedRow(cfg: Config, t: Table, cnsi: string, user: string, own: nat, tr: TokenRecord, uuid: string)
    requires TokensInv(cfg, t) && own in t.rows && ClearedRow(t.rows[own], cnsi, user)
    requires tr.authType == OAUTH2 && !tr.disconnected && tr.authToken != ""
    ensures var t' := SaveCnsi(t, cnsi, user, tr, uuid).0; own in t'.rows && !t'.rows[own].disconnected
  {
    assert RowShape(cfg, t.rows[own]);
    assert own in Ids(t, CnsiOfAuthType(cnsi, user, OAUTH2)) && own in Ids(t, CnsiOf(cnsi, user));
  }

  lemma MisledHookReconnects(cfg: Config, db: Db, cnsi: string, user: string, own: nat, s: nat)
    returns (h: HookChoices)
    requires Inv(cfg, db) && Cleared(cfg, db, cnsi, user, own) && MisleadingRow(db.tokens, cnsi, s)
        && CanConnect(cfg, db.tokens, user)
    ensures HookLegal(cfg, db, user, h) && Reconnected(cfg, db, user, own, h)
  {
    var t := db.tokens;
    var auth := AnyPick(t, UaaOf(user));
    var record := EndpointRecord(CLEARED, CLEARED, 0, false);
    h := HookChoices(Some(cnsi), None, MisledPicks(t, user, s), auth, Same, Some(record), "");
    assert cnsi in GuidsOfApi(db.cnsis, TrimRight(cfg.autoRegisterUrl));
    HookWorksOn(cfg, db, cnsi, user, own, h);
    MisledLookup(cfg, db, cnsi, user, s);
    if cfg.sso {
      var u :| u in Ids(t, UaaOf(user)) && t.rows[u].refresh.Some?;
      assert Clash(t.rows[u], t.rows[auth.value]);
      assert RowShape(cfg, t.rows[u]);
      AuthLookup(cfg, t, user, auth);
      var uaa := FindAuth(t, user, auth).value;
      ConnectingClearedRow(cfg, t, cnsi, user, own, uaa.(linkedGuid := uaa.tokenGuid), "");
    } else {
      ConnectingClearedRow(cfg, t, cnsi, user, own, record, "");
    }
  }

  /** A hook of a user who cannot connect, or whose lookup finds a disconnected record, changes no row. */
  lemma HookLeavesTokens(cfg: Config, db: Db, cnsi: string, user: string, own: nat, h: HookChoices)
    requires Inv(cfg, db) && Cleared(cfg, db, cnsi, user, own) && HookLegal(cfg, db, user, h)
    requires !Misleading(db.tokens, cnsi) || !CanConnect(cfg, db.tokens, user)
    ensures Hook(cfg, db, user, h).0.tokens == db.tokens
  {
    HookWorksOn(cfg, db, cnsi, user, own, h);
    if !Misleading(db.tokens, cnsi) {
      HookFindsDisconnected(cfg, db, cnsi, user, own, h.lookup);
    } else if h.auth.Some? {
      assert h.auth.value in Ids(db.tokens, UaaOf(user));
    }
  }

  /**
   The condition on shared rows is needed, and this is what it takes: some run of the login hook
   connects a user's cleared row again exactly if the endpoint has a system-shared row whose lookup
   fails or is connected, and the user is able to connect at all.
   */
  lemma SharedRowUndoesDisconnect(cfg: Config, db: Db, cnsi: string, user: string, own: nat)
    requires Inv(cfg, db) && Cleared(cfg, db, cnsi, user, own)
    ensures (exists h :: HookLegal(cfg, db, user, h) && Reconnected(cfg, db, user, own, h))
            <==> Misleading(db.tokens, cnsi) && CanConnect(cfg, db.tokens, user)
  {
    if Misleading(db.tokens, cnsi) && CanConnect(cfg, db.tokens, user) {
      var s :| s in db.tokens.rows && MisleadingRow(db.tokens, cnsi, s);
      var h := MisledHookReconnects(cfg, db, cnsi, user, own, s);
    } else {
      forall h | HookLegal(cfg, db, user, h)
        ensures !Reconnected(cfg, db, user, own, h)
      {
        HookLeavesTokens(cfg, db, cnsi, user, own, h);
      }
    }
  }
}

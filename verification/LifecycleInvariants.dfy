/** What every run of the handlers keeps true of the two tables. */
module LifecycleInvariants {
  import opened Wrappers
  import opened TokenTable
  import opened TokenLaws
  import opened Lifecycle

  // ---------------------------------------------------------------- the invariant

  ghost predicate RowShape(cfg: Config, r: Row) {
    && r.tokenGuid != "" && r.userGuid != "" && r.cnsiGuid != Some("") && r.auth != ""
    && (r.tokenType.Uaa? ==>
          && r.cnsiGuid.None? && !r.disconnected && r.linked.None? && r.authType == OAUTH2
          && cfg.claims(r.auth).Some? && cfg.claims(r.auth).value.subject == r.userGuid)
    && (r.tokenType.Cnsi? ==> r.cnsiGuid.Some?)
    && (r.linked.Some? ==> r.tokenType.Cnsi? && !r.disconnected && r.authType == OAUTH2)
  }

  ghost predicate Shapes(cfg: Config, t: Table) {
    forall i <- t.rows :: RowShape(cfg, t.rows[i])
  }

  /** Row `j` is the UAA row that row `i` is linked to. */
  predicate LinksTo(t: Table, i: nat, j: nat) {
    && i in t.rows && j in t.rows
    && t.rows[j].tokenType.Uaa? && t.rows[j].userGuid == t.rows[i].userGuid
    && t.rows[i].linked == Some(t.rows[j].tokenGuid)
  }

  ghost predicate NoDanglingLink(t: Table) {
    forall i <- t.rows | t.rows[i].linked.Some? :: exists j <- t.rows :: LinksTo(t, i, j)
  }

  ghost predicate TokensRegistered(t: Table, cnsis: Endpoints) {
    forall i <- t.rows | t.rows[i].tokenType.Cnsi? && t.rows[i].cnsiGuid.Some? :: t.rows[i].cnsiGuid.value in cnsis
  }

  ghost predicate GuidIsHash(cfg: Config, cnsis: Endpoints) {
    forall g <- cnsis :: g == cfg.hash(cnsis[g].api)
  }

  ghost predicate TokensInv(cfg: Config, t: Table) {
    Keys(t) && Shapes(cfg, t) && NoDanglingLink(t)
  }

  ghost predicate Inv(cfg: Config, db: Db) {
    && TokensInv(cfg, db.tokens)
    && TokensRegistered(db.tokens, db.cnsis)
    && GuidIsHash(cfg, db.cnsis)
  }

  // ---------------------------------------------------------------- writes keep it

  /** A one-row write keeps links alive when UAA rows stay UAA rows with their GUID and owner. */
  lemma OneRowWriteKeepsLinks(t: Table, t': Table, i: nat)
    requires NoDanglingLink(t) && OnlyRow(t, t', i)
    requires i in t.rows ==> SameKey(t.rows[i], t'.rows[i])
    requires t'.rows[i].linked.Some? ==>
               || (i in t.rows && t.rows[i].linked == t'.rows[i].linked)
               || exists j <- t'.rows :: LinksTo(t', i, j)
    ensures NoDanglingLink(t')
  {
    forall k <- t'.rows | t'.rows[k].linked.Some?
      ensures exists j <- t'.rows :: LinksTo(t', k, j)
    {
      if k in t.rows && t.rows[k].linked == t'.rows[k].linked {
        var j :| j in t.rows && LinksTo(t, k, j);
        assert LinksTo(t', k, j);
      }
    }
  }

  lemma OneRowWriteKeepsRegistered(t: Table, t': Table, i: nat, cnsis: Endpoints)
    requires TokensRegistered(t, cnsis) && OnlyRow(t, t', i)
    requires t'.rows[i].tokenType.Cnsi? && t'.rows[i].cnsiGuid.Some? ==> t'.rows[i].cnsiGuid.value in cnsis
    ensures TokensRegistered(t', cnsis)
  {
  }

  lemma SaveAuthKeepsInv(cfg: Config, t: Table, cnsis: Endpoints, user: string, tr: TokenRecord, uuid: string)
    requires TokensInv(cfg, t) && TokensRegistered(t, cnsis) && Fresh(t, uuid)
    requires cfg.claims(tr.authToken).Some? && cfg.claims(tr.authToken).value.subject == user
    ensures var t' := SaveAuth(t, user, tr, uuid).0; TokensInv(cfg, t') && TokensRegistered(t', cnsis)
  {
    SaveAuthKeepsKeys(t, user, tr, uuid);
    var i := SaveAuthWritesOneRow(t, user, tr, uuid);
    var (t', r) := SaveAuth(t, user, tr, uuid);
    if r.Ok? {
      assert RowShape(cfg, t'.rows[i]);
      OneRowWriteKeepsLinks(t, t', i);
      OneRowWriteKeepsRegistered(t, t', i, cnsis);
    }
  }

  /** A link in `tr` is to the UAA row `target` of `user`. */
  ghost predicate GoodLink(t: Table, user: string, tr: TokenRecord, target: nat) {
    tr.linkedGuid != "" ==>
      && !tr.disconnected && tr.authType == OAUTH2
      && target in t.rows && t.rows[target].tokenType.Uaa?
      && t.rows[target].userGuid == user && t.rows[target].tokenGuid == tr.linkedGuid
  }

  lemma SaveCnsiKeepsInv(cfg: Config, t: Table, cnsis: Endpoints, cnsi: string, user: string, tr: TokenRecord,
                         uuid: string, target: nat)
    requires TokensInv(cfg, t) && TokensRegistered(t, cnsis) && Fresh(t, uuid)
    requires cnsi in cnsis && GoodLink(t, user, tr, target)
    ensures var t' := SaveCnsi(t, cnsi, user, tr, uuid).0; TokensInv(cfg, t') && TokensRegistered(t', cnsis)
  {
    SaveCnsiKeepsKeys(t, cnsi, user, tr, uuid);
    var i := SaveCnsiWritesOneRow(t, cnsi, user, tr, uuid);
    var (t', r) := SaveCnsi(t, cnsi, user, tr, uuid);
    if r.Ok? {
      assert RowShape(cfg, t'.rows[i]);
      if tr.linkedGuid != "" {
        assert target != i;
        assert LinksTo(t', i, target);
      }
      OneRowWriteKeepsLinks(t, t', i);
      OneRowWriteKeepsRegistered(t, t', i, cnsis);
    }
  }

  lemma UpdateTokenAuthKeepsInv(cfg: Config, t: Table, cnsis: Endpoints, user: string, tr: TokenRecord)
    requires TokensInv(cfg, t) && TokensRegistered(t, cnsis) && tr.linkedGuid == ""
    requires forall j <- t.rows | t.rows[j].tokenType.Uaa? && Matches(ByGuid(user, tr.tokenGuid), t.rows[j]) ::
               cfg.claims(tr.authToken).Some? && cfg.claims(tr.authToken).value.subject == user
    ensures var t' := UpdateTokenAuth(t, user, tr).0; TokensInv(cfg, t') && TokensRegistered(t', cnsis)
  {
    UpdateTokenAuthKeepsKeys(t, user, tr);
    var i := UpdateTokenAuthWritesOneRow(t, user, tr);
    var (t', r) := UpdateTokenAuth(t, user, tr);
    if r.Ok? {
      assert RowShape(cfg, t'.rows[i]);
      OneRowWriteKeepsLinks(t, t', i);
      OneRowWriteKeepsRegistered(t, t', i, cnsis);
    }
  }

  lemma DeleteKeepsInv(cfg: Config, t: Table, w: Where)
    requires TokensInv(cfg, t)
    requires forall i <- t.rows :: Matches(w, t.rows[i]) ==> t.rows[i].tokenType.Cnsi?
    ensures TokensInv(cfg, Delete(t, w))
  {
    var t' := Delete(t, w);
    DeletesKeepKeys(t, w);
    forall k <- t'.rows | t'.rows[k].linked.Some?
      ensures exists j <- t'.rows :: LinksTo(t', k, j)
    {
      var j :| j in t.rows && LinksTo(t, k, j);
      assert LinksTo(t', k, j);
    }
  }

  // ---------------------------------------------------------------- what lookups read

  /** The UAA lookup reads the one UAA row of the user, whose token names that user. */
  lemma AuthLookup(cfg: Config, t: Table, user: string, pick: Option<nat>)
    requires TokensInv(cfg, t) && Picks(t, UaaOf(user), pick) && FindAuth(t, user, pick).Ok?
    ensures var tr := FindAuth(t, user, pick).value;
      && pick.Some? && pick.value in t.rows && t.rows[pick.value].tokenType.Uaa? && t.rows[pick.value].userGuid == user
      && tr.tokenGuid == t.rows[pick.value].tokenGuid && tr.tokenGuid != "" && tr.authToken == t.rows[pick.value].auth
      && tr.authType == OAUTH2 && !tr.disconnected && tr.linkedGuid == ""
      && cfg.claims(tr.authToken).Some? && cfg.claims(tr.authToken).value.subject == user
  {
  }

  /** A lookup through a link reads the UAA row of the user, and no other row can be picked. */
  lemma LinkedLookup(cfg: Config, t: Table, cnsi: string, user: string, inc: bool, p: LookupPicks)
    requires TokensInv(cfg, t) && PicksCnsi(t, cnsi, user, inc, p)
    requires p.row.Some? && t.rows[p.row.value].linked.Some? && t.rows[p.row.value].userGuid == user
    ensures p.link.Some? && LinksTo(t, p.row.value, p.link.value)
    ensures forall pick :: Picks(t, UaaOf(user), pick) ==> pick == p.link
  {
    var i := p.row.value;
    var w := LinkClause(user, t.rows[i].linked.value, inc);
    var j :| j in t.rows && LinksTo(t, i, j);
    assert j in Ids(t, w) && j in Ids(t, UaaOf(user));
  }

  /**
   The record a refresh works on names the row that it will update: for every UAA row with that GUID
   and owner, the record holds that row's own access token.
   */
  lemma RefreshTarget(cfg: Config, t: Table, cnsi: string, user: string, provider: Provider, p: LookupPicks, j: nat)
    requires TokensInv(cfg, t) && PicksCnsi(t, cnsi, user, true, p)
    requires FindCnsi(t, cnsi, user, true, provider, p).Ok?
    requires j in t.rows && t.rows[j].tokenType.Uaa?
    requires Matches(ByGuid(user, FindCnsi(t, cnsi, user, true, provider, p).value.tokenGuid), t.rows[j])
    ensures FindCnsi(t, cnsi, user, true, provider, p).value.authToken == t.rows[j].auth
  {
  }

  // ---------------------------------------------------------------- handlers keep it

  lemma LinkToUaaKeepsInv(cfg: Config, db: Db, guid: string, user: string, h: HookChoices)
    requires Inv(cfg, db) && Picks(db.tokens, UaaOf(user), h.auth) && Fresh(db.tokens, h.uuid)
    requires guid in db.cnsis
    ensures Inv(cfg, LinkToUaa(cfg, db, guid, user, h).0)
  {
    var found := FindAuth(db.tokens, user, h.auth);
    if found.Ok? {
      AuthLookup(cfg, db.tokens, user, h.auth);
      var uaa := found.value;
      SaveCnsiKeepsInv(cfg, db.tokens, db.cnsis, guid, user, uaa.(linkedGuid := uaa.tokenGuid), h.uuid, h.auth.value);
      var t := SaveCnsi(db.tokens, guid, user, uaa.(linkedGuid := uaa.tokenGuid), h.uuid).0;
      assert TokensRegistered(t, db.cnsis[guid := db.cnsis[guid].(ssoAllowed := true)]);
    }
  }

  lemma SaveConnectedKeepsInv(cfg: Config, db: Db, guid: string, user: string, connected: Option<TokenRecord>,
                              uuid: string)
    requires Inv(cfg, db) && Fresh(db.tokens, uuid)
    requires connected.Some? ==> PluginRecord(connected.value)
    ensures Inv(cfg, SaveConnected(cfg, db, guid, user, connected, uuid).0)
  {
    if Lookup(cfg, db.cnsis, guid).Some? && connected.Some? {
      SaveCnsiKeepsInv(cfg, db.tokens, db.cnsis, guid, user, connected.value, uuid, 0);
    }
  }

  lemma HookKeepsInv(cfg: Config, db: Db, user: string, h: HookChoices)
    requires Inv(cfg, db) && HookLegal(cfg, db, user, h) && Fresh(db.tokens, h.uuid)
    ensures Inv(cfg, Hook(cfg, db, user, h).0)
  {
    var (db1, target) := HookEndpoint(cfg, db, h);
    assert Inv(cfg, db1);
    if TrimRight(cfg.autoRegisterUrl) != "" && target.Ok? {
      LinkToUaaKeepsInv(cfg, db1, target.value, user, h);
      SaveConnectedKeepsInv(cfg, db1, target.value, user, h.connected, h.uuid);
    }
  }

  lemma LoginKeepsInv(cfg: Config, db: Db, reply: Option<Reply>, uuid: string)
    requires Inv(cfg, db) && Fresh(db.tokens, uuid)
    ensures Inv(cfg, LoginSaved(cfg, db, reply, uuid).0)
  {
    if reply.Some? && cfg.claims(reply.value.access).Some? {
      var c := cfg.claims(reply.value.access).value;
      SaveAuthKeepsInv(cfg, db.tokens, db.cnsis, c.subject,
                       UaaRecord(reply.value.access, reply.value.refresh, c.expiry), uuid);
    }
  }

  lemma RefreshLoginKeepsInv(cfg: Config, db: Db, user: string, keepUser: bool, pick: Option<nat>, reply: Option<Reply>,
                             uuid: string)
    requires Inv(cfg, db) && Fresh(db.tokens, uuid) && Picks(db.tokens, UaaOf(user), pick)
    requires RefreshKeepsSubject(cfg, FindAuth(db.tokens, user, pick), reply)
    ensures Inv(cfg, RefreshLogin(cfg, db, user, keepUser, pick, reply, uuid).0)
  {
    if FindAuth(db.tokens, user, pick).Ok? && reply.Some? && cfg.claims(reply.value.access).Some? {
      AuthLookup(cfg, db.tokens, user, pick);
      var c := cfg.claims(reply.value.access).value;
      SaveAuthKeepsInv(cfg, db.tokens, db.cnsis, user, UaaRecord(reply.value.access, reply.value.refresh, c.expiry),
                       uuid);
    }
  }

  lemma DisconnectKeepsInv(cfg: Config, db: Db, user: string, cnsi: string, p: LookupPicks, auth: Option<nat>,
                           uuid: string)
    requires Inv(cfg, db) && Fresh(db.tokens, uuid)
    requires PicksCnsi(db.tokens, cnsi, user, false, p) && Picks(db.tokens, UaaOf(user), auth)
    ensures Inv(cfg, Disconnect(cfg, db, user, cnsi, p, auth, uuid).0)
  {
    if Lookup(cfg, db.cnsis, cnsi).Some? {
      forall owner
        ensures Inv(cfg, db.(tokens := SaveCnsi(db.tokens, cnsi, owner, ClearedRecord(), uuid).0))
        ensures Inv(cfg, db.(tokens := DeleteCnsi(db.tokens, cnsi, owner).0))
      {
        SaveCnsiKeepsInv(cfg, db.tokens, db.cnsis, cnsi, owner, ClearedRecord(), uuid, 0);
        DeleteKeepsInv(cfg, db.tokens, CnsiOf(cnsi, owner));
      }
    }
  }

  lemma RefreshOAuthKeepsInv(cfg: Config, db: Db, user: string, cnsi: string, p: LookupPicks, reply: Option<Reply>)
    requires Inv(cfg, db) && PicksCnsi(db.tokens, cnsi, user, true, p)
    requires RefreshKeepsSubject(cfg, FindCnsi(db.tokens, cnsi, user, true, cfg.provider, p), reply)
    ensures Inv(cfg, RefreshOAuth(cfg, db, user, cnsi, p, reply).0)
  {
    var found := FindCnsi(db.tokens, cnsi, user, true, cfg.provider, p);
    if found.Ok? && reply.Some? && cfg.claims(reply.value.access).Some? {
      var c := cfg.claims(reply.value.access).value;
      var tr := EndpointRecord(reply.value.access, reply.value.refresh, c.expiry, found.value.disconnected)
                .(tokenGuid := found.value.tokenGuid);
      forall j <- db.tokens.rows | db.tokens.rows[j].tokenType.Uaa?
          && Matches(ByGuid(user, tr.tokenGuid), db.tokens.rows[j])
        ensures c.subject == user
      {
        RefreshTarget(cfg, db.tokens, cnsi, user, cfg.provider, p, j);
      }
      UpdateTokenAuthKeepsInv(cfg, db.tokens, db.cnsis, user, tr);
    }
  }

  lemma RefreshOidcKeepsInv(cfg: Config, db: Db, user: string, cnsi: string, p: LookupPicks, reply: Option<Reply>,
                            uuid: string)
    requires Inv(cfg, db) && Fresh(db.tokens, uuid) && PicksCnsi(db.tokens, cnsi, user, true, p)
    ensures Inv(cfg, RefreshOidc(cfg, db, user, cnsi, p, reply, uuid).0)
  {
    var found := FindCnsi(db.tokens, cnsi, user, true, cfg.provider, p);
    if found.Ok? && reply.Some? && cfg.claims(reply.value.id).Some? {
      var c := cfg.claims(reply.value.id).value;
      var tr := EndpointRecord(reply.value.access, reply.value.refresh, c.expiry, found.value.disconnected)
                .(authType := OIDC, metadata := found.value.metadata);
      SaveCnsiKeepsInv(cfg, db.tokens, db.cnsis, cnsi, user, tr, uuid, 0);
    }
  }

  lemma UnregisterKeepsInv(cfg: Config, db: Db, cnsi: string)
    requires Inv(cfg, db)
    ensures Inv(cfg, Unregister(db, cnsi).0)
  {
    DeleteKeepsInv(cfg, db.tokens, CnsiOfAnyone(cnsi));
  }

  lemma StepKeepsInv(cfg: Config, db: Db, ev: Event)
    requires Inv(cfg, db) && Legal(cfg, db, ev)
    ensures Inv(cfg, Apply(cfg, db, ev).0)
  {
    match ev
    case LoginEvent(reply, uuid, h) =>
      LoginKeepsInv(cfg, db, reply, uuid);
      var (db1, r) := LoginSaved(cfg, db, reply, uuid);
      if r.Ok? {
        HookKeepsInv(cfg, db1, cfg.claims(reply.value.access).value.subject, h);
      }
    case StoreLoginEvent(reply, uuid) => LoginKeepsInv(cfg, db, reply, uuid);
    case RefreshUaaEvent(user, keepUser, auth, reply, uuid) =>
      RefreshLoginKeepsInv(cfg, db, user, keepUser, auth, reply, uuid);
    case ConnectEvent(user, cnsi, shared, auth, connected, uuid) =>
      SaveConnectedKeepsInv(cfg, db, cnsi, if shared then SYSTEM_SHARED_USER else user, connected, uuid);
    case DisconnectEvent(user, cnsi, picks, auth, uuid) => DisconnectKeepsInv(cfg, db, user, cnsi, picks, auth, uuid);
    case RefreshOAuthEvent(user, cnsi, picks, reply) => RefreshOAuthKeepsInv(cfg, db, user, cnsi, picks, reply);
    case RefreshOidcEvent(user, cnsi, picks, reply, uuid) =>
      RefreshOidcKeepsInv(cfg, db, user, cnsi, picks, reply, uuid);
    case RegisterEvent(name, url, sso, info) =>
    case UnregisterEvent(cnsi) => UnregisterKeepsInv(cfg, db, cnsi);
  }

  /** Every run of legal events keeps the invariant. */
  lemma {:induction false} RunKeepsInv(cfg: Config, db: Db, evs: seq<Event>)
    requires Inv(cfg, db) && LegalRun(cfg, db, evs)
    ensures Inv(cfg, Run(cfg, db, evs))
    decreases |evs|
  {
    if evs != [] {
      StepKeepsInv(cfg, db, evs[0]);
      RunKeepsInv(cfg, Apply(cfg, db, evs[0]).0, evs[1..]);
    }
  }
}

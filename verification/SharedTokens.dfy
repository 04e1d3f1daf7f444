/** How system-shared rows come about: only through an administrator. */
module SharedTokens {
  import opened Wrappers
  import opened TokenTable
  import opened TokenLaws
  import opened Lifecycle
  import opened LifecycleInvariants
  import opened LifecycleTheorems

  /** An administrator connects the endpoint for everybody. */
  predicate SharedByAdmin(cfg: Config, db: Db, ev: Event, cnsi: string)
    requires Choices(cfg, db, ev)
  {
    ev.ConnectEvent? && ev.shared && ev.cnsi == cnsi && IsAdmin(cfg, db.tokens, ev.user, ev.auth)
  }

  lemma WriteKeepsUnshared(t: Table, t': Table, i: nat, cnsi: string)
    requires NoShared(t, cnsi) && OnlyRow(t, t', i) && !IsCnsiOf(t'.rows[i], cnsi, SYSTEM_SHARED_USER)
    ensures NoShared(t', cnsi)
  {
    forall k <- t'.rows
      ensures !IsCnsiOf(t'.rows[k], cnsi, SYSTEM_SHARED_USER)
    {
      assert k in t.rows ==> k !in Ids(t, CnsiOf(cnsi, SYSTEM_SHARED_USER));
    }
  }

  lemma DeleteKeepsUnshared(t: Table, w: Where, cnsi: string)
    requires NoShared(t, cnsi)
    ensures NoShared(Delete(t, w), cnsi)
  {
    forall k <- Delete(t, w).rows
      ensures !IsCnsiOf(Delete(t, w).rows[k], cnsi, SYSTEM_SHARED_USER)
    {
      assert k !in Ids(t, CnsiOf(cnsi, SYSTEM_SHARED_USER));
    }
  }

  lemma SaveAuthKeepsUnshared(t: Table, user: string, tr: TokenRecord, uuid: string, cnsi: string)
    requires Keys(t) && NoShared(t, cnsi)
    ensures NoShared(SaveAuth(t, user, tr, uuid).0, cnsi)
  {
    var i := SaveAuthWritesOneRow(t, user, tr, uuid);
    if SaveAuth(t, user, tr, uuid).1.Ok? {
      WriteKeepsUnshared(t, SaveAuth(t, user, tr, uuid).0, i, cnsi);
    }
  }

  lemma SaveCnsiKeepsUnshared(t: Table, c: string, user: string, tr: TokenRecord, uuid: string, cnsi: string)
    requires Keys(t) && NoShared(t, cnsi) && (c == cnsi ==> user != SYSTEM_SHARED_USER)
    ensures NoShared(SaveCnsi(t, c, user, tr, uuid).0, cnsi)
  {
    var i := SaveCnsiWritesOneRow(t, c, user, tr, uuid);
    if SaveCnsi(t, c, user, tr, uuid).1.Ok? {
      WriteKeepsUnshared(t, SaveCnsi(t, c, user, tr, uuid).0, i, cnsi);
    }
  }

  lemma UpdateKeepsUnshared(t: Table, user: string, tr: TokenRecord, cnsi: string)
    requires Keys(t) && NoShared(t, cnsi)
    ensures NoShared(UpdateTokenAuth(t, user, tr).0, cnsi)
  {
    var i := UpdateTokenAuthWritesOneRow(t, user, tr);
    if UpdateTokenAuth(t, user, tr).1.Ok? {
      assert i !in Ids(t, CnsiOf(cnsi, SYSTEM_SHARED_USER));
      WriteKeepsUnshared(t, UpdateTokenAuth(t, user, tr).0, i, cnsi);
    }
  }

  lemma HookKeepsUnshared(cfg: Config, db: Db, user: string, h: HookChoices, cnsi: string)
    requires Inv(cfg, db) && NoShared(db.tokens, cnsi) && HookLegal(cfg, db, user, h) && user != SYSTEM_SHARED_USER
    ensures NoShared(Hook(cfg, db, user, h).0.tokens, cnsi)
  {
    var (db1, target) := HookEndpoint(cfg, db, h);
    assert db1.tokens == db.tokens;
    if TrimRight(cfg.autoRegisterUrl) != "" && target.Ok? {
      LinkToUaaSaves(cfg, db1, target.value, user, h);
      if FindAuth(db.tokens, user, h.auth).Ok? {
        var uaa := FindAuth(db.tokens, user, h.auth).value;
        SaveCnsiKeepsUnshared(db.tokens, target.value, user, uaa.(linkedGuid := uaa.tokenGuid), h.uuid, cnsi);
      }
      if h.connected.Some? {
        SaveCnsiKeepsUnshared(db.tokens, target.value, user, h.connected.value, h.uuid, cnsi);
      }
    }
  }

  lemma LoginKeepsUnshared(cfg: Config, db: Db, reply: Option<Reply>, uuid: string, cnsi: string)
    requires Inv(cfg, db) && NoShared(db.tokens, cnsi)
    ensures NoShared(LoginSaved(cfg, db, reply, uuid).0.tokens, cnsi)
  {
    if reply.Some? && cfg.claims(reply.value.access).Some? {
      var c := cfg.claims(reply.value.access).value;
      SaveAuthKeepsUnshared(db.tokens, c.subject, UaaRecord(reply.value.access, reply.value.refresh, c.expiry), uuid,
                            cnsi);
    }
  }

  lemma RefreshLoginKeepsUnshared(cfg: Config, db: Db, ev: Event, cnsi: string)
    requires Inv(cfg, db) && NoShared(db.tokens, cnsi) && Choices(cfg, db, ev) && ev.RefreshUaaEvent?
    ensures NoShared(Apply(cfg, db, ev).0.tokens, cnsi)
  {
    if ev.reply.Some? && cfg.claims(ev.reply.value.access).Some? {
      var c := cfg.claims(ev.reply.value.access).value;
      SaveAuthKeepsUnshared(db.tokens, if ev.keepUser then ev.user else c.subject,
                            UaaRecord(ev.reply.value.access, ev.reply.value.refresh, c.expiry), ev.uuid, cnsi);
    }
  }

  lemma ConnectKeepsUnshared(cfg: Config, db: Db, ev: Event, cnsi: string)
    requires Inv(cfg, db) && NoShared(db.tokens, cnsi) && Choices(cfg, db, ev) && ev.ConnectEvent?
    requires OrdinaryUsers(cfg, ev) && !SharedByAdmin(cfg, db, ev, cnsi)
    ensures NoShared(Apply(cfg, db, ev).0.tokens, cnsi)
  {
    if ev.connected.Some? && (!ev.shared || IsAdmin(cfg, db.tokens, ev.user, ev.auth)) {
      SaveCnsiKeepsUnshared(db.tokens, ev.cnsi, if ev.shared then SYSTEM_SHARED_USER else ev.user,
                            ev.connected.value, ev.uuid, cnsi);
    }
  }

  lemma DisconnectKeepsUnshared(cfg: Config, db: Db, ev: Event, cnsi: string)
    requires Inv(cfg, db) && NoShared(db.tokens, cnsi) && Choices(cfg, db, ev) && ev.DisconnectEvent?
        && OrdinaryUsers(cfg, ev)
    ensures NoShared(Apply(cfg, db, ev).0.tokens, cnsi)
  {
    if ev.cnsi == cnsi {
      OwnRowIsNotShared(cfg, db.tokens, cnsi, ev.user, ev.picks);
      SaveCnsiKeepsUnshared(db.tokens, ev.cnsi, ev.user, ClearedRecord(), ev.uuid, cnsi);
    } else {
      SaveCnsiKeepsUnshared(db.tokens, ev.cnsi, ev.user, ClearedRecord(), ev.uuid, cnsi);
      SaveCnsiKeepsUnshared(db.tokens, ev.cnsi, SYSTEM_SHARED_USER, ClearedRecord(), ev.uuid, cnsi);
    }
    DeleteKeepsUnshared(db.tokens, CnsiOf(ev.cnsi, ev.user), cnsi);
    DeleteKeepsUnshared(db.tokens, CnsiOf(ev.cnsi, SYSTEM_SHARED_USER), cnsi);
  }

  lemma RefreshOAuthKeepsUnshared(cfg: Config, db: Db, ev: Event, cnsi: string)
    requires Inv(cfg, db) && NoShared(db.tokens, cnsi) && Choices(cfg, db, ev) && ev.RefreshOAuthEvent?
    ensures NoShared(Apply(cfg, db, ev).0.tokens, cnsi)
  {
    var found := FindCnsi(db.tokens, ev.cnsi, ev.user, true, cfg.provider, ev.picks);
    if found.Ok? && ev.reply.Some? && cfg.claims(ev.reply.value.access).Some? {
      var tr := EndpointRecord(ev.reply.value.access, ev.reply.value.refresh,
                               cfg.claims(ev.reply.value.access).value.expiry,
                               found.value.disconnected).(tokenGuid := found.value.tokenGuid);
      UpdateKeepsUnshared(db.tokens, ev.user, tr, cnsi);
    }
  }

  lemma RefreshOidcKeepsUnshared(cfg: Config, db: Db, ev: Event, cnsi: string)
    requires Inv(cfg, db) && NoShared(db.tokens, cnsi) && Choices(cfg, db, ev) && ev.RefreshOidcEvent?
        && OrdinaryUsers(cfg, ev)
    ensures NoShared(Apply(cfg, db, ev).0.tokens, cnsi)
  {
    var found := FindCnsi(db.tokens, ev.cnsi, ev.user, true, cfg.provider, ev.picks);
    if found.Ok? && ev.reply.Some? && cfg.claims(ev.reply.value.id).Some? {
      var tr := EndpointRecord(ev.reply.value.access, ev.reply.value.refresh,
                               cfg.claims(ev.reply.value.id).value.expiry,
                               found.value.disconnected).(authType := OIDC, metadata := found.value.metadata);
      SaveCnsiKeepsUnshared(db.tokens, ev.cnsi, ev.user, tr, ev.uuid, cnsi);
    }
  }

  lemma StepKeepsUnshared(cfg: Config, db: Db, ev: Event, cnsi: string)
    requires Inv(cfg, db) && NoShared(db.tokens, cnsi) && Legal(cfg, db, ev)
    requires OrdinaryUsers(cfg, ev) && !SharedByAdmin(cfg, db, ev, cnsi)
    ensures NoShared(Apply(cfg, db, ev).0.tokens, cnsi)
  {
    match ev
    case LoginEvent(reply, uuid, h) =>
      LoginKeepsUnshared(cfg, db, reply, uuid, cnsi);
      LoginKeepsInv(cfg, db, reply, uuid);
      var (db1, r) := LoginSaved(cfg, db, reply, uuid);
      if r.Ok? {
        HookKeepsUnshared(cfg, db1, cfg.claims(reply.value.access).value.subject, h, cnsi);
      }
    case StoreLoginEvent(reply, uuid) => LoginKeepsUnshared(cfg, db, reply, uuid, cnsi);
    case RefreshUaaEvent(_, _, _, _, _) => RefreshLoginKeepsUnshared(cfg, db, ev, cnsi);
    case ConnectEvent(_, _, _, _, _, _) => ConnectKeepsUnshared(cfg, db, ev, cnsi);
    case DisconnectEvent(_, _, _, _, _) => DisconnectKeepsUnshared(cfg, db, ev, cnsi);
    case RefreshOAuthEvent(_, _, _, _) => RefreshOAuthKeepsUnshared(cfg, db, ev, cnsi);
    case RefreshOidcEvent(_, _, _, _, _) => RefreshOidcKeepsUnshared(cfg, db, ev, cnsi);
    case RegisterEvent(_, _, _, _) =>
    case UnregisterEvent(c) => DeleteKeepsUnshared(db.tokens, CnsiOfAnyone(c), cnsi);
  }

  /** In no state of the run does an administrator connect the endpoint for everybody. */
  ghost predicate NeverShared(cfg: Config, db: Db, evs: seq<Event>, cnsi: string)
    requires LegalRun(cfg, db, evs)
    decreases |evs|
  {
    evs != [] ==>
      && OrdinaryUsers(cfg, evs[0]) && !SharedByAdmin(cfg, db, evs[0], cnsi)
      && NeverShared(cfg, Apply(cfg, db, evs[0]).0, evs[1..], cnsi)
  }

  /** An endpoint gets a system-shared row only when an administrator connects it for everybody. */
  lemma {:induction false} OnlyAdminsShare(cfg: Config, db: Db, evs: seq<Event>, cnsi: string)
    requires Inv(cfg, db) && NoShared(db.tokens, cnsi) && LegalRun(cfg, db, evs) && NeverShared(cfg, db, evs, cnsi)
    ensures NoShared(Run(cfg, db, evs).tokens, cnsi)
    decreases |evs|
  {
    if evs != [] {
      StepKeepsUnshared(cfg, db, evs[0], cnsi);
      StepKeepsInv(cfg, db, evs[0]);
      OnlyAdminsShare(cfg, Apply(cfg, db, evs[0]).0, evs[1..], cnsi);
    }
  }

  /** So as long as nobody shares the endpoint, every linked row of it stays coherent with its owner's UAA row. */
  lemma UnsharedLinksStayCoherent(cfg: Config, db: Db, evs: seq<Event>, i: nat, cnsi: string, user: string,
                                  inc: bool, p: LookupPicks, pick: Option<nat>)
    requires Inv(cfg, db) && !cfg.provider.Mysql? && NoShared(db.tokens, cnsi) && LegalRun(cfg, db, evs)
        && NeverShared(cfg, db, evs, cnsi)
    requires var t := Run(cfg, db, evs).tokens;
      && i in t.rows && IsCnsiOf(t.rows[i], cnsi, user) && t.rows[i].linked.Some?
      && PicksCnsi(t, cnsi, user, inc, p) && Picks(t, UaaOf(user), pick)
    ensures var t := Run(cfg, db, evs).tokens;
      SameTokens(FindCnsi(t, cnsi, user, inc, cfg.provider, p), FindAuth(t, user, pick))
  {
    OnlyAdminsShare(cfg, db, evs, cnsi);
    RunKeepsLinksCoherent(cfg, db, evs, i, cnsi, user, inc, p, pick);
  }

  /** Somebody who is no administrator can only clear or delete an own row. */
  lemma DisconnectOfOrdinaryUser(cfg: Config, db: Db, user: string, c: string, p: LookupPicks, auth: Option<nat>,
                                 uuid: string)
    requires PicksCnsi(db.tokens, c, user, false, p) && Picks(db.tokens, UaaOf(user), auth)
        && !IsAdmin(cfg, db.tokens, user, auth)
    ensures var t, t' := db.tokens, Disconnect(cfg, db, user, c, p, auth, uuid).0.tokens;
      t' == t || t' == SaveCnsi(t, c, user, ClearedRecord(), uuid).0 || t' == DeleteCnsi(t, c, user).0
  {
  }

  /** A disconnect by somebody who is no administrator leaves shared rows alone. */
  lemma OnlyAdminsUnshare(cfg: Config, db: Db, user: string, c: string, p: LookupPicks, auth: Option<nat>, uuid: string,
                          i: nat)
    requires Inv(cfg, db) && user != SYSTEM_SHARED_USER
    requires PicksCnsi(db.tokens, c, user, false, p) && Picks(db.tokens, UaaOf(user), auth)
    requires i in db.tokens.rows && db.tokens.rows[i].userGuid == SYSTEM_SHARED_USER
        && !IsAdmin(cfg, db.tokens, user, auth)
    ensures var t' := Disconnect(cfg, db, user, c, p, auth, uuid).0.tokens;
      i in t'.rows && t'.rows[i] == db.tokens.rows[i]
  {
    DisconnectOfOrdinaryUser(cfg, db, user, c, p, auth, uuid);
    OrdinaryWritesKeepRow(db.tokens, c, user, uuid, i);
  }

  lemma OrdinaryWritesKeepRow(t: Table, c: string, user: string, uuid: string, i: nat)
    requires Keys(t) && i in t.rows && t.rows[i].userGuid != user
    ensures var t' := SaveCnsi(t, c, user, ClearedRecord(), uuid).0; i in t'.rows && t'.rows[i] == t.rows[i]
    ensures var t' := DeleteCnsi(t, c, user).0; i in t'.rows && t'.rows[i] == t.rows[i]
  {
    var k := SaveCnsiWritesOneRow(t, c, user, ClearedRecord(), uuid);
  }
}

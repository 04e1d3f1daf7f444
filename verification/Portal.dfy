/**
 The handlers of `portalProxy` that write the two tables. Each method takes what the request and the
 remote servers supply and reports, in `ev`, the event it was: its new state and its answer are those
 of `Apply`, so every property of runs of events is a property of runs of these methods.
 */
module Portal {
  import opened Wrappers
  import opened TokenTable
  import opened TokenRepository
  import opened Lifecycle

  class PortalProxy {
    const cfg: Config
    const tokens: Repository
    var cnsis: Endpoints

    constructor (cfg: Config, tokens: Repository, cnsis: Endpoints)
      requires tokens.provider == cfg.provider
      ensures this.cfg == cfg && this.tokens == tokens && this.cnsis == cnsis && Valid()
    {
      this.cfg, this.tokens, this.cnsis := cfg, tokens, cnsis;
    }

    predicate Valid()
      reads this
    {
      tokens.provider == cfg.provider
    }

    function State(): Db
      reads this, tokens
    {
      Db(tokens.table, cnsis)
    }

    /** `cnsis` is keyed by GUID, as its primary key is: saving a GUID that is there fails. */
    method SaveCnsiRecord(guid: string, e: Endpoint) returns (saved: bool)
      modifies this
      ensures saved == (guid !in old(cnsis))
      ensures cnsis == if saved then old(cnsis)[guid := e] else old(cnsis)
      ensures tokens.table == old(tokens.table)
    {
      saved := guid !in cnsis;
      if saved {
        cnsis := cnsis[guid := e];
      }
    }

    method FindByApiEndpoint(api: string) returns (found: Option<Endpoint>, pick: Option<string>)
      ensures PicksApi(cnsis, api, pick)
      ensures found == if pick.Some? then Lookup(cfg, cnsis, pick.value) else None
    {
      var guids := GuidsOfApi(cnsis, api);
      if guids == {} {
        found, pick := None, None;
      } else {
        var g :| g in guids;
        found, pick := Lookup(cfg, cnsis, g), Some(g);
      }
    }

    method DoRegisterEndpoint(name: string, url: string, sso: bool, info: Option<string>)
      returns (r: Result<string, HandlerError>)
      requires Valid()
      modifies this
      ensures Valid() && tokens.table == old(tokens.table)
      ensures (cnsis, r) == Register(cfg, old(cnsis), name, url, sso, info)
    {
      if name == "" || url == "" {
        return Err(BadRequest);
      }
      var api := TrimRight(url);
      var normal := cfg.parse(api);
      if normal.None? {
        return Err(BadRequest);
      }
      var existing, pick := FindByApiEndpoint(api);
      if existing.Some? {
        return Err(DuplicateEndpoint);
      }
      if info.None? {
        return Err(RemoteFailed);
      }
      var guid := cfg.hash(normal.value);
      var saved := SaveCnsiRecord(guid, Endpoint(name, info.value, normal.value, sso));
      if !saved {
        return Err(DuplicateEndpoint);
      }
      return Ok(guid);
    }

    method SaveAuthTokenOf(reply: Reply, uuid: string) returns (r: Outcome)
      requires Valid()
      modifies tokens
      ensures Valid() && (State(), r) == SaveLogin(cfg, old(State()), reply, uuid)
    {
      var claims := cfg.claims(reply.access);
      if claims.None? {
        return Err(BadToken);
      }
      var c := claims.value;
      var saved := tokens.SaveAuthToken(c.subject, UaaRecord(reply.access, reply.refresh, c.expiry), uuid);
      return Stored(saved);
    }

    method DoLoginToCnsiWithConsoleUaaToken(guid: string, user: string, h0: HookChoices)
      returns (r: Outcome, ghost h: HookChoices)
      requires Valid()
      modifies this, tokens
      ensures Valid() && h == h0.(auth := h.auth) && Picks(old(tokens.table), UaaOf(user), h.auth)
      ensures (State(), r) == LinkToUaa(cfg, old(State()), guid, user, h)
    {
      ghost var pick;
      var uaa;
      uaa, pick := tokens.FindAuthToken(user);
      h := h0.(auth := pick);
      if uaa.Err? {
        return Err(StoreFailed(uaa.error)), h;
      }
      var claims := cfg.claims(uaa.value.authToken);
      if claims.None? {
        return Err(BadToken), h;
      }
      match h0.uaa {
        case Unreachable => r := Err(ProcessExit);
        case BadUrl => r := Err(RemoteFailed);
        case Different => r := Err(Unauthorized);
        case Same =>
          var tr := uaa.value.(linkedGuid := uaa.value.tokenGuid);
          var saved := tokens.SaveCnsiToken(guid, claims.value.subject, tr, h0.uuid);
          if guid in cnsis {
            cnsis := cnsis[guid := cnsis[guid].(ssoAllowed := true)];
          }
          r := Stored(saved);
      }
    }

    method SaveConnectedToken(guid: string, user: string, connected: Option<TokenRecord>, uuid: string)
      returns (r: Outcome)
      requires Valid()
      modifies tokens
      ensures Valid() && (State(), r) == SaveConnected(cfg, old(State()), guid, user, connected, uuid)
    {
      if Lookup(cfg, cnsis, guid).None? {
        return Err(NotRegistered);
      }
      if connected.None? {
        return Err(RemoteFailed);
      }
      var saved := tokens.SaveCnsiToken(guid, user, connected.value, uuid);
      return Stored(saved);
    }

    method FetchOrRegisterEndpoint(h0: HookChoices) returns (r: Result<string, HandlerError>, known: Option<string>)
      requires Valid()
      modifies this
      ensures Valid() && tokens.table == old(tokens.table)
      ensures PicksApi(old(cnsis), TrimRight(cfg.autoRegisterUrl), known)
      ensures (State(), r) == HookEndpoint(cfg, old(State()), h0.(known := known))
    {
      var api := TrimRight(cfg.autoRegisterUrl);
      var found;
      found, known := FindByApiEndpoint(api);
      if found.Some? && found.value.cnsiType != "" {
        return Ok(known.value), known;
      }
      var name := if cfg.autoRegisterName == "" then "Cloud Foundry" else cfg.autoRegisterName;
      r := DoRegisterEndpoint(name, api, false, h0.info);
      if r.Err? {
        r := Err(ProcessExit);
      }
    }

    method AutoConnectUser(guid: string, user: string, h0: HookChoices) returns (r: Outcome, ghost h: HookChoices)
      requires Valid()
      modifies this, tokens
      ensures Valid() && h == h0.(lookup := h.lookup, auth := h.auth)
      ensures AutoConnectLegal(old(State()), guid, user, h)
      ensures (State(), r) == AutoConnect(cfg, old(State()), guid, user, h)
    {
      ghost var lookup;
      var record;
      record, lookup := tokens.FindCnsiToken(guid, user, true);
      h := h0.(lookup := lookup, auth := AnyPick(tokens.table, UaaOf(user)));
      if record.Ok? && record.value.disconnected {
        return Ok(()), h;
      }
      if cfg.sso {
        ghost var h1;
        r, h1 := DoLoginToCnsiWithConsoleUaaToken(guid, user, h0);
        h := h.(auth := h1.auth);
      } else {
        r := SaveConnectedToken(guid, user, h0.connected, h0.uuid);
      }
    }

    method CfLoginHook(user: string, h0: HookChoices) returns (r: Outcome, ghost h: HookChoices)
      requires Valid()
      requires (h0.info.Some? ==> h0.info.value == "cf") && (h0.connected.Some? ==> PluginRecord(h0.connected.value))
      modifies this, tokens
      ensures Valid() && h == h0.(known := h.known, lookup := h.lookup, auth := h.auth)
      ensures HookLegal(cfg, old(State()), user, h)
      ensures (State(), r) == Hook(cfg, old(State()), user, h)
    {
      h := h0;
      if TrimRight(cfg.autoRegisterUrl) == "" {
        return Ok(()), h;
      }
      var target, known := FetchOrRegisterEndpoint(h0);
      h := h0.(known := known);
      if target.Err? {
        return Err(target.error), h;
      }
      ghost var h1;
      r, h1 := AutoConnectUser(target.value, user, h0);
      h := h.(lookup := h1.lookup, auth := h1.auth);
    }

    method LoginToUaa(reply: Option<Reply>, uuid: string, h0: HookChoices) returns (r: Outcome, ghost ev: Event)
      requires Valid()
      requires (h0.info.Some? ==> h0.info.value == "cf") && (h0.connected.Some? ==> PluginRecord(h0.connected.value))
      modifies this, tokens
      ensures Valid() && ev.LoginEvent? && ev.reply == reply && ev.uuid == uuid
      ensures ev.hook == h0.(known := ev.hook.known, lookup := ev.hook.lookup, auth := ev.hook.auth)
      ensures Choices(cfg, old(State()), ev) && (State(), r) == Apply(cfg, old(State()), ev)
    {
      ev := LoginEvent(reply, uuid, h0);
      if reply.None? {
        return Err(RemoteFailed), ev;
      }
      r := SaveAuthTokenOf(reply.value, uuid);
      if r.Ok? {
        ghost var h;
        var hooked;
        hooked, h := CfLoginHook(cfg.claims(reply.value.access).value.subject, h0);
        ev := LoginEvent(reply, uuid, h);
        r := LoginAnswer(hooked);
      }
    }

    method RefreshUaaToken(user: string, keepUser: bool, reply: Option<Reply>, uuid: string)
      returns (r: Outcome, ghost ev: Event)
      requires Valid()
      modifies tokens
      ensures Valid() && ev.RefreshUaaEvent? && ev == RefreshUaaEvent(user, keepUser, ev.auth, reply, uuid)
      ensures Choices(cfg, old(State()), ev) && (State(), r) == Apply(cfg, old(State()), ev)
    {
      ghost var pick;
      var found;
      found, pick := tokens.FindAuthToken(user);
      ev := RefreshUaaEvent(user, keepUser, pick, reply, uuid);
      if found.Err? {
        return Err(StoreFailed(found.error)), ev;
      }
      if reply.None? {
        return Err(RemoteFailed), ev;
      }
      var claims := cfg.claims(reply.value.access);
      if claims.None? {
        return Err(BadToken), ev;
      }
      var owner := if keepUser then user else claims.value.subject;
      var saved := tokens.SaveAuthToken(owner, UaaRecord(reply.value.access, reply.value.refresh, claims.value.expiry),
                                        uuid);
      r := Stored(saved);
    }

    method UserIsAdmin(user: string) returns (admin: bool, ghost pick: Option<nat>)
      ensures Picks(tokens.table, UaaOf(user), pick) && admin == IsAdmin(cfg, tokens.table, user, pick)
    {
      var found;
      found, pick := tokens.FindAuthToken(user);
      admin := found.Ok? && cfg.claims(found.value.authToken).Some? && cfg.claims(found.value.authToken).value.admin;
    }

    method DoLoginToCnsi(user: string, cnsi: string, shared: bool, connected: Option<TokenRecord>, uuid: string)
      returns (r: Outcome, ghost ev: Event)
      requires Valid() && (connected.Some? ==> PluginRecord(connected.value))
      modifies tokens
      ensures Valid() && ev.ConnectEvent? && ev == ConnectEvent(user, cnsi, shared, ev.auth, connected, uuid)
      ensures Choices(cfg, old(State()), ev) && (State(), r) == Apply(cfg, old(State()), ev)
    {
      ghost var auth := AnyPick(tokens.table, UaaOf(user));
      ev := ConnectEvent(user, cnsi, shared, auth, connected, uuid);
      if Lookup(cfg, cnsis, cnsi).None? {
        return Err(NotRegistered), ev;
      }
      var userId := user;
      if shared {
        var admin;
        admin, auth := UserIsAdmin(user);
        ev := ConnectEvent(user, cnsi, shared, auth, connected, uuid);
        if !admin {
          return Err(Unauthorized), ev;
        }
        userId := SYSTEM_SHARED_USER;
      }
      r := SaveConnectedToken(cnsi, userId, connected, uuid);
    }

    method LogoutOfCnsi(user: string, cnsi: string, uuid: string) returns (r: Outcome, ghost ev: Event)
      requires Valid()
      modifies tokens
      ensures Valid() && ev.DisconnectEvent? && ev == DisconnectEvent(user, cnsi, ev.picks, ev.auth, uuid)
      ensures Choices(cfg, old(State()), ev) && (State(), r) == Apply(cfg, old(State()), ev)
    {
      ghost var picks, auth := AnyCnsiPicks(tokens.table, cnsi, user, false), AnyPick(tokens.table, UaaOf(user));
      ev := DisconnectEvent(user, cnsi, picks, auth, uuid);
      if cnsi == "" {
        return Err(BadRequest), ev;
      }
      if Lookup(cfg, cnsis, cnsi).None? {
        return Err(NotRegistered), ev;
      }
      var tr;
      tr, picks := tokens.FindCnsiToken(cnsi, user, false);
      ev := DisconnectEvent(user, cnsi, picks, auth, uuid);
      var userGuid := user;
      if tr.Ok? && tr.value.systemShared {
        var admin;
        admin, auth := UserIsAdmin(user);
        ev := DisconnectEvent(user, cnsi, picks, auth, uuid);
        if !admin {
          return Err(Unauthorized), ev;
        }
        userGuid := SYSTEM_SHARED_USER;
      }
      var stored;
      if IsAutoRegistered(cfg, cnsis[cnsi]) {
        stored := tokens.SaveCnsiToken(cnsi, userGuid, ClearedRecord(), uuid);
      } else {
        stored := tokens.DeleteCnsiToken(cnsi, userGuid);
      }
      r := Stored(stored);
    }

    method RefreshOAuthToken(cnsi: string, user: string, reply: Option<Reply>)
      returns (r: Result<TokenRecord, HandlerError>, ghost picks: LookupPicks)
      requires Valid()
      modifies tokens
      ensures Valid() && PicksCnsi(old(tokens.table), cnsi, user, true, picks)
      ensures (State(), r) == RefreshOAuth(cfg, old(State()), user, cnsi, picks, reply)
    {
      var found;
      found, picks := tokens.FindCnsiToken(cnsi, user, true);
      if found.Err? {
        return Err(StoreFailed(found.error)), picks;
      }
      if reply.None? {
        return Err(RemoteFailed), picks;
      }
      var claims := cfg.claims(reply.value.access);
      if claims.None? {
        return Err(BadToken), picks;
      }
      var tr := EndpointRecord(reply.value.access, reply.value.refresh, claims.value.expiry, found.value.disconnected);
      tr := tr.(tokenGuid := found.value.tokenGuid);
      var updated := tokens.UpdateTokenAuth(user, tr);
      if updated.Err? {
        return Err(StoreFailed(updated.error)), picks;
      }
      r := Ok(tr);
    }

    method RefreshOidcToken(cnsi: string, user: string, reply: Option<Reply>, uuid: string)
      returns (r: Result<TokenRecord, HandlerError>, ghost picks: LookupPicks)
      requires Valid()
      modifies tokens
      ensures Valid() && PicksCnsi(old(tokens.table), cnsi, user, true, picks)
      ensures (State(), r) == RefreshOidc(cfg, old(State()), user, cnsi, picks, reply, uuid)
    {
      var found;
      found, picks := tokens.FindCnsiToken(cnsi, user, true);
      if found.Err? {
        return Err(StoreFailed(found.error)), picks;
      }
      if reply.None? {
        return Err(RemoteFailed), picks;
      }
      var claims := cfg.claims(reply.value.id);
      if claims.None? {
        return Err(BadToken), picks;
      }
      var tr := EndpointRecord(reply.value.access, reply.value.refresh, claims.value.expiry, found.value.disconnected);
      tr := tr.(authType := OIDC, metadata := found.value.metadata);
      var saved := tokens.SaveCnsiToken(cnsi, user, tr, uuid);
      if saved.Err? {
        return Err(StoreFailed(saved.error)), picks;
      }
      r := Ok(tr);
    }

    method UnregisterCluster(cnsi: string) returns (r: Outcome)
      requires Valid()
      modifies this, tokens
      ensures Valid() && (State(), r) == Unregister(old(State()), cnsi)
    {
      if cnsi == "" {
        return Err(BadRequest);
      }
      cnsis := cnsis - {cnsi};
      var _ := tokens.DeleteCnsiTokens(cnsi);
      return Ok(());
    }
  }
}

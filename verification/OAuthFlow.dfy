/** The retry loop around a proxied request: send, refresh the token if it is stale or refused, send again. */
module OAuthFlow {
  import opened Wrappers
  import opened TokenTable
  import opened TokenLaws
  import opened Lifecycle
  import opened LifecycleInvariants
  import opened LifecycleTheorems
  import opened Portal

  /** One turn of the loop as the outside world answers it. `status` is `None` when sending fails. */
  datatype Turn = Turn(now: int, reply: Option<Reply>, status: Option<nat>)

  /**
   A request that went out: the token it carried, when that token was looked at, the reply that it was
   refreshed from just before, if it was, and the answer.
   */
  datatype Sent = Sent(token: string, expiry: int, checkedAt: int, refreshed: Option<Reply>, status: Option<nat>)

  datatype Answer =
    | Response(status: nat)
    | RefusedTwice      // the 401 comes together with an error
    | RequestFailed
    | RefreshFailed
    | NoToken

  // ---------------------------------------------------------------- the row behind a lookup

  /**
   Row `i` is the row of (`cnsi`, `user`), no shared row competes with it, and `j` is the row that
   holds its tokens: `i` itself, or the row of the same user that `i` is linked to.
   */
  ghost predicate OwnTokens(t: Table, cnsi: string, user: string, i: nat, j: nat) {
    && Keys(t) && NoShared(t, cnsi) && cnsi != "" && user != ""
    && i in t.rows && j in t.rows && IsCnsiOf(t.rows[i], cnsi, user)
    && (t.rows[i].linked.None? ==> i == j)
    && (t.rows[i].linked.Some? ==>
          t.rows[i].authType == OAUTH2 && Matches(ByGuid(user, t.rows[i].linked.value), t.rows[j])
              && !t.rows[j].disconnected)
  }

  /** In every reachable state a row that no shared row competes with has a row behind it. */
  lemma OwnTokensExist(cfg: Config, t: Table, cnsi: string, user: string, i: nat) returns (j: nat)
    requires TokensInv(cfg, t) && NoShared(t, cnsi) && i in t.rows && IsCnsiOf(t.rows[i], cnsi, user)
    ensures OwnTokens(t, cnsi, user, i, j)
  {
    assert RowShape(cfg, t.rows[i]);
    j := i;
    if t.rows[i].linked.Some? {
      j :| j in t.rows && LinksTo(t, i, j);
      assert RowShape(cfg, t.rows[j]);
    }
  }

  lemma OwnTokensFound(t: Table, cnsi: string, user: string, i: nat, j: nat, inc: bool, provider: Provider,
                       p: LookupPicks)
    requires !provider.Mysql? && OwnTokens(t, cnsi, user, i, j) && PicksCnsi(t, cnsi, user, inc, p)
    requires inc || !t.rows[i].disconnected
    ensures p.row == Some(i) && FindCnsi(t, cnsi, user, inc, provider, p) == Decrypted(t.rows[j])
  {
    assert i in Ids(t, RowClause(cnsi, user, inc));
    assert forall k <- t.rows ::
        IsCnsiOf(t.rows[k], cnsi, SYSTEM_SHARED_USER) ==> k in Ids(t, CnsiOf(cnsi, SYSTEM_SHARED_USER));
    assert p.row.value == i;
    if t.rows[i].linked.Some? {
      assert j in Ids(t, LinkClause(user, t.rows[i].linked.value, inc));
    }
  }

  lemma OwnTokensFrame(t: Table, t': Table, cnsi: string, user: string, i: nat, j: nat)
    requires OwnTokens(t, cnsi, user, i, j) && Keys(t')
    requires OnlyRow(t, t', j) && SameKey(t.rows[j], t'.rows[j])
    requires t'.rows[j].disconnected == t.rows[j].disconnected && t'.rows[j].linked == t.rows[j].linked
    requires t'.rows[j].authType == t.rows[j].authType
    ensures OwnTokens(t', cnsi, user, i, j)
  {
    forall k <- t'.rows
      ensures !IsCnsiOf(t'.rows[k], cnsi, SYSTEM_SHARED_USER)
    {
      assert k !in Ids(t, CnsiOf(cnsi, SYSTEM_SHARED_USER));
    }
  }

  /** An OAuth refresh fails without a change, or puts the new tokens into the row behind the lookup. */
  lemma RefreshOAuthHitsRow(cfg: Config, db: Db, cnsi: string, user: string, i: nat, j: nat, p: LookupPicks,
                            reply: Option<Reply>)
    requires !cfg.provider.Mysql? && OwnTokens(db.tokens, cnsi, user, i, j) && PicksCnsi(db.tokens, cnsi, user, true, p)
    ensures var (db', r) := RefreshOAuth(cfg, db, user, cnsi, p, reply);
      if r.Err? then db' == db
      else OwnTokens(db'.tokens, cnsi, user, i, j) && db'.tokens.rows[j].auth == r.value.authToken
  {
    OwnTokensFound(db.tokens, cnsi, user, i, j, true, cfg.provider, p);
    var (db', r) := RefreshOAuth(cfg, db, user, cnsi, p, reply);
    var found := FindCnsi(db.tokens, cnsi, user, true, cfg.provider, p);
    if found.Ok? && reply.Some? && cfg.claims(reply.value.access).Some? {
      var tr := EndpointRecord(reply.value.access, reply.value.refresh, cfg.claims(reply.value.access).value.expiry,
                               found.value.disconnected).(tokenGuid := found.value.tokenGuid);
      var k := UpdateTokenAuthWritesOneRow(db.tokens, user, tr);
      UpdateTokenAuthKeepsKeys(db.tokens, user, tr);
      if r.Ok? {
        OwnTokensFrame(db.tokens, db'.tokens, cnsi, user, i, j);
      }
    }
  }

  /** So does an OIDC refresh, which writes the row of the endpoint itself. */
  lemma RefreshOidcHitsRow(cfg: Config, db: Db, cnsi: string, user: string, i: nat, j: nat, p: LookupPicks,
                           reply: Option<Reply>, uuid: string)
    requires !cfg.provider.Mysql? && OwnTokens(db.tokens, cnsi, user, i, j) && PicksCnsi(db.tokens, cnsi, user, true, p)
    ensures var (db', r) := RefreshOidc(cfg, db, user, cnsi, p, reply, uuid);
      if r.Err? then db' == db
      else OwnTokens(db'.tokens, cnsi, user, i, j) && db'.tokens.rows[j].auth == r.value.authToken
  {
    OwnTokensFound(db.tokens, cnsi, user, i, j, true, cfg.provider, p);
    var (db', r) := RefreshOidc(cfg, db, user, cnsi, p, reply, uuid);
    var found := FindCnsi(db.tokens, cnsi, user, true, cfg.provider, p);
    if found.Ok? && reply.Some? && cfg.claims(reply.value.id).Some? {
      var tr := EndpointRecord(reply.value.access, reply.value.refresh, cfg.claims(reply.value.id).value.expiry,
                               found.value.disconnected).(authType := OIDC, metadata := found.value.metadata);
      var k := SaveCnsiWritesOneRow(db.tokens, cnsi, user, tr, uuid);
      assert i in Ids(db.tokens, CnsiOf(cnsi, user));
      if r.Ok? {
        assert k == i == j && db.tokens.rows[i].linked.None? by {
          assert IsCnsiOf(db.tokens.rows[i], cnsi, user) && db.tokens.rows[i].authType == OIDC;
        }
        OneRowWriteKeepsKeys(db.tokens, db'.tokens, i);
        OwnTokensFrame(db.tokens, db'.tokens, cnsi, user, i, j);
      }
    }
  }

  /** A refresh that fails leaves the table as it was, whoever owns the rows. */
  lemma FailedRefreshWritesNothing(cfg: Config, db: Db, cnsi: string, user: string, p: LookupPicks,
                                   reply: Option<Reply>, uuid: string)
    requires PicksCnsi(db.tokens, cnsi, user, true, p)
    ensures RefreshOAuth(cfg, db, user, cnsi, p, reply).1.Err? ==> RefreshOAuth(cfg, db, user, cnsi, p, reply).0 == db
    ensures RefreshOidc(cfg, db, user, cnsi, p, reply, uuid).1.Err?
        ==> RefreshOidc(cfg, db, user, cnsi, p, reply, uuid).0 == db
  {
    forall w, a | Ids(db.tokens, w) == {}
      ensures Update(db.tokens, w, a) == db.tokens
    {
      UpdateOfNoRow(db.tokens, w, a);
    }
  }

  // ---------------------------------------------------------------- the loop

  /**
   Every request carries the token that was found, unexpired when it was looked at, or the access token
   of a reply that the token server gave to this very turn, with its expiry. The first request does
   without a refresh exactly if the token that was found is unexpired; the second never does.
   */
  predicate Fair(cfg: Config, oidc: bool, found: TokenRecord, world: nat -> Turn, sends: seq<Sent>) {
    forall k | 0 <= k < |sends| :: FairSend(cfg, oidc, found, world(k), k, sends[k])
  }

  /** When a reply expires: an OIDC token by its ID token, any other by its access token. */
  function ExpiryOf(cfg: Config, oidc: bool, reply: Reply): Option<int> {
    var claims := cfg.claims(if oidc then reply.id else reply.access);
    if claims.None? then None else Some(claims.value.expiry)
  }

  predicate FairSend(cfg: Config, oidc: bool, found: TokenRecord, turn: Turn, k: nat, sent: Sent) {
    && sent.checkedAt == turn.now && sent.status == turn.status
    && match sent.refreshed
       case Some(reply) =>
         && turn.reply == Some(reply) && (k > 0 || found.expiry < turn.now)
         && sent.token == reply.access && Some(sent.expiry) == ExpiryOf(cfg, oidc, reply)
       case None =>
         k == 0 && sent.token == found.authToken && sent.expiry == found.expiry && turn.now <= found.expiry
  }

  /** How many requests were sent with a refreshed token. */
  function Refreshed(sends: seq<Sent>): (n: nat)
    ensures n <= |sends|
  {
    if sends == [] then 0 else Refreshed(sends[..|sends| - 1]) + if sends[|sends| - 1].refreshed.Some? then 1 else 0
  }

  lemma SentOneMore(cfg: Config, oidc: bool, found: TokenRecord, world: nat -> Turn, sends: seq<Sent>, sent: Sent)
    requires Fair(cfg, oidc, found, world, sends) && FairSend(cfg, oidc, found, world(|sends|), |sends|, sent)
    ensures Fair(cfg, oidc, found, world, sends + [sent])
  {
    var all := sends + [sent];
    forall k | 0 <= k < |all|
      ensures FairSend(cfg, oidc, found, world(k), k, all[k])
    {
      if k < |sends| {
        assert all[k] == sends[k];
      }
    }
  }

  lemma RefreshedOneMore(sends: seq<Sent>, sent: Sent)
    ensures Refreshed(sends + [sent]) == Refreshed(sends) + if sent.refreshed.Some? then 1 else 0
  {
    assert (sends + [sent])[..|sends|] == sends;
  }

  /** Row `i` is the user's own, with tokens in row `j`, on a provider that can follow its link. */
  ghost predicate Owned(p: PortalProxy, cnsi: string, user: string, i: nat, j: nat)
    reads p, p.tokens
  {
    !p.cfg.provider.Mysql? && OwnTokens(p.tokens.table, cnsi, user, i, j)
  }

  /** Such a row, and the token is the one in row `j`. */
  ghost predicate IsStored(p: PortalProxy, cnsi: string, user: string, i: nat, j: nat, token: string)
    reads p, p.tokens
  {
    Owned(p, cnsi, user, i, j) && p.tokens.table.rows[j].auth == token
  }

  /** `RefreshOAuthToken` or `RefreshOidcToken`; the rows `i` and `j` matter to the last clause alone. */
  method RefreshToken(p: PortalProxy, oidc: bool, cnsi: string, user: string, reply: Option<Reply>, uuid: string,
                      ghost i: nat, ghost j: nat)
    returns (r: Result<TokenRecord, HandlerError>)
    requires p.Valid()
    modifies p.tokens
    ensures p.Valid()
    ensures r.Err? ==> p.tokens.table == old(p.tokens.table)
    ensures r.Ok? ==>
      reply.Some? && r.value.authToken == reply.value.access
          && Some(r.value.expiry) == ExpiryOf(p.cfg, oidc, reply.value)
    ensures r.Ok? && old(Owned(p, cnsi, user, i, j)) ==> IsStored(p, cnsi, user, i, j, r.value.authToken)
  {
    ghost var before, picks, owned := p.State(), LookupPicks(None, None), Owned(p, cnsi, user, i, j);
    if oidc {
      r, picks := p.RefreshOidcToken(cnsi, user, reply, uuid);
    } else {
      r, picks := p.RefreshOAuthToken(cnsi, user, reply);
    }
    FailedRefreshWritesNothing(p.cfg, before, cnsi, user, picks, reply, uuid);
    if owned {
      if oidc {
        RefreshOidcHitsRow(p.cfg, before, cnsi, user, i, j, picks, reply, uuid);
      } else {
        RefreshOAuthHitsRow(p.cfg, before, cnsi, user, i, j, picks, reply);
      }
    }
  }

  /** What the answer of the loop says about the requests that were sent. */
  predicate AnswerFits(answer: Answer, sends: seq<Sent>) {
    && (forall k | 0 <= k < |sends| - 1 :: sends[k].status == Some(401))
    && (answer.Response? <==>
          sends != [] && sends[|sends| - 1].status.Some? && sends[|sends| - 1].status != Some(401))
    && (answer.Response? ==> sends[|sends| - 1].status == Some(answer.status))
    && (answer.RefusedTwice? <==> |sends| == 2 && sends[1].status == Some(401))
  }

  /**
   What the loop promises for whatever token was found and whatever the servers answer: at most two
   requests and two refreshes, each request with a fair token, refreshes counted, and a refusal that
   reaches the caller only as an error after a second request. A failed refresh was needed: the token
   that was found had expired, or the first request was refused.
   */
  predicate Promised(cfg: Config, oidc: bool, found: TokenRecord, world: nat -> Turn, answer: Answer, sends: seq<Sent>,
                     refreshes: nat) {
    && |sends| <= 2 && refreshes <= 2 && Fair(cfg, oidc, found, world, sends) && AnswerFits(answer, sends)
         && !answer.NoToken?
    && refreshes == Refreshed(sends) + (if answer.RefreshFailed? then 1 else 0)
    && (sends == [] ==> answer.RefreshFailed? && found.expiry < world(0).now)
    && (answer.RefreshFailed? && sends != [] ==> |sends| == 1 && sends[0].status == Some(401))
  }

  /** Between two turns nothing was sent, or one request that was refused with the token at hand. */
  predicate InLoop(cfg: Config, oidc: bool, found: TokenRecord, world: nat -> Turn, got401: bool, tokenRec: TokenRecord,
                   sends: seq<Sent>,
                   refreshes: nat) {
    && Fair(cfg, oidc, found, world, sends) && refreshes == Refreshed(sends)
    && (if got401 then |sends| == 1 && sends[0].status == Some(401) && sends[0].token == tokenRec.authToken
        else sends == [] && tokenRec == found)
  }

  lemma FailedRefreshEnds(cfg: Config, oidc: bool, found: TokenRecord, world: nat -> Turn, got401: bool,
                          tokenRec: TokenRecord,
                          sends: seq<Sent>, refreshes: nat)
    requires InLoop(cfg, oidc, found, world, got401, tokenRec, sends, refreshes)
    requires got401 || found.expiry < world(0).now
    ensures Promised(cfg, oidc, found, world, RefreshFailed, sends, refreshes + 1)
  {
  }

  /** A turn that sends ends the loop, unless the request is refused for the first time. */
  lemma SendEnds(cfg: Config, oidc: bool, found: TokenRecord, world: nat -> Turn, got401: bool, before: TokenRecord,
                 tokenRec: TokenRecord,
                 sends: seq<Sent>, refreshes: nat, refreshed: Option<Reply>)
    requires InLoop(cfg, oidc, found, world, got401, before, sends, refreshes)
    requires var turn := world(|sends|);
      match refreshed
      case None => !got401 && turn.now <= found.expiry && tokenRec == before
      case Some(reply) =>
        && (got401 || found.expiry < turn.now) && turn.reply == refreshed
        && tokenRec.authToken == reply.access && Some(tokenRec.expiry) == ExpiryOf(cfg, oidc, reply)
    ensures var turn := world(|sends|);
      var all := sends + [Sent(tokenRec.authToken, tokenRec.expiry, turn.now, refreshed, turn.status)];
      var count := refreshes + if refreshed.Some? then 1 else 0;
      if turn.status.None? then Promised(cfg, oidc, found, world, RequestFailed, all, count)
      else if turn.status.value != 401 then Promised(cfg, oidc, found, world, Response(turn.status.value), all, count)
      else if got401 then Promised(cfg, oidc, found, world, RefusedTwice, all, count)
      else InLoop(cfg, oidc, found, world, true, tokenRec, all, count)
  {
    var turn := world(|sends|);
    var sent := Sent(tokenRec.authToken, tokenRec.expiry, turn.now, refreshed, turn.status);
    SentOneMore(cfg, oidc, found, world, sends, sent);
    RefreshedOneMore(sends, sent);
  }

  /** The loop. If the row is the user's own, the stored token at the end is the one last sent. */
  method OAuthHandler(p: PortalProxy, oidc: bool, cnsi: string, user: string, tokenRec0: TokenRecord,
                      world: nat -> Turn, uuid: string, ghost i: nat, ghost j: nat)
    returns (answer: Answer, sends: seq<Sent>, refreshes: nat)
    requires p.Valid()
    modifies p.tokens
    ensures p.Valid()
    ensures Promised(p.cfg, oidc, tokenRec0, world, answer, sends, refreshes)
    ensures sends == [] ==> p.tokens.table == old(p.tokens.table)
    ensures old(IsStored(p, cnsi, user, i, j, tokenRec0.authToken)) ==>
      IsStored(p, cnsi, user, i, j, if sends == [] then tokenRec0.authToken else sends[|sends| - 1].token)
  {
    var tokenRec := tokenRec0;
    var got401 := false;
    sends, refreshes := [], 0;
    ghost var own := IsStored(p, cnsi, user, i, j, tokenRec0.authToken);
    while true
      invariant p.Valid() && InLoop(p.cfg, oidc, tokenRec0, world, got401, tokenRec, sends, refreshes)
      invariant !got401 ==> p.tokens.table == old(p.tokens.table)
      invariant own ==> IsStored(p, cnsi, user, i, j, tokenRec.authToken)
      decreases !got401
    {
      var turn := world(|sends|);
      var refreshed: Option<Reply> := None;
      ghost var before, count, sent := tokenRec, refreshes, sends;
      if got401 || tokenRec.expiry < turn.now {
        refreshes := refreshes + 1;
        var r := RefreshToken(p, oidc, cnsi, user, turn.reply, uuid, i, j);
        if r.Err? {
          FailedRefreshEnds(p.cfg, oidc, tokenRec0, world, got401, before, sent, count);
          return RefreshFailed, sends, refreshes;
        }
        tokenRec, refreshed := r.value, turn.reply;
        assert own ==> IsStored(p, cnsi, user, i, j, tokenRec.authToken);
      }
      sends := sends + [Sent(tokenRec.authToken, tokenRec.expiry, turn.now, refreshed, turn.status)];
      assert sends[|sends| - 1].token == tokenRec.authToken;
      assert own ==> IsStored(p, cnsi, user, i, j, sends[|sends| - 1].token);
      SendEnds(p.cfg, oidc, tokenRec0, world, got401, before, tokenRec, sent, count, refreshed);
      if turn.status.None? {
        return RequestFailed, sends, refreshes;
      }
      if turn.status.value != 401 {
        return Response(turn.status.value), sends, refreshes;
      }
      if got401 {
        return RefusedTwice, sends, refreshes;
      }
      got401 := true;
    }
  }

  /**
   `DoAuthFlowRequest`: find the connected token and the endpoint, then run the loop. Nothing is sent
   only if the lookup fails, the endpoint is gone or the first refresh fails.
   */
  method DoOAuthFlowRequest(p: PortalProxy, oidc: bool, cnsi: string, user: string, world: nat -> Turn, uuid: string,
                            ghost i: nat, ghost j: nat)
    returns (answer: Answer, sends: seq<Sent>, refreshes: nat, found: Result<TokenRecord, StoreError>,
             ghost picks: LookupPicks)
    requires p.Valid()
    modifies p.tokens
    ensures old(PicksCnsi(p.tokens.table, cnsi, user, false, picks))
    ensures found == old(FindCnsi(p.tokens.table, cnsi, user, false, p.cfg.provider, picks))
    ensures answer.NoToken? ==> sends == [] && refreshes == 0
    ensures !answer.NoToken? ==> found.Ok? && Promised(p.cfg, oidc, found.value, world, answer, sends, refreshes)
    ensures answer.NoToken? <==> found.Err? || Lookup(p.cfg, p.cnsis, cnsi).None?
    ensures sends == [] ==> p.tokens.table == old(p.tokens.table)
    ensures old(Owned(p, cnsi, user, i, j) && !p.tokens.table.rows[i].disconnected) ==>
      found == Decrypted(old(p.tokens.table.rows[j]))
    ensures sends != [] && old(Owned(p, cnsi, user, i, j) && !p.tokens.table.rows[i].disconnected) ==>
      IsStored(p, cnsi, user, i, j, sends[|sends| - 1].token)
  {
    found, picks := p.tokens.FindCnsiToken(cnsi, user, false);
    if Owned(p, cnsi, user, i, j) && !p.tokens.table.rows[i].disconnected {
      OwnTokensFound(p.tokens.table, cnsi, user, i, j, false, p.cfg.provider, picks);
    }
    if found.Err? || Lookup(p.cfg, p.cnsis, cnsi).None? {
      return NoToken, [], 0, found, picks;
    }
    answer, sends, refreshes := OAuthHandler(p, oidc, cnsi, user, found.value, world, uuid, i, j);
  }
}

/** `PgsqlTokenRepository`: each method runs its statements on the table it holds. */
module TokenRepository {
  import opened Wrappers
  import opened TokenTable

  class Repository {
    var table: Table
    const provider: Provider

    constructor (table: Table, provider: Provider)
      ensures this.table == table && this.provider == provider
    {
      this.table, this.provider := table, provider;
    }

    method QueryRow(w: Where) returns (pick: Option<nat>)
      ensures Picks(table, w, pick)
    {
      var ids := Ids(table, w);
      if ids == {} {
        pick := None;
      } else {
        var i :| i in ids;
        pick := Some(i);
      }
    }

    method Exec(w: Where, a: Assignment) returns (rowsAffected: nat)
      modifies this
      ensures table == Update(old(table), w, a)
      ensures rowsAffected == |Ids(old(table), w)|
    {
      rowsAffected := |Ids(table, w)|;
      table := Update(table, w, a);
    }

    method SaveAuthToken(user: string, tr: TokenRecord, uuid: string) returns (r: Result<(), StoreError>)
      modifies this
      ensures (table, r) == SaveAuth(old(table), user, tr, uuid)
    {
      if user == "" {
        return Err(NoUserGuid);
      }
      if tr.authToken == "" {
        return Err(NoAuthToken);
      }
      var refresh := SealRefresh(tr.refreshToken);
      var count := |Ids(table, UaaOf(user))|;
      if count == 0 {
        table := Insert(table, Row(uuid, Uaa, None, user, tr.authToken, refresh, tr.expiry, false, OAUTH2, None, None));
      } else {
        var _ := Exec(UaaOf(user), SetAuth(tr.authToken, refresh, tr.expiry));
      }
      return Ok(());
    }

    method FindAuthToken(user: string) returns (r: Result<TokenRecord, StoreError>, ghost pick: Option<nat>)
      ensures Picks(table, UaaOf(user), pick) && r == FindAuth(table, user, pick)
    {
      if user == "" {
        pick := AnyPick(table, UaaOf(user));
        return Err(NoUserGuid), pick;
      }
      var row := QueryRow(UaaOf(user));
      pick := row;
      if row.None? {
        return Err(NoRows), pick;
      }
      r := Decrypted(table.rows[row.value]);
      if r.Ok? {
        r := Ok(r.value.(disconnected := false, systemShared := false, linkedGuid := ""));
      }
    }

    method SaveCnsiToken(cnsi: string, user: string, record: TokenRecord, uuid: string)
      returns (r: Result<(), StoreError>)
      modifies this
      ensures (table, r) == SaveCnsi(old(table), cnsi, user, record, uuid)
    {
      if cnsi == "" {
        return Err(NoCnsiGuid);
      }
      if user == "" {
        return Err(NoUserGuid);
      }
      if record.authToken == "" {
        return Err(NoAuthToken);
      }
      var tr := record;
      var linked: Option<string> := None;
      if tr.linkedGuid != "" {
        tr := tr.(authToken := LINKED_TOKEN, refreshToken := LINKED_TOKEN);
        linked := Some(tr.linkedGuid);
      }
      var refresh := SealRefresh(tr.refreshToken);
      var count := |Ids(table, CnsiOf(cnsi, user))|;
      if count == 0 {
        table := Insert(table, Row(uuid, Cnsi, Some(cnsi), user, tr.authToken, refresh, tr.expiry,
                                   tr.disconnected, tr.authType, Some(tr.metadata), linked));
      } else {
        var rowsUpdates := Exec(CnsiOfAuthType(cnsi, user, tr.authType),
                                SetCnsi(tr.authToken, refresh, tr.expiry, tr.disconnected, Some(tr.metadata), linked));
        if rowsUpdates < 1 {
          return Err(NoRowsUpdated);
        }
      }
      return Ok(());
    }

    /** The row found is read first; if it is linked, the scan of the link's row overwrites it. */
    method FindCnsiToken(cnsi: string, user: string, includeDisconnected: bool)
      returns (r: Result<TokenRecord, StoreError>, ghost picks: LookupPicks)
      ensures PicksCnsi(table, cnsi, user, includeDisconnected, picks)
      ensures r == FindCnsi(table, cnsi, user, includeDisconnected, provider, picks)
    {
      picks := AnyCnsiPicks(table, cnsi, user, includeDisconnected);
      if cnsi == "" {
        return Err(NoCnsiGuid), picks;
      }
      if user == "" {
        return Err(NoUserGuid), picks;
      }
      var row := QueryRow(RowClause(cnsi, user, includeDisconnected));
      picks := LookupPicks(row, None);
      if row.None? {
        return Err(NoRows), picks;
      }
      var linked := table.rows[row.value].linked;
      if linked.Some? {
        row := QueryRow(LinkClause(user, linked.value, includeDisconnected));
        picks := picks.(link := row);
        if !LinkStatementWorks(provider, includeDisconnected) {
          return Err(BadStatement), picks;
        }
        if row.None? {
          return Err(NoRows), picks;
        }
      }
      r := Decrypted(table.rows[row.value]);
    }

    method DeleteCnsiToken(cnsi: string, user: string) returns (r: Result<(), StoreError>)
      modifies this
      ensures (table, r) == DeleteCnsi(old(table), cnsi, user)
    {
      if cnsi == "" {
        return Err(NoCnsiGuid);
      }
      if user == "" {
        return Err(NoUserGuid);
      }
      table := Delete(table, CnsiOf(cnsi, user));
      return Ok(());
    }

    method DeleteCnsiTokens(cnsi: string) returns (r: Result<(), StoreError>)
      modifies this
      ensures (table, r) == DeleteCnsiOfAnyone(old(table), cnsi)
    {
      if cnsi == "" {
        return Err(NoCnsiGuid);
      }
      table := Delete(table, CnsiOfAnyone(cnsi));
      return Ok(());
    }

    method UpdateTokenAuth(user: string, tr: TokenRecord) returns (r: Result<(), StoreError>)
      modifies this
      ensures (table, r) == TokenTable.UpdateTokenAuth(old(table), user, tr)
    {
      if user == "" {
        return Err(NoUserGuid);
      }
      if tr.authToken == "" {
        return Err(NoAuthToken);
      }
      if tr.refreshToken == "" {
        return Err(NoRefreshToken);
      }
      var guid := if tr.linkedGuid == "" then tr.tokenGuid else tr.linkedGuid;
      var rowsUpdates := Exec(ByGuid(user, guid), SetAuth(tr.authToken, SealRefresh(tr.refreshToken), tr.expiry));
      if rowsUpdates < 1 {
        return Err(NoRowsUpdated);
      }
      return Ok(());
    }
  }
}

/** Laws of the token repository: keys, one-row updates, frames, and save/find round trips. */
module TokenLaws {
  import opened Wrappers
  import opened TokenTable

  // ---------------------------------------------------------------- keys

  /**
   Two rows that must not coexist: two UAA rows of a user, two rows of a user for one endpoint, two
   rows of a user with one GUID, or any row with the GUID of a UAA row.
   */
  predicate Clash(r: Row, s: Row) {
    || (r.tokenType.Uaa? && s.tokenType.Uaa? && r.userGuid == s.userGuid)
    || (r.tokenType.Cnsi? && s.tokenType.Cnsi? && r.userGuid == s.userGuid && r.cnsiGuid == s.cnsiGuid)
    || (r.userGuid == s.userGuid && r.tokenGuid == s.tokenGuid)
    || ((r.tokenType.Uaa? || s.tokenType.Uaa?) && r.tokenGuid == s.tokenGuid)
  }

  ghost predicate Keys(t: Table) {
    && WellFormed(t)
    && forall i, j | i in t.rows && j in t.rows && Clash(t.rows[i], t.rows[j]) :: i == j
  }

  predicate SameKey(r: Row, s: Row) {
    r.tokenType == s.tokenType && r.cnsiGuid == s.cnsiGuid && r.userGuid == s.userGuid && r.tokenGuid == s.tokenGuid
  }

  /** What `uuid.NewV4` is relied on for: the new GUID names no row yet. */
  ghost predicate Fresh(t: Table, uuid: string) {
    uuid != "" && forall i <- t.rows :: t.rows[i].tokenGuid != uuid
  }

  // ---------------------------------------------------------------- one-row writes

  /** `t'` differs from `t` in row `i` alone, which is a row of `t'`. */
  ghost predicate OnlyRow(t: Table, t': Table, i: nat) {
    && i in t'.rows
    && t'.rows.Keys == t.rows.Keys + {i}
    && forall j <- t.rows | j != i :: t'.rows[j] == t.rows[j]
  }

  lemma UpdateOfNoRow(t: Table, w: Where, a: Assignment)
    requires Ids(t, w) == {}
    ensures Update(t, w, a) == t
  {
    forall i <- t.rows
      ensures !Matches(w, t.rows[i])
    {
      assert i !in Ids(t, w);
    }
    assert Update(t, w, a).rows == t.rows;
  }

  /** A failed save writes nothing; a successful one writes exactly the UAA row of `user`. */
  lemma SaveAuthWritesOneRow(t: Table, user: string, tr: TokenRecord, uuid: string) returns (i: nat)
    requires Keys(t)
    ensures var (t', r) := SaveAuth(t, user, tr, uuid);
      && (r.Err? ==> t' == t)
      && (r.Ok? ==>
            && OnlyRow(t, t', i) && Matches(UaaOf(user), t'.rows[i])
            && t'.rows[i].auth == tr.authToken && t'.rows[i].refresh == SealRefresh(tr.refreshToken)
            && t'.rows[i].expiry == tr.expiry
            && (if i in t.rows then SameKey(t.rows[i], t'.rows[i]) else t'.rows[i].tokenGuid == uuid))
  {
    var w := UaaOf(user);
    if Ids(t, w) == {} {
      i := t.next;
    } else {
      i :| i in Ids(t, w);
      assert forall j <- t.rows :: Matches(w, t.rows[j]) ==> j == i;
    }
  }

  /**
   A save of an endpoint token fails without a write exactly when an argument is missing or the row
   exists with another authentication type; otherwise it writes exactly the row of (`cnsi`, `user`).
   */
  lemma SaveCnsiWritesOneRow(t: Table, cnsi: string, user: string, tr: TokenRecord, uuid: string) returns (i: nat)
    requires Keys(t)
    ensures var (t', r) := SaveCnsi(t, cnsi, user, tr, uuid);
      && (r.Err? <==>
            || cnsi == "" || user == "" || tr.authToken == ""
            || (exists j <- t.rows :: IsCnsiOf(t.rows[j], cnsi, user) && t.rows[j].authType != tr.authType))
      && (r.Err? ==> t' == t)
      && (r.Ok? ==>
            && OnlyRow(t, t', i) && IsCnsiOf(t'.rows[i], cnsi, user)
            && t'.rows[i].auth == Masked(tr).authToken
            && t'.rows[i].refresh == SealRefresh(Masked(tr).refreshToken)
            && t'.rows[i].expiry == tr.expiry && t'.rows[i].disconnected == tr.disconnected
            && t'.rows[i].authType == tr.authType && t'.rows[i].metadata == Some(tr.metadata)
            && t'.rows[i].linked == LinkedColumn(tr)
            && (if i in t.rows then SameKey(t.rows[i], t'.rows[i]) else t'.rows[i].tokenGuid == uuid))
  {
    var w, wa := CnsiOf(cnsi, user), CnsiOfAuthType(cnsi, user, tr.authType);
    forall j <- t.rows
      ensures Matches(w, t.rows[j]) <==> j in Ids(t, w)
      ensures Matches(wa, t.rows[j]) <==> j in Ids(t, wa)
    {
    }
    if Ids(t, w) == {} {
      i := t.next;
    } else {
      i :| i in Ids(t, w);
      assert forall j <- t.rows :: IsCnsiOf(t.rows[j], cnsi, user) ==> j == i;
      if t.rows[i].authType != tr.authType {
        assert Ids(t, wa) == {};
        var m := Masked(tr);
        UpdateOfNoRow(t, wa, SetCnsi(m.authToken, SealRefresh(m.refreshToken), tr.expiry, tr.disconnected,
                                     Some(tr.metadata), LinkedColumn(tr)));
      } else {
        assert i in Ids(t, wa);
      }
    }
  }

  /** A token update fails without a write or changes the token columns of exactly one row. */
  lemma UpdateTokenAuthWritesOneRow(t: Table, user: string, tr: TokenRecord) returns (i: nat)
    requires Keys(t)
    ensures var (t', r) := UpdateTokenAuth(t, user, tr);
      var guid := if tr.linkedGuid == "" then tr.tokenGuid else tr.linkedGuid;
      && (r.Err? ==> t' == t)
      && (r.Ok? ==>
            && i in t.rows && OnlyRow(t, t', i) && Matches(ByGuid(user, guid), t.rows[i])
            && t'.rows[i] == t.rows[i].(auth := tr.authToken, refresh := Some(tr.refreshToken), expiry := tr.expiry))
      && (r.Ok? <==>
            && user != "" && tr.authToken != "" && tr.refreshToken != ""
            && exists j <- t.rows :: Matches(ByGuid(user, guid), t.rows[j]))
  {
    var guid := if tr.linkedGuid == "" then tr.tokenGuid else tr.linkedGuid;
    var w := ByGuid(user, guid);
    assert forall j <- t.rows :: Matches(w, t.rows[j]) <==> j in Ids(t, w);
    if Ids(t, w) == {} {
      i := 0;
      UpdateOfNoRow(t, w, SetAuth(tr.authToken, SealRefresh(tr.refreshToken), tr.expiry));
    } else {
      i :| i in Ids(t, w);
      assert forall j <- t.rows :: Matches(w, t.rows[j]) ==> j == i;
    }
  }

  // ---------------------------------------------------------------- keys, write by write

  lemma SameKeysKeepKeys(t: Table, t': Table)
    requires Keys(t) && WellFormed(t') && t'.rows.Keys == t.rows.Keys
    requires forall j <- t.rows :: SameKey(t.rows[j], t'.rows[j])
    ensures Keys(t')
  {
    assert forall j <- t'.rows :: SameKey(t.rows[j], t'.rows[j]);
  }

  lemma NewRowKeepsKeys(t: Table, t': Table, i: nat)
    requires Keys(t) && OnlyRow(t, t', i) && i !in t.rows && WellFormed(t')
    requires Fresh(t, t'.rows[i].tokenGuid)
    requires t'.rows[i].tokenType.Uaa? ==> Ids(t, UaaOf(t'.rows[i].userGuid)) == {}
    requires t'.rows[i].tokenType.Cnsi? ==>
               t'.rows[i].cnsiGuid.Some? && Ids(t, CnsiOf(t'.rows[i].cnsiGuid.value, t'.rows[i].userGuid)) == {}
    ensures Keys(t')
  {
    var r := t'.rows[i];
    forall j <- t.rows
      ensures !Clash(t.rows[j], r)
    {
      if r.tokenType.Uaa? {
        assert j !in Ids(t, UaaOf(r.userGuid));
      } else {
        assert j !in Ids(t, CnsiOf(r.cnsiGuid.value, r.userGuid));
      }
    }
    assert forall j <- t.rows :: t'.rows[j] == t.rows[j];
  }

  lemma OneRowWriteKeepsKeys(t: Table, t': Table, i: nat)
    requires Keys(t) && OnlyRow(t, t', i) && WellFormed(t')
    requires if i in t.rows then SameKey(t.rows[i], t'.rows[i])
             else && Fresh(t, t'.rows[i].tokenGuid)
                  && (t'.rows[i].tokenType.Uaa? ==> Ids(t, UaaOf(t'.rows[i].userGuid)) == {})
                  && (t'.rows[i].tokenType.Cnsi? ==>
                        && t'.rows[i].cnsiGuid.Some?
                        && Ids(t, CnsiOf(t'.rows[i].cnsiGuid.value, t'.rows[i].userGuid)) == {})
    ensures Keys(t')
  {
    if i in t.rows {
      assert forall j <- t.rows | j != i :: t'.rows[j] == t.rows[j];
      SameKeysKeepKeys(t, t');
    } else {
      NewRowKeepsKeys(t, t', i);
    }
  }

  lemma SaveAuthKeepsKeys(t: Table, user: string, tr: TokenRecord, uuid: string)
    requires Keys(t) && Fresh(t, uuid)
    ensures Keys(SaveAuth(t, user, tr, uuid).0)
  {
    var i := SaveAuthWritesOneRow(t, user, tr, uuid);
    if SaveAuth(t, user, tr, uuid).1.Ok? {
      OneRowWriteKeepsKeys(t, SaveAuth(t, user, tr, uuid).0, i);
    }
  }

  lemma SaveCnsiKeepsKeys(t: Table, cnsi: string, user: string, tr: TokenRecord, uuid: string)
    requires Keys(t) && Fresh(t, uuid)
    ensures Keys(SaveCnsi(t, cnsi, user, tr, uuid).0)
  {
    var i := SaveCnsiWritesOneRow(t, cnsi, user, tr, uuid);
    if SaveCnsi(t, cnsi, user, tr, uuid).1.Ok? {
      OneRowWriteKeepsKeys(t, SaveCnsi(t, cnsi, user, tr, uuid).0, i);
    }
  }

  lemma UpdateTokenAuthKeepsKeys(t: Table, user: string, tr: TokenRecord)
    requires Keys(t)
    ensures Keys(UpdateTokenAuth(t, user, tr).0)
  {
  }

  lemma DeletesKeepKeys(t: Table, w: Where)
    requires Keys(t)
    ensures Keys(Delete(t, w))
  {
  }

  // ---------------------------------------------------------------- frames

  /** Row `i` can take part in a lookup of (`cnsi`, `user`), directly or through a link. */
  ghost predicate Resolves(t: Table, cnsi: string, user: string, i: nat) {
    && i in t.rows
    && (|| Matches(Visible(cnsi, user), t.rows[i])
        || exists k <- t.rows :: Matches(Visible(cnsi, user), t.rows[k]) && t.rows[k].linked.Some?
                                 && Matches(ByGuid(user, t.rows[k].linked.value), t.rows[i]))
  }

  /** A write to a row outside a lookup leaves its possible picks and its answers unchanged. */
  lemma LookupFrame(t: Table, t': Table, i: nat, cnsi: string, user: string, inc: bool, provider: Provider,
                    p: LookupPicks)
    requires OnlyRow(t, t', i)
    requires !Resolves(t, cnsi, user, i) && !Resolves(t', cnsi, user, i)
    ensures PicksCnsi(t, cnsi, user, inc, p) <==> PicksCnsi(t', cnsi, user, inc, p)
    ensures PicksCnsi(t, cnsi, user, inc, p) ==>
              FindCnsi(t, cnsi, user, inc, provider, p) == FindCnsi(t', cnsi, user, inc, provider, p)
  {
    var w := RowClause(cnsi, user, inc);
    SameIds(t, t', i, w);
    if p.row.Some? && p.row.value in Ids(t, w) && t.rows[p.row.value].linked.Some? {
      var k := p.row.value;
      SameIds(t, t', i, LinkClause(user, t.rows[k].linked.value, inc));
    }
  }

  lemma SameIds(t: Table, t': Table, i: nat, w: Where)
    requires OnlyRow(t, t', i)
    requires i !in Ids(t, w) && i !in Ids(t', w)
    ensures Ids(t, w) == Ids(t', w)
  {
    forall j
      ensures j in Ids(t, w) <==> j in Ids(t', w)
    {
      if j != i && j in t.rows {
        assert t'.rows[j] == t.rows[j];
      }
    }
  }

  // ---------------------------------------------------------------- save, then find

  /** Saving a UAA token and finding it gives it back, if and only if it has a refresh token. */
  lemma SavedAuthIsFound(t: Table, user: string, tr: TokenRecord, uuid: string, pick: Option<nat>)
    requires Keys(t)
    requires SaveAuth(t, user, tr, uuid).1.Ok?
    requires Picks(SaveAuth(t, user, tr, uuid).0, UaaOf(user), pick)
    ensures var found := FindAuth(SaveAuth(t, user, tr, uuid).0, user, pick);
      if tr.refreshToken == "" then found == Err(Undecryptable)
      else found.Ok? && found.value.authToken == tr.authToken && found.value.refreshToken == tr.refreshToken
           && found.value.expiry == tr.expiry
  {
    var t' := SaveAuth(t, user, tr, uuid).0;
    var i := SaveAuthWritesOneRow(t, user, tr, uuid);
    assert i in Ids(t', UaaOf(user));
    forall k <- t.rows
      ensures Matches(UaaOf(user), t.rows[k]) ==> k == i
    {
      assert Matches(UaaOf(user), t.rows[k]) ==> k in Ids(t, UaaOf(user));
    }
    assert forall k <- Ids(t', UaaOf(user)) :: k == i;
  }

  /**
   Saving an endpoint token and looking it up, disconnected rows included, gives back every column,
   provided the record is unlinked and no system-shared row competes; without a refresh token the
   lookup fails.
   */
  lemma SavedCnsiIsFound(t: Table, cnsi: string, user: string, tr: TokenRecord, uuid: string, provider: Provider,
                         p: LookupPicks)
    requires Keys(t) && tr.linkedGuid == ""
    requires SaveCnsi(t, cnsi, user, tr, uuid).1.Ok?
    requires user != SYSTEM_SHARED_USER && Ids(t, CnsiOf(cnsi, SYSTEM_SHARED_USER)) == {}
    requires PicksCnsi(SaveCnsi(t, cnsi, user, tr, uuid).0, cnsi, user, true, p)
    ensures var found := FindCnsi(SaveCnsi(t, cnsi, user, tr, uuid).0, cnsi, user, true, provider, p);
      if tr.refreshToken == "" then found == Err(Undecryptable)
      else found.Ok? && found.value == tr.(tokenGuid := found.value.tokenGuid, systemShared := false)
  {
    var t' := SaveCnsi(t, cnsi, user, tr, uuid).0;
    var i := SaveCnsiWritesOneRow(t, cnsi, user, tr, uuid);
    assert i in Ids(t', Visible(cnsi, user));
    forall k <- t.rows
      ensures !IsCnsiOf(t.rows[k], cnsi, SYSTEM_SHARED_USER)
      ensures IsCnsiOf(t.rows[k], cnsi, user) ==> k == i
    {
      assert k !in Ids(t, CnsiOf(cnsi, SYSTEM_SHARED_USER));
      assert IsCnsiOf(t.rows[k], cnsi, user) ==> k in Ids(t, CnsiOf(cnsi, user));
    }
    assert forall k <- Ids(t', Visible(cnsi, user)) :: k == i;
  }
}

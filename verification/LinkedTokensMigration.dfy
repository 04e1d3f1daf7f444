/**
 The migrations that lead to the table keys: `RemoveStaleTokens` deletes the tokens of endpoints that
 are gone, and `LinkedTokens` adds `token_guid` and `linked_token` and fills in the former.
 */
module LinkedTokensMigration {
  import opened Wrappers
  import opened TokenTable
  import opened TokenLaws
  import opened Lifecycle
  import opened LifecycleInvariants

  const DEFAULT_TOKEN := "default-token"

  function RemoveStale(t: Table, cnsis: Endpoints): Table {
    t.(rows := map i | i in t.rows
                       && !(t.rows[i].tokenType.Cnsi? && t.rows[i].cnsiGuid.Some? && t.rows[i].cnsiGuid.value !in cnsis)
                 :: t.rows[i])
  }

  /** The two new columns, with their defaults. */
  function AddColumns(t: Table): Table {
    t.(rows := map i | i in t.rows :: t.rows[i].(tokenGuid := DEFAULT_TOKEN, linked := None))
  }

  function NameUaaTokens(t: Table): Table {
    t.(rows := map i | i in t.rows ::
         if t.rows[i].tokenGuid == DEFAULT_TOKEN && t.rows[i].tokenType.Uaa?
         then t.rows[i].(tokenGuid := t.rows[i].userGuid) else t.rows[i])
  }

  /** Runs after `NameUaaTokens`; a UAA row whose user is called "default-token" is out of scope. */
  function NameCnsiTokens(t: Table): Table {
    t.(rows := map i | i in t.rows ::
         if t.rows[i].tokenGuid == DEFAULT_TOKEN && t.rows[i].cnsiGuid.Some?
         then t.rows[i].(tokenGuid := t.rows[i].cnsiGuid.value) else t.rows[i])
  }

  function LinkedTokens(t: Table): Table {
    NameCnsiTokens(NameUaaTokens(AddColumns(t)))
  }

  /** What the application kept true of the table before these migrations. */
  ghost predicate Before(cfg: Config, t: Table) {
    && WellFormed(t)
    && (forall i <- t.rows :: t.rows[i].userGuid !in {"", DEFAULT_TOKEN} && t.rows[i].auth != "")
    && (forall i <- t.rows | t.rows[i].tokenType.Cnsi? :: t.rows[i].cnsiGuid.Some? && t.rows[i].cnsiGuid != Some(""))
    && (forall i <- t.rows | t.rows[i].tokenType.Uaa? ::
          && t.rows[i].cnsiGuid.None? && !t.rows[i].disconnected && t.rows[i].authType == OAUTH2
          && cfg.claims(t.rows[i].auth).Some? && cfg.claims(t.rows[i].auth).value.subject == t.rows[i].userGuid)
    && (forall i, j | i in t.rows && j in t.rows && t.rows[i].tokenType == t.rows[j].tokenType
                      && t.rows[i].userGuid == t.rows[j].userGuid && t.rows[i].cnsiGuid == t.rows[j].cnsiGuid :: i == j)
  }

  /** No user with a UAA row has the GUID of an endpoint that some token is for. */
  ghost predicate UsersAreNotEndpoints(t: Table) {
    forall i, j | i in t.rows && j in t.rows && t.rows[i].tokenType.Uaa? && t.rows[j].tokenType.Cnsi? ::
      t.rows[j].cnsiGuid != Some(t.rows[i].userGuid)
  }

  /** The new column is the user's GUID on a UAA row and the endpoint's on an endpoint row. */
  lemma LinkedTokensFills(cfg: Config, t: Table, i: nat)
    requires Before(cfg, t) && i in t.rows
    ensures i in LinkedTokens(t).rows
    ensures LinkedTokens(t).rows[i] == t.rows[i].(linked := None, tokenGuid :=
              if t.rows[i].tokenType.Uaa? then t.rows[i].userGuid else t.rows[i].cnsiGuid.value)
  {
  }

  /** Two filled-in rows clash only if a user has the GUID of an endpoint. */
  lemma FilledRowsClash(cfg: Config, t: Table, i: nat, j: nat)
    requires Before(cfg, t) && i in t.rows && j in t.rows
    ensures i in LinkedTokens(t).rows && j in LinkedTokens(t).rows
    ensures Clash(LinkedTokens(t).rows[i], LinkedTokens(t).rows[j]) <==>
              || i == j
              || (t.rows[i].tokenType.Uaa? && t.rows[j].cnsiGuid == Some(t.rows[i].userGuid))
              || (t.rows[j].tokenType.Uaa? && t.rows[i].cnsiGuid == Some(t.rows[j].userGuid))
  {
    LinkedTokensFills(cfg, t, i);
    LinkedTokensFills(cfg, t, j);
  }

  lemma DisjointUsersGiveKeys(cfg: Config, t: Table)
    requires Before(cfg, t) && UsersAreNotEndpoints(t)
    ensures Keys(LinkedTokens(t))
  {
    var t' := LinkedTokens(t);
    forall i, j | i in t'.rows && j in t'.rows && Clash(t'.rows[i], t'.rows[j])
      ensures i == j
    {
      FilledRowsClash(cfg, t, i, j);
    }
  }

  lemma KeysGiveDisjointUsers(cfg: Config, t: Table)
    requires Before(cfg, t) && Keys(LinkedTokens(t))
    ensures UsersAreNotEndpoints(t)
  {
    forall i, j | i in t.rows && j in t.rows && t.rows[i].tokenType.Uaa? && t.rows[j].tokenType.Cnsi?
      ensures t.rows[j].cnsiGuid != Some(t.rows[i].userGuid)
    {
      FilledRowsClash(cfg, t, i, j);
    }
  }

  /** The back-fill gives the table its keys if and only if no user GUID is an endpoint GUID. */
  lemma BackfillGivesKeys(cfg: Config, t: Table)
    requires Before(cfg, t)
    ensures Keys(LinkedTokens(t)) <==> UsersAreNotEndpoints(t)
  {
    if UsersAreNotEndpoints(t) {
      DisjointUsersGiveKeys(cfg, t);
    }
    if Keys(LinkedTokens(t)) {
      KeysGiveDisjointUsers(cfg, t);
    }
  }

  /** The migrated tables are a start state of the handlers. */
  lemma MigratedTablesSatisfyInv(cfg: Config, t: Table, cnsis: Endpoints)
    requires Before(cfg, t) && UsersAreNotEndpoints(t) && GuidIsHash(cfg, cnsis)
    ensures Inv(cfg, Db(LinkedTokens(RemoveStale(t, cnsis)), cnsis))
  {
    var s := RemoveStale(t, cnsis);
    assert Before(cfg, s) && UsersAreNotEndpoints(s);
    BackfillGivesKeys(cfg, s);
    var t' := LinkedTokens(s);
    forall i <- t'.rows
      ensures RowShape(cfg, t'.rows[i]) && t'.rows[i].linked.None?
      ensures t'.rows[i].tokenType.Cnsi? ==> t'.rows[i].cnsiGuid.value in cnsis
    {
      LinkedTokensFills(cfg, s, i);
    }
  }
}

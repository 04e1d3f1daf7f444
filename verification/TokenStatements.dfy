/** The statements of the token repository, and those that `InitRepositoryProvider` rewrites for the provider. */
module TokenStatements {
  import opened SqlPlaceholders

  datatype Statement =
    | FindAuthToken | CountAuthTokens | InsertAuthToken | UpdateAuthToken
    | FindCnsiToken | FindCnsiTokenConnected | CountCnsiTokens | InsertCnsiToken | UpdateCnsiToken
    | DeleteCnsiToken | DeleteCnsiTokens | UpdateToken
    | GetToken | GetTokenConnected

  const REWRITTEN: set<Statement> := {
    FindAuthToken, CountAuthTokens, InsertAuthToken, UpdateAuthToken,
    FindCnsiToken, FindCnsiTokenConnected, CountCnsiTokens, InsertCnsiToken, UpdateCnsiToken,
    DeleteCnsiToken, DeleteCnsiTokens, UpdateToken}

  /** What is sent for a statement with text `sql` once the repository is initialised. */
  function Sent(provider: Provider, st: Statement, sql: string): string {
    if st in REWRITTEN then ModifySqlStatement(sql, provider) else sql
  }

  /** Whether the provider executes the statement as it was meant. */
  predicate Works(provider: Provider, st: Statement) {
    st in REWRITTEN || !provider.Mysql?
  }

  /**
   Whatever the text of a statement, as long as its placeholders are numbered in order: it executes as
   it was meant exactly if it is rewritten or the provider is not MySQL, and the two statements that
   follow a link are the ones that are not rewritten.
   */
  lemma WorksIfFaithful(provider: Provider, st: Statement, sql: string)
    requires WellNumbered(sql) && Numbers(sql) != []
    ensures Works(provider, st) <==> Faithful(provider, Sent(provider, st, sql), sql)
    ensures !Works(provider, st) <==> provider.Mysql? && (st == GetToken || st == GetTokenConnected)
  {
    if st in REWRITTEN {
      RewrittenIsFaithful(provider, sql);
    } else {
      UnrewrittenIsFaithful(provider, sql);
    }
  }
}

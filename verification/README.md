# Stratos: verified models of the hard parts

Stratos is a Go backend (`jetstream`) and an Angular console for Cloud Foundry. This project models
the parts of it that keep state, run concurrently, depend on time or transform text, and proves what
they promise for every input, every run or every interleaving. `dafny verify dfyconfig.toml` checks it.

## The parts

| files | subject |
|---|---|
| `TokenTable`, `TokenStatements`, `TokenRepository`, `TokenLaws` | the `tokens` table, its SQL statements as row operations, which of them work on a provider, and the repository's laws |
| `Lifecycle`, `Portal`, `LifecycleEffects`, `LifecycleInvariants`, `LifecycleTheorems`, `SharedTokens` | login, login hook, connect, disconnect, refresh and registration as events over both tables, the handlers as methods, what each does to the rows, and what every run keeps |
| `LinkedTokensMigration` | the migrations that set up the table keys |
| `OAuthFlow` | the retry loop around a proxied request |
| `FanOut`, `Passthrough`, `GoText` | the concurrent proxy as a step system, the JSON built from its answers, and when a quoted text is JSON |
| `DispatchSequencer`, `DispatchSpacing`, `SessionWatcher` | timed state machines of the console |
| `Migrations` | the migration runner and the wait for it |
| `SqlPlaceholders`, `Template`, `TemplateOrder`, `Commands`, `EnvLists`, `Aes` | text and byte transformations |
| `Metrics`, `MetricsOrder`, `UserRoles`, `Permissions`, `PermissionLinks` | matching and permission logic |

Where the source changes state the model is a class or a loop, proved equal to a specification
function; the theorems are about those functions. What the source does not decide is an argument: the
row an SQL engine picks when several match, the order of a Go map, the reply of a server, the reading
of a clock. A predicate says which of them are possible (`Choices`, `Picks`, `IsOrder`, `LegalPicks`,
`Legal`), and the theorems hold for all of those.

A token column is identified with the text it decrypts to, which `Aes.EnvelopeRoundTrip` justifies; an
empty refresh token is the exception, since it is stored unencrypted and then does not decrypt.

Reachable states of the two tables start from migrated tables and assume that new UUIDs are new and
that a refreshed access token names the subject it named before (`Lifecycle.Honest`).

## Where the code does less than it means to

Each of these is proved, as an exact condition or with an input.

- The two statements that follow a link are missing from `InitRepositoryProvider`, so every linked lookup fails on
  MySQL; SQLite takes them as they are (`TokenStatements.WorksIfFaithful`, `LifecycleTheorems.LinkCoherence`).
- An ordinary user's refresh of a system-shared token is not stored, unless that user has a row with the same GUID
  (`LifecycleTheorems.RefreshNeedsOwnRow`).
- A system-shared row can undo a user's disconnect: exactly one whose lookup fails or is connected
  (`LifecycleTheorems.SharedRowUndoesDisconnect`).
- An auto-registration URL that is not in normal form stops the process at the second login
  (`LifecycleTheorems.HookFindsItsEndpoint`).
- A request that cannot be built leaves the workers launched before it blocked (`FanOut.NoWorkerIsLeft`).
- The branch for endpoints without a result crashes before it can report a timeout (`Passthrough.BuildJsonResponse`).
- One endpoint that answers successfully with something other than JSON leaves the whole answer unwritten
  (`Passthrough.AnswerIsWritten`, with input in `Passthrough.OneBadBodyVoidsTheAnswer`).
- The error of an endpoint whose body is neither JSON nor becomes JSON when quoted, such as a Latin-1 text, is lost
  (`Passthrough.EveryEndpointIsReported`, with input in `Passthrough.BrokenErrorBodyIsLost`).
- Nested braces in a template make its expansion depend on the order of the map (`TemplateOrder.ExpandIgnoresOrder`).
- An environment update without an equals sign can replace another variable (`EnvLists.MergeIsLastWins`).
- Whether all endpoints find a metrics provider depends on the order of the map (`Metrics.SuccessDependsOnOrder`);
  the exact conditions are `MetricsOrder.OrderNeverMatters` and `MetricsOrder.SuccessIgnoresOrder`.
- Metrics found by API URL point to the loop variable and show the last provider
  (`MetricsOrder.FirstMatchesDecide`, `MetricsOrder.AnswersShowIff`).
- The limit of twenty tries on linked permissions never applies (`PermissionLinks.LimitNeverApplies`).
- A list that repeats an id defeats the debounce, unless the repetitions are enough batches apart
  (`DispatchSequencer.RepeatedIdIsSentTwice`, `DispatchSpacing.ListStaysApart`).
- A prompt opened half a second or more after the safe expiry logs out too late to keep its margin
  (`SessionWatcher.LogoutComesInTime`).
- Migrations with a version of zero or less never run (`Migrations.FirstRunCommitsAll`), and one that shares its
  version with another can be skipped for good after a failure (`Migrations.FinishingCommitsAll`).

## Model

| member | source | states |
|---|---|---|
| TokenRepository.Repository.SaveAuthToken | src/jetstream/repository/tokens/pgsql_tokens.go:94-157 | The new table and the answer are those of the row semantics of the count, insert and update statements; the errors for a missing user or token write nothing |
| TokenRepository.Repository.FindAuthToken | src/jetstream/repository/tokens/pgsql_tokens.go:160-213 | Answers with some UAA row of the user, any one if several match; an empty refresh column does not decrypt |
| TokenRepository.Repository.SaveCnsiToken | src/jetstream/repository/tokens/pgsql_tokens.go:216-314 | Inserts or updates the row of endpoint and user; the update also asks for the same authentication type, and zero updated rows is an error; a linked record stores a fixed text instead of tokens |
| TokenRepository.Repository.FindCnsiToken | src/jetstream/repository/tokens/pgsql_tokens.go:326-425 | Reads a row of the user or of the system-shared user and, if it is linked, the row the link names instead, with the disconnected filter on both |
| TokenRepository.Repository.DeleteCnsiToken | src/jetstream/repository/tokens/pgsql_tokens.go:428-450 | Removes exactly the rows of endpoint and user |
| TokenRepository.Repository.DeleteCnsiTokens | src/jetstream/repository/tokens/pgsql_tokens.go:452-468 | Removes exactly the token rows of the endpoint, whoever owns them |
| TokenRepository.Repository.UpdateTokenAuth | src/jetstream/repository/tokens/pgsql_tokens.go:471-544 | Writes the token columns of the rows with the GUID, or the linked GUID, and the owner; zero updated rows is an error |
| TokenLaws.SaveAuthWritesOneRow | src/jetstream/repository/tokens/pgsql_tokens.go:122-156 | In a table with keys a failed save writes nothing and a successful one writes exactly one row, with these columns and the key it had |
| TokenLaws.SaveCnsiWritesOneRow | src/jetstream/repository/tokens/pgsql_tokens.go:266-311 | A save fails exactly if an argument is missing or the row has another authentication type, and then writes nothing; otherwise it writes exactly one row, column by column |
| TokenLaws.UpdateTokenAuthWritesOneRow | src/jetstream/repository/tokens/pgsql_tokens.go:495-542 | An update succeeds exactly if the arguments are there and a row has that GUID and owner; it then changes the token columns of that row alone |
| TokenLaws.SaveAuthKeepsKeys | src/jetstream/repository/tokens/pgsql_tokens.go:122-156 | Saving a UAA token with a fresh GUID keeps the table keys |
| TokenLaws.SaveCnsiKeepsKeys | src/jetstream/repository/tokens/pgsql_tokens.go:266-311 | Saving an endpoint token with a fresh GUID keeps the table keys |
| TokenLaws.LookupFrame | src/jetstream/repository/tokens/pgsql_tokens.go:353-388 | A write to a row that a lookup does not resolve to leaves the rows it may pick and its answer unchanged |
| TokenLaws.SavedAuthIsFound | src/jetstream/repository/tokens/pgsql_tokens.go:113-213 | What was saved is found again exactly if it has a refresh token, whichever row is picked |
| TokenLaws.SavedCnsiIsFound | src/jetstream/repository/tokens/pgsql_tokens.go:216-425 | Without a competing shared row a saved unlinked record is found again in all its columns, exactly if it has a refresh token |
| LifecycleInvariants.RunKeepsInv | src/jetstream/repository/tokens/pgsql_tokens.go:94-547 | Every run of logins, hooks, connects, disconnects, refreshes, registrations and unregistrations keeps the keys, the shape of rows, links that do not dangle, registered endpoints and GUIDs that are hashes |
| LifecycleInvariants.LinkedLookup | src/jetstream/repository/tokens/pgsql_tokens.go:370-388 | A lookup through a link reads the user's UAA row, and there is no other row it could pick |
| LifecycleTheorems.RunKeepsTableKeys | src/jetstream/repository/tokens/pgsql_tokens.go:122-154 | After every run there is at most one UAA row per user, one row per endpoint and user, and one row per GUID and user |
| LifecycleTheorems.RunKeepsEndpointKeys | src/jetstream/cnsi.go:83-147 | After every run no two endpoints share an API string, whatever hash and URL parser are used, and every endpoint token names a registered endpoint |
| LifecycleTheorems.ReregisterGivesSameGuid | src/jetstream/cnsi.go:130-146 | Registering a URL again fails without a change or gives the GUID it had; it succeeds once the endpoint is unregistered and the URL is in normal form |
| LifecycleTheorems.HookFindsItsEndpoint | src/jetstream/plugins/cloudfoundry/main.go:90-116 | Once the auto-registered endpoint is stored, the hook finds it exactly if the configured URL is in normal form; otherwise each later login stops the process |
| LifecycleTheorems.LinkCoherence | src/jetstream/repository/tokens/pgsql_tokens.go:370-388 | The lookup of a linked row without a shared rival is the lookup of the owner's UAA token, whichever rows are picked, exactly if the provider is not MySQL, and the link does not dangle |
| LifecycleTheorems.RunKeepsLinksCoherent | src/jetstream/auth.go:498-500 | The same for every state that a run reaches |
| LifecycleTheorems.RefreshWritesUaaRow | src/jetstream/oauth_requests.go:73-101 | A refresh through a link is stored in the user's UAA row, and the UAA lookup gives the new tokens |
| LifecycleTheorems.RefreshThroughLinkIsShared | src/jetstream/oauth_requests.go:73-101 | After a refresh through a link the UAA lookup and the lookup of every endpoint linked to it give the new tokens |
| LifecycleTheorems.RefreshNeedsOwnRow | src/jetstream/oauth_requests.go:94-99 | A refresh is stored exactly if both new tokens are non-empty and the refreshing user owns a row with the GUID that was found; otherwise nothing changes |
| LifecycleTheorems.DisconnectIsSticky | src/jetstream/auth.go:601-609 | A successful disconnect from the auto-registered endpoint leaves a cleared, disconnected row |
| LifecycleTheorems.StickyDisconnect | src/jetstream/plugins/cloudfoundry/main.go:132-155 | No run of logins, hooks, refreshes, disconnects, registrations and other users' connects makes that row connected again |
| LifecycleTheorems.StickyMeansDisconnected | src/jetstream/repository/tokens/pgsql_tokens.go:42-44 | As long as the row is cleared the lookup for the user finds no token |
| LifecycleTheorems.SharedRowUndoesDisconnect | src/jetstream/plugins/cloudfoundry/main.go:90-155 | Some run of the login hook connects a cleared row again exactly if the endpoint has a system-shared row whose lookup fails or is connected and the user can connect at all, with single sign-on or without |
| SharedTokens.OnlyAdminsShare | src/jetstream/auth.go:400-415 | No run of events gives an endpoint a system-shared row unless an administrator connects it for everybody |
| SharedTokens.UnsharedLinksStayCoherent | src/jetstream/repository/tokens/pgsql_tokens.go:370-388 | As long as no administrator shares the endpoint, its linked rows stay coherent with their owners' UAA rows in every run |
| SharedTokens.OnlyAdminsUnshare | src/jetstream/auth.go:586-617 | A disconnect by somebody who is no administrator leaves every shared row as it was |
| LifecycleEffects.ForeignUaaIsRefused | src/jetstream/auth.go:498-510 | If the endpoint's UAA server is not the console's, linking is an error and neither a token row nor an endpoint changes |
| LifecycleEffects.SameUaaIsLinked | src/jetstream/auth.go:475-516 | If it is, linking succeeds exactly if the user's UAA token can be read and no other authentication type is stored; the endpoint's row then is connected and linked to the user's UAA row, and no other row changes |
| LifecycleEffects.LinkMarksEndpoint | src/jetstream/auth.go:481-510 | Only the endpoint that was linked to allows single sign-on afterwards; which error is given says what was wrong with the UAA server |
| LifecycleEffects.HookRefusesForeignUaa | src/jetstream/plugins/cloudfoundry/main.go:125-150 | With a foreign UAA server the login hook changes no token row and no stored endpoint, and answers with an error unless the user had disconnected |
| LifecycleEffects.HookWritesRow | src/jetstream/plugins/cloudfoundry/main.go:90-157 | A hook that succeeds found the user disconnected and changed nothing, or wrote the user's row: linked to the UAA row, or with what the plugin returned |
| LifecycleEffects.HookEndpointIsFoundOrNew | src/jetstream/plugins/cloudfoundry/main.go:99-123 | The hook works on the endpoint that was found or adds one of the configured name and URL that does not allow single sign-on; it changes no other |
| LifecycleEffects.HookRegistersIfPossible | src/jetstream/plugins/cloudfoundry/main.go:99-123 | When the endpoint was not found it is registered as a Cloud Foundry exactly if its URL parses, the server answers and its GUID is free, whether a name is configured or not |
| LifecycleEffects.LoginWritesUaaRow | src/jetstream/auth.go:781-798 | A login is stored exactly if its token can be decoded and names somebody, with its tokens and expiry in that user's one UAA row |
| LifecycleEffects.LoginAnswers | src/jetstream/auth.go:232-289 | A login that was saved is answered with an error exactly if the hook ends the process |
| LifecycleEffects.LoginConnects | src/jetstream/plugins/cloudfoundry/main.go:90-157 | After a login with single sign-on the endpoint's row is linked to the UAA row that holds the tokens of this very login |
| LifecycleEffects.RefreshWritesLogin | src/jetstream/auth.go:1125-1152 | A UAA refresh is stored exactly if the UAA token can be read and the new one decoded, in the row of the user or of whom the new token names |
| LifecycleEffects.AdminBySavedToken | src/jetstream/auth.go:400-410 | Somebody is an administrator exactly if the stored UAA token can be read and says so |
| LifecycleEffects.ConnectWritesRow | src/jetstream/auth.go:384-440 | A connect succeeds exactly if the endpoint is registered, a shared one is asked for by an administrator and no other authentication type is stored; it writes the plugin's record to the row of the user or of the system-shared user |
| LifecycleEffects.LookupReadsVisibleRow | src/jetstream/repository/tokens/pgsql_tokens.go:326-425 | A lookup reads a row of the user or of everybody, connected ones alone unless told otherwise, and says whether it is shared |
| LifecycleEffects.LookupFollowsLink | src/jetstream/repository/tokens/pgsql_tokens.go:370-388 | For a linked row it reads the row of that user with the link's GUID under the same filter, and fails if there is none |
| LifecycleEffects.SharedRowIsFound | src/jetstream/repository/tokens/pgsql_tokens.go:326-425 | A user without a visible row of their own finds the tokens shared with everybody |
| LifecycleEffects.DisconnectSucceedsIff | src/jetstream/auth.go:564-618 | When a disconnect succeeds; a failed one changes nothing |
| LifecycleEffects.AutoRegisteredIsCloudFoundry | src/jetstream/auth.go:601-603 | Only a Cloud Foundry under the configured URL without its trailing slashes counts as auto-registered |
| LifecycleEffects.FirstErrors | src/jetstream/auth.go:384-415 | Which error a connect or disconnect gives when several apply |
| LifecycleEffects.DisconnectRemovesRow | src/jetstream/auth.go:611-614 | A disconnect from an endpoint that is not auto-registered removes the row of the endpoint and its owner, the shared user exactly if a shared token was found, and no other |
| LifecycleEffects.DisconnectedIsNotFound | src/jetstream/auth.go:611-614 | Without a shared row no later lookup of the user finds a token |
| LifecycleEffects.DisconnectClearsRow | src/jetstream/auth.go:603-609 | The row of the auto-registered endpoint stays, with cleared tokens and disconnected, and no other row changes |
| LifecycleEffects.RefreshOAuthWritesReply | src/jetstream/oauth_requests.go:73-101 | An OAuth refresh writes the reply and the expiry of its access token to the row with the GUID that was found, or nothing |
| LifecycleEffects.RefreshOidcWritesReply | src/jetstream/oidc_requests.go:19-76 | An OIDC refresh writes the reply with the expiry of the ID token to the row of endpoint and user, exactly if that is an OIDC row |
| LifecycleEffects.UnregisterRemoves | src/jetstream/cnsi.go:150-166 | Unregistering removes the endpoint and its token rows, whoever owns them, and nothing else |
| LifecycleEffects.RegisterAddsEndpoint | src/jetstream/cnsi.go:83-147 | A registration succeeds exactly if name and URL are given and parse, the server answers and neither API string nor GUID is taken; it adds the endpoint in normal form and changes no other |
| LinkedTokensMigration.LinkedTokensFills | src/jetstream/datastore/20180824092600_LinkedTokens.go:11-38 | After the migration the new GUID column is the user's GUID on UAA rows and the endpoint's on endpoint rows |
| LinkedTokensMigration.BackfillGivesKeys | src/jetstream/datastore/20180824092600_LinkedTokens.go:24-38 | The back-fill gives the table its keys exactly if no user GUID is an endpoint GUID |
| LinkedTokensMigration.MigratedTablesSatisfyInv | src/jetstream/datastore/20180813110300_RemoveStaleTokens.go:10-19 | The tables after both migrations are a start state of the runs above |
| Portal.PortalProxy.DoRegisterEndpoint | src/jetstream/cnsi.go:83-147 | Trims, parses, looks for the API string, probes, hashes and saves; the answer and the table are those of the registration step |
| Portal.PortalProxy.SaveCnsiRecord | src/jetstream/repository/cnsis/pgsql_cnsis.go:213-226 | Saving a GUID that is there fails and changes nothing |
| Portal.PortalProxy.FindByApiEndpoint | src/jetstream/repository/cnsis/pgsql_cnsis.go:165-210 | Answers with some row of the API string whose stored URL parses, or none |
| Portal.PortalProxy.SaveAuthTokenOf | src/jetstream/auth.go:781-798 | Saves the tokens of a login under the user that the access token names |
| Portal.PortalProxy.DoLoginToCnsiWithConsoleUaaToken | src/jetstream/auth.go:475-516 | Links the endpoint row of the user to the UAA row if the UAA servers agree, and lets the endpoint allow single sign-on |
| Portal.PortalProxy.DoLoginToCnsi | src/jetstream/auth.go:384-473 | A connect is the connect event of the state machine; a shared one needs an administrator and is stored for the system-shared user |
| Portal.PortalProxy.LogoutOfCnsi | src/jetstream/auth.go:564-618 | A disconnect is the disconnect event: it clears the row of the auto-registered endpoint and deletes any other, and a shared row needs an administrator |
| Portal.PortalProxy.LoginToUaa | src/jetstream/auth.go:232-289 | A login saves the token and then runs the hook, whose failure does not fail the login; only a hook that ends the process leaves it without an answer |
| Portal.PortalProxy.CfLoginHook | src/jetstream/plugins/cloudfoundry/main.go:90-157 | The hook registers the endpoint if need be and connects the user unless the lookup finds a disconnected record |
| Portal.PortalProxy.FetchOrRegisterEndpoint | src/jetstream/plugins/cloudfoundry/main.go:99-123 | Finds the endpoint by the trimmed URL or registers it; failing to register ends the process |
| Portal.PortalProxy.RefreshUaaToken | src/jetstream/auth.go:1125-1152 | A UAA refresh is the refresh event: the new tokens are saved under the user or the subject of the new token |
| Portal.PortalProxy.RefreshOAuthToken | src/jetstream/oauth_requests.go:73-102 | An OAuth refresh reads the row, disconnected or not, and updates the token columns of the row with its GUID |
| Portal.PortalProxy.RefreshOidcToken | src/jetstream/oidc_requests.go:19-76 | An OIDC refresh reads the claims of the ID token and saves the whole row with the metadata it had |
| Portal.PortalProxy.UnregisterCluster | src/jetstream/cnsi.go:150-166 | Removes the endpoint and all its token rows |
| OAuthFlow.OAuthHandler | src/jetstream/oauth_requests.go:13-48 | For every token and every answer of the servers: at most two sends and two refreshes; the first send has the token that was found exactly if it is unexpired, and any other the token and expiry the server gave to that very turn; a second 401 comes with an error; if the row is the user's own, the stored token at the end is the one last sent |
| OAuthFlow.RefreshToken | src/jetstream/oauth_requests.go:21-28 | A refresh that fails changes nothing; one that succeeds gives the access token of the reply with the expiry of its access or ID token, and stores it if the row is the user's own |
| OAuthFlow.FailedRefreshWritesNothing | src/jetstream/oauth_requests.go:73-102 | A refresh that fails leaves the table as it was, whoever owns the rows |
| OAuthFlow.DoOAuthFlowRequest | src/jetstream/auth.go:1114-1122 | The same from the lookup of the token on, for every table: nothing is sent only if the lookup fails, the endpoint is gone or the first refresh fails; the user's own connected row is the one found |
| OAuthFlow.OwnTokensFound | src/jetstream/repository/tokens/pgsql_tokens.go:326-425 | With no shared rival the lookup decrypts the row behind the user's row |
| OAuthFlow.OwnTokensExist | src/jetstream/repository/tokens/pgsql_tokens.go:370-388 | In every reachable state such a row exists |
| OAuthFlow.RefreshOAuthHitsRow | src/jetstream/oauth_requests.go:73-101 | An OAuth refresh changes nothing or puts the new tokens into the row behind the lookup |
| OAuthFlow.RefreshOidcHitsRow | src/jetstream/oidc_requests.go:65-75 | So does an OIDC refresh |
| FanOut.InvHolds | src/jetstream/passthrough.go:241-273 | In every interleaving workers are launched in order, received at most once, and the collected answers are those of the workers received |
| FanOut.RunsAreFinite | src/jetstream/passthrough.go:242-270 | Every step uses up one unit of work: no interleaving has more than three steps per request and one more |
| FanOut.RunsComplete | src/jetstream/passthrough.go:266-273 | If all requests can be built, an interleaving ends only when every result was received once and every worker is gone |
| FanOut.FailureLeaksWorkers | src/jetstream/passthrough.go:244-248 | If a request cannot be built, the call fails and exactly the workers launched before it stay blocked on the channel |
| FanOut.NoWorkerIsLeft | src/jetstream/passthrough.go:242-273 | No worker is left behind exactly if all requests can be built or already the first cannot |
| FanOut.AnyInterleavingIsSequential | src/jetstream/passthrough.go:276-299 | Every interleaving gives the answers of running the requests one after another, exactly if requests that share a key have the same result |
| FanOut.EachAnswerIsItsOwn | src/jetstream/passthrough.go:266-270 | With different keys the answers are, key by key, the results of their own workers |
| Passthrough.CnsiRequest.DoRequest | src/jetstream/passthrough.go:335-405 | Each way a worker can end records its status, text and error in the request and sends it exactly once, last |
| Passthrough.BuildJsonResponse | src/jetstream/passthrough.go:90-142 | Succeeds exactly if every listed endpoint has a result, and crashes otherwise; each entry reports its answer: an error object for an error or a status of 400 and more, unless it cannot be marshalled and is lost |
| Passthrough.SendProxiedResponse | src/jetstream/passthrough.go:299-332 | Passes the single answer through, or writes the JSON of all collected keys exactly if every body passed on as it is is well-formed JSON |
| Passthrough.Encode | src/jetstream/passthrough.go:324-330 | Encoding the entries fails as a whole exactly if one raw body is not well-formed |
| Passthrough.AnswerIsWritten | src/jetstream/passthrough.go:299-332 | For different endpoints and any interleaving an answer is written exactly if every non-empty body of an exchange that did not fail is well-formed JSON, and then it has exactly their keys |
| Passthrough.EveryEndpointIsReported | src/jetstream/passthrough.go:90-142 | In an answer that is written an entry is an error object exactly if the exchange failed and its status is below 400 or its body, or its quoted body, is JSON; a failure that is not is lost, and other entries are the bodies |
| Passthrough.FailureIsSpelledOut | src/jetstream/passthrough.go:335-405 | The error object carries the status, text and body of the answer, or those the proxy gives to a failure of its own |
| Passthrough.OneBadBodyVoidsTheAnswer | src/jetstream/passthrough.go:129-131 | One endpoint that answers 200 with a plain text leaves all endpoints without an answer |
| Passthrough.BrokenErrorBodyIsLost | src/jetstream/passthrough.go:115-127 | An error with a byte that is no UTF-8 in its body is not reported |
| GoText.QuoteIsJsonString | src/jetstream/passthrough.go:115-117 | A text quoted by the format verb is a JSON string exactly if each character is written in a form that JSON knows |
| GoText.QuotedReadsBack | src/jetstream/passthrough.go:115-117 | Quoting loses nothing: read by Go's own syntax the quoted text is the text |
| DispatchSequencer.Sequencer.Dispatch | src/frontend/app/core/dispatch-sequencer.ts:44-49 | Each item of a batch is dispatched in order and recorded with its own time |
| DispatchSequencer.Sequencer.Sequence | src/frontend/app/core/dispatch-sequencer.ts:55-66 | A new list cancels what is pending and makes its filtered items pending in batches |
| DispatchSequencer.Sequencer.SendBatch | src/frontend/app/core/dispatch-sequencer.ts:66-74 | A batch is sent, and the next is due its delay after this one was done |
| DispatchSequencer.DispatchesAreApart | src/frontend/app/core/dispatch-sequencer.ts:33-49 | In every run of lists without repeated ids two dispatches of an id are more than the debounce time apart, cancellations included |
| DispatchSequencer.KeptIfNotRecent | src/frontend/app/core/dispatch-sequencer.ts:33-42 | An item is kept exactly if its id was not dispatched within the debounce time before |
| DispatchSequencer.FilteredSelects | src/frontend/app/core/dispatch-sequencer.ts:33-42 | Filtering selects, in the order of the list, the items not dispatched within the debounce time, or all if there is none |
| DispatchSequencer.RepeatedIdIsSentTwice | src/frontend/app/core/dispatch-sequencer.ts:36-39 | A list that repeats an id has both items dispatched at once: the condition on lists is needed |
| DispatchSpacing.ListStaysApart | src/frontend/app/core/dispatch-sequencer.ts:33-78 | A list keeps equal ids more than the debounce time apart, whenever its timers fire, exactly if equal ids that pass the filter are so many batches apart that the delays between them add up to more than it |
| DispatchSequencer.UninterruptedListIsBatched | src/frontend/app/core/dispatch-sequencer.ts:59-78 | An uninterrupted list goes out as its filtered items, in order, in batches of at most the batch size that are at least the batch delay apart |
| DispatchSequencer.FlattenBatches | src/frontend/app/core/dispatch-sequencer.ts:66-67 | Batches are a split of the list, none longer than the batch size |
| SessionWatcher.LogOutDialog.OnTick | src/frontend/app/core/log-out-dialog/log-out-dialog.component.ts:28-39 | A tick counts down half a second or, at zero, stops the timer and logs out |
| SessionWatcher.LoggedInService.CheckSession | src/frontend/app/logged-in.service.ts:129-149 | A tick of the poll does nothing, verifies the session of an active user or prompts an idle one and closes the poll |
| SessionWatcher.CheckPromptsIdleUser | src/frontend/app/logged-in.service.ts:129-149 | A check prompts exactly an idle user whose session ends in less than two minutes; for an active one it verifies the session and the poll goes on |
| SessionWatcher.ActiveUserIsNotPrompted | src/frontend/app/logged-in.service.ts:139-143 | No run in which the user is active at every check opens a prompt or logs the user out |
| SessionWatcher.InteractionsAreRemembered | src/frontend/app/logged-in.service.ts:65-69 | As long as the listener is open, what the watcher remembers is the last interaction there was |
| SessionWatcher.AuthOpensOrClosesPoll | src/frontend/app/logged-in.service.ts:57-75 | An authentication state replaces the session data, and the poll is open exactly after a valid one |
| SessionWatcher.ClosingPrompt | src/frontend/app/logged-in.service.ts:120-126 | A closed prompt is gone; only a confirmed one verifies the session and opens the poll |
| SessionWatcher.PromptTicks | src/frontend/app/core/log-out-dialog/log-out-dialog.component.ts:28-39 | A tick changes its own prompt alone and logs out exactly if it has counted down |
| SessionWatcher.DestroyStopsWatching | src/frontend/app/logged-in.service.ts:78-87 | Destroying closes the poll and the listener and leaves an open prompt alone |
| SessionWatcher.LoggedInService.OnAuthState | src/frontend/app/logged-in.service.ts:57-75 | A valid session opens a closed poll and the listener once; any other closes both |
| SessionWatcher.LoggedInService.AfterClosed | src/frontend/app/logged-in.service.ts:120-126 | A confirmed prompt verifies the session and opens the poll anew |
| SessionWatcher.RunKeepsOnePrompt | src/frontend/app/logged-in.service.ts:112-149 | In every run at most one prompt is open, and every prompt counts down by the clock |
| SessionWatcher.PollWhilePrompting | src/frontend/app/logged-in.service.ts:144-147 | While a prompt is open the poll is closed, except exactly when a valid session was reported since |
| SessionWatcher.PromptLeavesTime | src/frontend/app/logged-in.service.ts:129-149 | Whatever happens between two ticks, unless an invalid session was reported, a prompt counts down what was left at the tick before less one interval plus what new session data added, so at least 115 seconds more than that if the tick was before the warning window |
| SessionWatcher.TickCounts | src/frontend/app/core/log-out-dialog/log-out-dialog.component.ts:27-39 | The countdown logs out at one moment, given by a closed form, and stops there |
| SessionWatcher.LogoutComesInTime | src/frontend/app/core/log-out-dialog/log-out-dialog.component.ts:25-40 | The logout is more than four seconds before the real end of the session exactly if the prompt was opened less than half a second after the safe expiry |
| SessionWatcher.IdleUserIsLoggedOutOnce | src/frontend/app/logged-in.service.ts:129-149 | For an idle user every run of the timers is finite and ends with exactly one logout, more than four seconds before the session ends |
| Migrations.Migrator.RegisterMigration | src/jetstream/datastore/datastore_migrator.go:17-23 | Appends the step |
| Migrations.Migrator.GetOrderedMigrations | src/jetstream/datastore/datastore_migrator.go:34-39 | Sorts the registered steps in place and returns them |
| Migrations.Migrator.ApplyMigrations | src/jetstream/datastore/datastore_migrator.go:42-99 | The version table grows by the steps newer than its version up to the one that fails; the error says which way the run ended |
| Migrations.OrderedSorts | src/jetstream/datastore/datastore_migrator.go:35-37 | Ordering is a permutation sorted by version |
| Migrations.RegistrationOrderIsIrrelevant | src/jetstream/datastore/datastore_migrator.go:17-39 | With different versions the order of registration makes no difference |
| Migrations.RunsCommitAPrefix | src/jetstream/datastore/datastore_migrator.go:54-92 | If the positive versions differ: after any runs, wherever each stopped, the committed versions are a prefix of the positive steps in order, each once, and all of them exactly if the last run did not stop |
| Migrations.FinishingCommitsAll | src/jetstream/datastore/datastore_migrator.go:54-92 | Runs of which the last does not stop commit all positive steps, wherever the others stopped, exactly if no positive version is shared |
| Migrations.FinishedForGood | src/jetstream/datastore/datastore_migrator.go:60-98 | For every list of steps: once a run has not stopped, later runs commit nothing, and the wait accepts the table exactly if the newest version is not negative |
| Migrations.FirstRunCommitsAll | src/jetstream/datastore/datastore_migrator.go:43-67 | A first run that does not stop commits all steps exactly if all versions are greater than zero |
| Migrations.WaitForMigrations | src/jetstream/datastore/datastore.go:269-307 | The wait succeeds exactly if a poll before the time is up sees the version of the last step; without migrations it crashes |
| SqlPlaceholders.RewriteKeepsMeaning | src/jetstream/datastore/datastore.go:258-266 | For statements without question marks, binding the rewritten text by position is binding the original by number, for all arguments, exactly if the placeholders are numbered in order |
| SqlPlaceholders.RewriteIsIdempotent | src/jetstream/datastore/datastore.go:260-261 | Rewriting twice is rewriting once |
| SqlPlaceholders.RewriteKeepsCount | src/jetstream/datastore/datastore.go:260-261 | No placeholder is lost or made up |
| SqlPlaceholders.RewriteReplacesParameters | src/jetstream/datastore/datastore.go:258-266 | A statement written in words and numbered parameters is rewritten to the same words with question marks for the parameters |
| SqlPlaceholders.RewrittenIsFaithful | src/jetstream/datastore/datastore.go:258-266 | A rewritten statement executes as it was meant on PostgreSQL, SQLite and MySQL, for all arguments |
| SqlPlaceholders.UnrewrittenIsFaithful | src/jetstream/datastore/datastore.go:258-266 | A statement sent as it was written executes as it was meant exactly if the provider is not MySQL: SQLite takes numbered parameters too |
| SqlPlaceholders.UnrewrittenBindsNothing | src/jetstream/repository/tokens/pgsql_tokens.go:77-91 | Where placeholders are positional a statement left out of the rewriting is sent without any argument in it |
| TokenStatements.WorksIfFaithful | src/jetstream/repository/tokens/pgsql_tokens.go:77-91 | Whatever its text, a statement of the repository executes as it was meant exactly if it is rewritten or the provider is not MySQL; the two that are not rewritten are those that follow a link |
| Template.ReplaceIsSubstitute | src/jetstream/plugins/cfapppush/vcs.go:117 | One replacement of a brace-free key is a substitution for that key alone |
| Template.FlatExpandIsSubstitute | src/jetstream/plugins/cfapppush/vcs.go:115-120 | In a template without nested braces every order of the map gives the simultaneous substitution |
| TemplateOrder.NestDependsOnOrder | src/jetstream/plugins/cfapppush/vcs.go:115-120 | For every template with nested braces there are a map without braces and two orders that disagree |
| TemplateOrder.ExpandIgnoresOrder | src/jetstream/plugins/cfapppush/vcs.go:115-120 | All orders of all brace-free maps agree exactly if the template has no nested braces, and then it is simultaneous substitution |
| Commands.Expand | src/jetstream/plugins/cfapppush/vcs.go:115-120 | The loop gives the expansion in the order it happened to visit, and the simultaneous substitution where orders agree |
| Commands.Arguments | src/jetstream/plugins/cfapppush/vcs.go:83-92 | A command has one argument per field of its line, whatever is substituted, each the expansion of its field; an odd list of keys and values crashes |
| Commands.PairsAlternate | src/jetstream/plugins/cfapppush/vcs.go:83-88 | Keys stand at even places, each before its value, and the last pair of a key counts |
| Commands.FieldsOfJoined | src/jetstream/plugins/cfapppush/vcs.go:89 | Splitting gives back the words the line was written with |
| Commands.TextAndSlotIsFlat | src/jetstream/plugins/cfapppush/vcs.go:15-22 | Fields made of text and at most one placeholder, as in the templates in use, do not depend on the order |
| EnvLists.MergeEnvLists | src/jetstream/plugins/cfapppush/vcs.go:126-140 | The nested loops compute the merge of one update after another |
| EnvLists.LookupAfterMerge | src/jetstream/plugins/cfapppush/vcs.go:126-140 | A first-match lookup after the merge gives the last update of the name, or what it gave before, for every name that no update without an equals sign begins |
| EnvLists.MergeIsLastWins | src/jetstream/plugins/cfapppush/vcs.go:129-139 | That holds for every base list and name exactly if every update contains an equals sign |
| EnvLists.UntouchedStay | src/jetstream/plugins/cfapppush/vcs.go:129-139 | For all updates: an entry that starts with none of their keys stays as and where it is, any other stays or becomes an update, and at most one entry is added per update |
| EnvLists.MergeKeepsPlaces | src/jetstream/plugins/cfapppush/vcs.go:131-138 | For assignments: entries keep their positions, only the first of an updated name changes, and the list grows by the number of new names |
| EnvLists.EnvForDir | src/jetstream/plugins/cfapppush/vcs.go:122-124 | A command runs with its directory as PWD and the other variables unchanged |
| Aes.EncryptStream | src/jetstream/repository/crypto/aes.go:37-38 | The stream writes the ciphertext of the mode, byte by byte related to text and keystream, behind the first block and leaves that block alone |
| Aes.DecryptStreamInPlace | src/jetstream/repository/crypto/aes.go:65-66 | Run on one buffer as source and destination, the stream replaces each byte by its combination with the keystream of what was there |
| Aes.Encrypt | src/jetstream/repository/crypto/aes.go:21-41 | The result is the random block followed by the text combined with the keystream of the mode, one block longer; a bad key is an error |
| Aes.Decrypt | src/jetstream/repository/crypto/aes.go:48-71 | The tail of the buffer becomes the text whose combination with the keystream it was; a bad key or a short ciphertext is an error and changes nothing |
| Aes.EncryptedByteByByte | src/jetstream/repository/crypto/aes.go:37-38 | Each byte of ciphertext is its byte of text combined by exclusive or with the encrypted block of ciphertext before, or the initialisation vector |
| Aes.DecryptedByteByByte | src/jetstream/repository/crypto/aes.go:65-66 | The same relation holds between a ciphertext and its decryption |
| Aes.CfbInverse | src/jetstream/repository/crypto/aes.go:37-38 | Decryption and encryption in the mode undo each other for every length, initialisation vector and block function |
| Aes.EnvelopeRoundTrip | src/jetstream/repository/crypto/aes.go:21-71 | What was encrypted decrypts to itself, whatever the random block, and decrypting then encrypting with the block read gives the ciphertext back |
| Metrics.Collect | src/jetstream/plugins/metrics/main.go:262-281 | The loop keeps the last endpoint of each requested GUID and appends the providers of the others |
| Metrics.RequestedAreAccessible | src/jetstream/plugins/metrics/main.go:262-265 | What is to be matched are exactly the requested GUIDs that the user or everybody can reach |
| Metrics.ProvidersAreNotRequested | src/jetstream/plugins/metrics/main.go:266-280 | Providers come only from metrics endpoints that are not themselves requested |
| Metrics.ProvidersAreListed | src/jetstream/plugins/metrics/main.go:266-280 | The providers are exactly what the readable metadata of those endpoints list, with the endpoint's GUID |
| Metrics.ProvidersInOrder | src/jetstream/plugins/metrics/main.go:262-281 | What comes first in the list of endpoints comes first among the providers |
| Metrics.LastOfGuidCounts | src/jetstream/plugins/metrics/main.go:262-265 | Of several endpoints with one GUID the last is kept |
| Metrics.MatchingConserves | src/jetstream/plugins/metrics/main.go:283-308 | In every order an endpoint is either left or picked, by one matching provider, and no provider picks two |
| Metrics.NoMatchIsMissed | src/jetstream/plugins/metrics/main.go:283-308 | An endpoint left in the end matches no provider that picked nothing |
| Metrics.SuccessDependsOnOrder | src/jetstream/plugins/metrics/main.go:283-312 | Where two endpoints compete for the first provider and one also matches the second, one order succeeds and another fails |
| MetricsOrder.OrderNeverMatters | src/jetstream/plugins/metrics/main.go:283-308 | All orders of the map make the same picks exactly if no two pending endpoints have the same first provider that matches them |
| MetricsOrder.FirstProviderPicks | src/jetstream/plugins/metrics/main.go:283-308 | In that case every endpoint goes to the first provider that matches it, and what is left are exactly those that none matches |
| MetricsOrder.SeparateProvidersDiffer | src/jetstream/plugins/metrics/main.go:283-308 | It is so if no provider matches two pending endpoints |
| MetricsOrder.LeftIgnoresOrder | src/jetstream/plugins/metrics/main.go:283-312 | If no endpoint is matched by two providers, all orders leave the same endpoints exactly if no provider matches two, and success does not depend on the order in any case |
| MetricsOrder.SuccessIgnoresOrder | src/jetstream/plugins/metrics/main.go:283-312 | In general success does not depend on the order exactly if the sets of endpoints that can be left, computed provider by provider, are all empty or none is |
| MetricsOrder.AnswerIgnoresOrder | src/jetstream/plugins/metrics/main.go:233-315 | If no two pending endpoints have the same first provider, a call succeeds exactly if each is matched, relates each to its first provider and shows that provider exactly if it was matched by type or equals the last |
| MetricsOrder.OneEndpointIsMatched | src/jetstream/plugins/metrics/main.go:283-303 | A call for one endpoint succeeds exactly if a provider has its API URL, or its type and logging URL, and relates it to the first of them |
| MetricsOrder.AlwaysShownIff | src/jetstream/plugins/metrics/main.go:283-308 | In every order each pick shows its provider exactly if no provider can meet an endpoint still left that it would not show |
| MetricsOrder.FirstMatchesDecide | src/jetstream/plugins/metrics/main.go:283-308 | If no two endpoints have the same first provider, or none is matched twice, that is so exactly if each first match is by type or with a provider equal to the last |
| MetricsOrder.AnswersShowIff | src/jetstream/plugins/metrics/main.go:283-315 | Every relation of every answer shows its provider exactly if no provider can take an endpoint it would not show in a run that succeeds |
| Metrics.Relate | src/jetstream/plugins/metrics/main.go:283-308 | Each relation is with the endpoint and provider that were matched; reading its provider gives a copy or what the loop variable held last |
| Metrics.GetMetricsEndpoints | src/jetstream/plugins/metrics/main.go:233-315 | On success the keys are exactly the requested accessible endpoints, each with its own provider; it fails exactly if a list is missing or an endpoint is left |
| Metrics.ShownIsMatched | src/jetstream/plugins/metrics/main.go:296-303 | A single pick shows the wrong provider only if it was found by API URL and its provider differs from the last one |
| UserRoles.Summary.ParseOrgRole | src/frontend/app/shared/data-services/cf-user.service.ts:102-123 | Appends one entry per organisation GUID not processed before, in order, and marks all as processed |
| UserRoles.Summary.ParseSpaceRole | src/frontend/app/shared/data-services/cf-user.service.ts:141-162 | The same for spaces |
| UserRoles.GetOrgRolesFromUser | src/frontend/app/shared/data-services/cf-user.service.ts:125-139 | The summary of a given organisation, or of the four lists one after another |
| UserRoles.GetSpaceRolesFromUser | src/frontend/app/shared/data-services/cf-user.service.ts:164-177 | The summary of given spaces, or of the three lists one after another |
| UserRoles.OneEntryPerOrg | src/frontend/app/shared/data-services/cf-user.service.ts:125-139 | For every user: one entry per entity GUID and no other, showing the metadata GUID of the first organisation listed under it, with flags that say in which lists that GUID is one of metadata |
| UserRoles.OrgSummaryIsExact | src/frontend/app/shared/data-services/cf-user.service.ts:125-139 | Where metadata and entities agree, every organisation of the lists has exactly one entry, no other has one, and its flags are its memberships |
| UserRoles.SpaceSummaryIsExact | src/frontend/app/shared/data-services/cf-user.service.ts:164-177 | Every space of the three lists has exactly one entry, no other has one, and its flags are its memberships, by metadata and, where the GUIDs agree, by entity |
| UserRoles.SpaceRolesAreSummarised | src/frontend/app/shared/data-services/cf-user.service.ts:207-211 | The user has space roles in an organisation exactly if the space summary has an entry in it |
| UserRoles.RolesAreSummarised | src/frontend/app/shared/data-services/cf-user.service.ts:186-198 | The user has roles in an organisation exactly if its entry shows one or the space summary has an entry in it |
| UserRoles.RoleIsListed | src/frontend/app/features/cloud-foundry/cf.helpers.ts:156-162 | Membership by metadata GUID is membership by entity GUID where the two agree |
| Permissions.GroupsPartition | src/frontend/app/core/current-user-permissions.checker.ts:272-290 | Grouping is a partition of the configurations by group type, one group per type |
| Permissions.GroupMeaning | src/frontend/app/core/current-user-permissions.checker.ts:261-270 | A group throws, is silent, denies or grants as its checks do: every feature flag, some of any other group |
| Permissions.GroupsMeanTheirConfigs | src/frontend/app/core/current-user-permissions.service.ts:78-88 | All groups together decide what the set of configurations means, said without groups |
| Permissions.OrderIsIrrelevant | src/frontend/app/core/current-user-permissions.service.ts:160-171 | Neither the order of a list nor repetitions matter to its decision |
| Permissions.CfCheckIsMonotone | src/frontend/app/core/current-user-permissions.checker.ts:169-185 | The check of an organisation, a space or all of a kind is monotone in the roles granted |
| Permissions.FeatureCheckIsMonotone | src/frontend/app/core/current-user-permissions.checker.ts:194-216 | The check of a feature flag is monotone in the flags enabled |
| Permissions.MoreRolesNeverDeny | src/frontend/app/core/current-user-permissions.service.ts:42-171 | More organisation and space roles or enabled flags never turn a yes into a no, nor silence into an answer |
| Permissions.YesIsEarned | src/frontend/app/core/current-user-permissions.service.ts:140-171 | A yes to somebody who is no administrator takes write access, every feature flag of the list and, if the list asks for organisation or space roles, one of them |
| Permissions.RoleBehindYes | src/frontend/app/core/current-user-permissions.checker.ts:169-185 | A yes to an organisation or space check has a role behind it on an endpoint of the question |
| Permissions.AdministratorsMay | src/frontend/app/core/current-user-permissions.service.ts:140-157 | The answer behind the administrator check from the flags of the endpoints: nothing while one is not loaded, yes to an administrator, no to somebody who cannot write, the check's own to all others |
| Permissions.WhoIsAsked | src/frontend/app/core/current-user-permissions.service.ts:70-84 | An administrator gets a yes to every organisation or space configuration and every list that is handled, somebody who can write nowhere a no, and the roles decide for all others |
| Permissions.RoleOfOneDecides | src/frontend/app/core/current-user-permissions.checker.ts:169-185 | A question about one organisation or space is answered from the flags of that role |
| Permissions.AnyRoleDecides | src/frontend/app/core/current-user-permissions.checker.ts:169-185 | Without one it is enough to have the role anywhere on an endpoint of the question |
| Permissions.FeatureDecides | src/frontend/app/core/current-user-permissions.checker.ts:194-216 | A feature flag counts if it is on at some endpoint of the question, once all are loaded |
| Permissions.ScopeDecides | src/frontend/app/core/current-user-permissions.checker.ts:134-141 | A scope is asked of the one endpoint that is given |
| Permissions.OtherTypesDecide | src/frontend/app/core/current-user-permissions.service.ts:70-76 | Configurations of the other types are answered by the flags or scopes they name, for administrators too |
| Permissions.UnknownActionIsForAdmins | src/frontend/app/core/current-user-permissions.service.ts:56-68 | An action without a configuration is for administrators of the endpoint |
| Permissions.MeaningOfOne | src/frontend/app/core/current-user-permissions.service.ts:92-120 | What each type means in a list; an endpoint flag is looked up among the scopes there |
| PermissionLinks.LimitNeverApplies | src/frontend/app/core/current-user-permissions.service.ts:122-138 | The limit of twenty tries is never reached, because the count is not passed back |
| PermissionLinks.GivesUpAtTwenty | src/frontend/app/core/current-user-permissions.service.ts:122-134 | A link is given up exactly if the caller says itself that twenty tries were made |
| PermissionLinks.OverflowsIf | src/frontend/app/core/current-user-permissions.service.ts:122-138 | Resolution overflows a stack exactly if there are more links than it has room for |
| PermissionLinks.ResolvesIfAcyclic | src/frontend/app/core/current-user-permissions.service.ts:122-138 | Resolution ends within as many links as there are entries if the links form no cycle, and overflows every stack if they do |
| PermissionLinks.ThreeOutcomes | src/frontend/app/core/current-user-permissions.service.ts:122-138 | With room for the table it overflows exactly on a cycle, fails on a missing entry exactly if the links leave the table, and finds a value exactly if they come to one |
| PermissionLinks.ClosedTableResolves | src/frontend/app/core/current-user-permissions.service.ts:122-138 | In a table whose links stay inside, each key without a cycle gives a value |
| PermissionLinks.FoundIsEndOfChain | src/frontend/app/core/current-user-permissions.service.ts:122-138 | What is found is the value, not a link, that the chain ends in |

## Left out

- HTTP, gRPC, WebSocket, SSH and git execution: a remote call is represented by its result.
- Job handlers in `src/jetstream/cnsi.go` are thin gRPC calls; the root `cnsi.go` is a near-duplicate of `src/jetstream/cnsi.go`.
- URL parsing, JWT decoding, SHA-1 and the AES block function are arbitrary functions.
- The JSON library is an arbitrary pair of checks, a parse and a syntax check, of which `GoText.Lawful` says what is used; which characters above ASCII are printable is arbitrary too.
- Handlers and repository calls are atomic: races between the count query and the insert of a save, and between connect and unregister, are not modelled.
- Database errors other than a duplicate GUID are not modelled, nor the count query that fails and counts as zero.
- Sessions, cookies and the XSRF token do not appear; the user of a request is an argument.
- TokenRepository.Repository.SaveAuthToken: with encryption keys of a bad length the original fails before it writes; tokens are plain text here.
- LinkedTokensMigration.BackfillGivesKeys: user names that equal the default of the new column are excluded by `Before`, because a UAA row of such a user would get no GUID.
- Portal.PortalProxy.DoRegisterEndpoint: the client credentials, authentication endpoints and SSL flag of an endpoint are not stored.
- OAuthFlow.OAuthHandler: the clause on the stored token is conditional: it is about a user's own row without a shared rival, not on MySQL and without another writer; all other clauses hold for every token.
- Header forwarding and the override of the API host in the proxy are not modelled; they only change the request that is sent.
- Aliasing of the request objects that workers send is not modelled: a worker's result is a value once it is sent.
- DispatchSequencer.Sequencer.Dispatch: a dispatch that makes the store emit a new list before the batch is finished is not modelled.
- RxJS schedulers are ideal: a timer never fires early in the sequencer, and fires exactly on time in the session watcher.
- The percentage of the countdown is floating-point display.
- Migrations.Migrator.GetOrderedMigrations: the library sort is any sort; for steps that share a version the original may pick either order.
- The version table is a list of committed versions; `goose` and the repository that reads the newest version are not part of this model.
- EnvLists.EnvForDir: the environment of the process is an argument.
- UserRoles.OrgSummaryIsExact: it is for GUIDs of metadata and entities that agree, as `src/frontend/app/store/effects/api.effects.ts` makes them; `UserRoles.OneEntryPerOrg` holds without that.
- MetricsOrder.SuccessIgnoresOrder: without a condition on the matches the condition is computed from all sets of endpoints that can be left, whose number can grow exponentially; `MetricsOrder.OrderNeverMatters` and `MetricsOrder.LeftIgnoresOrder` give short ones.
- Null elements in role lists, which `hasRole` skips, are not modelled.
- Permissions.OrderIsIrrelevant: observables are taken on one snapshot of the store; distinct-until-changed filtering over time is not modelled.
- The table of permission configurations itself is data; `PermissionLinks` holds for every such table.
- Other plugins, routing, page components, pagination, the formatting of numbers and sizes, and the page objects of the end-to-end tests do not appear: they hold little state and no invariant that spans operations.

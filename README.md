# Databricks MCP server: statement orchestration, table listing and resource provider

This project models the deterministic core of the Databricks MCP server:

- **The SQL tools.** There are two handlers:
  - `ExecuteSQL` in tools/execute_sql.go;
  - the older `executeSQL` in tools.go.

  Each picks the first warehouse and submits the statement. It then polls the statement status a bounded number of times, sending a progress notification and sleeping before each fetch. Finally it reports the error, cancels on timeout (newer handler only), or assembles the result rows by following the chunk chain until the next index is 0.
- **The table listing tools** (`ListTables` in tools/list_tables.go, `listAllTables` in tools.go). They filter by a regular expression on table names. The newer handler first cuts the listing to a limit. As written that limit is always 10 (see Findings).
- **The helpers of tools/common.go:**
  - the typed argument lookups;
  - the operation-to-result wrapper;
  - the workspace client carried in a context;
  - the progress notification guard.
- **The provider of databricks/mcp.go:**
  - configuration checks and the defaults it writes;
  - cluster and job aggregation;
  - the dispatch on resource type;
  - case-insensitive `contains` and the query filter of the context endpoint.

The Databricks service is an oracle object (`Sql.StatementService`). Its answers are fixed in advance:
- the warehouse listing;
- the reply to the submission;
- a script of replies consumed by successive status fetches;
- the result chunks by index.

It also logs every submission, status fetch, chunk fetch and cancellation. The client connection (`Mcp.ProgressSink`) records the notifications it takes. Its budget is how many more it will take; once that is spent, sending fails. `Mcp.Clock` counts sleeps.

Each handler loop is a method proved equal to a recursive function of these answers:
- `PollLoop` to `PollFrom`, and its body (`Attempt`) to `AttemptFrom`, the two mutually recursive halves of the poll loop (the guard, then one attempt);
- `CollectRows` to `ChainFrom`;
- the exit handling (`Conclude`) to `Finish`;
- the whole handler (`HandleStatement`) to `Execute`, which returns a `Run` record. The record holds the outcome, every request sent, every notification delivered, and the client's remaining budget.

The behaviour the source promises is proved about those functions in `StatementProperties`.

Go's three ways out of a handler are the `Outcome` datatype:
- a returned result is `Done`;
- a returned `error` is `Errored`;
- a panic is `Panicked`, e.g. a failed type assertion on a missing argument or a nil metadata pointer.

JSON numbers are reals, as `encoding/json` decodes them into float64. `int(x)` is truncation toward zero (`Common.Truncate`).

Where the written description of the server and the code disagree, the model follows the code:
- `ListTables` reads `filter_pattern` and `omit_properties` defaults to false.
- It cuts the listing to the limit *before* filtering, so `truncated` says whether the unfiltered listing was longer than the limit.
- The newer SQL handler keeps polling a statement whose state is not Succeeded and which carries no error, including Failed or Canceled without an error message.

## Model

| member | source | states |
|---|---|---|
| Base.DecimalString | tools/execute_sql.go:71 | the `%d` form of a natural number: decimal digits only, no leading zero |
| Base.DecimalStringValue | tools/execute_sql.go:71 | the digits of the `%d` form read back as the number |
| Base.ErrorfKeepsPlainText | tools/execute_sql.go:95 | a message without `%` comes out of `fmt.Errorf` unchanged |
| Base.ErrorfPlainPrefix | tools/execute_sql.go:95 | text before the first `%` comes out of `fmt.Errorf` unchanged, whatever follows |
| Base.ErrorfFlagAndVerb | tools/execute_sql.go:95 | `%`, a space flag and a letter form one directive with no operand, printed as `%!` letter `(MISSING)` |
| Base.ErrorfMissingOperand | tools/execute_sql.go:95 | a `%`, a space and a verb between plain text become `%!` verb `(MISSING)`, the text around it kept |
| Base.ErrorfGarblesPercent | tools/execute_sql.go:95 | as written, the status error "disk 100% full" becomes "disk 100%!f(MISSING)ull" |
| Common.Truncate | tools/common.go:82 | the integer lies within 1 of the float, on the side of zero |
| Common.ExtractStringParam | tools/common.go:64-69 | the argument when it is a string, otherwise the default |
| Common.ExtractBoolParam | tools/common.go:72-77 | the argument when it is a boolean, otherwise the default |
| Common.ExtractIntParam | tools/common.go:80-85 | a numeric argument truncated toward zero, otherwise the default |
| Common.ExtractFloatParam | tools/common.go:88-93 | the argument when it is a number, otherwise the default |
| Common.ExecuteOperation | tools/common.go:37-52 | the handler never returns a Go error; an operation error becomes an error result "Error executing operation" carrying it; a value becomes a text result |
| Common.WithWorkspaceClient | tools/common.go:20-22 | reading the client back yields the stored client; a nil client reads back as not found; other keys are unaffected |
| Common.WorkspaceClientFromContext | tools/common.go:25-31 | succeeds exactly when a non-nil client is stored under the package key; otherwise the error "workspace client not found in context" |
| Common.ValueIsLatestBinding | tools/common.go:26 | a context lookup finds the latest binding of the key, and nothing when the key was never bound |
| Common.ForeignValuesDoNotHideClient | tools/common.go:13-17 | values stored under other keys never hide or replace the workspace client |
| Common.SendProgressNotification | tools/common.go:96-109 | no server in the context means the error "server not found in context" and nothing sent; otherwise one notification with token 0 and the given progress and total is delivered, or the delivery error is returned |
| Orchestrator.InProgressOnlyPending | tools.go:197-199 | the guard `IsStatementInProgress`: only Pending is in progress; Running and every terminal state are not |
| Orchestrator.PollingGuards | tools/execute_sql.go:64 | the guard `KeepPolling`: neither loop polls a succeeded statement; the newer one stops at a reported error and polls every other state, failed, canceled or closed without an error included; the older one polls exactly while the statement is Pending (tools.go:134) |
| Orchestrator.ProgressShape | tools/execute_sql.go:65-75 | the notification `ProgressFor`: the newer notification reports attempt and budget with the request's token, or 0 without metadata; the older one (tools.go:136-139) is the fixed message with the request's token and no figures, and exists exactly when the request has metadata |
| Orchestrator.PollLoop | tools/execute_sql.go:62-89 | the loop's effects equal `PollFrom`: notifications delivered, status fetches, sleeps (one per fetch) and the replies consumed |
| Orchestrator.Attempt | tools/execute_sql.go:65-88 | one attempt (notify, sleep, fetch) ends the loop or continues it exactly as `AttemptFrom` says, delivering at most one notification and sending at most one status fetch |
| Orchestrator.CollectRows | tools/execute_sql.go:106-121 | the rows and the chunk fetches equal `ChainFrom` from the embedded chunk |
| Orchestrator.MaxAttempts | tools/execute_sql.go:34-40 | a timeout under 5 seconds gives 0 attempts, otherwise the whole number of 10-second periods |
| Orchestrator.HandleStatement | tools/execute_sql.go:42-135 | the outcome and every effect on the service, the client and the clock are those of `Execute` for the variant |
| Orchestrator.Conclude | tools/execute_sql.go:91-135 | after the loop settles: the outcome, the chunk fetches and the cancellations are those of `Finish`, nothing else is sent |
| Orchestrator.Finish | tools/execute_sql.go:91-135 | the exit handling after the loop always returns a tool result (never a Go error or a panic), for responses that carry a status, a result and a manifest |
| ExecuteSqlTool.ExecuteSql | tools/execute_sql.go:17-137 | the newer handler is `Execute` with the current variant's settings, guard, notification, cancellation and payload |
| LegacyTools.ExecuteSql | tools.go:101-194 | the older handler is `Execute` with 5 attempts, row limit 100, a Pending-only guard and no cancellation |
| LegacyTools.ListAllTables | tools.go:65-97 | panics without string catalog and schema; a listing error becomes an error result; the whole listing is returned, unfiltered for "" and ".*", otherwise its matching tables or the compile error |
| StatementProperties.PollShape | tools/execute_sql.go:64-89 | attempts never exceed the budget; one notification per fetch; fetches are the attempts plus a failed one; a settled end means the budget is spent or the guard no longer holds; only the legacy variant stops for missing metadata, before notifying |
| StatementProperties.PollAsksForStatement | tools/execute_sql.go:84 | every status fetch names the submitted statement when replies keep its id |
| StatementProperties.StatusFetchesForSubmitted | tools/execute_sql.go:84 | in a whole call, every status fetch names the submitted statement |
| StatementProperties.CurrentEventsNumbered | tools/execute_sql.go:65-75 | the i-th notification reports progress i of the budget, with the request's progress token or 0 without metadata |
| StatementProperties.LegacyEventsFixed | tools.go:136-139 | every older notification is the fixed message with the request's token and no progress figures |
| StatementProperties.PendingThroughBudget | tools/execute_sql.go:64-89 | a statement Pending at every fetch exhausts the budget and settles on Pending after exactly `max` fetches |
| StatementProperties.ChainExtends | tools/execute_sql.go:112-121 | chunk assembly fetches nothing exactly when the next index is 0, and starts at that index otherwise |
| StatementProperties.ChainFollows | tools/execute_sql.go:112-116 | the fetched indices follow each chunk's next index, never ask for 0, and strictly ascend |
| StatementProperties.ChainRows | tools/execute_sql.go:107-121 | success holds the rows so far followed by each fetched chunk's rows in order and stops at next index 0; failure carries the last fetch's error and no rows |
| StatementProperties.StatementRequired | tools/execute_sql.go:21 | a missing or non-string statement panics before the service is called |
| StatementProperties.CurrentDefaults | tools/execute_sql.go:22-40 | without arguments: 6 attempts, row limit 100, wait "5s"; a timeout under 5 gives no attempt |
| StatementProperties.NoWarehouseNoSubmission | tools/execute_sql.go:43-49 | a failed or empty warehouse listing returns its error result before anything is submitted |
| StatementProperties.FirstWarehouseUsed | tools/execute_sql.go:52-57 | exactly one submission: the statement on the first warehouse with the variant's row limit and wait (older: 100 and "10s") |
| StatementProperties.PollBudget | tools/execute_sql.go:64-89 | notifications equal status fetches (and sleeps), at most the attempt budget; at most 5 in the older handler |
| StatementProperties.SettledAtSubmissionNotPolled | tools/execute_sql.go:64 | a statement already succeeded or failed with an error (older: not Pending) is never polled |
| StatementProperties.LegacyRunningExitsAtOnce | tools.go:134 | the older handler reports a Running statement as an error at once, with no fetch, cancel or chunk |
| StatementProperties.CurrentProgressNumbered | tools/execute_sql.go:65-75 | in a whole call, the i-th notification reports attempt i of the budget and carries the request's progress token, 0 without metadata |
| StatementProperties.MetadataPanicOnlyLegacy | tools.go:136-139 | only the older handler panics on missing metadata, before any notification |
| StatementProperties.NotifyFailureStops | tools/execute_sql.go:76-78 | a refused notification returns that Go error with no further fetch, no cancel and no chunk fetch |
| StatementProperties.StatusFetchFailureReported | tools/execute_sql.go:84-87 | a failed status fetch becomes "Error getting statement status" with its cause; nothing is cancelled |
| StatementProperties.SettledExit | tools/execute_sql.go:91-104 | a status error is reported with its message verbatim (the corrected reading, see Findings) and no cancel; an unfinished state is reported, and only the newer handler cancels it, once, after the full budget |
| StatementProperties.CancelOnlyOnTimeout | tools/execute_sql.go:98-104 | at most one cancel, always with an error result, a spent budget and no chunk fetch |
| StatementProperties.LegacyNeverCancels | tools.go:155-165 | the older handler never cancels |
| StatementProperties.PendingTimesOut | tools/execute_sql.go:62-104 | a statement Pending throughout is fetched `maxAttempts` times, then cancelled exactly once with the timeout error |
| StatementProperties.SucceededRowsFollowChain | tools/execute_sql.go:106-135 | on success the rows are the first chunk's rows then each fetched chunk's rows, fetched along the chain for this statement; a chunk error is reported; only the newer handler names the warehouse |
| StatementProperties.PendingPendingSucceeded | tools/execute_sql.go:62-135 | Pending, Pending, then Succeeded over two chunks gives two notifications, two fetches, one chunk fetch and the rows of both chunks |
| Tables.FilterTables | tools/list_tables.go:17-29 | a pattern that does not compile gives its error and no tables; otherwise the matching tables in order; the older copy in tools.go:49-61 is the same code and uses this member |
| Tables.MatchingExact | tools/list_tables.go:22-28 | a table is kept exactly when it is listed and its name matches |
| Tables.MatchingIsSubsequence | tools/list_tables.go:22-28 | the kept tables are a subsequence of the listing |
| Tables.MatchingAppend | tools/list_tables.go:23-27 | filtering a concatenation filters each part |
| Tables.MatchingIdempotent | tools/list_tables.go:17-29 | filtering twice by one pattern is filtering once |
| Tables.MatchingEverything | tools/list_tables.go:81 | a pattern matching every name keeps the whole listing, so skipping ".*" changes nothing |
| Tables.ListWithLimit | tools/list_tables.go:36-99 | the handler body for a limit, or for none, equals `ListOutcome` |
| Tables.ListTables | tools/list_tables.go:35-100 | the handler as written answers with the limit 10 whatever `max_results` says |
| Tables.MaxResultsAsWritten | tools/list_tables.go:55-58 | the type assertion to `int` never holds for a decoded JSON argument, so the limit is 10 |
| Tables.ListTablesCorrected | tools/list_tables.go:55-58 | the handler reading `max_results` as a number answers with that limit, and with the whole listing for 0 |
| Tables.CorrectedLimit | tools/list_tables.go:34 | `max_results` 0 means no limit ("0 for all"); any other number is the limit |
| Tables.ListedResponse | tools/list_tables.go:74-93 | `total_count` is the number returned, at most the limit; `truncated` exactly when the listing was longer; the kept prefix unfiltered for "" and ".*", else its matching subsequence |
| Tables.UnlimitedResponse | tools/list_tables.go:74-93 | without a limit the listing is not cut: `truncated` false, the whole listing for "" and ".*", else its matching tables, and the request leaves the page size to the service |
| Tables.ListErrors | tools/list_tables.go:38-85 | non-string catalog panics; a listing error is reported with its cause; a non-compiling pattern is reported with its error |
| Tables.ListingRequestDefaults | tools/list_tables.go:45-67 | the listing asks for the named catalog and schema, the omit flags false unless given, and one more entry than the limit |
| Tables.MaxResultsIgnored | tools/list_tables.go:55-58 | as written, `max_results` 2 over five tables returns all five with `truncated` false |
| Tables.CorrectedHonoursMaxResults | tools/list_tables.go:74-78 | corrected, the same request returns the first two tables with `truncated` true |
| Tables.CorrectedRespectsLimit | tools/list_tables.go:74-78 | corrected, a positive limit bounds the tables and `truncated` tells whether the listing was longer; 0 returns the whole listing, not truncated; a negative limit panics |
| Tables.ZeroLimitCutsAll | tools/list_tables.go:74-78 | as written, a limit of 0 cuts a non-empty listing to no tables and reports `truncated` true |
| Tables.CorrectedZeroListsAll | tools/list_tables.go:34 | corrected, `max_results` 0 over three tables returns all three with `truncated` false |
| Provider.NewMcpProvider | databricks/mcp.go:31-54 | empty base URL rejected first, then empty token, with the config untouched; otherwise zero poll interval becomes 60 and zero port 8080 in the caller's config; the provider keeps that config; client errors are wrapped |
| Provider.McpProvider.GetResources | databricks/mcp.go:57-96 | the method returns `Resources` of the client's answers |
| Provider.JobResourcesExact | databricks/mcp.go:85-93 | job records exist exactly when every job's settings is an object, one per job in order |
| Provider.ResourcesShape | databricks/mcp.go:57-96 | either listing failing is an error, clusters checked first; otherwise the count is clusters plus jobs, clusters first in order tagged "cluster", then jobs tagged "job"; a job without object settings panics |
| Provider.McpProvider.GetResource | databricks/mcp.go:99-118 | any type but "cluster" is "unsupported resource type"; a result is always the requested cluster tagged "cluster" |
| Provider.ToLower | databricks/mcp.go:253 | each character is lower-cased, the length kept |
| Provider.StringsContainsOccurs | databricks/mcp.go:254 | the substring test holds exactly when the substring occurs at some position |
| Provider.Contains | databricks/mcp.go:252-255 | true exactly when the lower-cased substring occurs in the lower-cased string; the empty substring always matches |
| Provider.ToLowerIdempotent | databricks/mcp.go:253 | lower-casing twice is lower-casing once |
| Provider.ContainsIgnoresCase | databricks/mcp.go:252-255 | lower-casing either argument first does not change the answer |
| Provider.NamedLikeExact | databricks/mcp.go:233-239 | a resource is kept exactly when its name is a string containing the query |
| Provider.NamedLikeInOrder | databricks/mcp.go:233-239 | the kept resources are a subsequence of the listing |
| Provider.McpProvider.GetContext | databricks/mcp.go:217-249 | an empty query is a 400; a failed listing is a 500 with its error; otherwise the body holds the query and the resources whose name contains it |

## Left out

- The MCP library (`mcp-go`), the Databricks SDK and the REST client are oracles: `Mcp.ProgressSink`, `Sql.StatementService`, the table listing function and `Provider.Api`. This covers `SendNotificationToClient`, the SDK services, `listing.ToSliceN` and `NewClient`.
- `regexp` is an abstract `Tables.Engine`: the compile error of each pattern and the names each pattern matches.
- `json.Marshal` and `json.Encoder` are left out, because library code is not modelled. Payloads stay structured, so marshalling errors and the JSON form of a nil slice (`null`) are not modelled.
- `time.Sleep` and durations, including the older handler's interval of `timeout_seconds/4`, are left out. Each sleep is a count in `Mcp.Clock`.
- `StartPolling`, `StartServer`, `handleGetResources`, `handleGetResource`, `LoadConfig` and the HTTP writing of `handleGetContext` are left out. They are timers, goroutines, routing and `net/http`; `GetContext` keeps the status and body.
- main.go, databricks/client.go, the catalog, schema, warehouse and table-detail tools, `listAllCatalogs` and `listAllSchemas` are left out. They are process wiring or single SDK calls.
- `WithWorkspaceClientHandler` (tools/common.go:55-61) is left out. It only composes `WithWorkspaceClient` with the handler, and `WithWorkspaceClient` is modelled.
- A nil MCP server in the context of either SQL handler is left out. That would be a nil-pointer panic; the handlers are given their server.
- Orchestrator.ChainFrom: requires the chunk store to number chunks in ascending order (`Sql.Ascending`). The Go loop follows any chain and would not terminate on a cycle, so cyclic stores are not modelled.
- Sql.StatementService.GetStatementByStatementId: once the script of replies is spent, further fetches fail with the model's own error text.
- Common.SendProgressNotification: the text of a delivery error is the model's own constant, because the library's text is not visible.
- Orchestrator.Execute: the Go error returned when a progress notification is refused carries the model's own text (`Common.NotDelivered`), for the same reason.
- Orchestrator.Finish: SDK responses are assumed to carry a status, a result and a manifest. Go reads them through pointers (`res.Status.State` at tools/execute_sql.go:64, `res.Result` at :108-109, `res.Manifest.Schema.Columns` at :125, and the same reads in tools.go:134, 169-170 and 188), so a response without one panics there, which the model does not capture.
- Orchestrator.Finish: reports a status error's message verbatim, where Go passes it through `fmt.Errorf` as a format (tools/execute_sql.go:95, tools.go:159). The as-written formatting is `Base.Errorf`; see Findings.
- StatementProperties.SettledExit: states the verbatim message of `Orchestrator.Finish`, not Go's `fmt.Errorf` rendering of it; see Findings.
- Base.Errorf: models flags, widths, precisions and verbs with no operand, and `%%`. `*` widths or precisions and `[n]` argument indexes are not modelled (Go prints BADWIDTH, BADPREC or BADINDEX for them).
- Common.Truncate: covers only values in the range of Go's `int`; overflow of `int(float64)` is not modelled.
- Provider.ToLower: lower-cases ASCII letters only, whereas Go's `strings.ToLower` follows Unicode case mapping.
- Tables.ListTablesCorrected: reads `max_results` through `ExtractIntParam`, so the 32-bit and 64-bit limits of Go's `int` are not modelled.

## Findings

| source | as written | input that shows it | evidently intended | confidence | as-written member | corrected member |
|---|---|---|---|---|---|---|
| tools/list_tables.go:55 | `arguments["max_results"].(int)` asserts Go `int`, but decoded JSON arguments hold numbers as float64, so the limit is always 10 | `max_results` = 2 with five tables listed: all five returned, `truncated` false | read the number as the other tools do (`ExtractIntParam`): two tables returned, `truncated` true | high, not executed | Tables.MaxResultsIgnored | Tables.CorrectedRespectsLimit |
| tools/list_tables.go:74-78 | `max_results` is documented as "0 for all" (line 34), but a limit of 0 cuts the listing with `tables[:0]` | a limit of 0 with a non-empty listing: no tables, `truncated` true | 0 means no limit: the whole listing, `truncated` false | medium, not executed | Tables.ZeroLimitCutsAll | Tables.CorrectedZeroListsAll |
| tools/execute_sql.go:95 | `fmt.Errorf(res.Status.Error.Message)` uses the service's message as a format string (also tools.go:159) | the message "disk 100% full" is reported as "disk 100%!f(MISSING)ull" | the message verbatim (`errors.New` or `fmt.Errorf("%s", m)`) | high, not executed | Base.ErrorfGarblesPercent | StatementProperties.SettledExit |

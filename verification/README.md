# A verified model of the Trino gateway and its routing service

This project models the parts of a Trino gateway, and of the routing service beside
it, whose correctness does not show from one function alone, and proves what they
promise for all inputs and over all interleavings.

- **Sticky routing** (`Gateway`, `Traces`, `Routes`, `Polls`, `Recovery`, `KillQuery`,
  `QueryCache`, `SingleFlight`, `ProbeFanOut`). The gateway is a step system: any
  number of requests are in flight, and one event is one atomic action of one request
  (a cache look-up, a step inside the singleflight, the moment a SELECT takes effect,
  the buffered upstream reply, the cache write, the history insert, the flush).
  External routers, backend lists, probe answers, failures and the rows that other
  gateways record are free choices of the events. The cache is a recency-ordered list, the
  singleflight and the HEAD fan-out are step systems of their own at lock, channel
  and WaitGroup granularity, and the gateway's steps are built on them.
- **Routing pipeline** (`Pipeline`, `PipelineRuns`). Evaluation loops over the
  method list, and all interleavings of kill-switch calls (load, copy,
  compare-and-swap, retry), lock-free readers and the reload watcher.
- **SQL analysis** (`SqlTokenizer`, `SqlComments`, `SqlStatement`, `SqlTableRefs`,
  `SqlAnalysis`). Scanner, statement classification and table-reference extraction,
  each as an index loop proved against a function on the text or tokens left.
- **Method config** (`MethodConfig`), **JSON field stripping** (`JsonPath`),
  **cookie lifetime** (`CookieTtl`), **backend gauges** (`BackendMetrics`, and
  `MonitorRuns` for concurrent callers) and the **line chart** (`LineChart`).

A run is a sequence of events from the initial state; a lemma about a run is about
every interleaving. `dafny verify dfyconfig.toml` checks the whole project.

## Where the code does less than its documentation says

- *A client that receives the statement response and immediately polls lands on the
  same backend* (docs/USE_STORIES.md:607-610). True for paths under `/v1/query/`
  while the query is cached (`Gateway.StickyRouting`), but the id is read from such
  paths only, although the comment at internal/routing/router.go:299 also names
  `/v1/statement/<id>`. `Polls.PollIsCertainIff` gives the exact condition, counting
  what other requests may do to the cache meanwhile, and
  `Polls.StatementPollIsNeverCertain` the paths that never meet it.
- *KILL QUERY is forwarded to the backend that owns the query*
  (docs/USE_STORIES.md:619-621). It bypasses the cache, and it may share a history
  look-up whose SELECT ran too early, even one that has not returned yet.
  `KillQuery.KillCanStray` builds, for every query, a run in which the owner is cached
  and recorded and the KILL QUERY still goes elsewhere; `KillQuery.KillIsCertainIff`
  gives the exact condition.
- A comment or literal inserted where the SQL scan is at its loop head acts like a
  space, except before the newline of a line comment and after an unterminated
  construct (`SqlComments.InsertionIsInvisibleIff`).
- The two config printers agree except on the empty source
  (`MethodConfig.PrintersAgreeIff`), a program that is only a newline reads as no
  program, and a file path comes back exactly when it has no newline
  (`MethodConfig.ConfigRoundTrip`); the lines of a path after its first are read as
  config, and one that names a program takes its place
  (`MethodConfig.FileLineReplacesProgram`).
- A cookie whose TTL is zero or negative never expires (`CookieTtl.ExpiresIff`), and one
  whose encoding is malformed is not merely deleted, as the comment at
  internal/proxy/cookie.go:136 has it, but refused like a forged one
  (`CookieTtl.VerdictIs`, `CookieTtl.CookieLife`).
- Bare SQL names hold letters, digits and underscores only. The comment at
  routing-service/internal/sqlmeta/heuristic.go:209-210 also names @ and #, which split a
  name in two (`SqlTokenizer.OtherCharsSplit`).
- Backend gauges are refreshed after every change (internal/monitor/monitor.go:177-179),
  but snapshots may overtake each other: a removed backend can stay on the dashboard
  with no call left to remove it (`MonitorRuns.RemovedBackendLingers`).
  `MonitorRuns.BackendsAreCurrentIff` and `MonitorRuns.GaugesAreCurrentIff` say, by what
  the shown snapshot had read, exactly when the backends and the statuses on show are
  certain to be current. Setting one status stores an earlier copy of all of them
  (`MonitorRuns.StatusStoreKeepsOthersIff`).
- *TABLE is an anchor so that the targets of CREATE/DROP/ALTER TABLE and INSERT INTO
  TABLE are captured* (routing-service/internal/sqlmeta/heuristic.go:331-334). A target
  is reported if and only if it stands right after its anchor: `INSERT INTO TABLE t`
  reports a table `table`, and `CREATE TABLE IF NOT EXISTS t` a table `if`
  (`SqlTableRefs.TargetIsReportedIff`).

## Assumptions of the gateway theorems

Each query id is issued by one backend, `owner(q)`, a HEAD probe answers 200 only on
that backend, and the rows that are in the history table at the start, or that other
gateways record, name the owner as well. Two theorems assume more, and say so in their
statement: that a poll is certain only under the given condition is, as far as new ids
may be touched, shown for an unending supply of query ids, and the KILL QUERY condition is for look-ups that do not
fail while the request is handled.

## Model

| member | source | states |
|---|---|---|
| `QueryCache.Cache.constructor` | internal/routing/cache.go:19-28 | an empty cache; a non-positive size falls back to 4096 |
| `QueryCache.Cache.Get` | internal/routing/cache.go:31-33 | answers from the entry with that key and moves it to the front; a miss changes nothing |
| `QueryCache.Cache.Set` | internal/routing/cache.go:36-38 | writes to the front and drops the least recently used entry when over capacity; keys stay distinct |
| `QueryCache.PutKeepsRecent` | internal/routing/cache.go:36-38 | a write keeps the cache equal to the most recent distinct ids of the log of writes and hits, newest first |
| `QueryCache.TouchKeepsRecent` | internal/routing/cache.go:31-33 | so does a hit |
| `QueryCache.RetainedIffFewOthers` | internal/routing/cache.go:7-38 | an id once touched is cached if and only if fewer than capacity distinct other ids were touched since |
| `SingleFlight.RunKeepsInv` | internal/routing/recovery.go:56-79 | the protocol invariant in every reachable state: records, in-flight map, mutex and program counters agree |
| `SingleFlight.OneRunPerKey` | internal/routing/recovery.go:56-79 | at most one fn runs per key and the mutex has at most one holder |
| `SingleFlight.DeleteRemovesOwnRecord` | internal/routing/recovery.go:74-76 | delete-by-key removes the deleting leader's own record and no other |
| `SingleFlight.ReturnsReplyForOwnKey` | internal/routing/recovery.go:61-78 | every caller returns the reply of an fn run for its own key whose record was in flight when the caller looked it up |
| `SingleFlight.WaiterReleased` | internal/routing/recovery.go:61-72 | a waiter is blocked only while its leader's fn runs or is about to be released |
| `SingleFlight.NoDeadlock` | internal/routing/recovery.go:56-79 | while any call is unfinished some unfinished caller can move |
| `SingleFlight.DrainIsBounded` | internal/routing/recovery.go:56-79 | once no call begins, the number of remaining steps is bounded, so with NoDeadlock every caller returns |
| `ProbeFanOut.RunKeepsInv` | internal/routing/recovery.go:118-149 | over every run the URLs in the channel and those taken are together, as multisets, exactly the URLs the 200-probers delivered; the receiver has gone past empty URLs only, and returned at the first other one or with the closed channel drained |
| `ProbeFanOut.SendNeverBlocks` | internal/routing/recovery.go:125-136 | a prober that wants to send finds room in an open channel, also after the receiver has returned |
| `ProbeFanOut.RunIsBounded` | internal/routing/recovery.go:125-149 | every run of probers, closer and receiver is finite |
| `ProbeFanOut.StuckMeansFinished` | internal/routing/recovery.go:127-141 | when nobody but the receiver can move, every prober has finished and the channel is closed |
| `ProbeFanOut.ResultIsRight` | internal/routing/recovery.go:143-148 | a non-empty result is a listed backend that answered 200; "" means no backend with a non-empty URL did |
| `Gateway.ExtractQueryId` | internal/routing/router.go:300-315 | the id is the segment after `/v1/query/`, "" on any other path |
| `Gateway.PollNamesItsQuery` | internal/routing/router.go:300-315 | every path `/v1/query/<id>` with any `/...` or `?...` after it yields the id |
| `Gateway.ResolveGroup` | internal/routing/router.go:268-279 | the first active backend of the group, "" when the group has none |
| `Gateway.HistoryTable.Insert` | internal/persistence/history.go:55-78 | first write wins; no existing row ever changes; a failure changes nothing |
| `Gateway.HistoryTable.LookupByQueryId` | internal/persistence/history.go:81-92 | the backend first inserted for the id over the life of the table, "" when there is none or the look-up fails |
| `Gateway.LookupFindsFirstInsert` | internal/persistence/history.go:55-92 | after any sequence of inserts a look-up gives the row that was there before, else the first one inserted for its id, else "" |
| `Gateway.NextKeepsInv` | internal/routing/router.go:153-218 | every step of every request keeps: cached, recorded, looked-up and sent backends are owners, and the cache is the most recent ids |
| `Gateway.StickyRouting` | internal/proxy/forward.go:76-97 | once a reply carrying q from b was sent, every later cache look-up of Route for a path naming q gives b if fewer than 4096 distinct other ids were written or hit since q was, and misses otherwise |
| `Gateway.AnswersNameTheOwner` | internal/routing/recovery.go:83-106 | over every run, whatever rows there were at the start and other gateways add, all cache entries, history rows and sent replies name owners, and every answer of Route from cache, history or probe is the owner |
| `Polls.PollIsCertainIff` | internal/routing/router.go:163-211 | after any run, against all concurrent requests that touch at most n further ids: a poll must reach b if its path names a query of b that was touched and the ids touched since plus n are fewer than 4096, and only if, for n > 0 with ids never running out |
| `Polls.StatementPollIsNeverCertain` | internal/routing/router.go:299-314 | after any run, a poll under `/v1/statement/` can be routed elsewhere even if no other request does anything |
| `KillQuery.UnreadRecordSeesTheRow` | internal/routing/recovery.go:61-91 | a look-up whose SELECT had not taken effect when the row was already there brings the owner to every caller that shares it, unless it fails |
| `KillQuery.KillCanStray` | internal/routing/router.go:154-161 | for every query not recorded before, a run in which its owner is cached and recorded, no look-up fails, and a later KILL QUERY joins a look-up that has not returned and goes to another backend |
| `Routes.GroupStep` | internal/routing/router.go:171-180 | the router's group is looked up, the default group when it gave none |
| `Routes.ResolveStep` | internal/routing/router.go:181-204 | the group step returns the first active backend of the group; it goes on, to recovery if the path names a query and else to the first active backend, only if the list failed, holds none of the group, or the first one has no URL |
| `Routes.LookupAndFallback` | internal/routing/router.go:163-170 | a hit for the id of the path is the answer, any other look-up goes on to the router; the final fallback is the first active backend or none |
| `Routes.RecoveryLeads` | internal/routing/recovery.go:83-106 | history, then a probe, then the first of the list; without a backend a KILL QUERY goes on with the cache and any other request with the first active backend |
| `Routes.GroupRouteIsRight` | internal/routing/router.go:171-204 | over every run a request routed through a group had an answer g of the router and later a list, and got the list's first backend in g, or in the default group when g is "" |
| `Routes.FallbackIsFirstActive` | internal/routing/router.go:202-203 | over every run a request routed by the final fallback got the first of a list of active backends, or none when the list failed or was empty |
| `Routes.WritesComeBeforeFlush` | internal/proxy/forward.go:76-97 | over every run a reply carrying an id was sent only after, in this order, the upstream reply, the cache write and the insert of the same request, and only from a backend |
| `Routes.RowsHaveAnOrigin` | internal/proxy/forward.go:78-88 | every history row was there at the start, came from another gateway, or from an insert that did not fail by a request whose upstream reply carried the id |
| `Recovery.DefaultIsTheLastResort` | internal/routing/recovery.go:83-106 | in every run a request routed by the first-active default had, in this order, an empty history look-up of its id, a backend list and a fan-out over it without a 200 from a backend with a URL, and got the first of that list |
| `Recovery.ProbeIsSecond` | internal/routing/recovery.go:84-101 | a request routed by a probe had an empty history look-up before it |
| `KillQuery.KillIsCertainIff` | internal/routing/router.go:154-161 | after any run and against any concurrent requests, with look-ups that do not fail: a KILL QUERY must reach the owner if and only if the row exists and no look-up of it whose SELECT found nothing, returned or not, can still be joined |
| `Pipeline.FirstDeciding` | routing-service/internal/engine/pipeline.go:45-61 | the first provider that decides, with none before it |
| `Pipeline.Evaluate` | routing-service/internal/engine/pipeline.go:43-63 | the group of the first entry that is not disabled and decides, the default when that group is empty or nobody decides; errors are skipped; never "" when the default is not |
| `Pipeline.EvaluateResult` | routing-service/internal/engine/pipeline.go:111-134 | the same group; decided exactly when some entry settles the request, its type, and an error flag set exactly when an enabled provider before it failed |
| `Pipeline.EvaluateFull` | routing-service/internal/engine/pipeline.go:140-160 | the same group, and the headers and errors of the entry that settles the request unchanged, none when nobody does |
| `Pipeline.ChosenIsRight` | routing-service/internal/engine/pipeline.go:43-63 | first-decided-wins over the active providers is the right group said entry by entry |
| `Pipeline.FirstOf` | routing-service/internal/engine/pipeline.go:256-262 | the first entry of a type, with none of that type before it |
| `Pipeline.MethodPipeline.UpdateMethod` | routing-service/internal/engine/pipeline.go:247-272 | without interference: only the first entry of the type changes |
| `Pipeline.MethodPipeline.DisableMethod` | routing-service/internal/engine/pipeline.go:213-220 | wraps that entry unless it is wrapped |
| `Pipeline.MethodPipeline.EnableMethod` | routing-service/internal/engine/pipeline.go:224-231 | unwraps that entry if it is wrapped |
| `Pipeline.MethodPipeline.DisabledMethods` | routing-service/internal/engine/pipeline.go:234-243 | the types of the wrapped entries, in order: a type is in it exactly when some entry of it is wrapped |
| `Pipeline.DisableTakesFirstOut` | routing-service/internal/engine/pipeline.go:213-220 | routing after a disable is routing without the first entry of the type |
| `Pipeline.EnableUndoesDisableIff` | routing-service/internal/engine/pipeline.go:213-231 | disable then enable gives the list back if and only if the entry was not disabled before |
| `Pipeline.KillIsCompleteIff` | routing-service/internal/engine/pipeline.go:256-261 | one disable puts a type out of service if and only if every later entry of it already was |
| `PipelineRuns.RunKeepsInv` | routing-service/internal/engine/pipeline.go:247-272 | the invariant behind the next rows, over every interleaving |
| `PipelineRuns.NoLostUpdate` | routing-service/internal/engine/pipeline.go:247-272 | the live list is the committed operations applied one after the other, each once; a returned call is among them, a pending one is not |
| `PipelineRuns.CommitOrderIsRealTime` | routing-service/internal/engine/pipeline.go:173-272 | an operation that took effect before another was called stands before it in that order |
| `PipelineRuns.EvaluationIsLinearizable` | routing-service/internal/engine/pipeline.go:187-192 | the group an evaluation answers with is that of the first entry that is not disabled and decides, or the default, on one committed list of a moment between its call and its answer |
| `PipelineRuns.FailedCasMeansProgress` | routing-service/internal/engine/pipeline.go:266-270 | a compare-and-swap fails only if another operation took effect since the load |
| `PipelineRuns.KeepsLastGood` | routing-service/internal/reload/watcher.go:188-249 | over good and bad reloads and kill-switch calls the live list without wrappers is the one built from the last fully accepted config, wrappers never nest, reloads are successes plus errors |
| `PipelineRuns.CountersAreRight` | routing-service/internal/reload/watcher.go:188-249 | over every run the success counter is the number of lists stored and counted, the error counter that of configs that could not be read, parsed or built, the reload counter that of reloads ended |
| `PipelineRuns.NoPartialList` | routing-service/internal/reload/watcher.go:216-227 | a list stored by Swap holds every method of the parsed config, in order, with nothing disabled |
| `SqlTokenizer.ScanDelimited` | routing-service/internal/sqlmeta/heuristic.go:186-206 | text and end of a delimited identifier, a doubled symmetric delimiter standing for one |
| `SqlTokenizer.ScanLexeme` | routing-service/internal/sqlmeta/heuristic.go:120-178 | one turn of the scan loop: the lexeme at the position and the token it gives |
| `SqlTokenizer.Tokenize` | routing-service/internal/sqlmeta/heuristic.go:116-180 | the loop yields the token stream of the text and ends on every input |
| `SqlTokenizer.TokensFitInput` | routing-service/internal/sqlmeta/heuristic.go:116-180 | tokens hold no more text than the input and are no more than its characters |
| `SqlTokenizer.LexemeStays` | routing-service/internal/sqlmeta/heuristic.go:121-177 | a complete lexeme is the same before any text that does not continue it |
| `SqlTokenizer.RoundTrip` | routing-service/internal/sqlmeta/heuristic.go:153-173 | words of letters, digits and underscores, the four marks, and identifiers of all three quoting styles with any text, printed with spaces, scan back to exactly that list |
| `SqlTokenizer.WordIsOneToken` | routing-service/internal/sqlmeta/heuristic.go:168-173 | a word of letters, digits and underscores, given by code, is one token before any text that does not go on with one |
| `SqlTokenizer.OtherCharsSplit` | routing-service/internal/sqlmeta/heuristic.go:208-216 | any character that is none of these, no mark and no quote splits a name in two and leaves no token |
| `SqlComments.FillerIsInvisible` | routing-service/internal/sqlmeta/heuristic.go:123-152 | before any text, a comment or closed literal leaves no token behind |
| `SqlComments.InsertionIsInvisibleIff` | routing-service/internal/sqlmeta/heuristic.go:120-177 | at any loop head, every comment and literal acts like one space if and only if the lexeme ending there is complete |
| `SqlStatement.KeywordAt` | routing-service/internal/sqlmeta/heuristic.go:279-287 | the first unquoted token from the index on, in upper case |
| `SqlStatement.MainAfterWith` | routing-service/internal/sqlmeta/heuristic.go:251-275 | the first statement keyword outside parentheses |
| `SqlStatement.Classify` | routing-service/internal/sqlmeta/heuristic.go:224-247 | the statement type of any token list, None when unrecognised |
| `SqlStatement.SpelledStatement` | routing-service/internal/sqlmeta/heuristic.go:224-327 | the first unquoted word, in any letter case, decides: each listed keyword is the type and gives its category, EXPLAIN is EXPLAIN, and any other word but WITH is not a statement |
| `SqlStatement.WithAloneIsSelect` | routing-service/internal/sqlmeta/heuristic.go:231-243 | a WITH after which no statement keyword follows counts as a SELECT |
| `SqlStatement.WithReportsMainKeyword` | routing-service/internal/sqlmeta/heuristic.go:231-275 | for every WITH list with balanced column lists and bodies the type is the keyword after the list |
| `SqlTableRefs.ReadRefAt` | routing-service/internal/sqlmeta/heuristic.go:421-443 | the dotted reference at the index and the index after it, or that there is none |
| `SqlTableRefs.SkipAliasAt` | routing-service/internal/sqlmeta/heuristic.go:448-480 | the index after an optional alias |
| `SqlTableRefs.ReadRefList` | routing-service/internal/sqlmeta/heuristic.go:395-413 | the comma-separated references after an anchor |
| `SqlTableRefs.ExtractTableRefs` | routing-service/internal/sqlmeta/heuristic.go:359-416 | all references of a token list; ends on every list |
| `SqlTableRefs.ExtractReadsBack` | routing-service/internal/sqlmeta/heuristic.go:359-490 | from any printed list of references with or without aliases, after any text without an anchor, exactly these references come back in order, bare parts lower-cased, quoted parts kept |
| `SqlTableRefs.NamesAreFolded` | routing-service/internal/sqlmeta/heuristic.go:485-490 | quoted parts are kept, of bare parts exactly the capitals change, to lower case |
| `SqlTableRefs.WordsAreSpelled` | routing-service/internal/sqlmeta/heuristic.go:335-349 | which words are anchors and which end a list, in any letter case |
| `SqlTableRefs.JoinReportsBoth` | routing-service/internal/sqlmeta/heuristic.go:359-416 | a FROM list, then nothing or text that begins with a keyword, then JOIN: the references of both are reported |
| `SqlTableRefs.DerivedTableIsLookedInto` | routing-service/internal/sqlmeta/heuristic.go:389-393 | the references inside `FROM ( ... )` are reported, and then what follows it |
| `SqlTableRefs.DerivedAfterComma` | routing-service/internal/sqlmeta/heuristic.go:405-409 | so are those of a derived table after a comma |
| `SqlTableRefs.OnlyIsPassedOver` | routing-service/internal/sqlmeta/heuristic.go:378-388 | ONLY between an anchor and its references makes no difference |
| `SqlTableRefs.NothingToReport` | routing-service/internal/sqlmeta/heuristic.go:421-435 | an anchor before a keyword that ends lists, a comma or a closing parenthesis reports nothing |
| `SqlTableRefs.TargetIsReportedIff` | routing-service/internal/sqlmeta/heuristic.go:331-443 | with TABLE, IF EXISTS or IF NOT EXISTS between an anchor and its target, `table` or `if` is reported instead; the target is reported if and only if nothing stands between, or it is spelled like that word |
| `SqlAnalysis.Collect` | routing-service/internal/sqlmeta/heuristic.go:68-89 | the four sets are those of the qualified names with a table |
| `SqlAnalysis.Analyze` | routing-service/internal/sqlmeta/heuristic.go:47-100 | truncation at the limit, or at 262144 bytes without one, scanning, classification and collection together: no statement gives the empty result, else type and the sets that the references stand for; the flag tells whether text was cut |
| `SqlAnalysis.MetaReports` | routing-service/internal/sqlmeta/heuristic.go:68-89 | the four sets hold exactly this: a one-part reference takes catalog and schema from the defaults, a two-part one the catalog, a longer one nothing and only its last three parts count; empty parts are not reported and leave no dot |
| `SqlAnalysis.CaseDoesNotMatter` | routing-service/internal/sqlmeta/heuristic.go:224-511 | the whole analysis is the same for token lists that differ in the case of unquoted words only, and for defaults that are the same once trimmed and lower-cased |
| `SqlAnalysis.DefaultsAreNormalised` | routing-service/internal/sqlmeta/heuristic.go:499-500 | blanks around a default catalog or schema and the case of its letters make no difference |
| `SqlAnalysis.TidyIsNormal` | routing-service/internal/sqlmeta/heuristic.go:499-500 | a default without capitals and without blanks at its ends is used as it is |
| `SqlAnalysis.OneTableTakesDefaults` | routing-service/internal/sqlmeta/heuristic.go:498-526 | for one unqualified table the catalog is the default catalog, the schema the default schema, and the full name has both in this order, an empty one leaving no part and no dot |
| `SqlAnalysis.SelectNamesItsTables` | routing-service/internal/sqlmeta/heuristic.go:47-100 | from printed text to result: a SELECT over any reference list is a read whose tables, catalogs and schemas are exactly what these references stand for |
| `MethodConfig.AppendYamlBlock` | routing-service/internal/engine/registry.go:85-101 | the block is the value's lines, each indented by two |
| `MethodConfig.MethodConfigBytes` | routing-service/internal/engine/registry.go:56-76 | the printed config is its lines |
| `MethodConfig.SplitLines` | routing-service/internal/engine/providers/expr/provider.go:266-279 | the lines of a text; a final newline starts no line |
| `MethodConfig.JoinLines` | routing-service/internal/engine/providers/expr/provider.go:281-290 | lines joined by newlines |
| `MethodConfig.ParseYamlLine` | routing-service/internal/engine/providers/expr/provider.go:294-310 | key and value at the first colon, one leading space dropped; neither for a line without a colon |
| `MethodConfig.JoinOfLines` | routing-service/internal/engine/providers/expr/provider.go:266-290 | joining the lines of a text gives it back without one final newline |
| `MethodConfig.ExtractSource` | routing-service/internal/engine/providers/expr/provider.go:210-263 | the line parser, where the source is taken from |
| `MethodConfig.ConfigRoundTrip` | routing-service/internal/engine/providers/script/provider.go:251-294 | for every config what both providers get: when the file has no newline, the program without one final newline, for "" and a lone newline the file, and without one the error; when it has, the last of its further lines with the key `program` (and the block after it) or `file` decides; the program comes back when no such line names it, the file if and only if it has no newline |
| `MethodConfig.FileLineReplacesProgram` | routing-service/internal/engine/registry.go:66-71 | a second line of the file path that names a program is what the provider gets |
| `MethodConfig.BuildConfig` | routing-service/tools/expr-test/main.go:175-196 | the tool's bytes are its head and the indented lines |
| `MethodConfig.PrintersAgreeIff` | routing-service/tools/expr-test/main.go:175-181 | tool and registry print the same bytes if and only if the source is not empty |
| `JsonPath.DeleteJsonPath` | internal/diffharness/normalize.go:89-113 | the in-place recursion over unshared nodes turns the tree into the one with the path deleted |
| `JsonPath.Split` | internal/diffharness/normalize.go:75-77 | the parts hold no dot and joined by dots give the field back |
| `JsonPath.StripJsonFields` | internal/diffharness/normalize.go:67-83 | all fields are deleted one after the other; a body that is not JSON is left alone |
| `JsonPath.DeletedPositions` | internal/diffharness/normalize.go:89-113 | exactly the positions at or below the path are gone, every other scalar and array length is unchanged |
| `JsonPath.SurvivingKeyPaths` | internal/diffharness/normalize.go:85-113 | the surviving key-paths are those without the deleted path as a prefix |
| `JsonPath.DeleteIsIdempotent` | internal/diffharness/normalize.go:89-113 | deleting twice is deleting once |
| `JsonPath.DeletesCommute` | internal/diffharness/normalize.go:75-77 | any two deletions commute |
| `JsonPath.StrippedPositions` | internal/diffharness/normalize.go:75-77 | stripping removes exactly what lies below one of the paths |
| `JsonPath.FieldOrderDoesNotMatter` | internal/diffharness/normalize.go:67-83 | the result depends on the set of fields only |
| `CookieTtl.UnitFor` | internal/proxy/cookie.go:277-294 | the largest unit that fits at least once |
| `CookieTtl.AirliftDurationString` | internal/proxy/cookie.go:276-296 | the table scan writes the TTL in that unit to the nearest hundredth, halves to even |
| `CookieTtl.WholeUnits` | internal/proxy/cookie.go:276-296 | whole days, hours, minutes, seconds, milli-, micro- and nanoseconds are written as their number and suffix |
| `CookieTtl.ReadsUnits` | internal/proxy/cookie.go:239-272 | a number with a known suffix reads as that many units, cut off towards zero, with any other as zero |
| `CookieTtl.TtlRoundTrip` | internal/proxy/cookie.go:230-296 | a written TTL reads back exactly in nanosecond mode and within 1/200 of itself in airlift mode, and stays positive |
| `CookieTtl.IssuedCookieLives` | internal/proxy/cookie.go:83-172 | an issued cookie is valid while age plus 1 ms is at most 0.995 of the TTL, expired beyond 1.005, never tampered |
| `CookieTtl.ExpiresIff` | internal/proxy/cookie.go:163-169 | an issued cookie ever expires if and only if its TTL is positive |
| `CookieTtl.VerdictIs` | internal/proxy/cookie.go:137-172 | for every received value and clock: tampered if and only if it does not decode or its signature is not that of its payload, expired if and only if signed with a positive TTL less than its age, and a valid one has the delete paths that were signed |
| `CookieTtl.ReplacedPayloadIsTampered` | internal/proxy/cookie.go:148-161 | an issued cookie with another payload put into it is tampered, if the signature tells the two apart |
| `CookieTtl.MatchesAny` | internal/proxy/cookie.go:219-226 | whether the path is in the list |
| `CookieTtl.ApplyCookies` | internal/proxy/cookie.go:50-78 | what happens to the response: nothing, a cookie set or deleted, or an error |
| `CookieTtl.CookieLife` | internal/proxy/cookie.go:50-172 | a first request under /oauth2 gets a cookie for its backend; sent back it is never refused, deleted on the two logout paths and when it has run out, else left alone; with another payload or malformed the response is refused; without a secret nothing happens |
| `BackendMetrics.Gauges.Prune` | internal/metrics/backend.go:75-83 | the series of backends that left are deleted, the others kept |
| `BackendMetrics.Gauges.SetAll` | internal/metrics/backend.go:85-100 | every backend shows 1 on healthy, unhealthy or pending exactly when that is its status, unknown counting as pending, and 0 else, and the counts are the numbers of backends by status |
| `BackendMetrics.Gauges.ObserveStatuses` | internal/metrics/backend.go:70-119 | whatever was shown before, there are series for exactly the backends of the snapshot, each shows 1 on the label of its status and 0 on the others, activation is 1, and the totals are the numbers of backends by status |
| `BackendMetrics.OneStatusPerBackend` | internal/metrics/backend.go:86-94 | each backend has value 1 on exactly one status label and 0 on the others |
| `BackendMetrics.TotalsAddUp` | internal/metrics/backend.go:85-105 | the three totals sum to the active count |
| `BackendMetrics.Monitor.NotifyObserver` | internal/monitor/monitor.go:144-167 | the gauges show exactly the known backends, each with its last verdict, pending when there is none |
| `BackendMetrics.Monitor.SetBackends` | internal/monitor/monitor.go:171-180 | without interference: the new set is shown at once |
| `BackendMetrics.Monitor.SetBackendStatus` | internal/monitor/monitor.go:198-207 | without interference: one verdict changes and is shown |
| `BackendMetrics.Monitor.Probe` | internal/monitor/monitor.go:275-315 | without interference: a cycle replaces all verdicts and shows them; with no backends neither the verdicts nor the gauges change |
| `MonitorRuns.RunKeepsInv` | internal/monitor/monitor.go:144-207 | over every interleaving of callers: a snapshot that read the latest list lists the current backends, one that read both latest is the current one, and such a one has been delivered or is on its way |
| `MonitorRuns.LatestReadIsShown` | internal/monitor/monitor.go:144-180 | in every reachable state the gauges list the current backends if what they show read the latest list, and show the current statuses if it read both latest; once all calls have returned it read both latest if and only if no delivered snapshot read anything later |
| `MonitorRuns.StaleReadLingers` | internal/monitor/monitor.go:144-180 | for every other pair of versions read and every number of changes, a run with all calls returned whose gauges show such a snapshot and are wrong, in the backends they list if the list is old |
| `MonitorRuns.BackendsAreCurrentIff` | internal/monitor/monitor.go:177-179 | once all calls have returned, the gauges are certain to list the current backends if and only if the snapshot they show read the latest list |
| `MonitorRuns.GaugesAreCurrentIff` | internal/monitor/monitor.go:144-180 | ... and to show the current statuses if and only if it read the latest list and the latest statuses, or there never was a list |
| `MonitorRuns.RemovedBackendLingers` | internal/monitor/monitor.go:171-180 | for every backend a run that ends with no backends, all calls returned and the gauges still showing it |
| `MonitorRuns.ProbeReplacesAll` | internal/monitor/monitor.go:275-306 | a cycle stores the verdicts on the backends it began with and forgets all others; one that begins without backends stores nothing |
| `MonitorRuns.StatusStoreKeepsOthersIff` | internal/monitor/monitor.go:198-207 | setting one status leaves the others alone if and only if they are as they were when the call copied them |
| `MonitorRuns.StatusUpdateCanBeLost` | internal/monitor/monitor.go:198-207 | two statuses set at the same time for different backends, the first of them lost |
| `LineChart.Range` | webapp/src/features/dashboard/lineChart.ts:28-33 | least and greatest time, both taken by some point |
| `LineChart.Buckets` | webapp/src/features/dashboard/lineChart.ts:37-40 | consecutive minutes from the first to the last bucket |
| `LineChart.Tally` | webapp/src/features/dashboard/lineChart.ts:46-56 | each value is the sum of the counts of the points in its minute |
| `LineChart.BuildLineChartModel` | webapp/src/features/dashboard/lineChart.ts:18-59 | consecutive minutes that cover every point and start and end at one, and for every backend per category the queries of the minute that starts there, which add up to its query counts; nothing for no points |
| `LineChart.SeriesConservesQueries` | webapp/src/features/dashboard/lineChart.ts:46-56 | each backend's series adds up to its input query counts |

## Left out

- HTTP, gRPC, LDAP, OIDC and SQL transport, headers, timeouts, tracing and logging: upstream replies, probe answers, backend lists and failures are inputs.
- The request handlers as sequential code: `handleStatement`, `handleStream` and `Route` are the step sequences of `Gateway`, since what they promise is about interleavings.
- The KILL QUERY pattern: the extracted id is part of the request.
- The LRU library is a recency-ordered bounded list; `remove` is not modelled, as no handler calls it.
- HMAC, base64url and JSON codecs: any signing function, and decoded values; errors of signing and encoding.
- ReadsUnits: the suffixes that only Go's own durations know, such as the one with a Greek letter, and numbers with several units; a cookie never carries them.
- Expression and Starlark programs: a provider is any function to decided, deferred or failed; a panic counts as failed.
- The config file, its hash and the debounce timer: a reload reads, parses and builds with any outcome.
- Whether the file parsed by a reload is the one that was hashed: the code reads it twice.
- SetBackends: its contract, like those of SetBackendStatus and Probe, is for one caller at a time; interleaved callers are in `MonitorRuns`.
- Probe: the backend list may be replaced during a cycle, which is in `MonitorRuns` and not in this contract.
- The decimal text of a TTL: a written TTL is kept as an integer, or as hundredths and a suffix, and float rounding is exact rounding to the nearest hundredth with halves to even.
- Truncation of TTLs at 64 bits and the cookie's Max-Age attribute.
- SQL text outside ASCII: letters fold as in ASCII, which is all the scanner puts into bare words, and default names are trimmed of ASCII blanks only.
- Sorting of the analysis result: its lists are sets.
- WithReportsMainKeyword: parentheses are counted by token text, as in the code, so a body that holds a quoted identifier spelled as a parenthesis has to balance with it.
- TargetIsReportedIff: targets with a bare part spelled like an anchor are excluded, because the scan takes that part for an anchor.
- ExtractReadsBack: first parts and bare aliases spelled as punctuation are excluded, because the code compares punctuation by text also for quoted tokens.
- ConfigRoundTrip: type and refresh hold no newline, because a type is a registered name and a refresh a printed duration.
- Reading the source file of a method: the parser's answer names the file.
- Sharing inside a decoded JSON document: decoding never produces it.
- Time-zone formatting of chart labels: a category is the start of its minute.
- Admin handlers, authentication, UI collectors, migrations, generated code and React components: plumbing around the modelled core.

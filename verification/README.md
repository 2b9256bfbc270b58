# City builder orchestration, modelled in Dafny

This project models the core of a web application. A user types a request for a city. A server-side
orchestrator then plays a scripted "team" of generative models:

- An architect call produces a plan of phases and buildings. The plan is pulled out of the reply text
  and decoded. If decoding fails, a fixed fallback plan takes its place.
- Scripted database, backend and frontend stages follow, and then the construction loop. The loop
  stores one building per planned entity, phase by phase, with narration around each one.
- A final QA call reviews the work, and the project is marked completed.

Throughout the run the project's status, the five role tasks and an append-only communication log are
written to a MySQL store. An error in the run is rethrown, after marking the project failed unless the store rejects that write too. The router procedures
guard every project behind a not-found and ownership check. The home page and the 3D view poll the
store and show progress, phase, tallies and one mesh per building.

The modules follow the program's files:

| module | file | what it holds |
|---|---|---|
| `Wrappers`, `Errors` | shared | `Option`, `Result`, and the errors the code throws |
| `Schema` | drizzle/schema.ts | the enumerations and the row types |
| `JsonValue` | — | decoded JSON, with JavaScript's `undefined`, truthiness and `\|\|` |
| `Extraction` | server/llmOrchestrator.ts, server/routers.ts | the two regular expressions that pick the text handed to `JSON.parse` |
| `Plan` | server/llmOrchestrator.ts | the fallback plan, the plan choice, `totalBuildings`, and the `createBuilding` record with its defaults |
| `Orchestrator` | server/llmOrchestrator.ts | `processPrompt` as a script of store writes, the store that may reject writes, and an imperative driver that keeps its loops |
| `Execution`, `RunProperties`, `Runs` | server/llmOrchestrator.ts | what a run leaves in the store and what its caller sees |
| `Db` | server/db.ts | the store helpers over an in-memory store |
| `Routers` | server/routers.ts | the `city` procedures |
| `Home` | client/src/pages/Home.tsx | the start form, progress bar, phase list and statistics |
| `CityView` | client/src/components/CityVisualization.tsx | the mesh bookkeeping that follows the polled building list |

These outside effects become parameters:

- The generative backend is `llm: Prompt -> Option<string>`. `None` is a call that throws.
- `JSON.parse` is `decode: string -> Option<Json>`. `None` is a parse that throws.
- The clock is a `now: int` argument.
- The store's failures are a `Store` value: it is unavailable, or the write attempts at given indices are rejected.

## Model

| member | source | states |
|---|---|---|
| Schema.ParseLifecycle | drizzle/schema.ts:29 | Reading a stored status back gives the value of that name. A string outside the four statuses gives no status. |
| Schema.ParseTaskRole | drizzle/schema.ts:65 | Reading a stored role back gives the role of that name. A string outside the five roles gives no role. |
| Schema.ParseUserRole | drizzle/schema.ts:12 | Reading a stored user role back gives the role of that name. A string other than `user` and `admin` gives no role. |
| Schema.EnumNamesRoundTrip | drizzle/schema.ts:12-68 | Every status, task role and user role survives a store-and-read round trip, so the stored names are distinct. |
| JsonValue.Access | server/llmOrchestrator.ts:288 | A property read throws a TypeError exactly on a null or undefined receiver, which is exactly where optional chaining yields `undefined` instead. On every other receiver the plain read and the optional read give the same value. |
| JsonValue.ToStringThrowsCases | server/llmOrchestrator.ts:534 | Converting a decoded value to a string fails only through an object's own `toString` key, reached directly or through array elements, never for a primitive or through a nested object. `v \|\| d` with a convertible default fails exactly when `v` does. |
| JsonValue.OrDefaults | server/llmOrchestrator.ts:549-555 | `v \|\| d` is truthy exactly when `v` or `d` is. Applying the same default twice changes nothing, and chained defaults regroup: `(v \|\| d) \|\| e` is `v \|\| (d \|\| e)`. |
| JsonValue.Utf16LengthBounds | server/llmOrchestrator.ts:288 | A string's `length` counts UTF-16 code units: one or two per character, and exactly one per character of the Basic Multilingual Plane. |
| JsonValue.AstralLength | server/llmOrchestrator.ts:288 | A one-character emoji has `length` 2. |
| Extraction.MatchAt | server/llmOrchestrator.ts:215 | From a given start, the fenced pattern's group ends at the last `}` that whitespace and a closing fence follow, or the pattern does not match there at all. |
| Extraction.FirstFenceFrom | server/llmOrchestrator.ts:215 | The reported start is the leftmost one at which the fenced pattern matches. No earlier start matches. |
| Extraction.FencedSpan | server/llmOrchestrator.ts:215 | The reported fenced match is the leftmost-start, greedy-end group. There is none exactly when no start and end satisfy the pattern. |
| Extraction.BareSpan | server/llmOrchestrator.ts:216 | The bare pattern matches from the first `{` to the last `}`. It fails exactly when no `}` follows any `{`. |
| Extraction.CandidateShape | server/llmOrchestrator.ts:215-217 | The text handed to the decoder is the whole reply, or a slice of it from a `{` to a later `}`. A reply with no `}` after a `{` goes to the decoder whole. |
| Extraction.Candidate | server/llmOrchestrator.ts:215-217 | The text handed to the decoder is never longer than the reply. `Extraction.CandidateShape` states which slice it is. |
| Extraction.BareBraceRule | server/llmOrchestrator.ts:216-217 | Without a fenced match, the candidate is exactly the first-`{`-to-last-`}` span when the `}` comes later, and otherwise the whole reply. |
| Extraction.FencedGroupUnique | server/llmOrchestrator.ts:215 | At most one fenced match is reported. |
| Extraction.FencedRoundTrip | server/llmOrchestrator.ts:215-217 | An object fenced as a `json` block is recovered exactly. This holds after any backtick-free prose, including prose with braces the bare pattern would take, and before any text with no `}`. |
| Extraction.BareRoundTrip | server/llmOrchestrator.ts:216-217 | A bare object between brace-free, backtick-free prose is recovered exactly. |
| Plan.ParsePlan | server/llmOrchestrator.ts:214-280 | The plan is never validated: it is the decoded candidate whenever the decoder accepts the candidate text, of any shape, and the fallback plan exactly when the decoder throws. `Plan.FencedPlan` and `Plan.BarePlan` close the round trip from a reply. |
| Plan.FencedPlan | server/llmOrchestrator.ts:214-220 | A plan fenced as a `json` block after backtick-free prose is decoded from exactly the fenced text. It is kept when that text decodes and replaced by the fallback only when it does not. |
| Plan.BarePlan | server/llmOrchestrator.ts:214-220 | A bare plan between brace-free, backtick-free prose is decoded from exactly its own text, and kept whenever that text decodes. |
| Plan.PhaseCount | server/llmOrchestrator.ts:288 | A phase's term throws a TypeError exactly when the phase is nullish or its `buildings?.length \|\| 0` cannot be converted by `sum + …` (an object with its own `toString`). An array of buildings contributes its length, a string its UTF-16 length, and a missing list contributes 0. |
| Plan.ReducedPlanLogs | server/llmOrchestrator.ts:282-288 | A plan whose total reduces has a phase count the log line at 282 can print. The line throws for a nullish plan and for a `phases.length` that cannot be converted. |
| Plan.SumCounts | server/llmOrchestrator.ts:288 | The reduction throws a TypeError exactly when some phase's term does. |
| Plan.TotalBuildings | server/llmOrchestrator.ts:288 | The total is a TypeError on a nullish plan and 0 when `phases` is missing. It is a TypeError when `phases` is present but not an array, and otherwise the sum over the array. |
| Plan.TotalMatchesEntities | server/llmOrchestrator.ts:288 | When every phase is present and its list is an array or missing, the total equals the number of entities the construction loop visits. |
| Plan.BuildingFieldsOf | server/llmOrchestrator.ts:545-556 | The stored record passes a truthy value through unchanged for width, height, depth, colour and all three coordinates. A falsy one becomes the default: 3 for width and depth, 8 for height, 0 for x, y and z, `#3b82f6` for colour. Size and colour are therefore always truthy. |
| Plan.Materialize | server/llmOrchestrator.ts:517-556 | A plan's records are one per visited entity, in phase order and then entity order. |
| Plan.EntityMaterializes | server/llmOrchestrator.ts:545-556 | An entity written out in llmOrchestrator.ts never makes a narration throw. Its record keeps its values, with the size and colour defaults applied. |
| Plan.FallbackEntitiesInOrder | server/llmOrchestrator.ts:221-279 | The fallback plan visits exactly its written-out entities, phase by phase. |
| Plan.FallbackPhaseNumbers | server/llmOrchestrator.ts:223-278 | The fallback phases are numbered 1 to 5, in order. |
| Plan.FallbackPhaseSizes | server/llmOrchestrator.ts:223-278 | The fallback plan has five phases, of 4, 6, 6, 5 and 3 entities. |
| Plan.FallbackTotal | server/llmOrchestrator.ts:221-279 | The fallback plan totals 24 entities, not the 50 the architect prompt asks for. Its lists are arrays, and its total reduces to 24. |
| Plan.FallbackKinds | server/llmOrchestrator.ts:223-278 | Every fallback entity is typed park, commercial, residential or office. |
| Plan.FallbackMaterializes | server/llmOrchestrator.ts:221-279 | No fallback entity makes a narration throw, and the fallback records are the entities' own values, in order. |
| Plan.DecodedPlanKeptUnvalidated | server/llmOrchestrator.ts:214-218 | Any value the decoder accepts is kept as the plan rather than replaced by the fallback. When its phase lists are arrays, its total is the number of entities the construction loop visits. |
| Plan.OneEntityPlanKept | server/llmOrchestrator.ts:214-218 | A decoded one-phase, one-entity plan, far from the 50 the prompt asks for, is kept and totals 1. |
| Orchestrator.CreateTaskWrite | server/llmOrchestrator.ts:42-53 | A new task is created in progress, with its description as its input and the agent's label as its model. Over a whole run, `RunProperties.ScriptTaskWrites` and `Runs.RunTaskWrites` show no task write ever leaves this form. |
| Orchestrator.CompleteTaskWrite | server/llmOrchestrator.ts:55-57 | Completing a task stores the output, and stores as code the generated code if non-empty, else the output. A non-empty output therefore always leaves non-empty code. `Runs.RunTaskWrites` shows tasks are only ever completed. |
| Orchestrator.TryBlock | server/llmOrchestrator.ts:65-642 | The try block returns only after the architect call answered, and a failed architect call ends it with that call's error. Its full shape is stated by `RunProperties.ScriptShape` and `RunProperties.ScriptEnding`. |
| Orchestrator.Catch | server/llmOrchestrator.ts:644-651 | The catch block always rethrows. It adds the `failed` status exactly when the store accepts that write, and then the original error escapes. When that write is rejected, the rejection escapes instead. |
| Orchestrator.FoldPrefix | server/llmOrchestrator.ts:65-643 | Playing the try block's writes against a store keeps a prefix of them, and all of them when none is rejected. |
| Orchestrator.Execute | server/llmOrchestrator.ts:59-651 | A run succeeds only when the try block returns, and then reports its totals. What it stores is a prefix of the try block's writes, possibly followed by the `failed` status. |
| Orchestrator.BuildEntities | server/llmOrchestrator.ts:528-567 | The inner loop leaves the store as the reference entity block does. It stops at the first entity whose narration throws: at line 534 before any write, or at line 542 on the colour after two narrations. |
| Orchestrator.BuildPhase | server/llmOrchestrator.ts:518-573 | One phase leaves the store as the reference phase block does, and throws exactly when it does, including at line 522 on a nullish phase or an unconvertible number, name or count. |
| Orchestrator.Construct | server/llmOrchestrator.ts:517-574 | The outer loop leaves the store as the reference construction block does, and throws exactly when it does, at any of the narrations of lines 522, 534 and 542. |
| Orchestrator.ConstructAndReview | server/llmOrchestrator.ts:517-642 | Played on from the scripted stages, the construction loop and QA review give the run the reference semantics assign to the rest of the try block. |
| Orchestrator.ProcessPrompt | server/llmOrchestrator.ts:59-652 | The imperative driver, with its loops and early exits, produces exactly the reference run: the try block's script played against the store, then the catch block. |
| Execution.FoldShape | server/llmOrchestrator.ts:65-643 | Playing the try block keeps exactly the writes before the first rejected one, and records whether a rejection happened. |
| Execution.ExecuteFacts | server/llmOrchestrator.ts:65-651 | A run succeeds exactly when the try block returns and every write is accepted, and then it has made all of them. Otherwise, with n the writes before the first rejection, it keeps those n writes. It appends `failed` exactly when the catch block's own attempt is accepted, and then rethrows the store's error for the rejected write, or the try block's own error when nothing was rejected. If that attempt is rejected too, the store's error escapes. |
| Execution.ExecuteShape | server/llmOrchestrator.ts:65-651 | A run succeeds exactly when the try block returns and every write is accepted. Otherwise it keeps a prefix of the writes, possibly followed by `failed`, and rethrows. |
| Execution.StoreDown | server/llmOrchestrator.ts:644-651 | With the store unavailable, the first write throws and so does the catch block's. Nothing is written, and "Database not available" escapes. |
| Execution.Reliable | server/llmOrchestrator.ts:638-651 | Against a store that accepts everything, a returning try block succeeds with all its writes. A throwing one leaves its writes plus `failed`, and rethrows its own error. |
| Execution.SingleRejection | server/llmOrchestrator.ts:644-651 | One rejected write keeps the writes before it, then `failed`, then rethrows the rejection. |
| Execution.CatchRejected | server/llmOrchestrator.ts:649-650 | When the `failed` write is itself rejected, its error escapes instead of the original one. |
| RunProperties.BuildingThrown | server/llmOrchestrator.ts:533-542 | An entity's block throws exactly when a narration about it does. Line 534 throws, with nothing written, on a nullish entity, position or size, or on a name, type, x, z or size that cannot be converted to a string (an object with its own `toString`, or an array holding one). Line 542 throws on such a colour after the first two narrations. It writes narrations and buildings only. |
| RunProperties.UnconvertibleName | server/llmOrchestrator.ts:533-534 | An entity whose name is an object with its own `toString` throws before any of its writes. |
| RunProperties.UnconvertibleColor | server/llmOrchestrator.ts:533-542 | An entity whose colour cannot be converted leaves the narrations of lines 533 and 537, then throws before its building is created. |
| RunProperties.UnconvertiblePhase | server/llmOrchestrator.ts:521-522 | A phase whose number cannot be converted throws before its opening narration. |
| RunProperties.PhaseThrown | server/llmOrchestrator.ts:518-572 | A phase throws exactly when its opening does (a nullish phase, or a number, name or `buildings?.length \|\| 0` that cannot be converted, line 522) or a narration about one of its entities does. |
| RunProperties.ConstructionThrown | server/llmOrchestrator.ts:517-574 | The construction loop throws exactly when some phase does. |
| RunProperties.ConstructionViews | server/llmOrchestrator.ts:517-574 | The buildings the loop stores are a prefix of the plan's records in order, and all of them when it does not throw. |
| RunProperties.ConstructionQuiet | server/llmOrchestrator.ts:517-574 | The construction loop writes no status and creates or completes no task. |
| RunProperties.ConstructionSafe | server/llmOrchestrator.ts:517-574 | When no phase's opening and no entity's narration throws, the construction loop runs to its end. |
| RunProperties.ScriptShape | server/llmOrchestrator.ts:65-642 | Whatever the replies, the try block stops at one of five cut points when it throws. When it returns, it has written every stage in order, and the construction loop did not throw. |
| RunProperties.ScriptEnding | server/llmOrchestrator.ts:199-642 | A failed architect call is rethrown. A plan whose log line at 282 throws (a nullish plan, or a `phases.length` that cannot be converted) is a TypeError. A return reports the reduced total and the plan's phase count. |
| RunProperties.ScriptTaskWrites | server/llmOrchestrator.ts:42-57 | Whatever the replies, every task starts in progress with its description as input, and is only ever marked completed. |
| RunProperties.ScriptStatuses | server/llmOrchestrator.ts:66-631 | The statuses written are a prefix of architect, database, backend, frontend, qa, completed. All six are written when the block returns, and at most the five in-progress steps when it throws. |
| RunProperties.ScriptRoles | server/llmOrchestrator.ts:132-588 | The tasks created are a prefix of the five roles in order, and all five when the block returns. |
| RunProperties.ScriptCompletions | server/llmOrchestrator.ts:207-620 | Tasks are completed in creation order, and all five when the block returns. |
| RunProperties.ScriptBuildings | server/llmOrchestrator.ts:517-574 | The buildings created are a prefix of the plan's records, and all of them when the block returns. None are created without an architect reply. |
| Runs.RunStatuses | server/llmOrchestrator.ts:66-651 | Against any store, the project's status history is a prefix of the success history, possibly followed by `failed`. It is the whole success history when the run returns. `Runs.RunFailedMark` says exactly when `failed` is appended. |
| Runs.RunFailedMark | server/llmOrchestrator.ts:644-651 | A failed run's status history ends in `failed` exactly when the store accepts the catch block's write. |
| Runs.FailedMarkIff | server/llmOrchestrator.ts:644-651 | For any try block whose statuses are a prefix of the success history, a failed run ends in `failed` exactly when the catch block's write is accepted. |
| Runs.RunCompleted | server/llmOrchestrator.ts:631-651 | The project is marked completed exactly when the run returns. |
| Runs.RunTasks | server/llmOrchestrator.ts:132-620 | Tasks are created and completed in role order, and all five when the run returns. |
| Runs.RunTaskWrites | server/llmOrchestrator.ts:42-57 | No task is ever marked failed, even when the run fails. |
| Runs.RunBuildings | server/llmOrchestrator.ts:517-574 | The buildings stored are a prefix of the plan's records, and all of them when the run returns. |
| Runs.RunReport | server/llmOrchestrator.ts:638-642 | A returning run reports the plan's phase count and its reduced total. That total is the number of buildings stored whenever every phase's list is an array. |
| Runs.StoreDownRun | server/llmOrchestrator.ts:644-651 | With the store down, nothing is stored and "Database not available" is rethrown. |
| Runs.FirstWriteRejected | server/llmOrchestrator.ts:66-651 | With the store up but the kickoff's status write rejected, only the `failed` status is stored and the rejection is rethrown. |
| Runs.ArchitectDown | server/llmOrchestrator.ts:199-204 | When the architect call throws, the kickoff writes are kept, the project is marked failed, and the call's error is rethrown. |
| Runs.NullPlanFails | server/llmOrchestrator.ts:282 | A reply that decodes to `null` does not fall back. The run fails with a TypeError after the architect's task. |
| Runs.UnconvertibleCountFails | server/llmOrchestrator.ts:282-286 | A decoded plan whose `phases.length` cannot be converted throws at the log line, before the `database` status: the run stores the same as for a `null` plan. |
| Runs.ScriptFinishes | server/llmOrchestrator.ts:576-642 | The try block returns once the plan is present, its total reduces, the construction loop completes and the QA call answers. |
| Runs.FallbackFacts | server/llmOrchestrator.ts:221-279 | The fallback plan is present and totals 24 over five phases, and its construction loop completes. |
| Runs.FallbackRun | server/llmOrchestrator.ts:219-642 | When every call answers but no reply decodes, the run stores the fallback plan's 24 buildings in order. It succeeds reporting 24 and 5, with every status and role task of a completed project. |
| Db.SortDesc | server/db.ts:114-119 | The listing order is a permutation of its input, sorted by descending key. |
| Db.UpsertRole | server/db.ts:65-71 | A user is made `admin` only by an explicit role or by having the owner's open id. Without either, the role is left as stored. `Db.UpsertThenRead` shows the role read back afterwards. |
| Db.UpsertValues | server/db.ts:41-75 | The insert always carries a sign-in time, the given one when present. A text column is in the insert exactly when the input names it. |
| Db.UpsertUpdate | server/db.ts:41-79 | The duplicate-key update set is never empty, since an empty one falls back to the sign-in time. A text column is in it exactly when the input names it. |
| Db.UpsertRecords | server/db.ts:41-79 | The insert values and the duplicate-key update set agree on every text column and on the role. A column left out of the input is left out of both. |
| Db.UpsertUser | server/db.ts:31-88 | A missing or empty open id throws before the store is consulted. Without a connection the call returns quietly and writes nothing. It never changes another table. |
| Db.GetUserByOpenId | server/db.ts:90-100 | The lookup finds the user with that open id whenever one is stored, and nothing without a connection. |
| Db.UpsertThenRead | server/db.ts:31-100 | After an upsert the user exists. Its role is the explicit one, else `admin` for the owner, else the role it had (`user` for a new user). Every text column the input names holds the input's value. |
| Db.CreateCityProject | server/db.ts:103-112 | Without a connection creation fails with "Database not available"; otherwise the model store accepts the row. `Db.CreateProjectThenList` and `Routers.CreateThenLoad` read the new project back. |
| Db.CreateProjectThenList | server/db.ts:103-119 | After creation the owner's listing is the old one plus the new row, counted with multiplicity. Every other user's listing is unchanged. |
| Db.GetCityProjectsByUserId | server/db.ts:114-119 | The listing holds exactly the user's projects, newest first, and nothing without a connection. |
| Db.GetCityProjectById | server/db.ts:121-127 | The lookup finds the project with that id whenever one is stored, and nothing without a connection. |
| Db.StatusStep | server/db.ts:129-134 | A status update sets the status, and changes the step only when one is given. No other column changes. |
| Db.UpdateCityProjectStatus | server/db.ts:129-134 | Without a connection the update fails with "Database not available"; otherwise the model store accepts it, and no other table changes. `Db.UpdateStatusThenGet` reads the change back. |
| Db.UpdateStatusThenGet | server/db.ts:121-134 | Reading the project back after a status update gives the old row with the new status and step. A lookup of any other id is unchanged. |
| Db.CreateBuilding | server/db.ts:137-144 | Without a connection creation fails with "Database not available"; otherwise the model store accepts the row. `Db.CreateBuildingThenList` reads the new row back. |
| Db.CreateBuildingThenList | server/db.ts:137-151 | After creation the project's building listing holds the new row and every row it held before, and nothing else. Other projects' listings are unchanged. |
| Db.GetBuildingsByProjectId | server/db.ts:146-151 | The listing holds exactly the project's buildings, and nothing without a connection. |
| Db.CreateLlmTask | server/db.ts:154-161 | Without a connection creation fails with "Database not available"; otherwise the model store accepts the row. `Db.CreateTaskThenList` reads the new row back. |
| Db.CreateTaskThenList | server/db.ts:154-168 | After creation the project's task listing is the old one plus the new row, with no output, code or stamps yet, counted with multiplicity. |
| Db.GetLlmTasksByProjectId | server/db.ts:163-168 | The listing holds exactly the project's tasks, newest first, and nothing without a connection. |
| Db.TaskUpdateEffect | server/db.ts:170-184 | An update sets the status. It stamps the start exactly for `in_progress` and the end exactly for `completed` or `failed`. It replaces output and code exactly when non-empty ones are given, and touches nothing else. |
| Db.TaskStatusPatch | server/db.ts:170-181 | An update never stamps both start and end, stamps with the current time, and only ever writes a non-empty output or code. |
| Db.TaskPatchStampsExclusive | server/db.ts:175-179 | One update never stamps both start and end, and `pending` stamps neither. |
| Db.UpdateLlmTaskStatus | server/db.ts:170-184 | Without a connection the update fails with "Database not available"; otherwise the model store accepts it. It changes only the rows with that id and no other table. `Db.UpdateTaskThenList` reads the change back. |
| Db.UpdateTaskThenList | server/db.ts:163-184 | After a status update the project's task listing shows every task it showed before, the updated one in its new state, and nothing else. |
| Db.CreateCommunicationLog | server/db.ts:187-194 | Without a connection creation fails with "Database not available"; otherwise the model store accepts the entry. `Db.CreateLogThenList` reads the new entry back. |
| Db.CreateLogThenList | server/db.ts:187-201 | After creation the project's log listing is the old one plus the new entry stamped now, counted with multiplicity. |
| Db.GetCommunicationLogsByProjectId | server/db.ts:196-201 | The listing is a permutation of the project's entries, newest first. |
| Db.ListedLogs | server/db.ts:196-201 | An entry is listed exactly when it is stored for that project. |
| Db.LogsNewestFirst | server/db.ts:196-201 | An earlier-listed entry is never older than a later-listed one. |
| Routers.LoadProject | server/routers.ts:68-77 | "Project not found" is reported exactly when the project is absent. Access passes exactly for an anonymous caller, the owner, or a project with the anonymous owner. |
| Routers.GetProject | server/routers.ts:104-121 | `getById` fails exactly as the guard does. Otherwise it returns a stored project with the requested id. |
| Routers.UnauthorizedIff | server/routers.ts:74-77 | "Unauthorized" is reported exactly when a signed-in caller asks for a stored project owned by someone else who is not the anonymous owner. |
| Routers.AnonymousCallerPasses | server/routers.ts:74-77 | An anonymous caller passes the guard on every stored project, whoever owns it. |
| Routers.StoreDownNotFound | server/routers.ts:68-72 | With the store down, every project is reported not found. |
| Routers.OwnerFor | server/routers.ts:40 | A project created without a caller is owned by the anonymous owner 0. Otherwise it is owned by the caller. |
| Routers.CheckInsertId | server/routers.ts:50-54 | A missing or zero insert id is refused as an invalid project id. `Routers.Create` shows the refusal never fires against a store that reports its ids. |
| Routers.Create | server/routers.ts:33-60 | Without a connection `create` fails; otherwise the model store accepts the row, and `create` stores a `pending` project owned by the caller and returns its new id. |
| Routers.CreateThenLoad | server/routers.ts:33-121 | The creator reads back the project just created, with its prompt. Another signed-in user reads it back exactly when it was created anonymously. |
| Routers.StartBuilding | server/routers.ts:63-94 | `startBuilding` fails exactly when the guard does. `Routers.StartIgnoresRun` and `Routers.StartedThoughRunFails` show the answer does not wait for, or depend on, the run it launches. |
| Routers.StartIgnoresRun | server/routers.ts:83-93 | The caller's answer does not depend on the backend, the decoder or the store during the run. |
| Routers.StartedThoughRunFails | server/routers.ts:83-93 | With the store up but rejecting the run's first write, the caller is still told the build started. The run stores only the `failed` status and rethrows. |
| Routers.List | server/routers.ts:97-101 | `list` refuses an anonymous caller, and lists only projects the caller owns. |
| Routers.GetBuildings | server/routers.ts:124-142 | `getBuildings` fails exactly as the guard does. Otherwise it returns exactly the project's buildings. |
| Routers.GetTasks | server/routers.ts:145-163 | `getTasks` fails exactly as the guard does. Otherwise it returns the project's tasks, newest first. |
| Routers.GetLogs | server/routers.ts:166-184 | `getLogs` fails exactly as the guard does. Otherwise it returns exactly the project's log entries, newest first. |
| Routers.SplitJoin | server/routers.ts:215-217 | Lines with no newline, joined with newlines, split back into the same lines. |
| Routers.DebateTextLines | server/routers.ts:215-217 | The debate text has one line per log entry, in listing order, when no field holds a newline. |
| Routers.Summarize | server/routers.ts:203-258 | A failed backend call escapes, and an undecodable reply gives the fixed failure answer. A decoded reply is returned whatever its shape. `Routers.NoEntriesNoCall` and `Routers.FencedSummary` show when the backend is consulted and what is decoded. |
| Routers.NoEntriesNoCall | server/routers.ts:205-212 | Without entries the backend is never consulted. |
| Routers.FencedSummary | server/routers.ts:242-249 | A summary the backend wraps in a `json` fence is decoded from exactly the fenced object. |
| Routers.GenerateDebateSummary | server/routers.ts:187-259 | The summary fails only with the guard's errors or a failed call. `Routers.SharedGuard` shows its guard is the other procedures' guard, and `Routers.QuietProjectSummary` shows the no-data case. |
| Routers.QuietProjectSummary | server/routers.ts:203-212 | A project with no log entries gets the fixed "no data" answer whatever the backend. |
| Routers.SharedGuard | server/routers.ts:104-201 | The guarded procedures of a project all fail together, with the same error, or all pass together. |
| Home.TrimSlice | client/src/pages/Home.tsx:88 | The trimmed text is a slice of the typed text that neither starts nor ends with whitespace, and only whitespace is cut around it. |
| Home.TrimEmptyIff | client/src/pages/Home.tsx:88-93 | The trimmed prompt is empty exactly when the typed prompt is all whitespace. |
| Home.TrimIdempotent | client/src/pages/Home.tsx:88 | Trimming twice is trimming once. |
| Home.CountOf | client/src/pages/Home.tsx:113 | The building count is the length of the polled list, and 0 before the list arrives. |
| Home.Proceed | client/src/pages/Home.tsx:85-99 | A project is requested exactly in auto mode or with a non-blank prompt. It uses the fixed prompt and name in auto mode, and otherwise the trimmed prompt. An empty prompt is refused with a toast. |
| Home.HandleStart | client/src/pages/Home.tsx:101-107 | The start button never creates a project in manual mode, and proceeds in auto mode. `Home.ManualModeGated` shows the dialog is the only way to a manual project. |
| Home.SubmitCode | client/src/pages/Home.tsx:75-83 | Only the access code proceeds, and any other code changes nothing but the toast. `Home.ManualModeGated` states the gate over any sequence of actions. |
| Home.ManualModeGated | client/src/pages/Home.tsx:75-107 | Whatever the user does, in manual mode a project is created only by a submit made while the typed code is the access code. It is then created from the non-empty trimmed prompt. In auto mode only the fixed prompt is sent. |
| Home.ManualStartOpensDialog | client/src/pages/Home.tsx:101-105 | The first click in manual mode only opens the dialog. |
| Home.AutoIgnoresPrompt | client/src/pages/Home.tsx:85-88 | Auto mode sends the fixed prompt whatever was typed. |
| Home.Progress | client/src/pages/Home.tsx:112-114 | Progress lies in 0 to 100, is two points per building below 50 in exact arithmetic, and reaches 100 exactly at 50 buildings. |
| Home.ProgressMonotone | client/src/pages/Home.tsx:112-114 | Progress never decreases as buildings are added. |
| Home.FindPhase | client/src/pages/Home.tsx:125-127 | The phase found is the first one containing the count. None is found exactly when no phase contains it. |
| Home.PhasesPartition | client/src/pages/Home.tsx:117-123 | The display phases are non-empty and contiguous, and cover exactly the counts 0 to 49. |
| Home.CurrentPhase | client/src/pages/Home.tsx:125-127 | Below 50 the current phase contains the count. From 50 on it is the last phase. |
| Home.CurrentPhaseUnique | client/src/pages/Home.tsx:125-127 | Below 50 the current phase is the only one containing the count. From 50 on it is "Public Facilities". |
| Home.ActiveIffCurrent | client/src/pages/Home.tsx:297 | Exactly the current phase is highlighted. |
| Home.CompletedBeforeActive | client/src/pages/Home.tsx:297-298 | Below 50 the ticked phases are exactly those before the active one. From 50 on every phase is ticked, the active last one included. |
| Home.TalliesOf | client/src/pages/Home.tsx:328-342 | No tally exceeds the number of buildings, and a missing list gives three zeros. `Home.TalliesDisjoint` and `Home.TallyAdd` state how they count. |
| Home.TalliesDisjoint | client/src/pages/Home.tsx:328-342 | The three tallies count each building at most once, together counting exactly the buildings of those kinds, and never exceed the total. |
| Home.TallyAdd | client/src/pages/Home.tsx:328-342 | A new building raises exactly the tally of its own type, by one. |
| CityView.MeshFor | client/src/components/CityVisualization.tsx:142-158 | A new mesh passes a non-zero width, depth and height through and replaces a zero by 3, 3 and 10. It keeps a non-empty colour and replaces a missing or empty one by `#10b981`. It takes x and z as stored and stands on the ground at half its height. |
| CityView.MeshIgnoresElevation | client/src/components/CityVisualization.tsx:142-158 | A mesh ignores the stored height above ground, the id and the name. A building of zeros gets the 3 by 10 by 3 default mesh. |
| CityView.FindById | client/src/components/CityVisualization.tsx:180 | The lookup finds a building exactly when the id is listed, and returns one with that id. |
| CityView.FindFirst | client/src/components/CityVisualization.tsx:139-180 | The first building carrying an id is the one the lookup returns for it. |
| CityView.AddMissing | client/src/components/CityVisualization.tsx:139-176 | The first pass gives every listed id without a mesh a new one built from the first building with that id. It keeps every existing mesh. |
| CityView.DropStale | client/src/components/CityVisualization.tsx:179-186 | The second pass deletes exactly the meshes whose id is no longer listed, and keeps the rest unchanged. |
| CityView.SyncMeshes | client/src/components/CityVisualization.tsx:132-187 | Without a scene or a list nothing changes. Otherwise the meshes end keyed by exactly the listed ids, each kept mesh unchanged, as the reference reconciliation says. |
| CityView.ReconciledKeys | client/src/components/CityVisualization.tsx:132-187 | After a sync the meshes are keyed by exactly the listed ids. Old meshes are kept, and new ones come from the first building with that id. |
| CityView.ReconciledIdempotent | client/src/components/CityVisualization.tsx:132-187 | A second sync with the same list changes nothing. |
| CityView.ChangedFieldsIgnored | client/src/components/CityVisualization.tsx:139-176 | A listed building whose fields change keeps its old mesh. |

## Left out

- Narration texts are reduced to sender, receiver and the line of llmOrchestrator.ts that makes the call. Only whether building a text throws is kept (`Plan.NarrationThrows`, `Plan.ColorThrows`, `Plan.PhaseNarrationThrows`). The delays between writes are not modelled. Console logging is not modelled, except the log line at 282, which throws before a write. The other log lines interpolate only values already converted by then.
- The SQL schema, API and Three.js listings stored as generated code are represented by their first lines. Only their being non-empty matters to the task row.
- The architect and QA prompt texts are reduced to the values they interpolate (`Prompt`). The summary prompt's fixed instructions are left out, and only the debate text is passed.
- Replies whose content is not a string are not modelled: the backend yields a `string` or throws.
- The project id is implicit in every write of a run. Task ids in a run are the tasks' creation ordinals, where the code uses the insert id the store reports.
- The store's auto-increment ids are modelled as the table size plus one. The store's `Date` columns are integers.
- In the run, numbers are `real` JSON numbers handed to `createBuilding`. The conversion to the integer columns is not modelled, so a non-integer size from a plan (the fallback's 0.3 road) is not rounded here. `Db` rows carry `int` columns.
- `Plan.CountValue` treats a non-number `length` that converts (only a decoded object can have one) as 0, where JavaScript would concatenate or coerce it. One that cannot be converted throws, as `Plan.PhaseCount` states.
- `getDb`'s lazy connection and its connection errors are a `connected` flag. The MySQL driver, pooling and the real `onDuplicateKeyUpdate` are not modelled.
- The tRPC middleware in server/_core/trpc.ts is not part of this model. `Routers.List` takes a protected procedure to refuse an anonymous caller.
- `setImmediate` is modelled as the run being returned alongside the reply. The two are not interleaved, and the run's logged error is not modelled.
- React state and rendering, query polling, toast display, the Three.js scene, lights, materials and the grow-in animation are not modelled beyond the numbers and maps listed above.
- python/*, test-llm.ts and client/src/lib/constants.ts are not part of this model.
- Db.SortDesc: says nothing about the order of rows with equal timestamps, which the store leaves unspecified.
- Db.GetBuildingsByProjectId: states which rows are listed, not their order, because the query has no `orderBy`.
- Routers.List: states that every listed project is the caller's. The full listing is the one `Db.GetCityProjectsByUserId` states.
- Home.Progress: computes in exact `real` arithmetic where the page uses doubles, so "two points per building" is exact here, while the page shows 14.000000000000002 for 7 buildings.
- Db.UpsertUser: the model store accepts values of any length, so `OpenIdRequired` is its only error. db.ts:81-87 rethrows every insert failure, and MySQL's strict mode rejects an `openId` over 64 characters, an `email` over 320 or a `loginMethod` over 64 (drizzle/schema.ts:8, 10 and 11).
- Db.CreateCityProject: the model store accepts values of any length. It does not model the column widths of drizzle/schema.ts (`name` varchar(255), `text` columns of 64 KB), which MySQL's strict mode enforces by rejecting the insert.
- Db.UpdateCityProjectStatus: the model store accepts a `currentStep` of any length. The store would reject one over the 100 characters of drizzle/schema.ts:30.
- Db.CreateBuilding: the model store accepts a `name`, `type` or `color` of any length. The store would reject one over the widths of drizzle/schema.ts:44-52.
- Db.CreateLlmTask: the model store accepts an `llmModel` or a text of any length. The store would reject one over the widths of drizzle/schema.ts:66.
- Db.UpdateLlmTaskStatus: the model store accepts an output or code of any length. The store would reject one over a `text` column's 64 KB.
- Db.CreateCommunicationLog: the model store accepts a `fromLlm` or `toLlm` of any length. The store would reject one over the 100 characters of drizzle/schema.ts:86-87.
- Routers.Create: `z.string()` lets any name or prompt through, and so does the model store. The store would reject a name over 255 characters or a prompt over 64 KB. Inside a run, any such rejection is one of the failing write attempts a `Store` describes.
- Decoded JSON strings are sequences of Unicode scalar values, so a string holding an unpaired surrogate escape is not represented.
- Db.UpsertRecords: states that the two records agree and which columns they leave out. It does not state the `lastSignedIn` defaults of lines 61-64 and 73-75, which `Db.UpsertValues` and `Db.UpsertUpdate` state.

Where the code departs from what its own text announces, the model follows the code:

- No plan validation exists. A decoded plan of any shape or size is kept. The fallback is used only when decoding throws, and a reply that decodes to `null` makes the run fail with a TypeError.
- The fallback plan has 24 entities, while the architect prompt (server/llmOrchestrator.ts:137 and 179-185) asks for exactly 50 and the home page's progress bar (client/src/pages/Home.tsx:112) divides by 50.
- The server's default building height is 8. Only the 3D view uses 10.
- `upsertUser` returns without writing when the store is unavailable. Every other write helper throws.
- `create`'s insert-id check cannot fail against a store that reports its ids (`Routers.CheckInsertId` states when it would).
- An anonymous caller passes the ownership guard for every project. With the store down, every project is reported "Project not found".

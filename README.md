# PostgreSQL optimisation assistant: a verified model of its core

The assistant asks an LLM to analyse a PostgreSQL schema. It loops with a human
operator over that analysis, and it tests and cleans up the optimisation it
proposes. This project models the deterministic logic between the LLM, the
database and the operator, and proves what that logic promises:

- `SqlUtils` (utils/sql_utils.py). It pulls the bodies of ```` ```sql … ``` ````
  blocks out of an LLM answer, renders the numbered `-- Query i` file, and groups
  schema rows by table.
- `Sql` (sql/sql_agent.py). The `SQLAgent` class: its `_schema` cache, the
  grouping `get_schema` performs, and the way `execute_query` and
  `validate_query` treat errors.
- `Workflow`. The state-graph rules both workflows depend on:
  - a state is a map of fields, and node updates are shallow-merged into it;
  - unconditional edges, plus one routing function per branching node with its
    declared candidate targets;
  - `END`;
  - a pause before the interrupt node, then a resume with caller-supplied fields.
- `Tester` (tester/tester.py). The bounded retry loops of `run_test` and
  `windup`, the in-place updates of the testing nodes, and the tester graph
  with its approval gate.
- `Performer` (performer/performer.py). The analysis and feedback nodes,
  `should_continue`, and the graph as declared. It also holds a revised wiring
  that realises the evident intent.
- `Hip` (hip.py). The script repeats the performer's nodes and graph and
  `save_sql_queries`. It is shown to be the same machine and the same rendering.

External effects are inputs:
- an LLM call is the next element of a scripted sequence of replies
  (`Llm.Reply`, `Performer.Console`, `Tester.Oracle`);
- a database call is the row sequence it fetched or the failure it raised;
- the operator's `input()` lines are a scripted standard input.

Decisions worth knowing:
- The regular expression ```` ```sql\s*(.*?)\s*``` ```` (DOTALL) is modelled
  by where it matches.
  - A match starts at the first "```sql" at or after the scan point.
  - It closes at the first "```" after that opener.
  - The body is the stripped text between them. The two `\s*` consume exactly
    what `strip()` removes.
  - Scanning resumes after the closing fence.
  - `SpansScan` proves this scan yields exactly the non-greedy matches, in order.
- Whitespace is Python's `str.isspace` set, which is also what `\s` matches in
  a `str` pattern.
- The graph library's scheduler is not part of the repository. `Workflow` runs
  one node at a time:
  - when several nodes are due at once, the run stops with `FanOut`;
  - a routing result outside the declared candidates stops it with `RoutingError`;
  - a node result that is not a dict stops it with `InvalidUpdate`;
  - a node that raises stops it with `NodeRaised`;
  - the recursion limit (25 steps) is the fuel of `Execute`/`Continue`.
- Facts about the code that shape the model:
  - performer/performer.py:103 adds an edge from `analyze_database` straight
    to `create_human_readable`;
  - `should_continue` (performer/performer.py:62) routes an approval to `END`;
  - `human_in_loop` (performer/performer.py:53-56) reads the operator's answer
    from standard input, so fields supplied when a run is resumed do not
    carry it;
  - an exhausted retry loop (tester/tester.py:89, :158) stores a fixed error
    text, and the reason of the last failure is only logged.
- tester/tester.py imports a `TestingState` that agentstate/agent_state.py does
  not define. The record is built from the fields tester.py uses: `schema`,
  `execute_query`, `before_exec`, `after_exec`, `results`, `proceed_cleanup`
  and `wind_up`.

## Model

| member | source | states |
|---|---|---|
| Text.Strip | utils/sql_utils.py:25 | `strip()` returns a result with no whitespace at either end, no longer than its input, unchanged if the input is already stripped, and empty exactly when the input is all whitespace |
| Text.StripRemovesOnlySurroundingSpace | utils/sql_utils.py:25 | the result of `strip()` is an infix of the input with only whitespace before it and after it: nothing else is removed, and nothing inside is touched |
| Text.Lower | performer/performer.py:53 | `lower()` keeps the length and lowers exactly the ASCII capitals, leaving every other character as it is |
| Text.DecimalRoundTrip | utils/sql_utils.py:16 | the decimal label `str(i)` of a section reads back as `i`, so distinct block numbers get distinct headers |
| SqlUtils.Spans | utils/sql_utils.py:21 | the matches `re.finditer` yields, found by searching for the next opener and the first fence after it; its contract is `SpansScan` |
| SqlUtils.SpansScan | utils/sql_utils.py:20-21 | the scan yields exactly the pattern's matches: each closes at the first fence after its opener (non-greedy), they come in order of appearance and never overlap, no opener is skipped, and nothing matches after the last one |
| SqlUtils.UnclosedOpenerEndsScan | utils/sql_utils.py:20-21 | when the first opener has no later closing fence, no later opener can match either, so the scan is empty |
| SqlUtils.Body | utils/sql_utils.py:25 | each block body `group(1).strip()` has no surrounding whitespace |
| SqlUtils.BlocksAreStrippedBodies | utils/sql_utils.py:24-26 | there is one body per match, in match order, and every body is stripped |
| SqlUtils.Extracted | utils/sql_utils.py:19-28 | the value `extract_sql_queries` returns; `ExtractSqlQueries` proves its loop computes it, and `ExtractedEmptyIff` states when it is empty |
| SqlUtils.ExtractSqlQueries | utils/sql_utils.py:19-28 | the loop that appends each match's body returns the bodies of all blocks, in order, joined by a blank line |
| SqlUtils.NoOpenerNoBlocks | utils/sql_utils.py:20-28 | text without a "```sql" opener yields no block and the empty string |
| SqlUtils.UnclosedOpenerNoBlocks | utils/sql_utils.py:20-28 | text whose only opener has no later "```" yields no block and the empty string |
| SqlUtils.JoinQueriesEmptyIff | utils/sql_utils.py:28 | `"\n\n".join(parts)` is empty exactly when there are no parts or a single empty one |
| SqlUtils.ExtractedEmptyIff | utils/sql_utils.py:19-28 | `extract_sql_queries` returns a falsy value exactly when it found no block or one empty block |
| SqlUtils.RenderedSnoc | utils/sql_utils.py:14-17 | writing one more block appends one section, numbered right after the previous ones |
| SqlUtils.RenderedSplit | utils/sql_utils.py:14-17 | in the rendering, block `k` sits under header number `first + k`, between the sections before it and the sections after it |
| SqlUtils.RenderedEmptyIff | utils/sql_utils.py:13-17 | the written text is empty exactly when there is no block to write |
| SqlUtils.SavedEmptyIff | utils/sql_utils.py:9-17 | `save_sql_queries` writes nothing exactly when there is no block; a single empty block still gets its "-- Query 1" header even though extraction returns "" for it |
| SqlUtils.Saved | utils/sql_utils.py:7-17 | the text `save_sql_queries` writes; `SaveSqlQueries` proves its loop computes it, and `SavedEmptyIff` and `RenderedSplit` state its shape |
| SqlUtils.SaveSqlQueries | utils/sql_utils.py:7-17 | the `enumerate(…, 1)` loop writes, for the i-th block found by the same pattern as extraction, `"-- Query i\n" + body + "\n\n"`, numbered from 1 with no gap |
| SqlUtils.ColumnsOfMembership | utils/sql_utils.py:69-72 | a column is listed under a table exactly when some row pairs the two |
| SqlUtils.ColumnsOfNonEmptyIff | utils/sql_utils.py:69-72 | a table's column list is non-empty exactly when some row names that table |
| SqlUtils.ColumnsOfAppend | utils/sql_utils.py:69-72 | grouping distributes over concatenation of rows: columns of earlier rows come first |
| SqlUtils.GetSchemaInfo | utils/sql_utils.py:53-78 | a failed fetch is re-raised; otherwise the table keys are exactly the tables some row names, and each table maps to its columns in row order |
| Sql.Described | sql/sql_agent.py:47-50 | each `(table, column, dtype)` row becomes `(table, "column (dtype)")`, in row order |
| Sql.SqlAgent.constructor | sql/sql_agent.py:11-15 | a fresh agent remembers its database and name and has no cached schema |
| Sql.CacheHit | sql/sql_agent.py:33-34 | the `if self._schema` test: a cached schema is used only when it is present and non-empty, since an empty dict is falsy; `SqlAgent.GetSchema` states its effect |
| Sql.SqlAgent.GetSchema | sql/sql_agent.py:32-56 | a truthy cache is returned without querying. Otherwise the database is queried: a failure is re-raised and leaves the cache unchanged, and a success groups the described rows by table (keys exactly the named tables, columns in row order), caches the map and returns it. An empty map is falsy, so it is fetched again next time |
| Sql.ExecuteQuery | sql/sql_agent.py:58-74 | the corrected `execute_query`; no other part of the model calls it. Rows come back exactly when the statement ran, and every failure surfaces as a RuntimeError. The code as written differs in one case: when `get_connection()` (:61) raises a psycopg2 error, `conn` is unbound and `conn.rollback()` (:70) raises UnboundLocalError. Any other failure while connecting still becomes "Execution error: …", as `ExecuteQueryAsWritten` states |
| Sql.Wrap | sql/sql_agent.py:68-74 | the RuntimeError `execute_query` raises for a failure: "SQL Error: …" for a driver error (:71), "Execution error: …" for any other (:74); its contract is `ExecuteQueryErrorsAreWrapped` |
| Sql.ExecuteQueryAsWritten | sql/sql_agent.py:58-74 | `execute_query` as written returns rows exactly when the statement ran; an error escapes as UnboundLocalError exactly when a driver error was raised while connecting |
| Sql.ExecuteQueryErrorsAreWrapped | sql/sql_agent.py:68-74 | a driver error becomes "SQL Error: " + message and any other failure "Execution error: " + message |
| Sql.AsWrittenDiffersOnlyOnConnectError | sql/sql_agent.py:60-71 | the code as written differs from the intended wrapping exactly on a driver error raised while connecting |
| Sql.ConnectErrorEscapesUnwrapped | sql/sql_agent.py:61-71 | as written, a refused connection escapes as UnboundLocalError from `conn.rollback()`, where "SQL Error: …" was intended |
| Sql.ValidateQuery | sql/sql_agent.py:76-84 | `validate_query` is True exactly when EXPLAIN ran; any exception gives False and nothing escapes |
| Workflow.Text | performer/performer.py:9-12 | `state.get(key, "")`: a present text field reads as its stored text, a missing field reads as "", and a non-empty reading means the field is set and truthy |
| Workflow.Merge | performer/performer.py:49 | the shallow merge of a node's returned dict into the state; its contract is `MergeIsShallow` |
| Workflow.MergeIsShallow | performer/performer.py:49 | merging a partial update keeps the keys of both; keys in the update take its values and every other field keeps its value |
| Workflow.Pending | performer/performer.py:102-103 | the nodes due after a step are exactly the named targets of its edges, `END` dropped |
| Workflow.Execute | tester/tester.py:161-174 | runs a node, merges its update, and follows its edges and its route, stopping on a raise, a non-dict result, an undeclared route or the step limit; its contract is the `Execute…` lemmas and the step lemmas below |
| Workflow.Continue | tester/tester.py:176-177 | decides what happens to the nodes due next: complete when none is due, pause when one is an interrupt point, run a single one; its contract is the `Continue…` lemmas below |
| Workflow.Invoke | performance_test.py:61-65 | a first call: the input fields are merged into an empty state and the run begins at the start node; its wiring-level contract is the `Wired…FirstCall` lemmas of each graph |
| Workflow.Resume | tester/tester.py:176-179 | a later call on a paused run: the caller's fields are merged into the saved state and the nodes it paused before run; its contract is `Tester.WiredResume` and the `WiredRevised…` lemmas |
| Workflow.StepUnconditional | tester/tester.py:166-168 | a node with only unconditional edges applies its update and hands on to the targets of those edges |
| Workflow.StepRouted | tester/tester.py:169-173 | a branching node applies its update, and the routing function then sees the updated state; its pick joins the fixed edges' targets |
| Workflow.StepInto | tester/tester.py:176-177 | a single due node that is not an interrupt point runs at once |
| Workflow.ExecutePausesOnlyAtInterrupts | tester/tester.py:176-177 | a run that stops as paused has an interrupt-before node among the nodes due |
| Workflow.ContinuePausesOnlyAtInterrupts | tester/tester.py:176-177 | the same, for a run that begins from a set of due nodes |
| Workflow.ExecuteKeepsKeys | performer/performer.py:49 | merging never drops a field: every key the run started with is still there when it stops |
| Workflow.ContinueKeepsKeys | performer/performer.py:49 | the same, for a run that begins from a set of due nodes |
| Workflow.ExecuteExtendsTrace | tester/tester.py:161-174 | a run extends the trace it was given, by at most one node per step of its budget |
| Workflow.ContinueExtendsTrace | tester/tester.py:161-174 | the same, for a run that begins from a set of due nodes |
| Tester.TestKey | tester/tester.py:39-66 | `run_test` answers under "before_exec" exactly for type "before_exec", and under "after_exec" for any other type |
| Tester.Verdict | tester/tester.py:72-80 | the rows an attempt yields, if any; `VerdictNoneIff` states when it yields none |
| Tester.VerdictNoneIff | tester/tester.py:74-87 | an attempt yields no rows exactly when the LLM raised, replied with nothing, extraction found no block or a single empty one, or execution raised; otherwise it yields the rows execution returned |
| Tester.RetryFrom | tester/tester.py:37-89 | the `while current_try < max_retries` loop from attempt `i` on, for any judgement of attempts; its contract is `RetryFromFirstSuccess` and `RetryFromStartIff` |
| Tester.Retry | tester/tester.py:37-89 | the outcome of the retry loops of `run_test` and of `windup` (tester/tester.py:127-159), judged by `Verdict`; its contract is `RetrySucceedsIff`, and `RunTest` and `TestingState.Windup` are proved to compute it |
| Tester.RetryFromFirstSuccess | tester/tester.py:34-87 | from any attempt on, the loop makes at most `max_retries` = 3 attempts, stops at the first with a result and returns that result, and gives up only when no remaining attempt has one |
| Tester.RetryFromStartIff | tester/tester.py:37-87 | for any judgement of attempts, the loop succeeds exactly when one of the first 3 attempts has a result, and then with the first such attempt |
| Tester.RetrySucceedsIff | tester/tester.py:74-87 | `run_test` and `windup` succeed exactly when one of the first 3 attempts gets a non-empty reply with extractable SQL whose execution returns, and then with the first such attempt |
| Tester.TryOnce | tester/tester.py:72-87 | one pass of the loop ends without a result exactly when the LLM raised, replied with nothing, extraction found no block or a single empty one (two empty blocks join to the truthy "\n\n"), or execution raised; otherwise the result is the rows execution returned |
| Tester.RunTest | tester/tester.py:33-89 | `run_test` returns a one-key dict holding the first successful attempt's rows, or the fixed "Error in testing the schema for {type}: …" text after 3 failures, never an exception; the number of LLM calls equals the attempts the loop makes |
| Tester.AsWritten | tester/tester.py:77-78 | with the executor as written, an attempt replies exactly when the scripted one does, keeps its reply text, and its execution always raises |
| Tester.AsWrittenAlwaysExhausts | tester/tester.py:77-78 | as written, `SQLAgent()` without a configuration (and the missing `execute_queries`) makes every attempt fail, so every retry loop makes 3 attempts and ends in its error text |
| Tester.TestingAgentUpdate | tester/tester.py:16-31 | the dict testing_agent leaves; its contract is `TestingAgentFields` |
| Tester.TestingAgentFields | tester/tester.py:16-31 | without a schema nothing changes, since the KeyError is caught. Otherwise `before_exec` is always set, `after_exec` is set exactly when `execute_query` is truthy, and every other field is unchanged |
| Tester.AnalyzeTestResult | tester/tester.py:91-112 | what analyze_test returns or raises; its contract is `AnalyzeTestFields` |
| Tester.AnalyzeTestFields | tester/tester.py:91-112 | `analyze_test` raises exactly when `before_exec` is missing, because that read is outside the `try`; otherwise it adds `results` (the reply, or the fixed error text when the LLM raises) and keeps every other field |
| Tester.WindupUpdate | tester/tester.py:118-159 | the dict windup leaves; its contract is `WindupFields` |
| Tester.WindupFields | tester/tester.py:118-159 | `windup` changes nothing unless `proceed_cleanup` is truthy; otherwise it adds `wind_up`, holding the first success's rows or the fixed cleanup error text, and keeps every other field |
| Tester.WindupCalls | tester/tester.py:119-127 | `windup` makes at most 3 LLM calls, and none unless `proceed_cleanup` is truthy |
| Tester.TestingState.constructor | tester/tester.py:3 | the state record starts with the caller's fields |
| Tester.TestingState.TestingAgent | tester/tester.py:16-31 | assigning into the state in place leaves exactly the update `TestingAgentFields` describes |
| Tester.TestingState.AnalyzeTest | tester/tester.py:91-112 | the in-place `results` assignment happens exactly when the `before_exec` read does not raise, and a raise leaves the state unchanged |
| Tester.TestingState.Windup | tester/tester.py:118-159 | the in-place retry loop leaves exactly the state `WindupFields` describes and makes exactly the LLM calls `WindupCalls` counts |
| Tester.TesterRoute | tester/tester.py:169-173 | after `human_in_loop` the route is `windup` exactly when `proceed_cleanup` is truthy, and `END` exactly when it is not |
| Tester.TesterGraphWiring | tester/tester.py:161-179 | `TesterGraph`: the run starts at testing_agent, goes on to analyze_test and then to human_in_loop alone; human_in_loop branches to windup or `END` and is the only interrupt point; windup leads to `END`; every target is a declared node |
| Tester.WholeStateReturnIsTheMutation | tester/tester.py:21-27 | merging the whole mutated dict a tester node returns gives that dict: returning the state has the effect of the in-place mutation |
| Tester.WiredFirstCall | tester/tester.py:161-168 | for any node functions, the wiring applies testing_agent's and analyze_test's updates and pauses in front of human_in_loop |
| Tester.WiredFirstCallRaises | tester/tester.py:166-168 | for any node functions, when analyze_test raises the first call fails there, after testing_agent |
| Tester.WiredResume | tester/tester.py:169-174 | for any node functions, resuming at human_in_loop goes on to windup and then `END` when the route picks windup, and ends at once otherwise |
| Tester.FirstCallPausesForApproval | tester/tester.py:161-177 | the first call runs testing_agent then analyze_test and pauses before human_in_loop, holding the tests' results and the analysis |
| Tester.MissingSchemaFailsAtAnalysis | tester/tester.py:91-98 | without a schema, testing_agent changes nothing and analyze_test's read of `before_exec` raises |
| Tester.ResumeCleansUpIffApproved | tester/tester.py:169-177 | a resume runs windup exactly when the merged `proceed_cleanup` is truthy, completes either way, and leaves the state windup's contract gives |
| Tester.FailedCleanupStillCompletes | tester/tester.py:127-159 | when every cleanup attempt fails, the approved run still completes, with `wind_up` holding the fixed error text |
| Performer.AnalysisRequest | performer/performer.py:8-40 | the re-analysis prompt is chosen exactly when `analysis`, `feedback` and `schema` are all non-empty (missing fields read as ""); `query` plays no part in the choice and is passed through; the re-analysis carries the previous analysis and the feedback |
| Performer.AnalyzeDatabase | performer/performer.py:8-49 | one LLM call with the prompt `AnalysisRequest` chooses, returning the update of `analysis` and `feedback`; its contract is `AnalyzeDatabaseFields` |
| Performer.AnalyzeDatabaseFields | performer/performer.py:47-49 | `analyze_database` updates exactly when the LLM replies, and then exactly `analysis` (the reply) and `feedback` (cleared to ""); otherwise the exception escapes. It sends one prompt and reads no input |
| Performer.HumanInLoop | performer/performer.py:52-59 | reads the answer and, after a refusal, the feedback line; its contract is `HumanInLoopFields` |
| Performer.HumanInLoopFields | performer/performer.py:52-59 | `human_in_loop` raises only at end of input. Otherwise its update is `feedback` alone, holding the next line after a declining answer and "" after any other answer, and it is non-empty exactly when the operator declined and typed a non-empty line. It asks for feedback only after a declining answer: it consumes two lines then and one line otherwise. It ignores the state and never calls the LLM |
| Performer.Declines | performer/performer.py:53-55 | the `input().strip().lower() == "no"` test; its contract is `DeclinesIff` |
| Performer.DeclinesIff | performer/performer.py:53-55 | an answer declines exactly when, stripped, it is the letters n, o in either case |
| Performer.PaddedCapitalsDecline | performer/performer.py:53-55 | " NO " declines |
| Performer.AbbreviationDoesNotDecline | performer/performer.py:53-55 | "n" does not decline |
| Performer.ShouldContinue | performer/performer.py:61-62 | `should_continue` picks analyze_database exactly when `feedback` is truthy, and `END` exactly when it is not |
| Performer.ReentryNeedsFreshFeedback | performer/performer.py:52-62 | after human_in_loop, the route goes back to analyze_database exactly when the operator declined and typed a non-empty line, whatever the state held before |
| Performer.AnalysisClearsFeedback | performer/performer.py:49 | the state analyze_database leaves never routes back by itself and never selects the re-analysis prompt |
| Performer.CreateHumanReadable | performer/performer.py:65-92 | one LLM call asking for the current analysis as Markdown, returning the reply's text; its contract is `CreateHumanReadableFields` |
| Performer.CreateHumanReadableFields | performer/performer.py:65-92 | `create_human_readable` never returns a dict. It returns the reply's text as a plain string, or the LLM's exception escapes. It asks for the current analysis to be rendered |
| Performer.DeclaredGraphWiring | performer/performer.py:95-108 | `DeclaredGraph`: the run starts at analyze_database, which leads to both human_in_loop and create_human_readable; create_human_readable leads to `END`; human_in_loop branches only to analyze_database or create_human_readable, `END` not among them, and is the only interrupt point; every target is a declared node |
| Performer.WiredDeclaredFirstCall | performer/performer.py:101-103 | for any node functions, once analyze_database updates, both of its successors are due and the run pauses in front of both |
| Performer.DeclaredFirstCallPausesBeforeBoth | performer/performer.py:95-108 | the first call analyses once and pauses with create_human_readable due alongside human_in_loop, so the report is scheduled before the operator has answered |
| Performer.DeclaredResumeFansOut | performer/performer.py:102-103 | resuming after that pause has two nodes due at once, and the operator's answer is never acted on by itself |
| Performer.DeclaredApprovalHasNoRoute | performer/performer.py:104 | when the operator approves, `should_continue` picks `END`, which is not a declared candidate, and the run stops with a routing error, keeping its state |
| Performer.DeclaredRenderIsNotAnUpdate | performer/performer.py:92 | where create_human_readable runs, its plain-string result is not a state update and the run stops there |
| Performer.RevisedRoute | performer/performer.py:61-62 | the corrected routing goes back to analyze_database exactly on truthy feedback, and on to create_human_readable exactly otherwise |
| Performer.RevisedRouteIsDeclared | performer/performer.py:104 | the corrected routing always picks a declared candidate; the original picks one exactly when the feedback is truthy |
| Performer.RevisedRenderFields | performer/performer.py:86-92 | the corrected render asks the same question and consumes the same reply, but returns an empty update where the original returns the text |
| Performer.WiredRevisedFirstCall | performer/performer.py:101-102 | for any node functions, the corrected wiring applies analyze_database's update and pauses in front of human_in_loop alone |
| Performer.WiredRevisedFeedback | performer/performer.py:102-104 | for any node functions, a resume whose route goes back runs human_in_loop and analyze_database, then pauses again |
| Performer.WiredRevisedApproval | performer/performer.py:104-105 | for any node functions, a resume whose route goes on runs human_in_loop, then create_human_readable, then completes |
| Performer.RevisedFirstCall | performer/performer.py:95-108 | with the corrected wiring, the first call analyses once and pauses in front of human_in_loop |
| Performer.RevisedFeedbackRound | performer/performer.py:52-62 | declining with feedback runs a new analysis whose prompt is built from the merged state, then pauses again |
| Performer.RevisedApprovalRound | performer/performer.py:65-92 | approving renders the current analysis and completes, keeping the state |
| Performer.DriverAnswers | performance_test.py:37-41 | the driver's "no" declines and its "yes" does not |
| Performer.AnalysisRedone | performer/performer.py:49 | a second analysis leaves the state a single analysis of the input would have left |
| Performer.ApprovalKeepsAnalysis | performer/performer.py:59 | approving clears an already cleared feedback, so the analysed state stands |
| Performer.FeedbackReachesPrompt | performer/performer.py:25-31 | after the first analysis and the operator's feedback, the next prompt is a re-analysis carrying both, with the original query and schema |
| Performer.SecondCallReanalyses | performance_test.py:37-39 | declining with feedback: the re-analysis pauses again, having sent the previous analysis and the feedback |
| Performer.ThirdCallCompletes | performance_test.py:40 | approving: the report is asked for from the current analysis and the run completes |
| Performer.FirstTwoCalls | performance_test.py:37-39 | the first call analyses and pauses; the second re-analyses with the feedback and pauses |
| Performer.DeclineThenApprove | performance_test.py:37-41 | with the answers "no", a feedback line, "yes" and the corrected wiring, analysis runs exactly twice (the second time with the first analysis and the feedback in its prompt), the report is rendered from the second analysis, and the run completes |
| Hip.SameAsPerformer | hip.py:25-125 | hip.py compiles the same graph as performer.py (hip.py:112-125 against performer/performer.py:95-108), so every Performer result holds for it. The node and routing functions are shared by construction, because hip.py:25-109 repeats performer.py's text; the lemma does not prove them equal |
| Hip.FirstCallPausesBeforeBoth | hip.py:118-125 | hip.py's first call pauses with human_in_loop and create_human_readable both due, and a resume then has two nodes due at once |
| Hip.SavedNumbersFromOne | hip.py:131-141 | hip.py's `save_sql_queries` puts block `k` (0-based) under "-- Query k+1", after the sections of the blocks before it and before the sections of the blocks after it |

## Left out

- Prompt wording and the LLM itself (llm/llm.py): a call is represented only by its scripted reply or exception.
- The psycopg2 driver: connecting, executing, committing, rolling back and closing. Each database call is given the rows it fetched or the failure it raised.
- The graph library's internals: checkpointing (`MemorySaver`), `stream`, `get_state`, and thread ids. Superstep scheduling of several due nodes is not modelled either; such a run stops with `FanOut`.
- Workflow.Execute: the recursion limit is the fuel bound, and its exact error text is not modelled.
- File reads and writes: `performance_queries.json`, `REPORT.md`, `TEST.md` and `sql_queries.sql`. `save_sql_queries` is modelled as the text it would write.
- Blocking `input()` calls. They read from a scripted standard input, and end of input raises.
- Logging throughout.
- app.py (the Streamlit UI), testing.py, feedback/human_in_loop.py and the script tail of hip.py: they are not part of this model.
- performance_test.py streams the declared graph once and never resumes it. `DeclaredFirstCallPausesBeforeBoth` shows that this single call stops before its answers are read. `DeclineThenApprove` states the evidently intended session, with resumes, on the corrected wiring.
- Text.Lower: only ASCII capitals are lowered. No other character lowers to "n" or "o", so which answers decline is unaffected.
- Tester.RunTest: the schema and optimised queries only shape the prompt, so they are not parameters.
- SqlUtils.GetSchemaInfo and Sql.SqlAgent.GetSchema: the schema is a map, so the key order of the Python dict is not modelled. That order only shapes how the schema is printed into prompts, which are abstracted.
- Sql.SqlAgent.constructor: requires a "database" entry, since the source's log line reads `db_config['database']` and raises KeyError without it.
- Performer.CreateHumanReadableFields: the report file written is not modelled, only the value returned.

## Findings

| source | as written | input that shows it | evidently intended | confidence | as-written member | corrected member |
|---|---|---|---|---|---|---|
| performer/performer.py:104 | `should_continue` returns `END` on approval, but the declared candidates are analyze_database and create_human_readable | an operator answer "yes" at human_in_loop | approval routes to create_human_readable, which then leads to `END` | not executed | Performer.DeclaredApprovalHasNoRoute | Performer.RevisedRouteIsDeclared |
| performer/performer.py:102-103 | analyze_database has edges to both human_in_loop and create_human_readable, so the report is due before the operator answers | any first call whose analysis succeeds | analyze_database leads to human_in_loop alone | not executed | Performer.DeclaredFirstCallPausesBeforeBoth | Performer.RevisedFirstCall |
| performer/performer.py:92 | create_human_readable returns the reply's text, not a partial-state dict | any run that reaches create_human_readable with a reply | return a dict (here an empty update) after writing the report | not executed | Performer.DeclaredRenderIsNotAnUpdate | Performer.RevisedRenderFields |
| tester/tester.py:77-78 | `SQLAgent()` is called without its required `db_config`, and the agent has no `execute_queries`, so executing always raises and the exception is absorbed as a failed attempt | an LLM reply holding a valid ```` ```sql ```` block | construct the agent with its configuration and execute the extracted SQL | not executed | Tester.AsWrittenAlwaysExhausts | Tester.RunTest |
| sql/sql_agent.py:70 | when `get_connection()` raises a psycopg2 error, `conn` is unbound and `conn.rollback()` raises UnboundLocalError | a refused connection (psycopg2.OperationalError) | wrap it as RuntimeError("SQL Error: …") | not executed | Sql.ConnectErrorEscapesUnwrapped | Sql.ExecuteQuery |

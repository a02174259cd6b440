# claudeAPILayer core, modelled in Dafny

claudeAPILayer puts an HTTP API in front of the `claude` command-line agent. This
project models the three parts of it that hold the logic:

- **The CLI client** (`core/claude_client.py`), in module `ClaudeClient` (`client.dfy`):
  - the argument vector `_build_command` produces;
  - how `query` turns the ended process into a `ClaudeResponse` or an exception;
  - how the `query_stream` read loop turns output lines into `StreamChunk`s.

  The process itself is an input: either a timeout, or an exit code with stdout and stderr. For the stream it is the sequence of lines read, and how reading ended.
- **The evolution loop** (`api/routes/evolve.py`), in module `Evolve` (`evolve.dfy`):
  - the in-memory task table;
  - `start_evolution` and `get_evolution_status`, including the 404;
  - the `run_evolution` loop of analyze → implement → [test → [fix]] → evaluate over up to `max_iterations` iterations.

  The agent is an oracle. `agent(j)` is its reply to the `j`-th query, either a result or an exception. Each query is logged with its phase, the session it resumes, its tools and its turn limit.
- **The session store** (`core/session_manager.py`), in module `Sessions` (`sessions.dfy`):
  - the sessions table, a map from id to row, which the methods update in place;
  - the messages table, an append-only sequence.

  Each store operation is a method of `SessionManager`, with pure specification functions beside it.

Shared pieces:
- `Json` (`json.dfy`) models decoded JSON values, `Option`/`Result`, and Python truthiness of optional strings.
- `Text` (`text.dfy`) models join/split on a separator with their round trips, ASCII upper-casing, and substring search.

The loops in the source, and the recency ordering the store performs (core/session_manager.py:138, :325), are Dafny `while` loops proved against specification functions:
- `DecodeStream` against `Stream`;
- `TaskRecord.Run` against `EvolveFrom`;
- `OrderByRecency`, a selection loop that stands for the queries' `order_by(last_accessed.desc())`, against the recency order.

The store's other ordering is different. `get_messages` orders by `created_at` ascending (core/session_manager.py:303), and the model does this with `SortByTime`, a pure, stable insertion sort. It is proved ascending and a permutation of its input, and `SortIsStable` proves it keeps table order among equal times.

`BuildCommand` has no loop, like `_build_command`: it appends optional flag pairs under
straight-line conditions, and is proved against the independent description `IsCommandFor`.

Lemmas then state what those functions promise. `max_turns` and `working_directory` are accepted by `_build_command` but never reach the argument vector. `CommandIgnoresTurnsAndDirectory` states this, so the per-phase turn limits the evolution loop asks for have no effect on the command.

## Model

| member | source | states |
|---|---|---|
| ClaudeClient.BuildCommand | core/claude_client.py:56-94 | The vector is binary, `-p`, prompt, `--output-format`, format, then flag/value pairs in builder order. `--resume`, `--allowedTools` (comma-joined), `--append-system-prompt`, `--model` (request model, else the default) and `--fallback-model` each occur iff their condition holds, with exactly that value. |
| ClaudeClient.OptionsDetermined | core/claude_client.py:73-94 | Two ordered flag/value lists that agree on all five optional flags are equal, so the conditions fix the vector uniquely. |
| ClaudeClient.CommandIgnoresTurnsAndDirectory | core/claude_client.py:56-94 | Requests that differ only in `max_turns` and `working_directory` get the same vector. |
| ClaudeClient.StreamCommand | core/claude_client.py:226-238 | The stream vector is the builder's with `stream-json`, plus one trailing `--include-partial-messages` exactly when partial messages are requested. |
| ClaudeClient.PyAdd | core/claude_client.py:179 | Python `+` on JSON values: numbers add and strings concatenate. It fails exactly when the operands are not both integer-like, both strings or both lists. |
| ClaudeClient.ExtractUsage | core/claude_client.py:174-182 | A non-object usage value fails. Otherwise the counters are read with default 0 from `input_tokens`, `output_tokens`, `cache_read_input_tokens` and `cache_creation_input_tokens`, and total is input + output (or the `+` error). |
| ClaudeClient.DecodeReply | core/claude_client.py:151-208 | Timeout gives the timeout error. A nonzero exit gives "Claude CLI failed: " + (stderr or "Unknown error"). Non-JSON stdout is returned as text with session id `session_id or ""`. A JSON non-object fails. An object without "usage" always succeeds with empty token usage; with "usage" it succeeds iff `ExtractUsage` does, its token usage is `ExtractUsage`'s counters and its error is `ExtractUsage`'s. Every success from an object carries that object as raw output, its result (default ""), its session id (default the request's or ""), and no tools. |
| ClaudeClient.ReplyRoundTrip | core/claude_client.py:156-204 | Decoding a well-formed reply object recovers its result, its session id (or the request's, or ""), no tools, and the counters with total = input + output. |
| ClaudeClient.Step | core/claude_client.py:258-309 | One line emits at most one chunk, never an error chunk, tagged with the captured id. It raises iff it is JSON but not an object. Only `init` changes the captured id, and it emits nothing. An object emits a chunk iff its type is text/tool_use/tool_result/result, of the matching kind. A non-JSON line becomes a text chunk and a blank line does nothing. `init` captures its `session_id` (the previous id when absent). A text chunk carries `content` (default ""), a tool_use chunk the `name` and `input`, a tool_result chunk `content`, and `done` carries `result` (default ""). |
| ClaudeClient.InitThreadsSession | core/claude_client.py:249-317 | After an `init` line, and with no other `init` later, the earlier chunks are unchanged and every later chunk carries that init's session id, which is the captured id at the end unless the stream raised. |
| ClaudeClient.DispatchEvent | core/claude_client.py:266-301 | Dispatching a decoded object does what `Step` says for that line. |
| ClaudeClient.ReadLine | core/claude_client.py:261-309 | Handling one line does what `Step` says. |
| ClaudeClient.DecodeStream | core/claude_client.py:249-317 | The loop's chunks and whether it raised equal `Stream`: the read loop, then the timeout error chunk, then the final empty `done`. |
| ClaudeClient.RunEmitsNoError | core/claude_client.py:251-309 | The read loop itself never yields an error chunk. |
| ClaudeClient.RunRaisesIff | core/claude_client.py:265-303 | The loop raises iff some line is valid JSON that is not an object. |
| ClaudeClient.RunKeepsSession | core/claude_client.py:249-309 | Without `init` lines the captured id never changes, and every chunk carries it. |
| ClaudeClient.RunAppend | core/claude_client.py:252-309 | Reading `a + b` is reading `a`, then `b` from the id `a` captured, unless `a` raised. |
| ClaudeClient.BlankLineSkipped | core/claude_client.py:261-263 | Inserting a blank line anywhere leaves the whole stream's output unchanged. |
| ClaudeClient.StreamEnding | core/claude_client.py:311-317 | A stream that does not raise ends with one empty `done` carrying the captured id, preceded by the "Stream timeout" error chunk iff a read timed out. That is the only error chunk. |
| ClaudeClient.StreamWithoutInit | core/claude_client.py:249-317 | Without `init` lines every non-error chunk carries the request's own session id (or None). |
| ClaudeClient.ExampleStream | core/claude_client.py:271-301 | init, text and result lines yield text and `done` tagged with the init's id, then the empty `done`. |
| Evolve.AnyCaseFailureNeedsFix | api/routes/evolve.py:119 | The failure test is case-insensitive: a report containing any word that upper-cases to "FAILED" or "ERROR" (such as "failed", "Error") triggers the fix phase. |
| Evolve.EvolveStep | api/routes/evolve.py:40-171 | While iterations remain and the loop is going, one turn runs one iteration. |
| Evolve.EvolveDone | api/routes/evolve.py:40-168 | Past `max_iterations`, or once stopped or failed, the loop changes nothing more. |
| Evolve.IterationKeeps | api/routes/evolve.py:40-163 | An iteration sets the iteration counter and keeps all earlier changes, tests and queries. It sends between one and five queries. |
| Evolve.IterationReplies | api/routes/evolve.py:62-181 | An iteration fails iff the agent's last reply to it raised, with that message. Every earlier reply was an answer. |
| Evolve.IterationTests | api/routes/evolve.py:97-116 | Without a test command nothing is added to the test results. Otherwise an iteration that does not fail adds exactly one. |
| Evolve.IterationRecords | api/routes/evolve.py:68-163 | An iteration that does not fail records analyze, implement, [fix], evaluate, with fix exactly when the test report contains FAILED or ERROR in any case. |
| Evolve.IterationStops | api/routes/evolve.py:158-168 | A completed iteration ends with an evaluate record. It stops the loop iff that record contains "OBJECTIVE_COMPLETE". |
| Evolve.IterationUnfold | api/routes/evolve.py:62-95 | Once analyze and implement answered, the iteration continues from the state recording both. Implement resumes the analyze session. |
| Evolve.AfterImplementFacts | api/routes/evolve.py:97-168 | After implement: one to three queries, failure iff the last reply raised, a test record iff there is a test command, and on success fix iff needed, then evaluate. |
| Evolve.TestAndEvaluateFacts | api/routes/evolve.py:98-163 | Test, then fix iff the report needs it, then evaluate: one to three queries, failure iff the last reply raised, with its message. On success one test record is added, and the changes are [fix] then evaluate. |
| Evolve.TestAndEvaluateFailure | api/routes/evolve.py:98-181 | The test record is added iff the test query answered, with its report. On failure the raised phase is test, fix or evaluate, test iff the test query raised, and the kept changes are a fix change only when evaluate raised after a fix ran. |
| Evolve.AfterImplementFailure | api/routes/evolve.py:97-181 | After implement, a failure keeps the earlier changes, adds a fix change only when evaluate raised after a fix ran, and keeps the test record exactly when a test command was given and fix or evaluate raised. |
| Evolve.IterationFailureRecords | api/routes/evolve.py:62-181 | A failing iteration keeps the changes of the phases that answered before the one that raised: nothing if analyze raised, analyze if implement raised, analyze and implement if test or fix raised, and a fix too if evaluate raised after one. The test record stays iff there is a test command and fix or evaluate raised. |
| Evolve.EarlyFailureRecords | api/routes/evolve.py:62-95 | A failure in analyze or implement keeps only the analyze change when implement raised, nothing when analyze raised, and no test record. |
| Evolve.LateFailureRecords | api/routes/evolve.py:97-181 | A failure after implement answered keeps analyze and implement, then what the later phases kept. |
| Evolve.EvaluateFacts | api/routes/evolve.py:151-168 | Evaluate sends one query. It records an evaluate change unless it raised, and stops the loop iff the result contains the sentinel. |
| Evolve.IterationFailsBeforeEvaluate | api/routes/evolve.py:151-181 | A failed iteration records no evaluate change. |
| Evolve.EvolveKeeps | api/routes/evolve.py:40-171 | The loop only appends. The iteration counter stays within 1..`max_iterations`, and a loop that neither failed nor met the objective ran every iteration. |
| Evolve.IterationRepliesAgree | api/routes/evolve.py:62-181 | After one iteration from a fully answered state, either every query was answered, or the task failed and only its last query raised, with the recorded message. |
| Evolve.EvolveReplies | api/routes/evolve.py:39-181 | The task fails exactly when the agent's last reply raised, with its message as the error. All earlier replies were answers. |
| Evolve.EvolveCounts | api/routes/evolve.py:68-163 | Without a test command: no test records and three changes per iteration. With one: one test record per iteration. |
| Evolve.EvolveStops | api/routes/evolve.py:158-168 | The loop stops at the first evaluate result containing the sentinel. No earlier evaluate result contains it, and if it was not met, none does. |
| Evolve.IterationSentinel | api/routes/evolve.py:158-168 | Within one iteration, the sentinel can appear only in the last evaluate record, and only when the objective is met. |
| Evolve.EvaluateChains | api/routes/evolve.py:151-156 | Evaluate resumes the test session when there is a test command (skipping a fix), else the implement session. |
| Evolve.TestAndEvaluateChains | api/routes/evolve.py:105-156 | Test resumes implement's session, fix resumes test's, and evaluate resumes test's. |
| Evolve.IterationChains | api/routes/evolve.py:62-156 | Every query of an iteration resumes the session its phase's rule names. Analyze resumes none. |
| Evolve.EvolveChains | api/routes/evolve.py:40-171 | Every query of the whole loop resumes the session its rule names. |
| Evolve.EvaluateWrittenAt | api/routes/evolve.py:151-163 | The evaluate phase only appends, and its change carries the iteration number. |
| Evolve.TestAndEvaluateWrittenAt | api/routes/evolve.py:97-163 | Test, fix and evaluate only append, and every change and test record they add carries the iteration number. |
| Evolve.IterationWrittenAt | api/routes/evolve.py:62-163 | An iteration only appends, and every change and test record it adds carries its iteration number. |
| Evolve.IterationStamped | api/routes/evolve.py:40-163 | An iteration numbered past the counter keeps every record stamped with an iteration between 1 and the counter, with stamps in running order. |
| Evolve.EvolveStamped | api/routes/evolve.py:40-171 | The whole loop keeps every change and test record stamped with the iteration that wrote it: between 1 and the counter, nondecreasing along the lists. |
| Evolve.EvolveFacts | api/routes/evolve.py:23-181 | For a valid request (1..20 iterations), the whole loop from a fresh record satisfies all of the above. This includes that each change and test record carries an iteration number between 1 and the final counter. |
| Evolve.TaskRecord.Run | api/routes/evolve.py:35-181 | The record ends in the state `EvolveFrom` computes. Status is FAILED with the error message on failure, else COMPLETED. `started_at` and `completed_at` are set, and the other fields are unchanged. |
| Evolve.TaskRecord.RunIteration | api/routes/evolve.py:41-168 | The record after the loop body equals `Iteration` applied to the record before. |
| Evolve.TaskRecord.constructor | api/routes/evolve.py:199-210 | A new record is PENDING at iteration 0, with the request's max, objective and path, no changes, tests or error, and no timestamps. |
| Evolve.TaskRegistry.StartEvolution | api/routes/evolve.py:196-219 | Stores a fresh pending record under the new id, changes no other entry, keeps every id's record its own, and answers with the id, PENDING and the max. |
| Evolve.TaskRegistry.GetEvolutionStatus | api/routes/evolve.py:228-247 | An unknown id gives 404 "Task <id> not found". Otherwise it returns the stored fields unchanged. |
| Evolve.TaskRegistry.RunEvolution | api/routes/evolve.py:23-181 | Runs the loop on the record under `id` with the guarantees of `TaskRecord.Run`; every other task's record is unchanged. |
| Text.SplitJoin | core/session_manager.py:261 | Splitting a comma-join of non-empty lists of comma-free names gives the list back. |
| Text.JoinSplit | core/session_manager.py:261 | Joining the split of a string gives the string back. |
| Sessions.ToolsOf | core/session_manager.py:261 | A stored tool string reads back as `[]` iff it is empty, the names hold no comma, and the list joins back to the string. |
| Sessions.ToolsRoundTrip | core/session_manager.py:252-270 | Storing comma-free tool names and reading them back gives the list, except `[""]`, which comes back `[]`. |
| Sessions.DefaultToolsStored | core/session_manager.py:90-91 | A session created with no tools, or an empty list, reads back with exactly Read, Glob, Grep, Edit, Write, Bash. |
| Sessions.ForkKeepsTools | core/session_manager.py:218-222 | A fork stores the original's tool string, or the default tools when that string is empty. |
| Sessions.ToResponse | core/session_manager.py:252-270 | The response keeps id, name, status, working directory, both timestamps, counters and message count. Its tool list joins back to the stored string. |
| Sessions.ForkName | core/session_manager.py:219 | The fork name is the requested name when non-empty, else the original's name (or "session" when it has none) followed by "_fork". |
| Sessions.AddUsage | core/session_manager.py:177-182 | Adding an empty usage dict changes nothing. |
| Sessions.AddUsageTwice | core/session_manager.py:177-182 | Two usage updates accumulate: applying two dicts one after the other is applying their key-wise sum. |
| Sessions.UpdatedRow | core/session_manager.py:171-187 | Agent session id set iff given non-empty, status iff given, counters grow by the dict's entries (0 if absent), message count +1 iff requested, last access = now. Id, name, creation time, directory and tools are untouched. |
| Sessions.PagesConsecutive | core/session_manager.py:139 | Consecutive offset/limit pages concatenate to the page spanning both, so paging neither skips nor repeats rows. |
| Sessions.Page | core/session_manager.py:139 | `offset`/`limit`: the page has the clipped length and holds the rows from `offset` on. |
| Sessions.Responses | core/session_manager.py:151 | One response per id, in order. |
| Sessions.MostRecentExists | core/session_manager.py:138 | Every non-empty set of rows has a most recently accessed one, so the descending order exists. |
| Sessions.DistinctCovers | core/session_manager.py:138-151 | A duplicate-free ordering as long as the set contains all of it. |
| Sessions.InsertKeepsAscending | core/session_manager.py:303 | Inserting by creation time keeps the history ascending. |
| Sessions.SortByTime | core/session_manager.py:303 | The history is ascending by `created_at`, a permutation of its input, and as long as it. |
| Sessions.InsertAtTime | core/session_manager.py:303 | Inserting a message puts it first among the messages of its own time and leaves the other times' order alone. |
| Sessions.SortIsStable | core/session_manager.py:303 | The sort is stable: for every time, the messages created then come out in table order. |
| Sessions.OfSession | core/session_manager.py:300-302 | The filter keeps exactly the rows of the session. |
| Sessions.SessionHistory | core/session_manager.py:299-305 | The session's messages, ascending by creation time: each of its rows, as a permutation of the same length, and no other session's. |
| Sessions.SessionManager.constructor | core/session_manager.py:71-79 | Both tables start empty, and message ids start at 1. |
| Sessions.SessionManager.CreateSession | core/session_manager.py:81-107 | Inserts exactly one row under the new id: no agent session, ACTIVE, created and accessed now, zero counters, tools given or default comma-joined. |
| Sessions.SessionManager.GetSession | core/session_manager.py:109-123 | A present row is returned, with the requested id and `last_accessed` = now, and nothing else changes. An absent id gives None and changes nothing. |
| Sessions.SessionManager.OrderByRecency | core/session_manager.py:138 | Each given row exactly once, most recently accessed first. |
| Sessions.SessionManager.ListSessions | core/session_manager.py:125-151 | `total` counts the rows passing the status filter. The page is the offset/limit cut of all of them (each once) ordered by `last_accessed` descending. The i-th row of the page is the (offset + i)-th of that order. |
| Sessions.SessionManager.AllSessions | core/session_manager.py:321-341 | One summary per session, each once, most recently accessed first. |
| Sessions.SessionManager.UpdateSession | core/session_manager.py:153-192 | An unknown id gives None and changes nothing. Otherwise only that row changes, to `UpdatedRow`. |
| Sessions.SessionManager.DeleteSession | core/session_manager.py:194-206 | Returns true iff the row existed, and removes only it. |
| Sessions.SessionManager.ForkSession | core/session_manager.py:208-225 | An unknown original gives None. Otherwise the original's access time is refreshed, and one new row gets the fork name, the original's directory and tools (default if none), and fresh counters. |
| Sessions.SessionManager.CleanupExpired | core/session_manager.py:227-241 | Removes exactly the rows last accessed before now − ttl and returns how many. Kept plus removed equals before. |
| Sessions.SessionManager.GetClaudeSessionId | core/session_manager.py:243-250 | Returns the stored agent session id, or None for an unknown id. |
| Sessions.SessionManager.AddMessage | core/session_manager.py:272-295 | Appends one message with the next id, created now, tools comma-joined or "" when none. |
| Sessions.SessionManager.GetMessages | core/session_manager.py:297-319 | Returns the session's messages ascending by creation time, one view per row of `SessionHistory` and as many as the session has, with tools split ("" → []). |

## Left out

- Process spawning, pipes, `asyncio.wait_for` deadlines and `process.kill()` are not modelled. The process's outcome (timeout, or exit code with output), or the stream's lines and how reading ended, is an input.
- `health_check` is not modelled: it only launches the CLI and looks at its exit code.
- Byte decoding and `strip()` are not modelled. Stream lines arrive already decoded and stripped, and a line that is empty after stripping is `Blank`. The single-shot stdout arrives decoded but not stripped: `NotJson` carries the text with its surrounding whitespace, and `DecodeReply` returns it as is.
- JSON parsing is not modelled. A line or stdout is given as a decoded `Value` or as non-JSON text, and numbers are integers, so floating-point counters are not modelled.
- `duration_ms`, wall-clock readings and the `timestamp` of change and test records are not modelled. Session and message times are the caller's `now`, in whole units.
- `total_cost_usd` is read by `query` and then never used, so it is not modelled.
- Prompt texts are not modelled. A query records its phase, the session it resumes, its tools and its turn limit.
- `asyncio.sleep(1)` between iterations, the background-task scheduling, and status reads interleaved with a running loop are not modelled. The loop runs to completion in one call.
- Evolve.NeedsFix: upper-cases ASCII letters only. Python's `str.upper` also maps other letters, which matters only for reports whose non-ASCII letters upper-case to the letters of FAILED or ERROR.
- The agent's replies in the evolution loop are strings. A reply whose `result` is another JSON value, which the loop would then upper-case or search, is not modelled.
- The `/analyze` endpoint, authentication, request logging and configuration are not modelled. Of the request models, only `max_iterations` in 1..20 is kept, as `ValidRequest`, and only where a lemma needs it.
- The database engine, `init_db` and column length limits are not modelled. The sessions table is a map and the messages table a sequence.
- Sessions.SessionManager.CreateSession: requires the new id to be absent, standing for the uuid being fresh. The same holds for ForkSession's new id.
- Sessions.SessionManager.ListSessions: rows with equal `last_accessed` may come in any order, as in SQL. `limit` and `offset` are naturals, as the API's bounds ensure.
- Sessions.SessionHistory: rows with equal `created_at` keep table order, one of the orders SQL allows.
- `get_all_sessions_with_messages` is modelled as `AllSessions`, with the same ordering freedom as `ListSessions` for equal access times.

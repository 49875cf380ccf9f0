# Dashboard backend: a Dafny model

This project models the monitoring dashboard's backend, a FastAPI/SQLAlchemy
service. The dashboard's users are a swarm of coding agents. The service stores
sessions, agents, tasks, messages, pull requests and log lines, and it pushes
live events to browsers over WebSockets. The model covers four parts:

- the task queue endpoints: create, read, partial update with write-once
  timestamps, delete, the list view, the queue view bucketed by status, and
  the statistics;
- the agent endpoints: create, read, partial update, delete, list and
  statistics;
- the session, dashboard and log endpoints of the application module;
- the WebSocket connection manager, its two endpoints and the event payload
  builders.

The database is a class, `Store.Database`, with one sequence field per table.
The mutating endpoints are methods that update those fields in place. SQL clauses are functions in
`Query`:
- WHERE is `Filter`;
- ORDER BY is `SortBy`, a sorted permutation under a total preorder;
- LIMIT is `Limit`, where SQLite treats a negative limit as no limit;
- `TopBy` combines the three.

A 404 is `Err(NotFound(detail))` carrying the handler's own detail text. A
second row with a taken primary key is `Err(DuplicateKey(id))`, the database's
integrity error. The server clock is a `now` parameter. A failed
`send_text` is an oracle: the set `failing` of connections whose send fails.

The connection manager's two collections (`active_connections`,
`session_connections`) are the fields of `Websocket.ConnectionManager`. Each
method is proved equal to a function on a `Registry.Connections` value, and
the registry invariant is proved about those functions. The invariant says no
session id maps to an empty list.

Files:
- `common.dfy`: Option, Field, Result and Truthy;
- `query.dfy`: SQL semantics;
- `records.dfy`: rows, requests and defaults;
- `store.dfy`: primary keys and the database class;
- `tasks.dfy`, `agents.dfy` and `dashboard.dfy`: the endpoints;
- `registry.dfy` and `websocket.dfy`: the connection manager.

## Model

| member | source | states |
|---|---|---|
| Query.Filter | dashboard/backend/routes/tasks.py:26-31 | WHERE keeps exactly the rows that satisfy the condition: no more rows than the table, a sub-multiset of it, each kept row matching |
| Query.DisjointFilters | dashboard/backend/main.py:237-239 | two conditions no row meets together select at most as many rows as the table holds |
| Query.FilterCount | dashboard/backend/routes/tasks.py:26-31 | a WHERE keeps each matching row exactly as often as the table holds it and drops every other row |
| Query.FilterPermutation | dashboard/backend/routes/tasks.py:46-65 | filtering two orderings of the same rows gives two orderings of the same result rows |
| Query.SortBy | dashboard/backend/routes/tasks.py:33 | ORDER BY returns a permutation of its input (same multiset, same length, same members) |
| Query.FilterSnoc | dashboard/backend/routes/tasks.py:54-63 | filtering a list with one more row at the end appends that row exactly when it matches |
| Query.Insert | dashboard/backend/routes/tasks.py:33 | inserting a row into a sorted run adds exactly that row to the multiset |
| Query.InsertSorted | dashboard/backend/routes/tasks.py:33 | inserting into a sorted list under a total preorder keeps it sorted |
| Query.SortBySorted | dashboard/backend/routes/tasks.py:33 | the ORDER BY result is sorted under any total preorder |
| Query.FilterSorted | dashboard/backend/routes/tasks.py:54-63 | selecting rows from a sorted result keeps it sorted |
| Query.Limit | dashboard/backend/main.py:74 | LIMIT n is a prefix of length min(n, rows); a negative n keeps every row |
| Query.TopBy | dashboard/backend/main.py:74 | WHERE/ORDER BY/LIMIT yields min(n, matches) matching rows, sorted, each at most as often as the table holds it (all of them for a negative n), and every matching row left out is ordered after all returned rows |
| Query.LimitOfSorted | dashboard/backend/main.py:74 | a prefix of a sorted list is sorted, and every row it drops is ordered after every row it keeps |
| Query.TopByKeepsAll | dashboard/backend/main.py:296-303 | when the matching rows fit under the limit, or the limit is negative, all of them are returned |
| Records.StatusesDistinct | dashboard/backend/routes/tasks.py:56-63 | the four bucket statuses are four different strings, so the `elif` chain can route a task to at most one bucket |
| Store.Find | dashboard/backend/routes/tasks.py:74-75 | a primary-key lookup finds the first row with that key, and finds nothing exactly when no row has it |
| Store.FindOwnKey | dashboard/backend/routes/tasks.py:74-75 | with unique keys, looking up a row's own key finds that row |
| Store.RemoveAt | dashboard/backend/routes/tasks.py:158 | deleting a row keeps the rows before it in place and shifts the rows after it down by one |
| Store.RemoveAtForgetsKey | dashboard/backend/routes/tasks.py:158 | after a delete the keys stay unique, the deleted key is no longer found, and every other key still is |
| Store.RemoveAtKeepsOthers | dashboard/backend/routes/agents.py:113 | after a delete, a lookup of any other key finds the same row as before |
| Store.AppendFreshKey | dashboard/backend/routes/tasks.py:107-108 | inserting a row with an unused key keeps the keys unique |
| Store.ReplaceSameKey | dashboard/backend/routes/tasks.py:137-141 | rewriting a row without changing its key keeps the keys unique |
| Store.NextLogId | dashboard/backend/db/models.py:129 | the next log row id is larger than every id in the table: 1 for an empty table, otherwise one more than the largest id |
| Store.Database.constructor | dashboard/backend/db/database.py:40-43 | a new database has every table empty and satisfies the unique-key invariant |
| Tasks.QueueOrderIsTotalPreorder | dashboard/backend/routes/tasks.py:33 | "priority descending, then created_at" is a total preorder, so ORDER BY under it is well defined |
| Tasks.ListTasks | dashboard/backend/routes/tasks.py:24-33 | a task is listed iff it passes every non-empty filter; the list is a permutation of the matches in queue order; an agent filter never matches a task without an agent |
| Tasks.BucketByStatus | dashboard/backend/routes/tasks.py:53-63 | the bucketing loop puts into each bucket exactly the tasks of that status, in input order |
| Tasks.Place | dashboard/backend/routes/tasks.py:56-63 | the `if`/`elif` chain appends a task to the bucket of its status, or to none |
| Tasks.BucketStep | dashboard/backend/routes/tasks.py:54-63 | one loop step appends the task to a bucket exactly when it has that bucket's status |
| Tasks.StatusCountsPartition | dashboard/backend/routes/tasks.py:178-184 | the four status counts plus the count of tasks with any other status equal the number of tasks |
| Tasks.GetTaskQueue | dashboard/backend/routes/tasks.py:46-65 | each of the four buckets holds exactly the in-scope tasks of its status, each as often as the table does, in queue order; tasks with another status are dropped |
| Tasks.BucketOfOrdered | dashboard/backend/routes/tasks.py:50-63 | a bucket of the ordered in-scope tasks holds exactly those of its status and stays ordered |
| Tasks.GetTask | dashboard/backend/routes/tasks.py:74-80 | the task with that id, or `Task not found` exactly when no task has it |
| Tasks.CreateTask | dashboard/backend/routes/tasks.py:90-111 | unknown session: 404 and no change; otherwise the stored task is `pending` whatever the input, with requested fields, default priority 5, no result or timestamps, created now |
| Tasks.Stamped | dashboard/backend/routes/tasks.py:130-135 | the stamping step changes only the two timestamps, never one already set, at most one of them, `started_at` only on a move to `in_progress` and `completed_at` only on a move to `completed` or `failed`, each to the request time |
| Tasks.UpdatedTask | dashboard/backend/routes/tasks.py:127-138 | only given fields change; identity, type, priority, payload and creation time never do; `started_at`/`completed_at` are set only when unset, and only by the matching transition |
| Tasks.GivenFieldValue | dashboard/backend/routes/tasks.py:127 | every dumped field item carries the value the client sent for that field |
| Tasks.GivenFieldsKinds | dashboard/backend/routes/tasks.py:127 | the dumped items write an attribute exactly when the client set that field |
| Tasks.KindsFrom | dashboard/backend/routes/tasks.py:137-138 | the attributes written from position i on are the one at i plus those after it |
| Tasks.ApplyTaskUpdate | dashboard/backend/routes/tasks.py:129-138 | the stamping step and the `setattr` loop produce exactly `UpdatedTask` |
| Tasks.UpdateTask | dashboard/backend/routes/tasks.py:121-143 | unknown id: `Task not found` and the table unchanged; otherwise only that row is replaced by its updated version |
| Tasks.StartedAtIsFirstStart | dashboard/backend/routes/tasks.py:132-133 | over any run of updates, a set `started_at` is never overwritten; an unset one ends as the time of the first move to `in_progress` |
| Tasks.CompletedAtIsFirstFinish | dashboard/backend/routes/tasks.py:134-135 | over any run of updates, `completed_at` keeps the time of the first move to `completed` or `failed`, and repeating the transition does not move it |
| Tasks.UpdatesKeepIdentity | dashboard/backend/routes/tasks.py:137-138 | no run of updates changes id, session, type, priority, payload or creation time |
| Tasks.DeleteTask | dashboard/backend/routes/tasks.py:152-161 | unknown id: 404 and no change; otherwise the row is removed and `get_task` then answers 404 |
| Tasks.MeanCompletionTime | dashboard/backend/routes/tasks.py:187-192 | the average is 0 exactly when no completed task has both timestamps; otherwise it is taken over exactly those tasks |
| Tasks.GetTaskStats | dashboard/backend/routes/tasks.py:170-194 | total is the number of in-scope tasks, each status count is its filter, the four counts sum to at most total, and the average is 0 exactly when no in-scope task is a timed completion |
| Agents.CreationOrderIsTotalPreorder | dashboard/backend/routes/agents.py:25 | "created_at ascending" is a total preorder |
| Agents.ListAgents | dashboard/backend/routes/agents.py:22-29 | an agent is listed iff it belongs to the given session (all agents when none or `""` is given); the list is a permutation of them, oldest first |
| Agents.GetAgent | dashboard/backend/routes/agents.py:38-44 | the agent with that id, or `Agent not found` exactly when no agent has it |
| Agents.CreateAgent | dashboard/backend/routes/agents.py:54-73 | unknown session: 404 and no change; taken id: integrity error and no change; otherwise the new agent copies id, session, persona, status (default `idle`) and worktree, has the column defaults for the rest, and is created now |
| Agents.UpdatedAgent | dashboard/backend/routes/agents.py:89-93 | only given fields (status, current task, iteration, cost) change; persona, session, worktree and creation time do not; `last_activity` is refreshed even when nothing else changes |
| Agents.KindsFrom | dashboard/backend/routes/agents.py:90-91 | the attributes written from position i on are the one at i plus those after it |
| Agents.GivenFieldValue | dashboard/backend/routes/agents.py:89 | every dumped field item carries the value the client sent |
| Agents.GivenFieldsKinds | dashboard/backend/routes/agents.py:89 | the dumped items write an attribute exactly when the client set that field |
| Agents.ApplyAgentUpdate | dashboard/backend/routes/agents.py:89-93 | the `setattr` loop followed by the `last_activity` write produces exactly `UpdatedAgent` |
| Agents.UpdateAgent | dashboard/backend/routes/agents.py:83-98 | unknown id: `Agent not found` and no change; otherwise only that row is replaced by its updated version |
| Agents.DeleteAgent | dashboard/backend/routes/agents.py:107-116 | unknown id: 404 and no change; otherwise the row is removed and `get_agent` then answers 404 |
| Agents.DeleteKeepsOthers | dashboard/backend/routes/agents.py:107-116 | deleting one agent leaves every other agent retrievable, unchanged |
| Agents.GetAgentStats | dashboard/backend/routes/agents.py:125-138 | 404 exactly when `get_agent` fails; otherwise persona and status verbatim, the iteration counter and cost as totals, and uptime measured from creation |
| Dashboard.RecentSessions | dashboard/backend/main.py:66-77 | exactly min(`limit`, matches) sessions, with `limit` 10 when omitted and all matches for a negative limit; only those with the given non-empty status, none repeated beyond the table, newest first, and no session left out started after a listed one |
| Dashboard.ListSessions | dashboard/backend/main.py:79-89 | one view per session that RecentSessions selects (so none repeated beyond the table), in the same order, each with elapsed time measured from its start |
| Dashboard.GetSessionInfo | dashboard/backend/main.py:98-111 | 404 exactly when no session has the id; otherwise the view of that session |
| Dashboard.CreateSession | dashboard/backend/main.py:120-138 | stores the requested id, prompt and status (default `running`) with zero cost, started now, and reports elapsed time 0; a taken id is refused with no change |
| Dashboard.UpdatedSession | dashboard/backend/main.py:155-158 | status changes only to a non-empty value; total cost changes whenever one is given, zero included; nothing else changes |
| Dashboard.EmptyStatusZeroCost | dashboard/backend/main.py:155-158 | an empty status is ignored and a zero cost is written; an empty request changes nothing |
| Dashboard.UpdateSession | dashboard/backend/main.py:149-162 | unknown id: `Session not found` and no change; otherwise only that row becomes its updated version |
| Dashboard.PullRequestCounts | dashboard/backend/main.py:236-239 | merged = status `merged`, failed = status `closed` with no merge time, and merged + failed never exceeds total |
| Dashboard.SuccessRate | dashboard/backend/main.py:241-244 | the denominator is completed plus failed tasks; the rate is 0 exactly when no task is completed or failed; otherwise numerator ≤ denominator |
| Dashboard.NoneFinished | dashboard/backend/main.py:241-244 | the finished count is 0 exactly when no task is completed or failed |
| Dashboard.SessionMetrics | dashboard/backend/main.py:233-262 | the metrics block: PR counters over the session's PRs, success rate and average over its tasks, and the session's total cost |
| Dashboard.SessionAgents | dashboard/backend/main.py:183-186 | exactly the session's agents, each as often as the table holds it, oldest first |
| Dashboard.RecentMessages | dashboard/backend/main.py:207-213 | exactly min(20, the session's messages) of the session's messages, none repeated beyond the table, newest first, none left out newer than one listed |
| Dashboard.RecentLogs | dashboard/backend/main.py:224-230 | exactly min(50, the session's entries) of the session's log entries, none repeated beyond the table, newest first, none left out newer than one listed |
| Dashboard.SessionTaskQueue | dashboard/backend/main.py:189-204 | a permutation of the session's tasks in queue order, and each bucket holding exactly those of its status, still ordered |
| Dashboard.GetDashboardState | dashboard/backend/main.py:176-280 | 404 before any other work for an unknown session; otherwise the session view, agents, bucketed tasks, recent messages, unread count, recent logs and metrics, as the functions above define them |
| Dashboard.GetLogs | dashboard/backend/main.py:287-306 | exactly min(`limit`, matches) entries, with `limit` 100 when omitted and all matches for a negative limit, of the session's entries that pass the non-empty agent and level filters, none repeated beyond the table, newest first, none left out newer than one returned, and all of them when they fit |
| Dashboard.CreateLogEntry | dashboard/backend/main.py:309-335 | appends one entry under the next row id without checking the session, then pushes the `log.entry` event to the session's watchers exactly as `broadcast_to_session` does |
| Registry.RemoveFirst | dashboard/backend/routes/websocket.py:33-34 | `list.remove` behind a membership test leaves a list without the element as it is and otherwise shortens it by one |
| Registry.RemoveFirstCount | dashboard/backend/routes/websocket.py:34 | the removal takes exactly one occurrence out of the multiset of entries |
| Registry.FirstIndex | dashboard/backend/routes/websocket.py:34 | the position of the first occurrence |
| Registry.RemoveFirstSplits | dashboard/backend/routes/websocket.py:34 | the removed occurrence is the first one, and the rest keep their order |
| Registry.RemoveFirstOfLast | dashboard/backend/routes/websocket.py:29-38 | removing a just-appended element that occurred nowhere before restores the list |
| Registry.RemoveFirstBeforeLast | dashboard/backend/routes/websocket.py:58-59 | removing an element already present leaves a later-appended element in place |
| Registry.AfterConnect | dashboard/backend/routes/websocket.py:21-29 | the connection is appended to the active list and, for a non-empty session id, to the end of that session's list, created if absent; the invariant is preserved |
| Registry.AfterDisconnect | dashboard/backend/routes/websocket.py:31-40 | one occurrence leaves the active list (none if absent); for a registered non-empty id one occurrence leaves its list and the key goes when the list empties; other sessions untouched; without an id the map is unchanged; the invariant is preserved |
| Registry.AfterSubscribe | dashboard/backend/routes/websocket.py:101-105 | subscribing appends to the session's list with no duplicate or empty-id check, creating the list if absent; the invariant is preserved |
| Registry.DisconnectUndoesConnect | dashboard/backend/routes/websocket.py:21-40 | disconnecting a fresh connection right after connecting it restores the registry exactly |
| Registry.DisconnectWithoutSessionKeepsSubscriptions | dashboard/backend/routes/websocket.py:101-119 | a subscription made on the global endpoint survives that connection's disconnect |
| Registry.DisconnectAll | dashboard/backend/routes/websocket.py:81-82 | the clean-up loop removes one active occurrence per entry, touches no session but the given one, and keeps the invariant |
| Registry.RemoveEachCount | dashboard/backend/routes/websocket.py:58-59 | removing a list of entries takes one occurrence of each out of the multiset |
| Registry.RemoveEachBeforeLast | dashboard/backend/routes/websocket.py:58-59 | removing entries that are all present leaves an appended element in place |
| Registry.RemoveFailed | dashboard/backend/routes/websocket.py:50-59 | removing, one by one, the connections whose send failed leaves exactly the successful ones, in their original order |
| Registry.RemoveFailedLast | dashboard/backend/routes/websocket.py:58-59 | when the last connection failed, removing it too leaves the successful ones |
| Registry.DisconnectAllFromSession | dashboard/backend/routes/websocket.py:81-82 | disconnecting members of a session's list with its id removes one occurrence each and deletes the key exactly when the list empties |
| Registry.DisconnectFromSessionStep | dashboard/backend/routes/websocket.py:36-40 | one such disconnect, expressed on the original map |
| Registry.AfterBroadcast | dashboard/backend/routes/websocket.py:42-59 | after a broadcast the active list is exactly the connections whose send succeeded, in order, and the session map is untouched |
| Registry.AfterBroadcastToSession | dashboard/backend/routes/websocket.py:61-82 | an unregistered session changes nothing; otherwise each failed connection leaves the active list once and the session's list, which keeps exactly the successful ones in order and is deleted when empty; an empty id is never cleaned up; other sessions untouched |
| Websocket.ConnectionManager.constructor | dashboard/backend/routes/websocket.py:17-19 | the manager starts with no connections, which satisfies the invariant |
| Websocket.ConnectionManager.Connect | dashboard/backend/routes/websocket.py:21-29 | the in-place update equals `AfterConnect` |
| Websocket.ConnectionManager.Disconnect | dashboard/backend/routes/websocket.py:31-40 | the in-place update equals `AfterDisconnect` |
| Websocket.ConnectionManager.Subscribe | dashboard/backend/routes/websocket.py:102-105 | the in-place update equals `AfterSubscribe` |
| Websocket.ConnectionManager.Broadcast | dashboard/backend/routes/websocket.py:42-59 | one envelope without a session id; it is delivered exactly to the active connections whose send succeeds; the new state equals `AfterBroadcast` |
| Websocket.ConnectionManager.BroadcastToSession | dashboard/backend/routes/websocket.py:61-82 | no message for an unregistered session; otherwise one envelope carrying the session id, delivered exactly to the watchers whose send succeeds; the new state equals `AfterBroadcastToSession` |
| Websocket.ConnectionManager.DisconnectEach | dashboard/backend/routes/websocket.py:58-59 | the clean-up loop's state equals `DisconnectAll` |
| Websocket.ConnectionManager.ServeGlobal | dashboard/backend/routes/websocket.py:89-119 | connect, then the receive loop, leave exactly the state and replies of `GlobalEndpoint` |
| Websocket.ConnectionManager.ServeSession | dashboard/backend/routes/websocket.py:122-140 | connect with the path's id, then the receive loop, leave exactly the state and replies of `SessionEndpoint` |
| Websocket.TrySend | dashboard/backend/routes/websocket.py:50-55 | the send loop collects exactly the failed connections, in order |
| Websocket.GlobalAction | dashboard/backend/routes/websocket.py:96-116 | invalid JSON is ignored; a non-object fails the handler; a subscribe request subscribes exactly when its `session_id` is a string, and echoes that id; a pong answers exactly the ping requests |
| Websocket.SessionAction | dashboard/backend/routes/websocket.py:128-137 | this endpoint never subscribes: ping gets a pong, invalid JSON and other objects are ignored, and a non-object fails the handler |
| Websocket.GlobalRunKeepsInvariant | dashboard/backend/routes/websocket.py:93-119 | serving a global connection keeps the invariant that no session list is empty |
| Websocket.GlobalRunKeepsSubscriptions | dashboard/backend/routes/websocket.py:101-119 | the global endpoint only ever extends session lists, even when its connection closes, so a closed connection stays subscribed |
| Websocket.NonObjectFrameLeavesConnectionActive | dashboard/backend/routes/websocket.py:98-119 | a valid JSON frame that is not an object ends the handler without a disconnect, leaving the connection active |
| Websocket.SessionRunUntilClose | dashboard/backend/routes/websocket.py:127-140 | frames that do not fail the handler leave the registry alone, and the close disconnects with the session id |
| Websocket.SessionEndpointLeavesNoTrace | dashboard/backend/routes/websocket.py:122-140 | a fresh connection to the session endpoint that closes normally leaves the registry as it was |
| Websocket.OrNull | dashboard/backend/routes/websocket.py:196 | an absent string is JSON null, a present one its string |
| Websocket.AgentStatusData | dashboard/backend/routes/websocket.py:155-162 | keys are always `agent_id` and `status`, plus `iteration` and `cost` exactly when given, with the given values |
| Websocket.TaskProgressData | dashboard/backend/routes/websocket.py:174-179 | keys are always `task_id` and `status`, plus `progress` exactly when given |
| Websocket.MessageSentData | dashboard/backend/routes/websocket.py:192-197 | exactly the four keys, the subject null when absent |
| Websocket.PrEventName | dashboard/backend/routes/websocket.py:207 | the event name is `pr.` followed by the event type |
| Websocket.PrEventNameInjective | dashboard/backend/routes/websocket.py:207 | different event types give different event names |
| Websocket.PrData | dashboard/backend/routes/websocket.py:207-210 | exactly `pr_number` and `title`, the title null when absent |
| Websocket.CostUpdatedData | dashboard/backend/routes/websocket.py:215-218 | the total, and an object with exactly the given agents' costs |
| Websocket.LogEntryData | dashboard/backend/routes/websocket.py:229-235 | exactly the five keys; agent and data null when absent; the timestamp is the time of emission |
| Websocket.SessionCompleteData | dashboard/backend/routes/websocket.py:240-243 | exactly `status` and `summary` |

## Left out

- Floating point. A success rate is kept as `Ratio` (numerator over denominator) and an average as `Mean` (sum over count). Cost and progress are Dafny reals that are only stored and copied. Elapsed time and uptime are whole seconds.
- Time is a single integer clock value per request. `datetime.utcnow()` and the `isoformat()` rendering are not modelled; a payload timestamp is `Stamp(now)`.
- SQLAlchemy I/O: the engine, commit, refresh and `db.add`. The ORM cascade deletes and foreign keys are also left out; SQLite does not enforce foreign keys by default, and `delete_task`/`delete_agent` do not implement cascades.
- The order of rows that tie under ORDER BY. The model fixes one order (insertion sort); every property holds for any order consistent with the ORDER BY keys.
- Tables the core only reads are not populated by the model (messages, PRs); their rows come from outside.
- Explicit `null` in a PATCH body for `status`, `iteration` or `cost`: the model takes every given field as a value. `current_task`, `agent_id` and `result` can be given as null.
- Tasks.CreateTask, Agents.CreateAgent, Dashboard.CreateSession: a taken id is `DuplicateKey` with no change, standing in for the integrity error the database raises at commit.
- Pydantic validation, JSON parsing and encoding. A frame arrives already decoded (`Frame`), and a payload is a map of `Value`s.
- Websocket.GlobalAction: a `session_id` that is a number, boolean or null is echoed in the reply but not recorded. The source files the connection under that non-string key, where no broadcast (keyed by string ids) ever reaches it.
- The asynchronous transport: `accept`, `send_text`, `receive_text` and the interleaving of other requests during a broadcast's awaits. Each operation is atomic in the model, and a failed send is the `failing` oracle.
- FastAPI app wiring (CORS, routers, startup, the root and health endpoints) and `db/database.py`'s engine set-up.
- Earlier SQLite row ids after deletions: `NextLogId` is one more than the largest id present, which is SQLite's rule for a table without AUTOINCREMENT.
- The `emit_*` helpers other than `emit_log_entry`: their payloads and the PR event name are modelled; the call into `broadcast_to_session` they each make is the one `Dashboard.CreateLogEntry` shows for the log event.
- The agents' coordination engine (locks, message bus, pipeline cycles) is not part of this model.

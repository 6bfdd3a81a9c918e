# gobot engine and garbage collector, modelled in Dafny

This project models two pieces of decision logic from gobot, a backend that
drives bots in a virtual world.

The first is the **engine's control-message dispatcher**. A goroutine reads
messages from the browser over a WebSocket channel. It keeps the engine's
run/stop flag (`engineRunning`, which starts as true). It answers with
messages for the browser through `sendMessageToBrowser`. The same file holds
**`convertLocPos`**, which splits an in-world location and position into a
region name and coordinates.

The second is the **garbage collector's liveness sweep**. On every tick it
pings each Agent and then each Position (cube). It collects the quoted UUIDs
of those that fail or answer anything but `pong`. When that list is
non-empty, it deletes them with one `DELETE ... IN (...)` statement. Then it
deletes every Obstacle not updated in the last four hours.

Files:

- `wrappers.dfy` (`Wrappers`) holds `Option`, used for nullable JSON fields.
- `go_strings.dfy` (`GoStrings`) models Go's `strings.Index`, `Count`,
  `Split`, `Join` and `Trim` for single-character separators. It proves
  their round trips.
- `engine.dfy` (`Engine`) has these parts:
  - the inbound and outbound message records;
  - the dispatch table `Step`, a pure function of the flag and one message;
  - the fold `Run` over a sequence of messages;
  - the class `Runtime`, whose `running` and `outbox` fields are updated in
    place by `Send`, `Dispatch` (one loop iteration) and `Serve` (the loop);
  - `ConvertLocPos`.
- `garbage_collector.dfy` (`GarbageCollector`) has these parts:
  - the probe-and-collect loop `CollectDead`, proved equal to an
    order-preserving filter;
  - the class `Store`, whose fields are the three tables and the log of
    executed statements;
  - the age rule for obstacles.

A panic is an outcome of the model. A `formSubmit` whose text has no `|`
indexes past the end of the split in Go, and the goroutine panics. Here that
is `Outcome.crashed`: nothing is sent for that message, and `Serve` handles
no message after it.

The dispatcher keeps one quirk as written. `status`/`ready` while stopped
sends the subtype `"false"` for the stop button, where every other branch
uses `"disable"`.

## Model

| member | source | states |
|---|---|---|
| Engine.Runtime.constructor | engine.go:181-184 | The flag starts true, and exactly the "engine starting" status message is sent. |
| Engine.Runtime.Send | engine.go:302-305 | One call appends exactly one message, built from the four strings in the order type, subtype, text, id. The flag is untouched. |
| Engine.Runtime.Dispatch | engine.go:194-266 | One loop iteration. The new flag, the appended messages and the panic flag are exactly those the dispatch table gives for the old flag and the message. |
| Engine.Runtime.Serve | engine.go:194-266 | The loop over the arriving messages, handled in order. It stops at the first panic. The final flag and the appended messages are those of the fold of the dispatch table. The number of messages consumed is the fold's `handled` count, which RunHandled pins down: all messages, or exactly those up to and including the first that panics. |
| Engine.RunHandled | engine.go:194-242 | A run takes every message off the channel when none panics. Otherwise it takes exactly those up to and including the first panicking one: no earlier prefix panicked, and nothing after it is handled. |
| Engine.Step | engine.go:208-265 | The dispatch switch as a function of the flag and one message. The lemmas below (AbsentTypeIgnored to OnlyEngineControlChangesFlag) give its exact output for every branch. |
| Engine.Run | engine.go:194-266 | The loop as a fold of Step over the arrival order, stopping at the first panic. RunStopsAtCrash, RunHandled and RunFlag state its properties. |
| Engine.RunStopsAtCrash | engine.go:240-242 | Once a handler has panicked, appending further messages changes nothing. |
| Engine.AbsentTypeIgnored | engine.go:197-201 | An absent type is read as "empty", which falls to the unknown-type branch. The flag does not change, nothing is sent and nothing panics. |
| Engine.EngineStart | engine.go:248-251 | engineControl/start sets the flag. It sends exactly, in order: disable startEngine, enable stopEngine, then "Engine start<br />". |
| Engine.EngineStopOrOther | engine.go:202-261 | Any other engineControl subtype clears the flag, including stop and an absent subtype read as "empty". It sends: enable startEngine, disable stopEngine, then "Engine "+subtype+"<br />". The stop branch and the default branch behave identically. |
| Engine.StatusReady | engine.go:211-219 | status/ready keeps the flag and does not panic. While running it sends disable startEngine and enable stopEngine. While stopped it sends enable startEngine and subtype "false" for stopEngine. |
| Engine.StatusReadyTwice | engine.go:211-219 | Two status/ready messages in a row send the same pair twice and keep the flag. |
| Engine.StatusOtherSilent | engine.go:224-231 | status with gone, or any other subtype including an absent one, changes nothing and sends nothing. |
| Engine.UnknownTypeSilent | engine.go:263-264 | Any type other than status, formSubmit and engineControl changes nothing and sends nothing. |
| Engine.FormSubmit | engine.go:233-245 | formSubmit never changes the flag. It panics if and only if its text is present and contains no "\|". Otherwise it sends exactly one status/info message, "Received '"+f[0]+"\|"+f[1]+"'<br />", where f is the text split at "\|". |
| Engine.FormSubmitOnePipe | engine.go:240-245 | A text with exactly one "\|" is echoed verbatim as "Received '"+text+"'<br />". |
| Engine.FormSubmitAbsentText | engine.go:235-239 | An absent text stands for NullUUID+"\|"+NullUUID, so the echo names the nil UUID twice. |
| Engine.OnlyEngineControlChangesFlag | engine.go:251-259 | If a message changes the flag, its type is engineControl. |
| Engine.RunFlag | engine.go:181 | After any messages handled without a panic, the flag is the one set by the last engineControl message: true exactly when its subtype is "start". With no engineControl message it is the initial flag. |
| Engine.RunningWithoutControl | engine.go:181 | Starting from true, the engine is still running after any messages with no engineControl among them. |
| Engine.ConvertLocPos | engine.go:103-108 | The location must contain "(" at index 1 or later. The region name is the text before that first "(" minus the one character just before it. The coordinates are the position trimmed of "() \t\n\r" and split at ",". They have one more part than the trimmed text has commas, no part contains a comma, and joining them with "," gives the trimmed text back. |
| Engine.ConvertLocPosExample | engine.go:103-108 | "Ada (1, 2, 3)" and "(1.5, 2, 3)" give region "Ada" and coordinates ["1.5", " 2", " 3"]. |
| GoStrings.Index | engine.go:104 | The first position of the character, or -1 exactly when it is absent. |
| GoStrings.Split | engine.go:106 | Go's strings.Split with a one-character separator: at least one part, and no part contains the separator. JoinSplit, SplitJoin and SplitCount relate it to Join and Count. The same split is used at engine.go:240. |
| GoStrings.Join | garbage-collector.go:57 | Go's strings.Join with a one-character separator. JoinSplit, SplitJoin and JoinCount are its round trips and separator count. The same join is used at garbage-collector.go:95. |
| GoStrings.JoinSplit | engine.go:106 | Joining the parts of a split with its separator gives back the string that was split. |
| GoStrings.SplitJoin | engine.go:240 | Splitting a join of separator-free parts gives back those parts. |
| GoStrings.SplitCount | engine.go:240 | A split has one more part than there are separators. |
| GoStrings.Trim | engine.go:105 | The result is a slice of the input whose two end characters are outside the cutset, while everything cut off is inside it. |
| GoStrings.TrimIdempotent | engine.go:105 | Trimming twice is trimming once. |
| GoStrings.JoinCount | garbage-collector.go:57 | Joining n separator-free parts puts exactly n-1 separators in the result. |
| GarbageCollector.CollectDead | garbage-collector.go:37-91 | Starting from an empty list, the loop pings every row exactly once, in table order. It returns the quoted UUIDs of exactly the unresponsive rows, in table order. The Agents loop (lines 37-53) and the Positions loop (lines 75-91) are the same loop. |
| GarbageCollector.DeadMembership | garbage-collector.go:47-52 | A row is collected if and only if it is in the table and its ping failed or was answered by anything but "pong". |
| GarbageCollector.DeadConcat | garbage-collector.go:39-53 | Collecting over two stretches of the table gives the first stretch's dead, then the second's, so read order is preserved. |
| GarbageCollector.DeadAlivePartition | garbage-collector.go:49 | Every row is either collected or kept, never both: the multiset of collected rows plus the multiset of kept rows is the multiset of the table. |
| GarbageCollector.Unresponsive | garbage-collector.go:49 | The deletion test `err != nil \|\| callResult != "pong"` applied to the ping of a row's URL. The same test is at line 87. DeadMembership states which rows it selects. |
| GarbageCollector.DeleteWhereIn | garbage-collector.go:59 | What `DELETE ... WHERE UUID IN (list)` leaves of a table. The same delete is at line 96. SweepKeepsAlive and RemoveIdsKeepsAlive state what remains. |
| GarbageCollector.Expired | garbage-collector.go:114 | The strict age test `LastUpdate < now - 4 hours`. FourHourBoundary states both sides of the boundary. |
| GarbageCollector.KeepRecent | garbage-collector.go:114 | The obstacles the age DELETE leaves, in order. KeepRecentMembership states exactly which. |
| GarbageCollector.QuotedIdsAt | garbage-collector.go:51 | Entry k of the delete list is "'"+uuid+"'" of the k-th collected row. |
| GarbageCollector.QuoteInjective | garbage-collector.go:51 | Distinct UUIDs get distinct quoted literals. |
| GarbageCollector.JoinedIds | garbage-collector.go:57 | For comma-free UUIDs, the joined id list has one comma fewer than it has ids, and splitting it at commas gives the ids back. |
| GarbageCollector.ListedIffDead | garbage-collector.go:51-59 | When UUIDs are keys, a row's quoted id is in the delete list exactly when the row is dead. |
| GarbageCollector.ListedIdsFromTable | garbage-collector.go:75-96 | Every id in a table's delete statement comes from a dead row of that same table. Because the list is reset, no agent id reaches the cube statement. |
| GarbageCollector.SweepKeepsAlive | garbage-collector.go:56-69 | When UUIDs are keys with no comma, the table after the sweep is exactly the rows that answered "pong", in their original order. |
| GarbageCollector.NoDeadNoDelete | garbage-collector.go:94-106 | A sweep executes no DELETE exactly when every row answered "pong", and the table is then untouched. Otherwise it executes exactly one. |
| GarbageCollector.RemoveIdsKeepsAlive | garbage-collector.go:59 | Deleting the rows whose quoted id is listed keeps, in order, exactly the rows whose id is not listed. |
| GarbageCollector.Store.Sweep | garbage-collector.go:56-69 | One probed table's sweep. The table becomes the SQL delete of its dead rows, or stays as it was when there are none. With well-keyed UUIDs it becomes exactly the responsive rows. The other tables are untouched. The statement log gains that table's DELETE, if any, and every URL is pinged once. |
| GarbageCollector.Store.ExpireObstacles | garbage-collector.go:114 | The obstacle DELETE is always executed and keeps exactly the obstacles that are not expired. |
| GarbageCollector.Store.Tick | garbage-collector.go:30-114 | One tick sweeps Agents, then Positions, then Obstacles. The statements are logged in that order. |
| GarbageCollector.KeepRecentMembership | garbage-collector.go:114 | An obstacle is kept if and only if its last update is no earlier than now minus four hours. |
| GarbageCollector.FourHourBoundary | garbage-collector.go:114 | The comparison is strict. An obstacle exactly four hours old survives, and one a second older is deleted. |
| GarbageCollector.ThreeAgentsExample | garbage-collector.go:49-59 | With agents A, B and C where only B's ping fails, the one statement deletes 'B', and A and C remain. |

## Left out

- WebSocket pumps and channels (`serveWs`, the send and receive channels, the goroutines) are transport and concurrency. The inbound channel is the `inbox` sequence given to `Serve`, and the outbound channel is the `outbox` field.
- The 10-second `select`/`time.After` in `sendMessageToBrowser` is left out. Every send is modelled as delivered, with no timeout and no drop.
- The spinner main loop with `time.Sleep` is left out. It only reads the flag and prints. The `atomic.Value` flag is a plain `bool` field.
- The default case of the switch on the flag (engine.go:220-222) is unreachable once the flag is a `bool`.
- `backofficeEngine` is left out: SQL queries, HTML formatting and template rendering. Only `convertLocPos` is modelled.
- JSON marshalling and the `zero.String` wrapper are left out. Inbound fields are `Option<string>`. `WsMessageType.New` is modelled by the `Outbound` constructor with four plain strings. Whether `zero.String` turns "" into null is not modelled.
- `NullUUID` is defined in a file that is not part of this model. It is given the nil-UUID value "00000000-0000-0000-0000-000000000000". The proofs only rely on it containing no "|".
- Engine.ConvertLocPos: its precondition excludes a location with no "(" or with "(" as its first character. There Go's slice bound is negative and the call panics (engine.go:104). That panic is not modelled, unlike formSubmit's, which is `Outcome.crashed`.
- Engine.ConvertLocPos works on characters where Go slices bytes. The two agree on ASCII locations.
- Logging, `fmt.Println` and `log.Println` are left out everywhere.
- The garbage collector's ticker, `sql.Open`/`Query`/`Exec`, `checkErr`, `RowsAffected` and `funcName` are left out. Tables are sequences of rows, and the executed statements are a log of strings.
- `callURL` is a probe function parameter that returns a reply and a failure flag. The probe is a pure function of the URL and the request. So within one tick, two rows with the same PermURL always get the same answer, and DeadMembership's if-and-only-if relies on that. A network whose answer changes between two calls to the same URL is not modelled.
- A panic inside `checkErr` on a SQL failure is not modelled.
- A null `UUID` or `PermURL` column, which would make Go's `*Ptr()` dereference panic, is not modelled. Rows hold plain strings.
- SQL evaluation of `UUID IN (...)` is modelled by splitting the list at commas and comparing each part with the row's quoted UUID. SQL quoting rules are not modelled.
- GarbageCollector.Store.Sweep: the result equals the responsive rows only when UUIDs are distinct and contain no comma. That holds for a primary key of UUIDs. Without it, the statement may remove other rows, and the general result is still stated as the SQL delete.
- `ADDDATE(NOW(), INTERVAL -4 HOUR)` is modelled with integer seconds: `now - 4*60*60`. The SQL clock is the `now` parameter.

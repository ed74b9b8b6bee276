# request-queue, modelled in Dafny

This project models the core of the TypeScript library `request-queue`, the code under `src/network`. An application builds `Request`s and puts them into a `RequestQueue`. It calls `belowParallel()` or `belowSerial()` to open a new group, then `addRequest` to put the next requests into that group. One call of `request()` then runs the groups one after another. A group is started when the one before it calls its complete closure, which a parallel group does once all its members have succeeded. The closure is not guarded, so a group that holds one executor twice can call it more than once, and a later group is then started again.

- **The executor.** Each request is carried out by an executor, `TaskPerformerImpl`. `initTask` cleans up the body, merges the headers and takes over the configuration. `run` sends the request. The transport's completion callback walks the chain of data parsers. The parser's response decides the outcome:
  - a success calls every success listener;
  - a failure is retried while `currentRetry` has not reached `retry`;
  - after that, a failure calls every fail listener.
- **Parallel groups.** A parallel group (`TaskQueueParallelImpl`) registers its own closures on every member executor. It reports success for each member. It completes once every member has succeeded. At the first failure it aborts all its members.
- **The queue.** The queue's closures pass successes and failures to the application's listeners. At its first failure, the queue cancels itself, and from then on it drops group successes and failures.

The files and what each holds:

- `wrappers.dfy`: `Option` and `Outcome`. `Fail(message)` stands for a thrown `Error`.
- `decimal.dfy`: the decimal numerals that JavaScript's `String(n)` gives for integral `n`, with their parser and injectivity.
- `json.dfy`: JavaScript values as the library sees them, with `RequestUtils.isEmpty` and `RequestUtils.deepClone`.
- `parsers.dfy`: `DefaultDataParser` and `StringDataParser`. A user-written parser is a pair of functions.
- `logger.dfy`: the timestamp and prefix strings that `Logger` prints. Each has a parser as its partner and a round-trip lemma.
- `performer.dfy`:
  - `TaskPerformerImpl` as the class `TaskPerformer<L>`, generic over an opaque listener token.
  - A fan-out returns the ordered list of listener invocations (`Notification`s). The owner of the tokens carries them out in that order.
  - The transport is abstract. Each `createRequest` call is logged in the ghost sequence `sends`, and each `runAbort` call is counted in `cancels`. The completion callback is the method `OnTransportResult`, which the environment calls once per send.
- `network.dfy`: `RequestConfig`, `Request`, `TaskQueueParallelImpl` (as `ParallelGroup`) and `RequestQueue`. They share one module because these files import each other in a cycle.
  - Every closure that this layer registers on an executor is a `Listener` value, which the queue interprets: a request's forwarder or a group's member closure.
  - The application's own listeners are ids. Each invocation of one is appended, with its arguments, to the queue's ghost `trace`, together with each group start.

The main results:

- `initTask` throws exactly when the url is empty or the configuration has no parser, and otherwise holds what it derived (`InitTask`). Global headers win over request headers (`GlobalHeaderWins`).
- The parser chain ends at the first parser that rejects the result or that calls a callback (`ScanParsersOwner`, `ScanParsersStops`, `ScanParsersFrom`).
- A request that fails on every attempt is sent `retry + 1` times with the same parameters, and its fail listeners are called exactly once (`AlwaysFailing`).
- A parallel group completes exactly when all of its members have succeeded (`IsAllFinish`, `OnMemberSuccess`).
- The queue's invariant `Accounted` says the queue's fail listener is called at most once, and only at the moment the queue cancels. Every transition keeps this invariant (`Valid`).
- Once the queue is canceled, no event of any kind passes a group success or failure to the application (`OnTransportResult`, `HandleGroupCall`).
- Running past the last group calls the completion listener (`NextTaskQueue`).

The code does the following, which one might not expect:

- **Retry count.** `initTask` never copies the configuration's `retry` into the executor (`TaskPerformerImpl.ts:78-85`). The executor keeps the `retry` it was built with, 0 for every executor that `get task` creates.
- **Header collisions.** The global headers are written last (`TaskPerformerImpl.ts:80-81`, with `disposeHeader` at `249-255`), so on a key collision the global value wins over the request's.
- **Forwarders after cancel.** A request's forwarding closures (`Request.ts:193-202`) do not look at the queue's `canceled` flag. A request's own listeners are still called after the queue has been canceled.
- **Complete closure after cancel.** The group complete closure (`RequestQueue.ts:221-224`) does not look at `canceled` either. A canceled queue still moves on to the next group when one completes.

## Model

| member | source | states |
|---|---|---|
| Decimal.ParseNatToString | src/network/Logger.ts:22 | the numeral JavaScript writes for a non-negative integer reads back as that integer |
| Decimal.NatToStringInjective | src/network/Logger.ts:22 | different naturals are written as different numerals |
| Decimal.IntToStringInjective | src/network/DefaultDataParser.ts:15 | `String(n)` is injective on integers, negatives included |
| Decimal.NatToString | src/network/Logger.ts:22 | the numeral of a non-negative integer is a non-empty string of digits, one digit long exactly below 10 |
| Decimal.IntToString | src/network/DefaultDataParser.ts:15 | `String(n)` is never empty, and starts with a digit exactly when `n` is not negative |
| Json.IsEmpty | src/network/RequestUtils.ts:8-10 | a value is empty exactly when it is null, undefined or the empty string |
| Json.NotEmptyExamples | src/network/RequestUtils.ts:8-10 | "0", " ", 0, false, [] and {} are not empty |
| Json.DeepClone | src/network/RequestUtils.ts:37-63 | the clone, rebuilt element by element and key by key, equals the original value |
| Parsers.StatusIsOk | src/network/DefaultDataParser.ts:15 | `String(status) === "200"` holds for exactly the number 200 and the string "200" |
| Parsers.IsParser | src/network/DefaultDataParser.ts:7-9 | both built-in parsers accept every result |
| Parsers.DefaultResolve | src/network/DefaultDataParser.ts:11-23 | success exactly for a response with status 200, carrying its data. Any other response fails with `String(status)` and "HTTP 错误". A bare error fails with code "-1". Nothing at all calls no callback |
| Parsers.StringResolve | src/network/StringDataParser.ts:11-23 | classifies every input as the default parser does. On success it hands on the serialised payload, which is `undefined` when `JSON.stringify` gives no text |
| Parsers.Resolve | src/network/TaskPerformerImpl.ts:129-137 | the callback `dataParser` invokes: for either built-in parser, success exactly for a response with status 200, and no callback exactly when there is neither a response nor an error |
| Logger.Pad2 | src/network/Logger.ts:18-21 | `('0' + n).slice(-2)` is always two digits |
| Logger.Pad2Value | src/network/Logger.ts:18-21 | below 100 the two digits are n itself, zero-padded below 10 |
| Logger.MonthField | src/network/Logger.ts:18 | the 0-based months 0..11 are written "01".."12" |
| Logger.IndexOf | src/network/Logger.ts:3-13 | helper of `ParsePrefix`, the reader of the console prefix built here: the first position of a character, or the length when it is absent |
| Logger.SplitAtDigits | src/network/Logger.ts:22 | helper of `ParseTimestamp`, the reader of the timestamp joined here: a digit field followed by a non-digit separator splits back off at that separator |
| Logger.FieldsJoin | src/network/Logger.ts:22 | cutting a join of digit fields at its separators gives the fields back |
| Logger.ReadNatToString | src/network/Logger.ts:22 | an unpadded numeric field reads back as its number |
| Logger.ReadPad2 | src/network/Logger.ts:18-21 | a padded field below 100 reads back as its number |
| Logger.JoinTwo | src/network/Logger.ts:22 | helper of `ParseTimestamp`: joining two fields puts the one separator between them, so the reader finds it again |
| Logger.JoinTimestampFields | src/network/Logger.ts:22 | the six fields joined by the timestamp separators give the layout `Y-MM-D H:MM:SS` |
| Logger.ParseFieldsOf | src/network/Logger.ts:15-23 | six fields that read back as a date's fields parse as that date |
| Logger.TimestampRoundTrip | src/network/Logger.ts:15-23 | `__formatTimestamp` of a valid date with a non-negative year determines the date: parsing it gives the date back |
| Logger.FormatTimestamp | src/network/Logger.ts:15-23 | `__formatTimestamp` never writes a '[', so the brackets of the console prefix are unambiguous |
| Logger.ParseAfterTimestamp | src/network/Logger.ts:3-13 | any bracket-free text followed by " [LEVEL] [tag]" gives back the text, the level and the tag |
| Logger.LogPrefix | src/network/Logger.ts:3-13 | the console prefix of `log`, `warn` and `error` reads back as its timestamp, its level and its tag |
| Performer.HeaderMapLookup | src/network/TaskPerformerImpl.ts:195-201 | a key is in the header object iff some header has it, and then it holds the value of the last such header |
| Performer.HeaderMapConcat | src/network/TaskPerformerImpl.ts:249-255 | writing two header lists one after the other gives the object of their concatenation |
| Performer.GlobalHeaderWins | src/network/TaskPerformerImpl.ts:76-85 | on a key collision the global header wins; every other key keeps the request's value or stays absent |
| Performer.ParseHeaders | src/network/TaskPerformerImpl.ts:195-201 | the loop builds the header object of the list, a later duplicate overwriting an earlier one |
| Performer.IndexEntriesAt | src/network/TaskPerformerImpl.ts:173-190 | enumerating a string visits each index with its one-character string |
| Performer.IndexEntriesKeys | src/network/TaskPerformerImpl.ts:179 | a string enumerates exactly its indices, written in decimal, and no other key |
| Performer.DisposeDataIsNull | src/network/TaskPerformerImpl.ts:173-190 | an array is returned as it is. Otherwise the result is an object with exactly the entries of `data || {}` whose value is neither null nor undefined, each kept unchanged |
| Performer.EmptyStringKept | src/network/TaskPerformerImpl.ts:180-186 | an entry holding the empty string survives the clean-up |
| Performer.Entries | src/network/TaskPerformerImpl.ts:175-183 | exactly the own entries the clean-up loop visits, with a falsy body read as `{}`: none for a falsy body, a number or a boolean; an object's own fields; for a string, exactly its indices, each with its one-character string. An array is returned before the loop, and the model gives it none |
| Performer.ScanParsersOwner | src/network/TaskPerformerImpl.ts:123-141 | the callback comes from the first parser that calls one, provided every parser before it accepted the result |
| Performer.ScanParsersStops | src/network/TaskPerformerImpl.ts:125-127 | a parser rejecting the result ends the scan with no callback, whatever the later parsers would do |
| Performer.ScanParsersFrom | src/network/TaskPerformerImpl.ts:123-141 | every callback comes from some parser that all the earlier parsers let through |
| Performer.BuiltInParserOwns | src/network/TaskPerformerImpl.ts:123-141 | with a built-in parser first in the chain, that parser decides every response or error |
| Performer.InitOutcome | src/network/TaskPerformerImpl.ts:69-88 | `initTask` does not throw exactly when the url is a non-empty string and the configuration has a parser; a missing or empty url throws "Request URL 不能为空", before the parser check |
| Performer.TaskPerformer.constructor | src/network/TaskPerformerImpl.ts:25-57 | the field initialisers: state NONE, not aborted, no retries made, timeout 1000, nothing sent |
| Performer.TaskPerformer.InitTask | src/network/TaskPerformerImpl.ts:65-89 | throws "Request URL 不能为空" exactly when the url is empty, with nothing else set, and "没有数据解析器" when the configuration has no parser. Otherwise, and also on the second throw, the cleaned body, the verb, the merged headers and the whole configuration are in place |
| Performer.TaskPerformer.Adopt | src/network/TaskPerformerImpl.ts:73-85 | after the url check: the body without null entries, the verb (GET when unset), the merged headers and the configuration |
| Performer.TaskPerformer.AdoptConfig | src/network/TaskPerformerImpl.ts:78-85 | the configuration's fields are copied, and the global headers are written over the request's |
| Performer.TaskPerformer.DisposeHeader | src/network/TaskPerformerImpl.ts:249-255 | the header object afterwards is the old one overwritten by the global headers |
| Performer.TaskPerformer.AddSuccessListener | src/network/TaskPerformerImpl.ts:91-96 | appends the listener to the success list |
| Performer.TaskPerformer.AddFailListener | src/network/TaskPerformerImpl.ts:98-103 | appends the listener to the fail list |
| Performer.TaskPerformer.Run | src/network/TaskPerformerImpl.ts:61-63 | RUNNING, and exactly one more send with the stored url, verb, body and headers |
| Performer.TaskPerformer.Abort | src/network/TaskPerformerImpl.ts:165-168 | sets the abort flag and asks the transport to cancel once |
| Performer.TaskPerformer.CallSuccessListener | src/network/TaskPerformerImpl.ts:203-215 | SUCCESS, then one invocation of every success listener, in registration order, with the data and the response |
| Performer.TaskPerformer.CallFailListener | src/network/TaskPerformerImpl.ts:217-229 | FAIL, then one invocation of every fail listener, in order, with `{code, message, data}` |
| Performer.TaskPerformer.HandleFail | src/network/TaskPerformerImpl.ts:231-247 | a retry is due only when not aborted and the counter has not reached `retry`. It then counts up, resends the same request and notifies nobody. Otherwise the listeners are failed, with no resend |
| Performer.TaskPerformer.IsRetry | src/network/TaskPerformerImpl.ts:245-247 | while the counter has not passed `retry`, a retry is due exactly when it is still below `retry` |
| Performer.TaskPerformer.OnTransportResult | src/network/TaskPerformerImpl.ts:117-143 | walks the parser chain. The outcome is what the scan gives: nothing at all, success with the parser's data, a resend, or a failure fanned out. The retry counter never passes `retry` |
| Performer.FirstAttempt | src/network/TaskPerformerImpl.ts:61-89 | a configured executor with the default parser after its first send |
| Performer.AlwaysFailing | src/network/TaskPerformerImpl.ts:231-247 | for any running executor, not aborted and on its first attempt, whose last send carries its current parameters and whose parser chain fails on every attempt: that send and `retry` resends make exactly `retry + 1` sends of the same parameters, and the notifications of the whole run are one fan-out to the fail listeners, in order, with the chain's error |
| Performer.RepeatFront | src/network/TaskPerformerImpl.ts:236-240 | the first send followed by the resends is the same run of identical sends |
| Network.RequestConfig.constructor | src/network/RequestConfig.ts:8-22 | every setting starts unset |
| Network.RequestConfig.BaseUrl | src/network/RequestConfig.ts:24-26 | the stored base url, or "" when unset |
| Network.RequestConfig.Timeout | src/network/RequestConfig.ts:32-34 | never 0: the stored timeout unless unset or 0 (falsy), in which case 1000 |
| Network.RequestConfig.Headers | src/network/RequestConfig.ts:40-54 | the stored headers, or an empty list when unset |
| Network.RequestConfig.WithCredentials | src/network/RequestConfig.ts:56-58 | true only when set to true |
| Network.RequestConfig.ResponseType | src/network/RequestConfig.ts:72-74 | the stored type, or JSON when unset |
| Network.RequestConfig.Retry | src/network/RequestConfig.ts:93-95 | the stored count, or 0 when unset |
| Network.RequestConfig.DataParsers | src/network/RequestConfig.ts:108-110 | the stored parser list, or an empty one when unset |
| Network.RequestConfig.View | src/network/TaskPerformerImpl.ts:78-86 | the timeout `initTask` takes over is never 0, and the parser list it checks is empty exactly when no non-empty list was stored |
| Network.RequestConfig.SetBaseUrl | src/network/RequestConfig.ts:28-30 | stores the base url |
| Network.RequestConfig.SetTimeout | src/network/RequestConfig.ts:36-38 | stores the timeout |
| Network.RequestConfig.SetHeaders | src/network/RequestConfig.ts:44-50 | a single header is stored as a one-element list, a list as it is |
| Network.RequestConfig.SetWithCredentials | src/network/RequestConfig.ts:60-62 | stores the flag |
| Network.RequestConfig.SetAuto | src/network/RequestConfig.ts:68-70 | stores the auto header, possibly undefined |
| Network.RequestConfig.SetResponseType | src/network/RequestConfig.ts:76-78 | stores the response type |
| Network.RequestConfig.SetRetry | src/network/RequestConfig.ts:97-99 | stores the retry count |
| Network.RequestConfig.SetTask | src/network/RequestConfig.ts:85-91 | stores the executor |
| Network.RequestConfig.AddDataParser | src/network/RequestConfig.ts:101-106 | the parser list afterwards is the old list, empty when unset, with the parser appended |
| Network.RequestConfig.SetDataParsers | src/network/RequestConfig.ts:112-114 | stores the parser list |
| Network.RequestConfig.GetTask | src/network/RequestConfig.ts:80-83 | the stored executor, or otherwise a new idle executor with retry 0, no listeners and nothing sent |
| Network.Request.Create | src/network/Request.ts:27-52 | `createRequest` (lines 82-87) and the field initialisers: a new request with the url and the method, an empty body, no headers, an empty tag, not ignored, unbound and without listeners |
| Network.Request.Get | src/network/Request.ts:54-56 | a new unbound GET request |
| Network.Request.Delete | src/network/Request.ts:58-60 | a new unbound DELETE request |
| Network.Request.Head | src/network/Request.ts:62-64 | a new unbound HEAD request |
| Network.Request.Options | src/network/Request.ts:66-68 | a new unbound OPTIONS request |
| Network.Request.Post | src/network/Request.ts:70-72 | a new unbound POST request |
| Network.Request.Put | src/network/Request.ts:74-76 | a new unbound PUT request |
| Network.Request.Patch | src/network/Request.ts:78-80 | a new unbound PATCH request |
| Network.Request.SetIgnore | src/network/Request.ts:89-92 | stores the predicate and returns the request itself |
| Network.Request.SetSuccessListener | src/network/Request.ts:98-101 | stores the listener and returns the request itself |
| Network.Request.SetFailListener | src/network/Request.ts:103-106 | stores the listener and returns the request itself |
| Network.Request.SetFrontListener | src/network/Request.ts:108-111 | stores the listener and returns the request itself |
| Network.Request.SetUrl | src/network/Request.ts:121-123 | stores the url |
| Network.Request.SetData | src/network/Request.ts:129-132 | stores the body and returns the request itself |
| Network.Request.SetMethod | src/network/Request.ts:138-141 | stores the method and returns the request itself |
| Network.Request.SetHeaders | src/network/Request.ts:147-150 | stores the header list and returns the request itself |
| Network.Request.AddHeader | src/network/Request.ts:152-155 | appends the header, keeping any earlier one with the same key |
| Network.Request.SetTag | src/network/Request.ts:161-164 | stores the tag and returns the request itself |
| Network.Request.GetData | src/network/Request.ts:125-127 | a truthy body as it is, a falsy one as an empty object, so the result is always truthy |
| Network.Request.View | src/network/TaskPerformerImpl.ts:73 | the body `initTask` hands to `disposeDataIsNull` is never falsy, so its `data || {}` keeps it as it is |
| Network.Request.SetRequestConfig | src/network/Request.ts:179-186 | binds only once: a second call changes nothing. The first call binds the configuration and its executor, and registers the two forwarders on it. `initTask`'s outcome is its result, and the binding survives a throw. The executor's run state (state, sends, requests in flight, abort flag, retry counters) is what it was, or a new executor's, and an empty-url throw leaves its settings as they were |
| Network.Request.BuildTask | src/network/Request.ts:188-204 | the configuration's executor, or a new one with retry 0, gets the forwarders appended and is initialised from the request and the configuration; nothing is sent and its run state is left alone (`BoundTo`) |
| Network.Request.Attach | src/network/Request.ts:188-202 | the request's executor is the configuration's, or a new one, with the two forwarders appended to its lists and every other field as it was |
| Network.Request.ForwardSuccess | src/network/Request.ts:193-197 | the forwarding success closure calls at most the request's own success listener, nothing when none is set, and never a queue listener |
| Network.Request.ForwardFail | src/network/Request.ts:198-202 | the forwarding fail closure calls at most the request's own fail listener, nothing when none is set, and never a queue listener |
| Network.ParallelGroup.constructor | src/network/TaskQueueParallelImpl.ts:15-19 | no members and no closures |
| Network.ParallelGroup.SetHooks | src/network/TaskQueueParallelImpl.ts:60-70 | the queue's three closures are installed, the complete closure capturing the group counter |
| Network.ParallelGroup.SetCompleteHook | src/network/RequestQueue.ts:221-222 | the complete closure's counter after `count++` |
| Network.ParallelGroup.SetRequestTasks | src/network/TaskQueueParallelImpl.ts:88-90 | appends the executor to the group |
| Network.ParallelGroup.IsAllFinish | src/network/TaskQueueParallelImpl.ts:76-86 | true exactly when every member is in state SUCCESS (true for an empty group) |
| Network.ParallelGroup.Run | src/network/TaskQueueParallelImpl.ts:21-49 | an empty group completes at once when a complete closure is set. Otherwise every member, once per occurrence, gets one more pair of group closures and one more send with its own parameters. Nothing else about it changes |
| Network.ParallelGroup.Join | src/network/TaskQueueParallelImpl.ts:30-48 | one member gets the two group closures appended and is sent once |
| Network.ParallelGroup.Abort | src/network/TaskQueueParallelImpl.ts:54-58 | every member is aborted, one cancel per occurrence, and nothing else about it changes |
| Network.ParallelGroup.OnMemberSuccess | src/network/TaskQueueParallelImpl.ts:32-39 | the group's success closure first, then the complete closure exactly when every member has succeeded |
| Network.ParallelGroup.OnMemberFail | src/network/TaskQueueParallelImpl.ts:40-46 | the whole group is aborted, then the group's fail closure is called |
| Network.SerialGroup.constructor | src/network/RequestQueue.ts:124-127 | a new serial group with no members and no closures |
| Network.SerialGroup.SetHooks | src/network/RequestQueue.ts:199-224 | the queue's three closures are installed |
| Network.SerialGroup.SetCompleteHook | src/network/RequestQueue.ts:221-222 | the complete closure's counter after `count++` |
| Network.SerialGroup.SetRequestTasks | src/network/RequestQueue.ts:116 | appends the executor to the group |
| Network.SerialGroup.Run | src/network/RequestQueue.ts:226 | the group is run once more; its members may change in any way, since the serial run itself is not modelled |
| Network.QueueFailuresAppend | src/network/RequestQueue.ts:207-220 | queue failures in a combined trace add up |
| Network.EveryJoin | src/network/RequestQueue.ts:196-235 | a property of the events of two successive stretches of the trace holds for the whole stretch |
| Network.ProgressIsNotDelivery | src/network/RequestQueue.ts:221-234 | group starts and the queue's completion are not deliveries of success or failure |
| Network.NoFailures | src/network/RequestQueue.ts:207-220 | a stretch with no queue delivery holds no queue failure |
| Network.Forwarded | src/network/Request.ts:193-202 | a forwarder calls at most its request's own listener, never a queue listener |
| Network.RequestQueue.Create | src/network/RequestQueue.ts:80-84 | a new queue holds exactly one empty parallel group at the cursor, uncanceled, with no listeners |
| Network.RequestQueue.BelowParallel | src/network/RequestQueue.ts:136-142 | a new empty parallel group is appended and the cursor moves onto it, nothing else changes |
| Network.RequestQueue.BelowSerial | src/network/RequestQueue.ts:124-130 | a new empty serial group is appended and the cursor moves onto it, nothing else changes |
| Network.RequestQueue.SetSuccessListener | src/network/RequestQueue.ts:144-147 | stores the listener |
| Network.RequestQueue.SetFailListener | src/network/RequestQueue.ts:149-152 | stores the listener |
| Network.RequestQueue.SetCompleteListener | src/network/RequestQueue.ts:154-157 | stores the listener |
| Network.RequestQueue.GetTaskQueue | src/network/RequestQueue.ts:167-169 | the last group, or nothing for an empty queue |
| Network.RequestQueue.AddRequest | src/network/RequestQueue.ts:110-118 | with no group it throws "TaskQueue 出现错误!" and changes nothing. Otherwise it binds the request, keeping an earlier binding. When `initTask` throws, the group is unchanged. Otherwise the request's executor is appended to the group at the cursor, and no other group's members change. No group's closures, and no serial group's run count, change in either case |
| Network.RequestQueue.BindAndEnqueue | src/network/RequestQueue.ts:115-116 | binds, then appends the executor to the group at the cursor unless the binding threw |
| Network.RequestQueue.Bind | src/network/RequestQueue.ts:115 | `setRequestConfig` leaves every group of the queue as it was |
| Network.RequestQueue.Enqueue | src/network/RequestQueue.ts:116 | the executor is appended to exactly the group at the cursor |
| Network.RequestQueue.Record | src/network/RequestQueue.ts:196-235 | appending events that deliver nothing to the queue's listeners keeps the invariant |
| Network.RequestQueue.NextTaskQueue | src/network/RequestQueue.ts:196-235 | past the last group exactly the queue's completion is recorded. Otherwise the start of group `count` is recorded and the group is `Launched`, and everything that follows is progress to groups `count` and later. The list of groups, every group's members, the listeners and the canceled flag stay as they were, and every executor that no group `count` or later holds is as it was (`KeptBelow`) |
| Network.RequestQueue.StartAt | src/network/RequestQueue.ts:197-226 | the group's start is recorded, and only starts of groups `count` and later follow. The group is `Launched`: a group with executors holds the queue's three closures, the complete closure capturing `count`; each member, once per occurrence, has the group's member closures and one more send, or a serial group has one more run and no executor outside it changes. An empty parallel group completes within `run`, so group `count + 1` is started next, or the queue completes. Only executors held by group `count` or a later one change |
| Network.RequestQueue.StartParallel | src/network/RequestQueue.ts:199-226 | a parallel group is `Launched`; when it has no executors its complete closure moves on to the next group at once. Only executors held by group `count` or a later one change, and a group with executors changes none but its own members |
| Network.RequestQueue.OpenParallel | src/network/RequestQueue.ts:199-226 | the group's closures are set, its start is recorded and it is run: a group with executors is `Launched`, one without holds a complete closure capturing `count` and no executor changes |
| Network.RequestQueue.StartEmptyParallel | src/network/TaskQueueParallelImpl.ts:21-27 | a parallel group with no executors calls its complete closure within `run`: after its start, group `count + 1` starts or the queue completes, and only executors of later groups change |
| Network.RequestQueue.StartSerial | src/network/RequestQueue.ts:199-226 | a serial group is `Launched`: it holds the closures and has been run once more, and only its start is recorded. No executor outside the group changes; what the run does to the group's own members is left open |
| Network.ParallelGroup.Launch | src/network/RequestQueue.ts:199-226 | the group holds the queue's three closures and is run; it completes at once exactly when it has no members |
| Network.SerialGroup.Launch | src/network/RequestQueue.ts:199-226 | the group holds the queue's three closures and has been run once more; its members may change in any way |
| Network.RequestQueue.FireComplete | src/network/RequestQueue.ts:221-224 | the complete closure moves on to the group after its counter: that group's start comes first, or past the last group exactly the completion is recorded. It delivers nothing to the queue's listeners, leaves the canceled flag alone, and changes only executors held by that group or a later one |
| Network.RequestQueue.BumpHook | src/network/RequestQueue.ts:221-222 | the complete closure's `count++`: the counter it captured goes up by one, and the groups' members, the listeners and the trace stay as they were |
| Network.RequestQueue.SucceededEventsShape | src/network/RequestQueue.ts:199-206 | the queue's success closure (`SucceededEvents`) reports no failure, and reports anything exactly when the queue is not canceled and has a success listener |
| Network.RequestQueue.FailEventsShape | src/network/RequestQueue.ts:207-220 | the queue's fail closure, before cancel (`FailEvents`), calls the fail listener exactly once when one is set and never otherwise, and posts the context message exactly when error messages are shown and there is a context |
| Network.RequestQueue.OnGroupSuccess | src/network/RequestQueue.ts:199-206 | once canceled nothing happens; otherwise the success listener, when set, is called with the data and the response. No executor changes |
| Network.RequestQueue.OnGroupFail | src/network/RequestQueue.ts:207-220 | once canceled nothing happens. Otherwise the fail listener is called, then the context message `code + ": " + message`, and the queue is canceled for good. So the fail listener runs at most once per queue. No executor changes |
| Network.RequestQueue.Cancel | src/network/RequestQueue.ts:211-218 | the fail listener and the context message are recorded, and the queue is canceled |
| Network.RequestQueue.FailAccounted | src/network/RequestQueue.ts:207-220 | a queue that is not canceled and has kept the invariant holds at most one queue failure after the fail closure's events |
| Network.RequestQueue.HandleGroupCall | src/network/RequestQueue.ts:199-224 | the success closure records the queue's success events and changes nothing else (`CalledSuccess`). The fail closure records the fail listener and the context message unless the queue was already canceled, and leaves it canceled (`CalledFail`). The complete closure, when set, starts the group after its counter or completes the queue, changing only executors of that group and later ones; unset, it does nothing (`CalledComplete`). After cancel no success or failure passes to the application |
| Network.RequestQueue.Deliver | src/network/Request.ts:193-202 | a forwarder calls exactly its request's listener, whatever the queue's state, and changes no executor. A member closure of a group in the queue does what `MemberFailed` or `MemberSucceeded` states; one of a group outside the queue records nothing and changes no executor |
| Network.RequestQueue.MemberFailed | src/network/TaskQueueParallelImpl.ts:40-46 | every member of the group is aborted, once per occurrence, and no other executor changes. When the group holds the fail closure and the queue is not canceled, the fail listener and the context message are recorded and the queue cancels; otherwise nothing is recorded |
| Network.RequestQueue.MemberSucceeded | src/network/TaskQueueParallelImpl.ts:32-39 | the queue's success events are recorded when the group holds the success closure. When every member has succeeded and the complete closure is set, the next group's start follows, or the queue's completion, and only executors of later groups change; otherwise nothing more is recorded and no executor changes |
| Network.RequestQueue.SuccessHead | src/network/TaskQueueParallelImpl.ts:32-37 | the group's success closure records the queue's success events and changes no executor, and the group is done exactly when every member has succeeded and a complete closure is set |
| Network.RequestQueue.CompleteIf | src/network/TaskQueueParallelImpl.ts:36-38 | when the group is done, the next group's start or the queue's completion is recorded, and only executors of later groups change; otherwise nothing is recorded and no executor changes |
| Network.RequestQueue.OnTransportResult | src/network/TaskPerformerImpl.ts:121-141 | a completed send with its whole fan-out keeps the queue's invariant: after cancel no queue-level delivery, and the fail listener at most once |
| Network.RequestQueue.OnSerialGroupSignal | src/network/RequestQueue.ts:199-224 | a signal of a serial group that calls only the closures it was given has the effect `HandleGroupCall` states for that closure, and keeps the invariant |
| Network.RequestQueue.Request | src/network/RequestQueue.ts:92-95 | `addRequest`, then `request()`. With no group it throws and nothing is recorded. Otherwise the request is bound to the configuration unless it already was, its executor is appended to the group at the cursor, and group 0's start is recorded first |
| Network.RequestQueue.Start | src/network/RequestQueue.ts:96-103 | an empty queue stops at once: nothing is recorded and no executor changes. Otherwise group 0's start is recorded first and group 0 is `Launched`, so for a serial group 0 only its own members may have changed |

## Left out

- The transport (AxiosTaskImpl, `createRequest`, `runAbort`) and the asynchrony of completions are outside the model. A send and a cancel are logged, and each completion is a call of `OnTransportResult` that the environment makes. Timeouts, progress listeners and upload/download events are not modelled.
- The `Logger` console calls, and the `Logger.log` calls inside the queue and the executor: the model builds the printed prefix and nothing else. The current `Date` is a parameter.
- Loading hooks: `showLoading`/`closeLoading` (`RequestQueue.ts:171-181`) do nothing while `isShowLoading` is false, which is its only value, so they are not modelled.
- The static `RequestQueue.requestConfig` factory (`RequestQueue.ts:29`) is the `config` parameter of `AddRequest`. `setConfig` (`RequestQueue.ts:72-74`), `getConfig`/`setConfig` (`RequestQueue.ts:159-165`), `buildConfig` and `DEFAULT_DISK_USAGE_BYTES` are never reached from the core's operations.
- TaskQueueSerialImpl is not part of this model. Only its list of executors and its closure slots are modelled, and each signal it gives reaches the queue as `OnSerialGroupSignal`.
- Network.SerialGroup.Run: the real group starts its members one at a time; the model counts the run and lets it change the group's own members in any way, without following which of them are sent.
- Numbers are integers. Floating-point values, `NaN` and object key order are not modelled: an object is a map from its own enumerable keys. Array aliasing between request bodies is not modelled.
- `RequestUtils.judgeType` is not modelled separately: `DeepClone` branches on the value's shape, which is what `judgeType` reports for the values above.
- `JSON.stringify` is the `serialise` parameter of `StringParser`. It gives either a text or no text, and no text is handed on as `undefined`.
- A user-written parser is a pair of functions. The parser's response, a `Resolution`, names at most one callback, called at once. The model cannot express a `dataParser` that calls both `success` and `fail` in one call, or that calls one later, asynchronously (`TaskPerformerImpl.ts:128-140`).
- `isIgnore` and `frontListener` are stored and never consulted, as in the code.
- The throw "Request 的 Config 中没有 Task" of `buildTask` (`Request.ts:190-192`) cannot happen, because `get task` always returns an executor. `Network.Request.BuildTask` has no branch for it.
- The second argument of a success listener is a `ResponseEntity` holding the transport result's headers and the request (`TaskPerformerImpl.ts:206-208`). The model hands on the transport result it is built from.
- The built-in parsers pass the raw `result.status` as the fail code (`DefaultDataParser.ts:18`). The model keeps it as `String(status)`, which is what the queue's context message prints.
- A user-written parser that calls `success` without a result would make `callSuccessListener` throw on `result.headers`. The model does not represent this crash.
- Closures of parallel groups that are not in the queue do nothing in `RequestQueue.Deliver`: the model does not follow executors shared between queues.
- Network.RequestQueue.NextTaskQueue: it is not claimed that each group is started at most once. An executor added twice to one parallel group can call that group's complete closure twice in one fan-out.
- Network.RequestQueue.AddRequest: which other groups are left unchanged is stated by group object identity. It says nothing when a group object appears at two positions of the queue.
- Performer.TaskPerformer.CallSuccessListener: the listener list is a snapshot taken when the fan-out starts. The source's loop rereads the live `length` (`TaskPerformerImpl.ts:212`), so a listener appended during the fan-out is also called. An example is a group's run, started from an earlier group's complete closure, that adds a closure to an executor in both groups. The model does not call it.
- Performer.TaskPerformer.CallFailListener: the fail list is a snapshot in the same way (`TaskPerformerImpl.ts:226`).
- Performer.TaskPerformer.AdoptConfig: the parser list is copied by value. In the source the executor's `dataParses` is the configuration's own array (`TaskPerformerImpl.ts:85`, `RequestConfig.ts:108-110`), so a later `addDataParser` on that configuration also extends the executor's chain. The model's executor keeps the list it was initialised with.
- Network.RequestQueue.OnTransportResult: only the queue's invariant and the cancel guarantee are stated. The exact sequence of events is not, because it depends on every group an executor's listeners reach.
- Network.RequestQueue.Request: what group 0's run leaves behind is stated by `Start`, not repeated here; the events after the first group start are described only through the invariant.
- Network.RequestQueue.FireComplete: it states the next group's start or the completion, but not what that group's run leaves behind; `NextTaskQueue` states that.
- Network.RequestQueue.StartAt: the start of a group is recorded after its `run` returns, so that a nested start of the next group (an empty parallel group) follows it in the trace. The source's order of `showLoading` and `run` is kept; the record is a model event only.
- Performer.IndexEntries: a string is enumerated by Dafny characters, which are Unicode scalar values. JavaScript's `for (key in s)` visits UTF-16 code units, so a character outside the Basic Multilingual Plane gives one entry here and two (its surrogate halves) in the source.
- Performer.TaskPerformer.OnTransportResult: the response of a user-written parser is whatever its function returns. Exceptions thrown inside a listener or a parser are not modelled.
- Logger.TimestampRoundTrip: only years of zero or more are read back. A negative year's leading "-" would collide with the field separator.
- The `getState`, `getRequest`, `setRequest` and other one-line getters of the executor and the request are plain field reads and have no members of their own.

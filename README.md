# fieldkit module-common: the scheduler, the module protocol and its helpers, in Dafny

This project models the core of the fieldkit `module-common` firmware. That core is:

- a cooperative scheduler (`ActiveObject`) that advances the head of a task queue one step per tick;
- the one-transaction bus state machine (`StreamTwoWireTask`) that talks to plug-in modules over a shared two-wire bus;
- the module transport (`ModuleCommunications`), which holds one outstanding query and restarts a listen when a module answers RETRY;
- the protocol handler (`ModuleProtocolHandler`), which delays a query until its not-before time has passed and reports each query's conclusion as a `Finished` pair;
- the sequencers built on top of those:
  - the reading cycle `GatherReadings`, in its handler-based generation and its older queue-based one;
  - the module scan `AttachedDevices` and the queries it sends;
  - the transmission senders;
- the small helpers:
  - the HTTP response parser;
  - the URL splitter;
  - the two `Print` sinks;
  - the `Resource` ownership flag;
  - the `MessageBuffer` append buffer;
  - the fkfs block iterators;
  - the clock-skew rule `isTimeOff`.

## How state is modelled

Objects whose fields the firmware updates in place are Dafny classes with those fields. Pure rules are functions. Each method's postcondition ties its new state to a specification function of the old state, and lemmas prove what the firmware promises about those functions.

The clock (`millis()`, `fk_uptime()`) is a `now` parameter. What the bus, a byte source, a sink or a foreign library call would answer is also a parameter.

Hook calls the scheduler makes are recorded in ghost traces. So are queue hand-overs, `state->merge` calls and LED notifications.

Fixed-width unsigned arithmetic wraps explicitly (`Add32`, `Sub32`, `Add8`, `Low8`).

One module per source file:

| Dafny module | file | source |
|---|---|---|
| `Basics` | `basics.dfy` | shared `Option` and fixed-width arithmetic |
| `Messages` | `messages.dfy` | the query and reply fields the core touches |
| `ActiveObjects` | `active_object.dfy` | `src/active_object.cpp`, the queue as a sequence |
| `ActiveObjectLinks` | `active_object_links.dfy` | `src/active_object.cpp`, the queue as links |
| `TwoWire` | `two_wire_task.dfy` | `src/two_wire_task.cpp` |
| `ModuleComms` | `module_comms.dfy` | `src/module_comms.cpp` and `src/core/module_comms.h` |
| `EndToEnd` | `end_to_end.dfy` | transport + handler + two-wire task over one module |
| `GatherReadingsCore` | `gather_readings.dfy` | `src/core/gather_readings.cpp` |
| `CoreTasks` | `core_tasks.dfy` | `src/core.cpp` |
| `AttachedDevicesScan` | `attached_devices.dfy` | `src/attached_devices.cpp` |
| `ModuleQueries` | `module_queries.dfy` | `src/core/attached_devices.h` |
| `CStrings` | `c_strings.dfy` | C-string view, `atoi()`, `strncasecmp()` prefix test |
| `HttpResponse` | `http_response_parser.dfy` | `src/core/http_response_parser.cpp` |
| `Urls` | `url.dfy` | `Url` of `src/utils.h` |
| `Printers` | `printers.dfy` | `PrintSizeCalculator` and `BufferPrinter` of `src/utils.h` |
| `Resources` | `resource.dfy` | `Resource<T>` of `src/wifi_client.h` |
| `MessageBuffers` | `message_buffer.dfy` | `MessageBuffer` of `src/message_buffer.h` |
| `FkfsTasks` | `fkfs_tasks.dfy` | `src/fkfs_tasks.cpp` |
| `Rtc` | `rtc.dfy` | `isTimeOff` and `MaximumLengthOfTimeString` of `src/rtc.h` |

## Behaviour worth knowing

| situation | what the code does |
|---|---|
| a receive-only two-wire task that reads no bytes | fails on its first poll after its 200 ms wait; every step moves the reply deadline to `now` + `MaximumTwoWireReply` before testing it, so only a zero-byte receive ends it (`src/two_wire_task.cpp:24-43`, `TwoWire.ReceiveOnlyWithoutReply`) |
| a send whose reply deadline `millis() + MaximumTwoWireReply` wraps to exactly 0 | the next step takes `dieAt == 0` as "not sent yet" and sends a second buffer (`src/two_wire_task.cpp:29-31,61`, `TwoWire.SendAgainAfterDeadlineWraps`) |
| `service()` on a Yield | pops the task, clears its link, calls `idle()`, links the follow-up and then the task at the end, and calls `enqueued()` on neither (`src/active_object.cpp:44-51`) |
| the idle task's step returns Yield | the idle task is linked into the queue like any other task (`src/active_object.cpp:44-51,76-78`) |
| status "begin" in the older `GatherReadings` | ends the readings (`src/core.cpp:34-48`); the handler-based generation polls again (`CoreTasks.GenerationsDifferOnBegin`) |

## Model

| member | source | states |
|---|---|---|
| ActiveObjects.ActiveObject.Tail | src/active_object.cpp:103-112 | the last queued task, and none exactly when the queue is empty |
| ActiveObjects.ActiveObject.End | src/active_object.cpp:114-119 | the head slot exactly when the queue is empty, otherwise the tail's link |
| ActiveObjects.ActiveObject.Link | src/active_object.cpp:23 | storing into the slot `end()` gave appends the task and calls no hook |
| ActiveObjects.ActiveObject.Push | src/active_object.cpp:21-25 | the task goes after all queued tasks, which keep their order; then exactly one `enqueued()` of that task |
| ActiveObjects.ActiveObject.Pop | src/active_object.cpp:27-31 | exactly the head is removed; an empty queue stays empty; no hook is called |
| ActiveObjects.ActiveObject.Service | src/active_object.cpp:41-71 | evaluates the task once. Yield: re-queued behind the follow-up, `idle()` called. Done/Error: task hook, then object hook, then the follow-up pushed. Idle/Busy: the queue is unchanged; the list stays duplicate-free |
| ActiveObjects.ActiveObject.Tick | src/active_object.cpp:73-82 | services the head, or the idle task while the queue is empty, and calls `idle()` after every tick that found the queue empty |
| ActiveObjects.ActiveObject.Step | src/active_object.cpp:33-39 | one tick, then Done exactly when the queue has drained and Idle otherwise |
| ActiveObjects.ActiveObject.IsIdle | src/active_object.cpp:84-86 | idle exactly when no task at all is queued |
| ActiveObjects.ActiveObject.Cancel | src/active_object.cpp:97-101 | the queue ends empty and no hook at all is called |
| ActiveObjects.TickEvaluatesOnlyHead | src/active_object.cpp:73-75 | a tick on a non-empty queue evaluates the head's `task()` and no other, exactly once |
| ActiveObjects.TickCompletesHeadOnlyOnDoneOrError | src/active_object.cpp:52-70 | `done()`/`error()` are called by a tick only for the head, only on Done or Error, and then once |
| ActiveObjects.ServiceKeepsDistinct | src/active_object.cpp:44-70 | the relinking of every outcome keeps each task linked at most once |
| ActiveObjects.DoneRunDispatchesInPushOrder | src/active_object.cpp:52-60 | ticks that all return Done evaluate the tasks exactly in push order, each once, and drain the queue |
| ActiveObjects.YieldRunRotates | src/active_object.cpp:44-51 | k Yields rotate the first k tasks to the back, in order, each evaluated once |
| ActiveObjects.EvaluationsConcat | src/active_object.cpp:42 | the evaluations of two traces in sequence are the evaluations of each, in order |
| ActiveObjects.CompletionsConcat | src/active_object.cpp:56-66 | the same for `done()`/`error()` calls |
| ActiveObjectLinks.Traverse | src/active_object.cpp:107-111 | following links from a head yields that head first and never more tasks than the bound |
| ActiveObjectLinks.ChainTraverses | src/active_object.cpp:103-112 | links that spell a queue lead from the head through exactly that queue and stop at the null link |
| ActiveObjectLinks.NullLinkIsLast | src/active_object.cpp:108 | in links that spell a queue, a task's link is null if and only if it is the last task |
| ActiveObjectLinks.LinkedQueue.Tail | src/active_object.cpp:103-112 | the loop over the links returns the last task, and none for an empty queue |
| ActiveObjectLinks.LinkedQueue.Push | src/active_object.cpp:21-25 | the tail's link (or the head) now names the task, the task's own link is untouched, and the links spell the old queue plus the task when that link was null |
| ActiveObjectLinks.LinkedQueue.Pop | src/active_object.cpp:27-31 | the head moves to its link and no link is cleared; the links still spell the rest of the queue |
| ActiveObjectLinks.LinkedQueue.CancelAsWritten | src/active_object.cpp:97-101 | the queue is empty but every link is left as it was |
| ActiveObjectLinks.LinkedQueue.Cancel | src/active_object.cpp:97-101 | corrected: the queue is empty, every cancelled task's link is null and no other link changes |
| ActiveObjectLinks.StaleLinkAfterCancel | src/active_object.cpp:21-25 | push a, b; cancel; push a: the links from the head then name a and b |
| ActiveObjectLinks.RequeueAfterCancel | src/active_object.cpp:46 | the same sequence with the links cleared on cancel leaves only a queued |
| TwoWire.StreamTwoWireTask.Configure | src/module_comms.cpp:40 | assigning a fresh task object clears every deadline and counter and sets the address and mode |
| TwoWire.StreamTwoWireTask.Enqueued | src/two_wire_task.cpp:14-22 | deadlines and counters cleared; the check time is now+200 in receive-only mode and 0 otherwise |
| TwoWire.StreamTwoWireTask.Task | src/two_wire_task.cpp:24-44 | before the check time: Idle and nothing changes. Send phase: exactly `send()`. After a send: timeout past the deadline, else `receive()`. Receive-only: the deadline is pushed out first, so it cannot time out without wrap-around. Once sent, never sent again unless the reply deadline wraps to 0 |
| TwoWire.StreamTwoWireTask.Send | src/two_wire_task.cpp:46-66 | end of stream → Done; nothing ready → Idle in the send phase; refused send → Error; a sent buffer → deadline now+maximum, check now+100, Idle |
| TwoWire.StreamTwoWireTask.Receive | src/two_wire_task.cpp:68-85 | no bytes → Error; a short write into the sink → Error; otherwise → Done, with the received count recorded |
| TwoWire.ReceiveOnlyWithoutReply | src/two_wire_task.cpp:19-43 | receive-only at 0 ms: Idle at 199 ms, and an empty poll fails at 2999 ms and at 3001 ms |
| TwoWire.SendThenReply | src/two_wire_task.cpp:29-43 | a sent query with a reply after the 3000 ms deadline times out; one at the deadline completes |
| TwoWire.SendAgainAfterDeadlineWraps | src/two_wire_task.cpp:29-63 | a send 3000 ms before the clock wraps leaves the deadline at 0, and the next step after the 100 ms check sends a second buffer with a new deadline |
| ModuleComms.AnyResponsesAsWritten | src/core/module_comms.h:19-21 | as written: true when the uint32 sum of reply, retry, busy and malformed is not 0 |
| ModuleComms.AnyResponses | src/core/module_comms.h:19-21 | corrected: true when the sum of the four counters is positive |
| ModuleComms.AnyResponsesAgreeWithoutWrap | src/core/module_comms.h:19-21 | without wrap the two agree, and the expected, missed and timeouts counters never matter |
| ModuleComms.AnyResponsesWrapsToNone | src/core/module_comms.h:19-21 | 2^32-1 replies and one retry read as no responses |
| ModuleComms.FinishedPredicates | src/core/module_comms.h:90-105 | `is` names at most one query; truthy exactly when a query is named; a reply, or no expected replies, is never an error |
| ModuleComms.ModuleCommunications.Enqueue | src/module_comms.cpp:9-15 | requires no query held; stores the address and query and marks the query held; nothing else changes |
| ModuleComms.ModuleCommunications.Busy | src/core/module_comms.h:66-68 | busy exactly when a module address is set, and then a query is held |
| ModuleComms.ModuleCommunications.Available | src/module_comms.cpp:17-19 | a reply is waiting exactly when one has been stored and not dequeued; while busy it belongs to the held query |
| ModuleComms.ModuleCommunications.Dequeue | src/module_comms.cpp:17-25 | requires a reply; returns it and leaves no reply available |
| ModuleComms.ModuleCommunications.Task | src/module_comms.cpp:27-74 | idle: nothing changes. Busy with a query: exactly one sending transaction starts and the reply flag clears. RETRY: one receive-only transaction to the same address, still busy, no reply. Any other completion: address 0, a reply only for a decoded non-RETRY |
| ModuleComms.ModuleProtocolHandler.Push | src/module_comms.cpp:79-82 | the active slot is emptied; the pending slot is the query with not-before now+delay, or 0 for no delay |
| ModuleComms.ModuleProtocolHandler.IsBusy | src/module_comms.cpp:84-86 | busy exactly when the active or the pending slot names a non-zero address, whatever its query |
| ModuleComms.ModuleProtocolHandler.Handle | src/module_comms.cpp:88-119 | submits the pending query exactly when the transport is free and the not-before time has passed. Then concludes the active query: with its reply (calling `reply()`), else without one once the transport is free; otherwise nothing |
| EndToEnd.Exchange | src/two_wire_task.cpp:24-85 | a rebuilt two-wire task run against one module completes with the module's answer; an address nobody acknowledges completes with no bytes |
| EndToEnd.RetryIsTransparent | src/module_comms.cpp:55-62 | a module that answers RETRY n times: the caller gets its final reply; the transport sent once, then only re-listened n times at the same address |
| EndToEnd.StartQuery | src/module_comms.cpp:29-45 | a pushed query is submitted and its sending transaction started |
| EndToEnd.RetryRound | src/module_comms.cpp:55-62 | one RETRY answer: the handler reports nothing and one receive-only transaction starts |
| EndToEnd.FinalRound | src/module_comms.cpp:64-69 | the module's real answer concludes the query with that reply and starts nothing |
| EndToEnd.NoModuleAnswers | src/module_comms.cpp:109-115 | a query nobody answers concludes without a reply, an error exactly when replies were expected |
| EndToEnd.DelayedQueryWaits | src/module_comms.cpp:89-97 | a delayed query is not submitted before its not-before time and is submitted just after it |
| EndToEnd.AbandonedReplyGoesToNextQuery | src/module_comms.cpp:79-82 | `push()` before the previous reply is collected: the new query is concluded with the old reply |
| GatherReadingsCore.BusLease.TryAcquire | src/core/gather_readings.cpp:12 | succeeds exactly when the bus is free, and then this task owns it |
| GatherReadingsCore.BusLease.Release | src/core/gather_readings.cpp:95-96 | requires ownership; the bus is free afterwards |
| GatherReadingsCore.PollDelay | src/core/gather_readings.cpp:54-58 | the module's backoff when it gave one, 300 ms otherwise; never 0 |
| GatherReadingsCore.FollowUpRule | src/core/gather_readings.cpp:52-83 | begin → status polled with the module's backoff. Status done → polled at once. Begin/busy → polled after the delay. Any other status → end. No follow-up for other queries |
| GatherReadingsCore.ErrorOutcomeRule | src/core/gather_readings.cpp:85-92 | an error of the begin or status query fails the task; any other Finished leaves it Idle |
| GatherReadingsCore.GatherReadings.Enqueued | src/core/gather_readings.cpp:11-28 | pushes the begin query to address 8 only when the bus was acquired and a sensor module exists; otherwise pushes nothing |
| GatherReadingsCore.GatherReadings.Task | src/core/gather_readings.cpp:30-50 | Done while the handler is idle. The start time is recorded only on the first busy tick. A concluded error fails; any other conclusion goes to `done(finished)`; otherwise Idle |
| GatherReadingsCore.GatherReadings.DoneFinished | src/core/gather_readings.cpp:52-83 | pushes exactly the follow-up the rule names, merges a done status, and resets the retries unless the readings end |
| GatherReadingsCore.GatherReadings.Finish | src/core/gather_readings.cpp:94-106 | releases the bus only when this task owns it, and always notifies that the readings are done |
| GatherReadingsCore.QueryRound | src/core/gather_readings.cpp:30-83 | one submitted query answered by the module is concluded with that reply and followed up by the rule |
| GatherReadingsCore.BeginCycle | src/core/gather_readings.cpp:11-60 | enqueue and the begin query's round leave the status query pending behind a 500 ms backoff |
| GatherReadingsCore.ReadingCycle | src/core/gather_readings.cpp:11-106 | a full cycle: begin, backoff, a merged reading polled again at once, then the end; each query sent once at address 8, and the bus is free again |
| CoreTasks.PushedRule | src/core.cpp:23-50 | the status task is pushed after begin and each status except a final one, behind the delay task unless a reading was merged; the delay task pushes nothing |
| CoreTasks.GenerationsDifferOnBegin | src/core.cpp:34-48 | on status "begin" this generation ends the readings, while the handler-based one polls again |
| CoreTasks.GatherReadingsTasks.Enqueued | src/core.cpp:13-21 | no modules: nothing pushed and no LED. Otherwise the reading LED and the begin task, once |
| CoreTasks.GatherReadingsTasks.Done | src/core.cpp:23-50 | pushes exactly the rule's tasks in that order, sets the delay to the backoff (300 ms without one) when it pushes the delay task, merges a done status, and clears the LED after a final status |
| CoreTasks.Complete | src/core.cpp:23-50 | a tick that finishes the only task leaves the tasks the rule pushes for it |
| CoreTasks.ReadingCycle | src/core.cpp:13-50 | a cycle runs begin, delay, status, status in that order; merges the one reading and drains the queue |
| CoreTasks.TransmissionSender.Enqueued | src/core.cpp:56-59 | prepares the transmission once and then pushes it once (SendTransmission and SendStatus) |
| CoreTasks.SendOnce | src/core.cpp:68-71 | one enqueue prepares and queues the transmission exactly once |
| AttachedDevicesScan.AttachedDevices.Query | src/attached_devices.cpp:32-37 | rebuilds the capabilities task for the address and pushes it once |
| AttachedDevicesScan.AttachedDevices.Resume | src/attached_devices.cpp:16-20 | queries the current address when it is not 0; the terminator pushes nothing |
| AttachedDevicesScan.AttachedDevices.Scan | src/attached_devices.cpp:11-14 | restarts at the first address, then resumes |
| AttachedDevicesScan.AttachedDevices.Idle | src/attached_devices.cpp:22-30 | scans only when no module is known and it never scanned or more than 30000 ms passed (wrapping time); records the scan time |
| AttachedDevicesScan.AttachedDevices.Done | src/attached_devices.cpp:39-62 | capabilities → merged, sensor 0 queried. Sensor → merged, the next index queried while below the count (uint8), else the next address. Other tasks change no scan state |
| AttachedDevicesScan.AttachedDevices.Error | src/attached_devices.cpp:64-67 | advances the address index by exactly one and resumes |
| AttachedDevicesScan.AnswerSensor | src/attached_devices.cpp:45-54 | a sensor answer merges that reply, then queries the next sensor or passes the end of the list |
| AttachedDevicesScan.ScanOneModule | src/attached_devices.cpp:11-62 | one module with n sensors: its capabilities then one reply per sensor (one if n is 0) are merged, and the scan ends with nothing queued |
| ModuleQueries.QueryCapabilities.Query | src/core/attached_devices.h:30-33 | the query asks for capabilities and carries the clock time; other fields stay |
| ModuleQueries.QueryCapabilities.Reply | src/core/attached_devices.h:35-43 | keeps the type and the two counts truncated to uint8, and the firmware strings |
| ModuleQueries.QueryCapabilities.IsCommunications | src/core/attached_devices.h:46-48 | the kept type is the communications type, and then the module is not a sensor |
| ModuleQueries.QueryCapabilities.IsSensor | src/core/attached_devices.h:50-52 | the kept type is the sensor type, and then the module is not a communications module |
| ModuleQueries.QueryCapabilities.GetNumberOfSensors | src/core/attached_devices.h:54-56 | the sensor count kept from the last reply (modulo 256, by Reply) |
| ModuleQueries.CapabilitiesClassifyByReply | src/core/attached_devices.h:46-52 | never both a communications and a sensor module; for a type below 256 exactly the kind it reported |
| ModuleQueries.QuerySensorCapabilities.Query | src/core/attached_devices.h:73-76 | the query asks about the current sensor index |
| ModuleQueries.QuerySensorCapabilities.Reply | src/core/attached_devices.h:78-83 | the index grows by one, modulo 256 |
| ModuleQueries.QuerySensorCapabilities.GetSensor | src/core/attached_devices.h:85-87 | the index the next query asks about |
| ModuleQueries.SensorQueriesWalkTheIndices | src/core/attached_devices.h:73-87 | alternating query and reply asks about sensors 0, 1, …, n-1 in turn |
| ModuleQueries.QueryFirmware.Query | src/core/attached_devices.h:96-98 | the query asks for the firmware; other fields stay |
| CStrings.CStr | src/core/http_response_parser.cpp:36 | the C string of a buffer is its prefix before the first NUL |
| CStrings.CStrStopsAtNul | src/core/http_response_parser.cpp:43 | a NUL ends the C string whatever follows it |
| CStrings.LeadingDigits | src/core/http_response_parser.cpp:58 | the longest prefix of digits |
| CStrings.AtoiDecimal | src/core/http_response_parser.cpp:58 | `atoi()` reads a numeral back whatever non-digit text follows |
| CStrings.DecimalValue | src/core/http_response_parser.cpp:58 | a numeral's digit value is the number it spells |
| HttpResponse.HttpResponseParser.Begin | src/core/http_response_parser.cpp:19-28 | a fresh response: reading the header, counters and status zero, buffer and etag empty, content length kept |
| HttpResponse.HttpResponseParser.Write | src/core/http_response_parser.cpp:30-80 | one character moves the parser exactly as the step function says |
| HttpResponse.HttpResponseParser.WriteStatus | src/core/http_response_parser.cpp:31-47 | the status-line branch follows its step function |
| HttpResponse.HttpResponseParser.WriteLineEnd | src/core/http_response_parser.cpp:49-68 | a CR or LF in the header follows the line-end function |
| HttpResponse.HttpResponseParser.Put | src/core/http_response_parser.cpp:41-44 | a character is stored only while it fits with its NUL; no other field changes |
| HttpResponse.HttpResponseParser.ReadLine | src/core/http_response_parser.cpp:57-64 | what the prefix tests see: the line, the number after "Content-Length: ", the text after "ETag: " |
| HttpResponse.FeedConcat | src/core/http_response_parser.cpp:30 | feeding two pieces is feeding their concatenation |
| HttpResponse.FeedKeepsBound | src/core/http_response_parser.cpp:41-44 | the buffer never holds more than BufferSize-1 characters, so its NUL always fits |
| HttpResponse.ZeroStatusIgnoresRest | src/core/http_response_parser.cpp:31-32 | once the status token reads as 0, all further input is ignored |
| HttpResponse.FeedToken | src/core/http_response_parser.cpp:40-45 | a token without spaces is collected clipped to the buffer |
| HttpResponse.StatusCodeIsSecondToken | src/core/http_response_parser.cpp:31-38 | the status is `atoi()` of the (clipped) token between the first two spaces, and of the whole token when it fits |
| HttpResponse.FeedLineText | src/core/http_response_parser.cpp:69-76 | header text is collected and resets the line-end count |
| HttpResponse.HeaderLine | src/core/http_response_parser.cpp:57-67 | a CR LF line: "Content-Length: " (any case) sets the length, "ETag: " sets the etag, otherwise neither; the buffer is emptied |
| HttpResponse.LineFields | src/core/http_response_parser.cpp:57-64 | the content length and etag a line end sets from the buffered line |
| HttpResponse.CrLfEndsLine | src/core/http_response_parser.cpp:49-55 | CR LF after text looks at the line and counts one line end |
| HttpResponse.BlankLineEndsHeader | src/core/http_response_parser.cpp:49-55 | "\r\n\r\n" ends the header from any point not already past a line end |
| HttpResponse.HeaderEndRule | src/core/http_response_parser.cpp:49-70 | the header ends exactly on the LF that brings the count to 2; any other character resets the count; an ended header stays ended |
| HttpResponse.ResponseWithHeader | src/core/http_response_parser.cpp:19-80 | status line, header, blank line: the status is the line's; the header is over; the length is the header's or the previous one |
| HttpResponse.StatusLine | src/core/http_response_parser.cpp:31-55 | a status line and its CR LF set the status and count one line end |
| HttpResponse.BlankLine | src/core/http_response_parser.cpp:49-55 | CR LF after a header line ends the header |
| Urls.PortScan | src/utils.h:69-77 | the port loop. At a '/': a cut there, the port read and the path after it. At the terminator: one cut, port 80, no path |
| Urls.Walk | src/utils.h:63-84 | the corrected walk's result is well formed and keeps a server once found |
| Urls.UrlOf | src/utils.h:62-85 | corrected constructor: server, cuts and path are well formed |
| Urls.WalkAsWritten | src/utils.h:62-85 | the outer loop as written: it over-reads only when no server was found and the string ends in "//"; any other result is well formed |
| Urls.UrlAsWritten | src/utils.h:62-85 | the constructor as written: an over-read only for a string ending in "//", otherwise a well-formed split |
| Urls.Cut | src/utils.h:67-82 | the buffer after the NUL writes: NUL exactly at the cut positions |
| Urls.AsWrittenAgrees | src/utils.h:63-66 | the walk as written over-reads exactly when the first "//" ends the string, and otherwise equals the corrected walk |
| Urls.OverReadAtEnd | src/utils.h:63-66 | "http://" as written reads the character after the terminator |
| Urls.NoSlashes | src/utils.h:57-64 | without "//": no server, no path, port 80 |
| Urls.HostAndPath | src/utils.h:79-82 | "scheme://host/path": server "host", path "path", port 80 |
| Urls.TrailingSlashStaysInServer | src/utils.h:63 | "scheme://host/": the last '/' is never examined and stays in the server; no path |
| Urls.HostPortAndPath | src/utils.h:67-76 | "scheme://host:N/path": server "host", port N modulo 2^16, path "path" |
| Urls.HostPortNoPath | src/utils.h:69-78 | "scheme://host:rest" without a '/': server "host", port 80, no path |
| Urls.PortOfDecimal | src/utils.h:73 | a decimal port reads back modulo 2^16 (the uint16_t field) |
| Urls.CutCString | src/utils.h:67-82 | in the cut buffer, the C string at a part's start ends at the next NUL written |
| Urls.CutParts | src/utils.h:55-85 | the C strings the server and path fields point at are the URL's parts |
| Urls.CutServer | src/utils.h:66-68 | the server's C string runs to the first cut or to the end |
| Urls.CutPath | src/utils.h:74-81 | the path's C string runs to the end of the URL |
| Urls.CutUrl | src/utils.h:62-85 | the pointer loop over the array writes exactly the corrected walk's NULs and returns its server, path and port |
| Urls.CutAtColon | src/utils.h:67-78 | the ':' branch writes the port scan's NULs and returns its path and port |
| Urls.PortAtSlash | src/utils.h:71-73 | the text between ':' and '/' is the C string the cut leaves at the port |
| Urls.Url.constructor | src/utils.h:62-85 | the fields point at the parts of the URL, and the buffer holds the cuts |
| Printers.PrintSizeCalculator.Write | src/utils.h:97-100 | always reports 1 and counts one more byte (size_t wraps at 2^32) |
| Printers.BufferPrinter.Write | src/utils.h:113-120 | with room: stores the byte, keeps a NUL after it, reports 1. Full: reports 0 and changes nothing |
| Printers.PrintTo | src/utils.h:113-120 | bytes written until refused: the contents grow by exactly the accepted prefix, and the NUL follows it |
| Printers.CountTo | src/utils.h:97-100 | the calculator takes every byte and counts them modulo 2^32 |
| Printers.SizeThenPrint | src/utils.h:88-122 | count a text, allocate one more, print: the buffer holds the exact text |
| Printers.PrintTruncated | src/utils.h:113-120 | a BufferPrinter of n characters keeps exactly the first n bytes of a longer text |
| Resources.Resource.Acquire | src/wifi_client.h:28-32 | requires availability; records the time, and acquired at time 0 it still reads as available |
| Resources.Resource.Available | src/wifi_client.h:20-22 | free exactly when no acquisition time is recorded |
| Resources.Resource.TryAcquire | src/wifi_client.h:34-40 | acquires and reports true exactly when available; otherwise changes nothing |
| Resources.Resource.Release | src/wifi_client.h:42-45 | requires it held; available afterwards |
| Resources.TakeTurns | src/wifi_client.h:20-45 | while one holder has the resource the next is refused; after release the next gets it |
| Resources.AcquiredAtZero | src/wifi_client.h:20-32 | acquired at time 0, a second `tryAcquire()` also succeeds |
| MessageBuffers.MessageBuffer.Size | src/message_buffer.h:22-24 | the number of bytes appended since the last clear |
| MessageBuffers.MessageBuffer.Empty | src/message_buffer.h:30-32 | holds exactly when nothing has been appended |
| MessageBuffers.MessageBuffer.Clear | src/message_buffer.h:26-28 | the contents are empty |
| MessageBuffers.MessageBuffer.Append | src/message_buffer.h:34-36 | requires room, since the code does not check; the byte goes after the others, the size grows by one, and the rest of the array is unchanged |
| MessageBuffers.Fill | src/message_buffer.h:26-36 | clear then append bytes one by one leaves exactly those bytes, in order |
| FkfsTasks.ReadRule | src/fkfs_tasks.cpp:131-145 | a new block only when there was none or it was used up; size = min(request, what is left); position advances by it within the block |
| FkfsTasks.ContiguousReads | src/fkfs_tasks.cpp:137-143 | two reads from one block return adjacent slices that make up the bytes between |
| FkfsTasks.FkfsStreamingIterator.Read | src/fkfs_tasks.cpp:131-145 | moves the block source and returns the slice as the read rule says |
| FkfsTasks.PeekCounts | src/fkfs_tasks.cpp:65-105 | a block only from an unfinished, started or openable walk; the count grows by the block's size, from 0 at the start; a finished walk returns nothing |
| FkfsTasks.PeekEnd | src/fkfs_tasks.cpp:93-101 | at the end: finished when the counts agree; otherwise truncated and restarted from cleared counters |
| FkfsTasks.FkfsIterator.Beginning | src/fkfs_tasks.cpp:23-30 | clears finished, start, count and status time; the total from the new iterator |
| FkfsTasks.FkfsIterator.Peek | src/fkfs_tasks.cpp:65-105 | follows the peek rule and does not step the fkfs iterator |
| FkfsTasks.FkfsIterator.Move | src/fkfs_tasks.cpp:107-117 | peek, and step the fkfs iterator exactly when a block came back |
| FkfsTasks.WalkTwoBlocks | src/fkfs_tasks.cpp:65-117 | a two-block file: both blocks in order, then none; two steps; the count equals the size; finished |
| Rtc.ToLong | src/rtc.h:78 | `(long)` of a uint32: a 32-bit signed value congruent to it modulo 2^32 |
| Rtc.Distance | src/rtc.h:77-78 | the circular distance of two uint32 times: at most 2^31, and 0 exactly when equal |
| Rtc.AbsOfDifference | src/rtc.h:78 | `abs((long)(now - time))` is the circular distance, except at 2^31 where it is LONG_MIN |
| Rtc.IsTimeOffAsWritten | src/rtc.h:66-84 | the code as written: never off with an invalid clock, always off for time 0, and off only for a time other than now |
| Rtc.IsTimeOff | src/rtc.h:66-84 | the corrected rule: the same invalid-clock and time-0 cases, and off only for a time other than now |
| Rtc.IsTimeOffRule | src/rtc.h:66-84 | invalid clock: never off. Time 0: off. Otherwise off exactly when more than 300 s away either way (mod 2^32) |
| Rtc.AsWrittenDiffersOnlyAtHalfRange | src/rtc.h:77-83 | the code as written reports as the rule does, except for a difference of exactly 2^31 |
| Rtc.HalfRangeIsNotOff | src/rtc.h:77-83 | now = 0x80000001, time = 1: as written not off, by the rule off |
| Rtc.MaximumLengthOfTimeStringValue | src/rtc.h:13-18 | 19, the characters of "0000/00/00 00:00:00", one less than its array with the NUL |

## Left out

- I/O and logging: `log()`, the LED calls other than the notifications recorded as events, and `status()` progress lines are not modelled.
- Clock: every `millis()`/`fk_uptime()` call within one method is the same `now`; one that moves between two calls in the same method is not modelled.
- The wire encoding (nanopb): the query as encoded bytes, the reply as decoded. A reply is either decoded with its RETRY tag and capabilities fields, or nothing. `MessageBuffer`'s `write`, `read`, `send` and `receive` are not modelled.
- The task queue the transport prepends to: each hand-over is recorded as a `Transaction`. In `EndToEnd` the two-wire task is run directly.
- `StreamTwoWireTask` collaborators: the bus, the outgoing reader and the incoming writer are answers passed in. `MaximumTwoWireReply` is a constructor parameter; the end-to-end model uses TwoWireMaximumReplyWait = 3000 (src/tuning.h:22).
- `ModuleCommunications` completion: `twoWireTask.completed()` and `received()` are not part of the shown source. A tick takes the completion as an input.
- The reading queries `beginTakeReading` and `queryReadingStatus` are not part of this model: what their `reply()` hooks keep (backoff, begin/busy/done) is an input QueryReport.
- The delay task of `src/core.cpp` is an id with its duration.
- The bus lease: `peripherals.twoWire1()` is not shown; `BusLease` models only the owner behaviour the task relies on.
- `state->numberOfModules` and `state->merge`: module counts are inputs, and merges are recorded.
- `ModuleQuery::name()` strings, and `QueryCapabilities::firmware()` beyond the stored pair of strings.
- `QueryFirmware::reply` only logs: its model has no state, so it changes nothing.
- The module type enum values are not shown: only the fact that the two values differ is used.
- `HttpResponseParser`: `BufferSize` is a constructor parameter, because the header is not part of this model. The `HttpResponseParser` declared in `src/utils.h:124-143` is another generation without a body here and is not modelled. `atoi()` has no overflow: integers are unbounded.
- `FkfsIterator`: `open`, `reopen`, `end`, `truncate`'s file calls and `status()`; the fkfs calls are inputs (FsReport). `fkfs_tasks.h` is not part of this model, so the counters are assumed uint32 and a DataBlock is truthy exactly when it holds a block.
- `MessageBuffer`: FK_MODULE_PROTOCOL_MAX_MESSAGE is a constructor parameter.
- `timeToString` formatting and the clock chip of `src/rtc.h` are not modelled; the clock's validity and time are parameters.
- ActiveObjects.ActiveObject.Push / ActiveObjects.CanService: pushing a task that is already queued, which makes the source's list a cycle that `tail()` never leaves, is excluded by precondition; `service()` pops before it pushes a follow-up and the callers push onto an emptied queue, so the callers modelled meet it.
- TwoWire.StreamTwoWireTask: `bytesReceived` is a `nat`, and the cast `(int32_t)bytesReceived` before it is compared with the sink's write count (`src/two_wire_task.cpp:77`) is not modelled, because the field's width is declared in `src/two_wire_task.h`, which is not part of this model; a received count is at most the bus buffer's size, so the cast does not change it.
- `Resource<T>`'s guarded object and `resource()` are not modelled; only the ownership flag is.

## Findings

| source | as written | input that shows it | evidently intended | confidence | as-written member | corrected member |
|---|---|---|---|---|---|---|
| src/utils.h:63-66 | after "//", `p += 2` and the loop's `++p` skip the server's first character; when "//" ends the string, the loop test reads the character after the terminator | "http://" | stop at the terminator: server empty, no path, port 80 | medium, not executed | Urls.UrlAsWritten / Urls.AsWrittenAgrees / Urls.OverReadAtEnd | Urls.UrlOf / Urls.Url.constructor |
| src/rtc.h:77-83 | `abs((long)(now - time))` of a difference of 2^31 is `abs(LONG_MIN)`, undefined and in practice negative, so the time is not off | now = 0x80000001, time = 1 | a time 2^31 s away is off | low (68 years apart), not executed | Rtc.IsTimeOffAsWritten / Rtc.HalfRangeIsNotOff | Rtc.IsTimeOff / Rtc.IsTimeOffRule / Rtc.AsWrittenDiffersOnlyAtHalfRange |
| src/active_object.cpp:97-101 | `cancel()` pops without clearing `nextTask`, unlike `service()` (lines 46, 55, 64); a cancelled task pushed again still links to the task after it | push a, push b, cancel, push a: the queue reads a, b | only a is queued | high, not executed | ActiveObjectLinks.LinkedQueue.CancelAsWritten / ActiveObjectLinks.StaleLinkAfterCancel | ActiveObjectLinks.LinkedQueue.Cancel / ActiveObjectLinks.RequeueAfterCancel |
| src/core/module_comms.h:19-21 | the four counters are added in uint32_t before the comparison with 0, so a sum of 2^32 reads as no responses | reply = 0xFFFFFFFF, retry = 1 | true whenever any counter is positive | low (needs 2^32 responses), not executed | ModuleComms.AnyResponsesAsWritten / ModuleComms.AnyResponsesWrapsToNone | ModuleComms.AnyResponses / ModuleComms.AnyResponsesAgreeWithoutWrap |

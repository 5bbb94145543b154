# SignalR Lua client core, modelled in Dafny

This project models the native core of a Lua module that connects a game
script to a SignalR hub. The core has five parts:

- **ThreadSafeQueue** (`Queues`): the mutex-guarded FIFO behind every hand-off
  between the network threads and the Lua thread. Without the lock it is a
  class whose contents are one sequence.
- **EventManager** (`Events`, `EventDispatch`):
  - the registry of Lua callback references per event name (`on`, `off`,
    `offAll`, `callbackCount`, `isRefValid`, `clear`);
  - the queue of pending events, and its dispatch in `processEvents`. The
    legacy `WebS[name]` handler runs first, then every registered reference.
    A reference that went stale is skipped, and a failing callback does not
    stop the ones after it.
  - Lua is a `Host`: for each handler, the calls it makes back into the
    manager and whether it raises an error. Every invocation and every
    reference release is recorded, in order, as an `Effect`.
- **WebSClient** (`Client`, `Lifecycle`, `Backoff`, `Url`, `Inbound`):
  - `connect` with its URL scheme check and its reset of the lifecycle fields;
  - the worker thread's episode: first start, connected wait, failure report,
    reconnect loop, cleanup;
  - `handleDisconnected`; the reconnect loop with its exponential backoff;
  - `disconnect`, `send`, `sendAsync` with its completions, `getMessage`,
    `processEvents` and `shutdown`.
  - The transport's behaviour is a script: how each start attempt ends, and
    where a stop request from another thread is noticed. The lifecycle is
    written once as functions (`Lifecycle`), and the class's methods are
    proved to change their fields exactly as those functions say.
  - The atomics `status_`, `reconnectAttempts_`, `reconnecting_`,
    `stopThread_` and `destroyed_` form one record-valued field, `life`,
    together with whether `connection_` is held and which server methods
    its handlers route. A store to several of them is a single update of
    that field.
- **Logger** (`Logging`):
  - SignalR's own log entries are split into a level and a message;
  - the level is padded to a nine-character column;
  - trailing line breaks are removed;
  - one line `[timestamp] [level    ] message` is appended.
  - The log file is a sequence of lines, the clock is a timestamp parameter,
    and whether the file opens is a flag.
- **Types** (`Types`): the connection status enumeration and its names, the
  event, server message and async result records, and the reconnect policy
  with its defaults.

The event manager's `processEvents` returns the number of events in the
swapped-out snapshot, not the number of handler invocations
(`Events.EventManager.ProcessEvents`). `EventDispatch.QuietEventCount`
relates the two counts when no handler calls back.

## Model

| member | source | states |
|---|---|---|
| Types.Ordinal | Types.h:9-15 | every status has an underlying value in 0..4 |
| Types.OrdinalsInOrder | Types.h:9-15 | the enumerators are numbered 0..4 in declaration order, and distinct statuses have distinct values |
| Types.StatusNamesDistinct | Types.h:17-26 | two statuses have the same name exactly when they are the same status |
| Types.StatusName | Types.h:17-26 | the name of each enumerator's value, and "disconnected" for any other value |
| Types.StatusToString | Types.h:17-26 | the name of a status, through its underlying value |
| Types.DefaultReconnectConfig | Types.h:40-46 | disabled, 5 attempts, 1000 ms initial delay, 30000 ms cap, multiplier 2 |
| Types.DefaultAsyncResult | Types.h:28-33 | callback reference -1, no value, empty error, not successful |
| Types.OutOfRangeNamedDisconnected | Types.h:17-26 | the default branch names every value outside the enumerators like DISCONNECTED |
| Types.Decimal | WebSClient.cpp:310 | std::to_string of an attempt number is a non-empty run of ASCII digits, without a leading zero unless the number is 0 |
| Types.DecimalValue | WebSClient.cpp:310 | the digits read back as the number they render |
| Queues.ThreadSafeQueue.Push | ThreadSafeQueue.h:11-14 | the item is appended at the back and nothing else changes |
| Queues.ThreadSafeQueue.TryPop | ThreadSafeQueue.h:16-24 | false, with the item untouched and the queue unchanged, exactly when the queue is empty; otherwise the front element is returned and removed |
| Queues.ThreadSafeQueue.Size | ThreadSafeQueue.h:26-29 | the number of queued items |
| Queues.ThreadSafeQueue.Empty | ThreadSafeQueue.h:31-34 | true exactly when no item is queued |
| Queues.ThreadSafeQueue.Clear | ThreadSafeQueue.h:36-40 | the queue is empty afterwards |
| Queues.ThreadSafeQueue.Swap | ThreadSafeQueue.h:43-46 | the contents are exchanged with the other queue, and the two together lose and duplicate nothing |
| Queues.PopsFollowPushOrder | ThreadSafeQueue.h:11-24 | between clears, the popped items followed by the remaining items are the initial contents followed by the pushed items, in push order |
| Queues.SizeCountsPushesAndPops | ThreadSafeQueue.h:11-29 | between clears, the size is the initial size plus the pushes minus the successful pops |
| Events.Register | EventManager.cpp:11-26 | the reference is appended to the name's list, every other name keeps its list, and no name is left with an empty list |
| Events.RemoveFirstMultiset | EventManager.cpp:28-48 | removing a reference from a list takes away one copy of it when there is one, and nothing else |
| Events.RemoveFirstLength | EventManager.cpp:36-43 | the list is unchanged when the reference is absent, and one shorter when it is present |
| Events.RemoveFirstAt | EventManager.cpp:36-43 | the entry removed is the first one equal to the reference |
| Events.UnregisterEffect | EventManager.cpp:28-48 | `off` removes the first matching entry of that name only, and the count drops by one exactly when the reference was registered |
| Events.UnregisterUnknownIsNoop | EventManager.cpp:28-48 | `off` with a reference that is not registered under the name leaves the registry unchanged |
| Events.RegisterThenUnregister | EventManager.cpp:11-48 | `on` with a fresh reference followed by `off` of it restores the registry |
| Events.UnregisterKeepsInvariant | EventManager.cpp:28-48 | `off` keeps every list non-empty and every reference below the next one to be handed out |
| Events.UnregisterAllEffect | EventManager.cpp:50-62 | after `offAll` the name has no callbacks, and the other names keep theirs |
| Events.ReleasedRefsOfReleases | EventManager.cpp:58-60 | releasing a list releases exactly its references, with their multiplicity |
| Events.ReleasedRefsCount | EventManager.cpp:100-104 | a run made only of releases releases one reference per effect |
| Events.AllRefsRemove | EventManager.cpp:95-108 | the references of the whole registry are one name's references plus those of all the others, whichever name is taken first |
| Events.EventManager.On | EventManager.cpp:11-26 | -1 and no change without a Lua state or a function; otherwise a fresh reference, appended to the name's list |
| Events.EventManager.Off | EventManager.cpp:28-48 | with a Lua state, the first matching entry goes, the name goes once its list is empty, and the reference is released only if it was found |
| Events.EventManager.FindRef | EventManager.cpp:36-43 | the index of the first entry equal to the reference, or the list's length when it is absent |
| Events.EventManager.OffAll | EventManager.cpp:50-62 | with a Lua state, every reference of the name is released in order and the name is removed |
| Events.EventManager.ReleaseAll | EventManager.cpp:58-60 | one release per reference, in list order; the registry is unchanged |
| Events.EventManager.Emit | EventManager.cpp:64-66 | the event is appended to the queue and nothing is invoked |
| Events.EventManager.CallbackCount | EventManager.cpp:110-115 | the length of the name's list, which is 0 exactly when nothing is registered for it |
| Events.EventManager.IsRefValid | EventManager.cpp:117-125 | true exactly when the reference is registered under the name |
| Events.EventManager.CallLegacyCallback | EventManager.cpp:168-200 | without a Lua state nothing happens; otherwise WebS[name] is invoked when it exists |
| Events.EventManager.CallCallbacks | EventManager.cpp:127-166 | the copied list is walked in order; a reference that is stale at its turn is skipped; a failing callback does not stop the rest |
| Events.EventManager.ProcessEvents | EventManager.cpp:68-93 | without a Lua state, 0 and no change; otherwise the snapshot is dispatched in FIFO order and its size is returned |
| Events.EventManager.DispatchEvent | EventManager.cpp:79-87 | one event runs the legacy handler first, then the registered callbacks |
| Events.EventManager.PerformActions | EventManager.cpp:156-164 | the calls a running callback makes back into the manager take effect in order |
| Events.EventManager.ReleaseRegistry | EventManager.cpp:100-104 | only releases are recorded, one per registered reference: exactly the references of the registry, with multiplicity; the registry is unchanged |
| Events.EventManager.Clear | EventManager.cpp:95-108 | without a Lua state nothing changes; with one, the new effects are releases only, exactly of the registered references, the registry is emptied and pending events are dropped |
| EventDispatch.RefCalls | EventManager.cpp:140-165 | one invocation per reference, in list order, each with its handler's outcome |
| EventDispatch.QuietCallRefs | EventManager.cpp:127-166 | when no handler calls back, every registered reference is invoked in order, and nothing else changes |
| EventDispatch.QuietDispatch | EventManager.cpp:79-87 | when no handler calls back, one event invokes the legacy handler if present, then every registered reference, even after a failure |
| EventDispatch.QuietBatch | EventManager.cpp:68-93 | when no handler calls back, a batch leaves the registry and the queue alone and records exactly the per-event invocations, event after event |
| EventDispatch.QuietEventCount | EventManager.cpp:110-115 | without a legacy handler, one event causes exactly callbackCount invocations, of the registered references in order |
| EventDispatch.PerformShape | EventManager.cpp:28-66 | a callback's calls add only reference releases, and queue exactly the events it emits |
| EventDispatch.DispatchGrows | EventManager.cpp:79-87 | dispatching one event queues exactly the events its invoked handlers emit |
| EventDispatch.BatchGrows | EventManager.cpp:68-93 | a batch queues exactly the events its invoked handlers emit, in order |
| EventDispatch.EmittedEventsDeferred | EventManager.cpp:71-72 | events emitted during a batch stay queued behind the batch and are not dispatched in it |
| EventDispatch.PerformKeepsStale | EventManager.cpp:28-62 | the off and offAll calls a callback makes never make a reference valid again |
| EventDispatch.StaleReferenceSkipped | EventManager.cpp:140-143 | for every registry, copied list and host: a reference not valid for the event when callCallbacks starts is never invoked during it, stays invalid, and the earlier effects are kept |
| EventDispatch.CallRefsAppend | EventManager.cpp:139-164 | running the copied list in two parts is the same as running it whole |
| EventDispatch.RemovedByEarlierCallbackSkipped | EventManager.cpp:139-143 | for every input: a reference removed by the callbacks that ran before a given turn is not invoked at that turn or any later one |
| EventDispatch.StaleReferenceExample | EventManager.cpp:140-143 | for example, with references [1, 2] where reference 1 calls off on reference 2, only reference 1 is invoked and reference 2 is released |
| Backoff.ClampAttempt | WebSClient.cpp:60-61 | the exponent is the attempt clamped to 0..20 |
| Backoff.Delay | WebSClient.cpp:58-67 | the raw delay truncated toward zero when it lies in 0..maxDelayMs; maxDelayMs when it exceeds that or is negative; never more than maxDelayMs |
| Backoff.DelayWithinCap | WebSClient.cpp:62-66 | with a non-negative cap the delay lies in 0..maxDelayMs |
| Backoff.DelayMonotone | WebSClient.cpp:58-67 | with a non-negative initial delay and a multiplier of at least 1, a later attempt never waits less |
| Backoff.AttemptSaturates | WebSClient.cpp:61 | every attempt beyond the twentieth waits as long as the twentieth |
| Backoff.DefaultSchedule | Types.h:40-46 | the default policy waits 1000, 2000, 4000, 8000, 16000 and then 30000 ms |
| Url.FindFrom | WebSClient.cpp:72 | the first occurrence at or after the position, or none |
| Url.Find | WebSClient.cpp:72 | the first occurrence of the separator, or none |
| Url.ToLower | WebSClient.cpp:77 | the C-locale lower-casing of every character |
| Url.Normalize | WebSClient.cpp:72-82 | without "://" the secure scheme is prepended; otherwise the url is kept exactly when its lower-cased scheme is http or https, and refused otherwise |
| Url.NormalizedHasScheme | WebSClient.cpp:72-82 | every url connect accepts is stored with a supported scheme |
| Url.NormalizeIdempotent | WebSClient.cpp:72-82 | normalising a stored url changes nothing |
| Url.RefusedIffBadScheme | WebSClient.cpp:72-82 | a url is refused exactly when it has a separator and its scheme is not supported |
| Url.UpperCaseSchemeKept | WebSClient.cpp:76-78 | an upper-case scheme is accepted and the url keeps its case |
| Url.OtherSchemeRefused | WebSClient.cpp:78-80 | a ws scheme is refused |
| Url.MissingSchemeMadeSecure | WebSClient.cpp:73-74 | a url without a scheme gets https |
| Inbound.StringArgsAppend | WebSClient.cpp:498-507 | converting arguments works one argument at a time, so it distributes over concatenation |
| Inbound.StringArgsKeepsConvertible | WebSClient.cpp:498-507 | strings, numbers and booleans all get through, each at its own position |
| Inbound.OtherArgumentDropped | WebSClient.cpp:498-507 | an argument of any other kind is dropped without a placeholder |
| Inbound.ToEvents | WebSClient.cpp:494-511 | one event per server call, in arrival order, named by the method, with the converted arguments |
| Inbound.DeliverableExactly | WebSClient.cpp:522-557 | every completion with a callback reference is handed on as often as it was queued, and none without one: none lost, none invented, none duplicated |
| Inbound.QuietPump | WebSClient.cpp:485-513 | when no handler calls back, pending events are delivered first and server calls after them, nothing stays queued, and every server call counts twice |
| Inbound.SecondGenerationStaysQueued | WebSClient.cpp:513 | events emitted by callbacks of the second drain stay queued for the next call |
| Lifecycle.RetryTurn | WebSClient.cpp:296-304 | one turn after the loop test: a stop noticed there drops the guard; otherwise the counter is bumped, and past a positive limit the give-up error is emitted and the guard dropped |
| Lifecycle.AttemptTurn | WebSClient.cpp:306-383 | the rest of a turn: RECONNECTING and OnReconnecting with the attempt number, the backoff of the previous attempt number slept, then a stop in the backoff or the start, a failed start (CONNECTING, go round) or a successful one (CONNECTED, counter reset, OnReconnected) |
| Lifecycle.Loop | WebSClient.cpp:296-386 | the reconnect loop as a function of its script: turns until a stop, a give-up, a reconnect or the end of the script, the guard dropped after a stop at the loop test |
| Lifecycle.Reconnect | WebSClient.cpp:272-387 | attemptReconnect: nothing when disabled or already running, otherwise the guard is raised and the loop runs |
| Lifecycle.Cleanup | WebSClient.cpp:226-250 | the worker's exit path: no connection, destroyed, DISCONNECTED |
| Lifecycle.StartedEpisode | WebSClient.cpp:193-208 | a successful first start: connection held with the registered methods routed, CONNECTED, counter reset, guard dropped, OnConnect, then the cleanup once the connected wait ends |
| Lifecycle.FailedStartAsWritten | WebSClient.cpp:210-219 | a failed first start as the source has it: DISCONNECTED and the OnError report, then the reconnect loop unless stopped, and no cleanup after it |
| Lifecycle.EpisodeAsWritten | WebSClient.cpp:146-251 | the worker's run as the source has it: the first start and its outcome, the cleanup after the connected wait or a stopped failure, none after the reconnect loop |
| Lifecycle.Episode | WebSClient.cpp:146-251 | the corrected run (see Findings): as written, with the cleanup also after the reconnect loop unless the script ran out |
| Lifecycle.HandleDisconnected | WebSClient.cpp:253-270 | the disconnect notification: ignored once destroyed or DISCONNECTED, otherwise DISCONNECTED with OnError or OnDisconnect, then a reconnect only after an error with no stop requested |
| Lifecycle.Announce | WebSClient.cpp:310 | one OnReconnecting per attempt |
| Lifecycle.AnnounceAt | WebSClient.cpp:297-310 | the i-th announcement carries the attempt number from+i+1 |
| Lifecycle.WaitsAt | WebSClient.cpp:306-312 | the i-th sleep is the backoff delay of attempt index from+i |
| Lifecycle.LoopTurn | WebSClient.cpp:296-383 | a failed start sends the loop round again with the counter bumped |
| Lifecycle.LoopShape | WebSClient.cpp:296-386 | the loop's events are consecutive announcements followed by the give-up error, OnReconnected or nothing, and its sleeps are the matching delays |
| Lifecycle.ReconnectShape | WebSClient.cpp:272-387 | every reconnect announces consecutive attempt numbers after the counter, sleeps the matching delay before each, and ends with the give-up error, OnReconnected or nothing more |
| Lifecycle.LoopExits | WebSClient.cpp:296-386 | only a successful retry connects and resets the counter; a stop leaves the request set; giving up leaves the counter one past the limit; every finished loop drops its guard |
| Lifecycle.TurnExits | WebSClient.cpp:297-383 | a turn either ends the loop in one of those states or goes round still guarded |
| Lifecycle.LoopBounded | WebSClient.cpp:297-304 | with a positive limit the loop announces at most the attempts left under it, and all of them when it gives up |
| Lifecycle.ReconnectBounded | WebSClient.cpp:272-387 | a reconnect from a counter within a positive limit announces at most the attempts left, and all of them before giving up |
| Lifecycle.ReconnectGuard | WebSClient.cpp:279-287 | a reconnect returns at once, changing and emitting nothing, exactly when reconnection is disabled or another loop is running |
| Lifecycle.LoopExitKinds | WebSClient.cpp:296-386 | the loop only stops, gives up, reconnects, or runs out of script |
| Lifecycle.ReconnectOutcome | WebSClient.cpp:272-387 | a finished reconnect from a disconnected state drops its guard, and holds a connection with the counter reset exactly when it reconnected |
| Lifecycle.EpisodeEndsDisconnected | WebSClient.cpp:146-251 | every finished worker episode, with the cleanup after the reconnect loop, ends DISCONNECTED without a connection or the guard |
| Lifecycle.EpisodeReportsFirstFailure | WebSClient.cpp:210-212 | a failed first start is reported before anything the reconnect loop emits |
| Lifecycle.HandleDisconnectedEffect | WebSClient.cpp:253-270 | ignored once destroyed or DISCONNECTED; otherwise DISCONNECTED, OnError or OnDisconnect first, and a reconnect only after an error with no stop requested |
| Lifecycle.RetriesThenReconnects | WebSClient.cpp:296-378 | two failed retries and a third that succeeds: three announcements, delays 1000, 2000, 4000, OnReconnected, connected with the counter reset |
| Lifecycle.AlwaysFailingGivesUp | WebSClient.cpp:210-219 | with a limit of three and a server that never answers, three announcements then the give-up error; the episode as written stays CONNECTING, the corrected one ends DISCONNECTED |
| Lifecycle.ReconnectedEpisodeSkipsCleanup | WebSClient.cpp:210-219 | after a successful retry, once the connected wait ends (say, on a stop request), the episode as written stays CONNECTED with the connection held; the corrected one ends DISCONNECTED |
| Client.Completion | WebSClient.cpp:446-460 | the completion carries the callback reference, succeeds exactly when a value came back, and holds either the value or "Invoke failed" |
| Client.WebSClient.constructor | WebSClient.h:68-91 | DISCONNECTED, no attempts, no flags, the default reconnect policy, empty queues and registry |
| Client.WebSClient.SetLuaState | WebSClient.cpp:32-34 | the Lua state is recorded |
| Client.WebSClient.SetReconnectConfig | WebSClient.cpp:44-47 | the policy is replaced |
| Client.WebSClient.Connect | WebSClient.cpp:69-124 | true exactly when the url is accepted, the client is not CONNECTED and the spawn succeeds; a refusal changes nothing; otherwise url and token are stored and the lifecycle fields are reset |
| Client.WebSClient.RegisterServerMethod | WebSClient.cpp:126-129 | the method name is added to the set |
| Client.WebSClient.UnregisterServerMethod | WebSClient.cpp:131-134 | the method name is removed from the set |
| Client.WebSClient.OnServerMessage | WebSClient.cpp:136-144 | a call is queued only when the held connection routes its method and the client is not destroyed |
| Client.WebSClient.ReleaseConnection | WebSClient.cpp:226-250 | the connection is dropped, the client marked destroyed and DISCONNECTED |
| Client.WebSClient.AttemptReconnect | WebSClient.cpp:272-387 | fields, emitted events, sleeps and exit are those of the reconnect function, with the loop's invariant |
| Client.WebSClient.RetryOnce | WebSClient.cpp:297-316 | one turn changes the fields exactly as the turn function says |
| Client.WebSClient.AttemptOnce | WebSClient.cpp:306-383 | the announcement, the delay and the start attempt change the fields exactly as the attempt function says |
| Client.WebSClient.HandleDisconnected | WebSClient.cpp:253-270 | fields, events, sleeps and exit are those of the disconnect function |
| Client.WebSClient.ConnectionThread | WebSClient.cpp:146-251 | fields, events, sleeps and exit are those of the corrected episode |
| Client.WebSClient.RunConnected | WebSClient.cpp:193-208 | a successful first start connects, emits OnConnect, and is cleaned up once the connected wait ends |
| Client.WebSClient.RunAfterFailedStart | WebSClient.cpp:210-219 | the corrected failure path (see Findings): the failure is reported at 211-212 and the reconnect loop runs unless stopped; the cleanup that follows the loop here is the correction, since the source returns at 217 without it |
| Client.WebSClient.RetryThenRelease | WebSClient.cpp:216-217 | the corrected step after a failed first start (see Findings): the reconnect loop, then the release of the connection unless the script ran out; the source returns at 217 without the release |
| Client.WebSClient.Disconnect | WebSClient.cpp:389-396 | a stop request unless DISCONNECTED; nothing else changes |
| Client.WebSClient.Send | WebSClient.cpp:412-433 | true exactly when CONNECTED with a connection and the invoke does not throw |
| Client.WebSClient.SendAsync | WebSClient.cpp:435-466 | true exactly when CONNECTED with a connection and the invoke does not throw |
| Client.WebSClient.Complete | WebSClient.cpp:446-460 | the completion is queued unless the client is destroyed |
| Client.WebSClient.GetMessage | WebSClient.cpp:468-474 | the oldest message, removed; the empty string when there is none |
| Client.WebSClient.QueueSize | WebSClient.cpp:476-478 | the number of queued messages |
| Client.WebSClient.ConvertArgs | WebSClient.cpp:498-507 | the convertible arguments as strings, in order |
| Client.WebSClient.EmitServerCalls | WebSClient.cpp:494-511 | one event per server call appended in order, and their number |
| Client.WebSClient.DeliverCompletions | WebSClient.cpp:522-557 | exactly the completions with a callback are handed to Lua, in order, and counted |
| Client.WebSClient.ProcessEvents | WebSClient.cpp:480-560 | 0 and no change without a Lua state, once destroyed, or after a stop; otherwise a drain, the server calls as events, a second drain, the completions, and the summed count |
| Client.WebSClient.Shutdown | WebSClient.cpp:562-594 | destroyed, stopped, joined, connection released and DISCONNECTED, with the counter, the guard and the routed methods untouched; with a Lua state the event manager releases exactly its references and nothing else and is emptied; the three queues are emptied |
| Logging.Find | Logger.cpp:52-53 | the first position at or after the start holding the character, or none |
| Logging.LastNonSpace | Logger.cpp:57 | the last position that is not a space, or none when all are spaces |
| Logging.SkipSpaces | Logger.cpp:64-67 | the first non-space at or after the position, or the end, with only spaces skipped |
| Logging.ParseSignalRMessage | Logger.cpp:46-73 | the level and message are those of the parse function |
| Logging.ReadBracketed | Logger.cpp:56-71 | the trimmed level, and the message from the first non-space after the bracket, or the whole entry if none |
| Logging.UnbracketedEntryKept | Logger.cpp:47-55 | an entry without '[' keeps level "info" and the whole entry as message |
| Logging.UnclosedEntryKept | Logger.cpp:52-55 | an opening bracket with no closing one after it also keeps the default |
| Logging.ParseBracketed | Logger.cpp:52-71 | for the shape SignalR writes, the level between the brackets and the message after the spaces come back exactly |
| Logging.ParsedMessage | Logger.cpp:64-71 | the message is the whole entry, or a non-empty tail of it that does not start with a space |
| Logging.ParsedLevel | Logger.cpp:56-62 | the level has no ']' and ends with a space only when it is all spaces |
| Logging.Spaces | Logger.cpp:78 | n spaces |
| Logging.FormatLevel | Logger.cpp:75-81 | the level, padded with spaces to nine characters; a longer level is kept whole |
| Logging.PaddedLevelReadsBack | Logger.cpp:57-59 | a level that does not end in a space comes back from its padded column unchanged |
| Logging.Chomp | Logger.cpp:96-99 | a prefix of the message that does not end in a line break, with only line breaks removed |
| Logging.TrimLineEnd | Logger.cpp:96-99 | the message without its trailing CR and LF characters |
| Logging.ChompKeepsBody | Logger.cpp:96-99 | only the trailing breaks go; breaks in the middle stay |
| Logging.LineFields | Logger.cpp:101 | timestamp, level column and message sit at offsets fixed by the lengths of the timestamp and the level, and the line does not end in a line break of the message |
| Logging.Logger.LogInternal | Logger.cpp:83-103 | one formatted line is appended when the file opens, and nothing otherwise |
| Logging.Logger.Write | Logger.cpp:19-24 | the entry's parsed level and message are logged |
| Logging.Logger.Info | Logger.cpp:26-28 | a line with level "info" |
| Logging.Logger.Error | Logger.cpp:30-32 | a line with level "error" |
| Logging.Logger.Success | Logger.cpp:34-36 | a line with level "success" |
| Logging.Logger.Debug | Logger.cpp:38-40 | a line with level "debug" |
| Logging.Logger.LuaError | Logger.cpp:42-44 | a line with level "lua_error" and the message "Event '<name>': <error>" |

## Left out

- The Lua C API is not modelled. This covers pushing values, the stack, `lua_pcall`, `luaL_ref` and `luaL_unref`, and `pushSignalRValueToLua`. A callback's behaviour is a `Host` entry, and a reference is an integer from a counter that is never reused.
- LuaBindings.cpp and dllmain.cpp are not part of this model.
- Threads, mutexes and atomics are not modelled. Every operation is one atomic step, and the worker thread's run is one method call. Interleavings inside an operation, and races between the worker and the Lua thread, are not captured.
- Clocks and timeouts are not modelled. The 15-second start timeout, the 50 ms and 200 ms polling sleeps and the 5-second stop wait become script steps (`StartFails`, `StartTimedOut`, where a stop is noticed). The backoff sleeps are recorded as their lengths.
- The connected wait after a start is not modelled as a loop. It ends at once, as though a stop request or a lost connection had ended it.
- `Backoff.Delay`: the multiplier is an exact real. The float multiplier and double arithmetic of the source, and their rounding, are not modelled.
- `Types.Decimal`: only natural numbers are rendered. `std::to_string` of a double argument is kept as opaque text in `NumberValue`.
- `Logging.Logger.LogInternal`: the timestamp is a parameter. The file is a sequence of lines. A failing open is a flag.
- The logging calls made from the client and the event manager are not modelled. They only write to the log.
- `Events.EventManager.Clear`: the order in which names are released follows the map's iteration order. The model states the released references as a multiset.
- `lua_checkstack` failures are not modelled. The source drops a callback in that case (EventManager.cpp:145-148 and 173-176, WebSClient.cpp:527-531).
- A referenced value that is not a function is not modelled; it is treated as a function.
- Callbacks that call `on` while running are not modelled. The actions a callback can take are `off`, `offAll` and `emit`.
- `connectionId` (WebSClient.cpp:398-410) is not modelled, because it is a query on the transport.
- `reconnectConfig()`, `reconnectAttempts()`, `status()` and `luaState()` are not modelled. They are plain field reads.
- `Client.WebSClient.Send`, `Client.WebSClient.SendAsync`: method names and argument payloads are not carried. The transport's invoke only succeeds or throws. A completion is delivered through `Complete` and is not paired with the call that made it.
- The client's `messageQueue_` is never pushed by the core. `GetMessage` and `QueueSize` are modelled over a queue that only another component would fill.
- The int counters do not wrap. `reconnectAttempts_` and the processed count are unbounded integers.
- The `catch (...)` branch of the worker is not modelled, because unknown exceptions have no counterpart in the model.
- `Client.WebSClient.ProcessEvents` counts each server call twice, once at WebSClient.cpp:510 and again in the second drain at 513. The model keeps the code's count (`Inbound.QuietPump`).
- `Client.WebSClient.Shutdown`: without a Lua state, the event manager keeps its callbacks and pending events, as in the source.

## Findings

| source | as written | input that shows it | evidently intended | confidence | as-written member | corrected member |
|---|---|---|---|---|---|---|
| WebSClient.cpp:210-219 | after a failed first start with no stop requested, the worker calls attemptReconnect and returns at once, skipping the cleanup at 226-250 | reconnect enabled with maxAttempts 3 and a server that never answers: the loop gives up, and the status stays CONNECTING. Or: the first start times out, a retry succeeds, then disconnect() is called: the status stays CONNECTED with the connection held, so a later connect() is refused as "Already connected" | every way out of the worker releases the connection, marks it destroyed and ends DISCONNECTED | not executed | Lifecycle.EpisodeAsWritten (shown by Lifecycle.AlwaysFailingGivesUp and Lifecycle.ReconnectedEpisodeSkipsCleanup) | Lifecycle.Episode (proved by Lifecycle.EpisodeEndsDisconnected) |

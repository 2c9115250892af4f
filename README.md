# ds-v2 chat servers, modelled in Dafny

ds-v2 is a distributed chat. Clients send requests to a pool of replica servers: `login`, `users`, `channel`, `channels`, `publish` and `message`. Every server keeps a Lamport logical clock and stamps each reply with it. Replica servers register with a reference (rendezvous) server, which hands out ranks and tracks liveness through heartbeats. A coordinator is elected among the replicas. The replicas exchange their lists of users and channels, or their logged events, which is meant to let every replica end up knowing the same names.

This project models the following parts:

- The Lamport clocks: `clock.py`, `clock.js` and the Go `LamportClock`. They are one class in module `Lamport`, with IR1 (`Tick` adds one) and IR2 (`Update` takes max + 1). Lemmas cover any sequence of calls: the clock never goes back, and every value returned by a mutating call is larger than the one before.
- The Python reference server, in module `Rendezvous`. It has a map of registered servers, consecutive rank numbers, a 30-second liveness sweep and the `rank`/`list`/`heartbeat` services.
- The Go reference server, in module `RendezvousGo`. It has the same services, and its `list` reply is sorted by rank.
- The script-style servers: `src/server/main.py` in `ChatPy`, `src/server-go/main.go` in `ChatGo` and `src/server-js/main.js` in `ChatJs`.
  - Each is one class whose fields are the program's module-level variables.
  - Each request handler is a method proved against the outcome the program computes: the reply, the appended lists, the clock.
  - The replication snapshot merge is a pure function, `ListMerge.MergeUnion`. Its lemmas prove that the merge holds exactly both lists, keeps the local list as a prefix, keeps lists duplicate-free and is idempotent.
- The class-based replica server `src/server/python/main.py`:
  - Module `ReplicaLog` holds its replicated event log as pure functions. `Apply` is `apply_event`. Lemmas show that a redelivered batch of events changes nothing and that no event is applied twice.
  - Module `ReplicaServer` holds its `ReplicaServer` class as `Server`: registration, server list and coordinator choice, the election, the request handlers with field stripping, event publication and the Berkeley counter.

Sockets are not modelled. What a server sends on a socket is appended to a ghost log: `deliveries`, `events` and `announcements`. What it appends to its JSON-lines files is appended to `persisted`. What it receives comes in as method parameters. The wall clock is a parameter `now`.

The model follows the code as written, including these behaviours:

- The Python reference sweeps a server whose heartbeat is more than 30 s old (`>`). The Go reference lists a server only if its heartbeat is less than 30 s old (`<`).
- `handle_login` and `handle_channel` in the class-based server (`src/server/python/main.py:411` and `:467`) look for the name string itself among the stored records, which are dictionaries. The test never finds it, so a repeated name is appended again.
- The bully election never awaits an answer, so the server that starts it always becomes the coordinator.
- The Go server's `channel` service does not refuse an empty name.
- The script servers' `publish` checks only the channel, and their `message` checks only the recipient.

## Model

| member | source | states |
|---|---|---|
| Lamport.Merge | src/server/python/clock.py:10-13 | the received-message rule: the new time exceeds both the local and the received time and is one more than one of them (max + 1) |
| Lamport.LamportClock.constructor | src/server/python/clock.py:2-3 | a clock starts at 0 |
| Lamport.LamportClock.Tick | src/server/python/clock.py:5-8 | a local event adds exactly one and returns the new time |
| Lamport.LamportClock.Update | src/server/python/clock.py:10-13 | receiving time r sets the clock to max(time, r) + 1 and returns it |
| Lamport.LamportClock.GetTime | src/server/python/clock.py:15-17 | reads the time without changing it |
| Lamport.TimeNeverDecreases | src/bot/node/clock.js:6-14 | after any sequence of tick/update/get calls the time is at least the starting time, and at least one more per call when every call ticks or updates |
| Lamport.ReturnsStrictlyIncrease | src/bot/node/clock.js:6-18 | the values returned by successive tick/update calls strictly increase, all exceed the starting time, and the last one is the final time |
| Lamport.UpdateExceedsBoth | src/reference/go/main.go:21-39 | after an update the clock is strictly greater than both its previous value and the received timestamp |
| Chat.CountRequest | src/server/main.py:231-236 | the request counter goes up by one and is reset to 0 exactly when it reaches the 10-request interval while a coordinator is known; it stays below 10 while armed |
| PyText.LeadingSpace | src/server/python/main.py:395 | the whitespace prefix counted by `str.strip` is no longer than the string |
| PyText.LeadingSpaceIsLongest | src/server/python/main.py:395 | the counted prefix is all whitespace and is followed by a non-whitespace character, if any |
| PyText.TrailingSpace | src/server/python/main.py:395 | the whitespace suffix counted by `str.strip` is no longer than the string |
| PyText.TrailingSpaceIsLongest | src/server/python/main.py:395 | the counted suffix is all whitespace and is preceded by a non-whitespace character, if any |
| PyText.Strip | src/server/python/main.py:395 | stripping never lengthens a string |
| PyText.StripKeepsTheMiddle | src/server/python/main.py:395 | the stripped string is the slice of the input that starts right after its whitespace prefix |
| PyText.StripDropsOnlySpace | src/server/python/main.py:395 | everything stripping removes, before and after the kept slice, is whitespace |
| PyText.StripTrimsBothEnds | src/server/python/main.py:395 | a non-empty stripped string starts and ends with non-whitespace, and it is empty iff the input is all whitespace |
| PyText.StripIdempotent | src/server/python/main.py:395 | stripping twice is stripping once |
| Base.AppendAbsentKeepsDistinct | src/server/main.py:255-266 | appending a name that is not yet listed keeps the list duplicate-free |
| ListMerge.MergeKeepsLocalPrefix | src/server/main.py:170-194 | the merge keeps the local list, in order, as a prefix of its result |
| ListMerge.MergeHoldsBoth | src/server/main.py:170-194 | a name is in the merged list iff it is in the local or the remote list |
| ListMerge.MergePresentIsIdentity | src/server/main.py:170-194 | merging names that are all present already changes nothing |
| ListMerge.MergeIdempotent | src/server/main.py:170-194 | receiving the same snapshot twice leaves the same lists as receiving it once |
| ListMerge.MergeKeepsDistinct | src/server/main.py:170-194 | a duplicate-free local list stays duplicate-free after a merge |
| ListMerge.Strings | src/server-go/main.go:184-212 | the string entries of a dynamically typed list are exactly its entries that are strings |
| ListMerge.MergeLists | src/server-js/main.js:143-158 | the merge loop computes the merge, holds exactly both lists' names, and keeps a duplicate-free list duplicate-free |
| ChatPy.Server.constructor | src/server/main.py:33-40 | start-up with the loaded lists, clock 0, no coordinator and a zero counter |
| ChatPy.Server.IncrementClock | src/server/main.py:42-45 | the clock goes up by one and the new value is returned |
| ChatPy.Server.UpdateClock | src/server/main.py:47-50 | the clock becomes max(clock, received) + 1 |
| ChatPy.Server.RegisterRank | src/server/main.py:73-86 | the rank request carries a tick; the reply's clock (0 if absent) is folded in and the reply's rank (0 if absent) is kept |
| ChatPy.Server.Heartbeat | src/server/main.py:94-112 | a heartbeat carries a tick and folds in the reply's clock |
| ChatPy.Server.PublishSnapshot | src/server/main.py:117-151 | a snapshot carries this server's name and its current users and channels, stamped after a tick, a clock fold of the list reply and a second tick |
| ChatPy.Server.Login | src/server/main.py:241-277 | a blank name is refused, a taken name is refused, otherwise the name is appended to users and logins; one tick either way and lists stay duplicate-free |
| ChatPy.Server.ListUsers | src/server/main.py:279-287 | replies with the users list after one tick |
| ChatPy.Server.CreateChannel | src/server/main.py:289-323 | a blank name is refused, an existing channel is refused, otherwise it is appended; one tick |
| ChatPy.Server.ListChannels | src/server/main.py:325-333 | replies with the channels list after one tick |
| ChatPy.Server.Publish | src/server/main.py:335-382 | an unknown channel is refused with one tick; otherwise the post is stored and delivered on the channel topic stamped with the first of two ticks |
| ChatPy.Server.Message | src/server/main.py:384-431 | an unknown recipient is refused with one tick; otherwise the message is stored and delivered on the recipient's topic stamped with the first of two ticks |
| ChatPy.Server.HandleRequest | src/server/main.py:225-442 | folds the request's clock (0 if absent) into the clock and counts the request; each known service then leaves exactly its handler's outcome from that folded clock (login, channel, publish, message) or lists the names after one tick; an unknown service is refused after one tick; only the touched service's list changes and a refusal changes nothing |
| ChatPy.Server.ReceiveElection | src/server/main.py:207-214 | an election message sets the coordinator and folds in its clock; anything else changes neither |
| ChatPy.Server.ReceiveReplication | src/server/main.py:170-194 | a snapshot from another server merges its users and channels into the local lists and folds in its clock; the server's own snapshot changes nothing |
| ChatGo.Names | src/server-go/main.go:184-212 | the names taken from an optional list field are exactly its string entries, none if the field is not a list |
| ChatGo.Tagged | src/server-go/main.go:143-161 | a string slice sent in a snapshot reads back as the same names |
| ChatGo.Contains | src/server-go/main.go:252-258 | the found scan answers whether the name is in the list |
| ChatGo.Server.constructor | src/server-go/main.go:64-75 | start-up with the loaded lists, clock 0, no coordinator and a zero counter |
| ChatGo.Server.IncrementClock | src/server-go/main.go:35-38 | the clock goes up by one and the new value is returned |
| ChatGo.Server.UpdateClock | src/server-go/main.go:40-46 | the clock becomes max(clock, received) + 1 |
| ChatGo.Server.RegisterRank | src/server-go/main.go:103-121 | the rank request carries a tick; the reply's clock and rank are taken only when they are integers |
| ChatGo.Server.Heartbeat | src/server-go/main.go:125-140 | a heartbeat carries a tick and its reply is discarded |
| ChatGo.Server.PublishSnapshot | src/server-go/main.go:143-161 | the snapshot on the replication topic names this server and reads back as its current users and channels, after one tick |
| ChatGo.Server.Login | src/server-go/main.go:239-286 | an empty name is refused, a taken name is refused, otherwise appended to users and logins; one tick |
| ChatGo.Server.ListUsers | src/server-go/main.go:288-296 | replies with the users list after one tick |
| ChatGo.Server.CreateChannel | src/server-go/main.go:298-328 | an existing channel is refused, any other name (even empty) is appended; one tick |
| ChatGo.Server.ListChannels | src/server-go/main.go:330-338 | replies with the channels list after one tick |
| ChatGo.Server.Publish | src/server-go/main.go:340-395 | an unknown channel is refused with one tick; otherwise the post is stored and delivered stamped with the first of two ticks |
| ChatGo.Server.Message | src/server-go/main.go:397-452 | an unknown recipient is refused with one tick; otherwise the message is stored and delivered stamped with the first of two ticks |
| ChatGo.Server.HandleRequest | src/server-go/main.go:220-463 | folds in the request's clock only when it is an integer, counts the request (reset at 10 only with a coordinator), then leaves exactly the dispatched service's outcome from the folded clock; the reply clock exceeds the old clock and a received one |
| ChatGo.Server.Dispatch | src/server-go/main.go:237-463 | each known service leaves exactly its handler's outcome (login, channel, publish, message) or lists the names after one tick; an unknown service is refused after one tick; only the touched service's list changes and a refusal changes nothing |
| ChatGo.Server.ReceiveBroadcast | src/server-go/main.go:164-214 | an election with a string coordinator sets it; a replication snapshot from another server merges its string names; the clock is untouched |
| ChatJs.Server.constructor | src/server-js/main.js:32-39 | start-up with the loaded lists, clock 0, no coordinator and a zero counter |
| ChatJs.Server.IncrementClock | src/server-js/main.js:41-43 | the clock goes up by one and the new value is returned |
| ChatJs.Server.UpdateClock | src/server-js/main.js:45-48 | the clock becomes max(clock, received) + 1 |
| ChatJs.Server.RegisterRank | src/server-js/main.js:69-82 | the rank request carries a tick; the reply's clock and rank default to 0 |
| ChatJs.Server.Heartbeat | src/server-js/main.js:90-108 | a heartbeat carries a tick and folds in the reply's clock |
| ChatJs.Server.PublishSnapshot | src/server-js/main.js:111-128 | the snapshot carries this server's name and current users and channels, stamped with one tick |
| ChatJs.Server.Login | src/server-js/main.js:190-227 | a blank name is refused, a taken name is refused, otherwise appended to users and logins; one tick |
| ChatJs.Server.ListUsers | src/server-js/main.js:228-236 | replies with the users list after one tick |
| ChatJs.Server.CreateChannel | src/server-js/main.js:237-271 | a blank name is refused, an existing channel is refused, otherwise appended; one tick |
| ChatJs.Server.ListChannels | src/server-js/main.js:272-280 | replies with the channels list after one tick |
| ChatJs.Server.Publish | src/server-js/main.js:281-321 | an unknown channel is refused with one tick; otherwise the post is stored and delivered stamped with the first of two ticks |
| ChatJs.Server.Message | src/server-js/main.js:322-362 | an unknown recipient is refused with one tick; otherwise the message is stored and delivered stamped with the first of two ticks |
| ChatJs.Server.HandleRequest | src/server-js/main.js:172-373 | folds the request's clock (0 if absent) into the clock and counts the request; each known service then leaves exactly its handler's outcome from that folded clock (login, channel, publish, message) or lists the names after one tick; an unknown service is refused after one tick; only the touched service's list changes and a refusal changes nothing |
| ChatJs.Server.ReceiveBroadcast | src/server-js/main.js:132-163 | an election sets the coordinator and folds in its clock; a snapshot from another server merges its lists and folds in its clock; anything else changes nothing |
| Rendezvous.RegisterKeepsRanksValid | src/reference/main.py:66-78 | registration keeps every rank below the next rank and ranks distinct |
| Rendezvous.FreshNamesGetConsecutiveRanks | src/reference/main.py:66-78 | distinct new names registered in turn get consecutive ranks starting at the next rank |
| Rendezvous.ReRegistrationGetsLargerRank | src/reference/main.py:33-78 | a server swept out for silence gets a new, larger rank when it registers again |
| Rendezvous.Registry.constructor | src/reference/main.py:15-29 | no servers, next rank 1, clock 0 |
| Rendezvous.Registry.IncrementClock | src/reference/main.py:17-20 | the clock goes up by one |
| Rendezvous.Registry.UpdateClock | src/reference/main.py:22-25 | the clock becomes max(clock, received) + 1 |
| Rendezvous.Registry.RegisterRank | src/reference/main.py:63-87 | a known name keeps its rank and gets its heartbeat refreshed; a new one gets the next rank, never issued before; rank invariants hold |
| Rendezvous.Registry.ListServers | src/reference/main.py:89-103 | the list holds exactly the registered servers with their ranks |
| Rendezvous.Registry.Heartbeat | src/reference/main.py:105-124 | a known server's heartbeat time is refreshed and the status is OK; an unknown one gets "unknown" and nothing changes |
| Rendezvous.Registry.CleanupInactive | src/reference/main.py:33-43 | the registry becomes its sweep at time now |
| Rendezvous.Registry.Serve | src/reference/main.py:49-138 | folds in the request's clock, then ticks for the reply, so the reply clock exceeds both; dispatches rank, list and heartbeat, and refuses any other service |
| RendezvousGo.InsertByRank | src/reference/go/main.go:175-178 | inserting into a list sorted by rank keeps it sorted and holds exactly the old entries plus the new one |
| RendezvousGo.SortByRank | src/reference/go/main.go:175-178 | sorting by distinct ranks gives a strictly ascending list with exactly the same entries |
| RendezvousGo.ReferenceServer.constructor | src/reference/go/main.go:58-75 | no servers, next rank 1, clock 0 |
| RendezvousGo.ReferenceServer.HandleRank | src/reference/go/main.go:104-156 | a missing or empty name is refused; a known name keeps its rank with a refreshed heartbeat; a new one gets the next rank; one tick |
| RendezvousGo.ReferenceServer.ActiveServers | src/reference/go/main.go:158-178 | the list holds exactly the servers heard from less than 30 s ago, with their ranks, sorted by rank |
| RendezvousGo.ReferenceServer.HandleList | src/reference/go/main.go:158-189 | replies with the active servers sorted by rank after one tick, removing nothing |
| RendezvousGo.ReferenceServer.HandleHeartbeat | src/reference/go/main.go:191-232 | a missing or empty name is refused; a known server's heartbeat is refreshed; an unknown one is reported; one tick |
| RendezvousGo.ReferenceServer.ProcessRequest | src/reference/go/main.go:234-261 | folds in a present clock, then rank, list and heartbeat each leave exactly their handler's outcome from the folded clock, with one tick; only rank changes the next rank; any other service is refused after one tick and changes nothing |
| ReplicaLog.HasName | src/server/python/main.py:94-100 | true iff some stored record, user or channel, carries the name |
| ReplicaLog.Apply | src/server/python/main.py:320-376 | an event already applied or not newer than the clock changes nothing; otherwise it is recorded as applied and the clock becomes its clock + 1; afterwards it is settled |
| ReplicaLog.ApplyFreshGrowsByOne | src/server/python/main.py:320-376 | applying a new event records exactly one more event key |
| ReplicaLog.ApplyNeverDuplicatesNames | src/server/python/main.py:336-352 | a replicated login or channel adds its name only when it is absent, so duplicate-free lists stay duplicate-free |
| ReplicaLog.SettledPersists | src/server/python/main.py:320-330 | once an event is settled, applying further events keeps it settled |
| ReplicaLog.BatchSettled | src/server/python/main.py:320-330 | after a batch is applied, every event of the batch is settled |
| ReplicaLog.SettledBatchIsNoOp | src/server/python/main.py:320-330 | a batch of settled events changes nothing |
| ReplicaLog.RedeliveryIsNoOp | src/server/python/main.py:320-330 | delivering the same batch of events twice has the effect of delivering it once |
| ReplicaLog.ApplyAllMonotone | src/server/python/main.py:320-376 | applying events never forgets an applied key and never lowers the clock |
| ReplicaServer.FieldTrimsOnlyWhitespace | src/server/python/main.py:395 | a request field is blank exactly when it is missing or all whitespace; otherwise it is the value with only the whitespace at both ends removed, and it starts and ends with a non-whitespace character |
| ReplicaServer.Others | src/server/python/main.py:158-162 | the other servers are exactly the listed ones not named like this server |
| ReplicaServer.FirstLowest | src/server/python/main.py:167-170 | picks the first entry with the lowest rank |
| ReplicaServer.ChooseCoordinator | src/server/python/main.py:164-176 | with no other servers this server coordinates; otherwise the lowest-ranked other server does |
| ReplicaServer.CoordinatorIsSelfOnlyWhenAlone | src/server/python/main.py:164-176 | the chosen coordinator is this server iff no other server is listed |
| ReplicaServer.NamesOf | src/server/python/main.py:434-447 | the users (and channels) listing has one name per stored record, in order, and lists a name exactly when the handlers' lookup finds it |
| ReplicaServer.HigherRanked | src/server/python/main.py:240-241 | exactly the servers ranked above this one |
| ReplicaServer.Server.constructor | src/server/python/main.py:11-59 | start-up with the saved users and channels, clock 0, no rank, no coordinator, no applied events |
| ReplicaServer.Server.RegisterWithReference | src/server/python/main.py:113-144 | registration succeeds iff the reply carries a truthy rank; the rank is then kept and a truthy reply clock folded in; the request always ticks |
| ReplicaServer.Server.Heartbeat | src/server/python/main.py:192-207 | a heartbeat ticks and folds in a truthy reply clock |
| ReplicaServer.Server.UpdateServerList | src/server/python/main.py:146-180 | an empty or missing list changes nothing but the tick; otherwise the other servers are replaced and the lowest-ranked one becomes coordinator (this server if alone) |
| ReplicaServer.Server.AnnounceCoordinator | src/server/python/main.py:265-277 | one tick and one announcement of the current coordinator at that time |
| ReplicaServer.Server.StartElection | src/server/python/main.py:233-263 | this server always becomes coordinator and announces it once |
| ReplicaServer.Server.MonitorElection | src/server/python/main.py:218-231 | an election starts exactly when a coordinator other than this server is set but no longer listed; otherwise nothing changes |
| ReplicaServer.Server.CheckBerkeleySync | src/server/python/main.py:300-305 | the message count goes up by one and wraps to 0 at the 10-message interval |
| ReplicaServer.Server.PublishEvent | src/server/python/main.py:307-318 | one event is published with this server's id and the current clock, without a tick |
| ReplicaServer.Server.ApplyEvent | src/server/python/main.py:320-376 | the server's users, channels, applied keys, clock and log change exactly as the pure Apply prescribes |
| ReplicaServer.Server.ReceiveReplication | src/server/python/main.py:378-391 | an event from another server is applied; the server's own events are ignored |
| ReplicaServer.Server.HandleLogin | src/server/python/main.py:393-432 | a blank stripped name is refused; any other name is appended (no duplicate check takes effect) and published as an event stamped before the tick |
| ReplicaServer.Server.HandleUsers | src/server/python/main.py:434-447 | replies with the user names after one tick |
| ReplicaServer.Server.HandleChannel | src/server/python/main.py:449-488 | a blank stripped name is refused; any other name is appended and published as an event stamped before the tick |
| ReplicaServer.Server.HandleChannels | src/server/python/main.py:490-503 | replies with the channel names after one tick |
| ReplicaServer.Server.HandlePublish | src/server/python/main.py:505-586 | refused iff a stripped field is blank or the user or channel is unknown, each refusal with its own reply (fields required, `Usuário '…' não encontrado`, `Canal '…' não encontrado`) after one tick and nothing changed; otherwise the post is persisted, delivered and published as an event at the new time, and counted |
| ReplicaServer.Server.HandleMessage | src/server/python/main.py:588-669 | refused iff a stripped field is blank or the sender or recipient is unknown, each refusal with its own reply (fields required, `Remetente '…' não encontrado`, `Destinatário '…' não encontrado`) after one tick and nothing changed; otherwise the message is persisted, delivered and published as an event at the new time, and counted |
| ReplicaServer.Server.ProcessRequest | src/server/python/main.py:671-700 | each known service leaves exactly its handler's outcome (login, channel, publish, message) or lists the names, with exactly one tick; the message count advances only for a sent publish or message; an unknown service is refused; a refusal changes nothing |
| ReplicaServer.Server.Serve | src/server/python/main.py:702-725 | folds in a present request clock, then the request leaves exactly its handler's outcome from the folded clock with one tick, and the state of every other service is unchanged; a sent publish or message is counted twice (in its handler and after it), any other request once |

## Left out

- ZeroMQ sockets, message serialisation and the proxy. Sent messages are ghost logs, and received ones are method parameters.
- Threads, goroutines, timers and locks. Each modelled operation runs atomically, and a periodic loop is one method call per round.
- Reading and writing the JSON and JSON-lines files. Loaded lists are constructor parameters, and appended records are the ghost `persisted` log.
- Wall-clock time. It is the parameter `now`, and timestamps stored only for display are dropped.
- `sync_berkeley` in `src/server/python/main.py`. It only logs and changes no modelled state.
- The server id hash. It is a constructor parameter.
- The script servers' catch-all error reply (`src/server/main.py:448-459`, `src/server-js/main.js:377-389`): a request whose handling raises gets an `error` reply after one tick. Requests here carry only fields of the expected type, so no handler raises.
- The Python reference server's catch-all error reply (`src/reference/main.py:140-151`): a request whose handling raises, such as one whose `clock` is present but null and so reaches `max` at line 24, gets an `error` reply after one tick, with no clock folded in. Requests here carry an integer clock or none, so this path is not modelled.
- A handler exception in the class-based server. Its `run` loop (`src/server/python/main.py:702-734`) catches only a keyboard interrupt, so an exception, such as a field present as null reaching `.strip()` at line 395, ends the loop and closes the sockets instead of replying. A field here is a string or missing, so this path is not modelled.
- Clients, bots and the `serde` helpers. They are not part of this model.
- The key that carries a refusal's text. The servers send the `publish` and `message` refusals under `message` (for example `src/server/main.py:346`, `src/server/python/main.py:521`) and the other refusals under `description`. `Chat.StatusReply`, which every modelled server replies with, keeps the text in one field, `description`, whichever key the source uses.
- The dynamic type of a decoded integer in the Go servers. They read `clock` and `rank` with `.(int)`, which succeeds only when the decoder produced a Go `int`. Here such a field is an `Option<int>`, where `None` stands for a missing field or one of another type, so both outcomes are covered.
- The Go `serialize`/`deserialize` envelope, and the reference servers' logging.
- Rendezvous.Registry.ListServers: the order of the list (dictionary iteration order) is not stated, only its contents.
- ChatGo.Server.HandleRequest: a field of the wrong type makes the source panic. Here the field's presence is a precondition instead.
- ChatGo.Server.Dispatch: the same field-presence precondition as HandleRequest.
- ReplicaServer.Server.StartElection: comparing ranks with no rank assigned raises in the source. Here a rank is required when other servers are listed.
- ReplicaServer.Server.MonitorElection: the same rank precondition as StartElection, when an election is due.
- ChatPy.Server.constructor: requires the saved users and channels to be duplicate-free, which the server's own writes guarantee.
- ChatJs.Server.constructor: the same duplicate-free precondition on the saved lists.
- ChatGo.Server.constructor: the same duplicate-free precondition on the saved lists.
- Non-string entries in a received snapshot of the Python and JavaScript servers. Lists there are typed as lists of strings, and only the Go server's dynamic entries are modelled.
- The `heartbeat_loop` orchestration in `src/server/python/main.py`: register if no rank, then send a heartbeat, then update the server list. Its three steps are modelled as separate methods.

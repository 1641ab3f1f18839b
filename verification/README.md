# Verified model of MCP-NG

A Dafny model of the parts of MCP-NG that hold state or compute something, with proofs about every run:

* the **Human Bridge** (`human_bridge/main.go`): the WebSocket hub that broadcasts what any client sends;
* the **MCP server** (`server/cmd/server/main.go`): tool discovery, health sweeps, `ListTools` and `ExecuteTool`,
  the store of human answers, and the search for the project root;
* the **human-answer protocol** that the `human_input` tool, the bridge, the operators and the server carry out together;
* the **file tools** (`file_writer`, `file_reader`, `list_directory`) and the path processing they rely on.

`dafny verify dfyconfig.toml` checks the whole project.

## How it is organised

| file | contents |
|---|---|
| `HubCore.dfy` | one pass of `Hub.run` as functions, and the class `Hub` whose methods are proved against them |
| `HubSystem.dfy` | all goroutines of the bridge as a transition system, and its invariant |
| `HubTheorems.dfy` | delivery order, conservation, close-once, progress, and agreement with the sequential loop |
| `HubDrain.dfy` | the exactness of `clients` whenever nothing is pending, and a bound on every run without new input |
| `ServerSpec.dfy`, `Discovery.dfy` | what the server's operations mean, one at a time |
| `McpServer.dfy` | the class `Server`: discovery, launch, sweep, clean-up and the RPC bodies |
| `ServerSystem.dfy` | handlers and sweeps over the `RWMutex`, one access to shared data per step |
| `StoreTheorems.dfy` | linearizability of the answer store, stability of responses |
| `LockOrder.dfy` | happens-before and data races for goroutines that share one `RWMutex`, of any trace |
| `ToolInvariant.dfy` | registry, statuses, sweeps and calls of tools: what every step keeps |
| `RaceInvariant.dfy`, `RaceTheorems.dfy` | the trace of every run of the server; who races and when, and what a racing read yields |
| `ToolTheorems.dfy` | where requests go; which statuses `ListTools` and `ExecuteTool` act on; deadlock, and what a silent tool blocks |
| `HumanSystem.dfy` | the server, runs of the `human_input` tool, the bridge and the operators composed; the invariant |
| `HumanTheorems.dfy` | causality of answers, secrecy of ids until they are published, what waiting callers are told |
| `HumanRun.dfy` | a whole run of the protocol, from the request to the answer |
| `Paths.dfy`, `FileTools.dfy`, `ProjectRoot.dfy` | `Clean`, `Join`, `Dir`; the file tools; `findProjectRoot` |

The concurrent parts are transition systems: a `Step` datatype, `Enabled`, `Apply`, and schedules `CanRun`/`RunOf`.
A theorem about a `Reachable` state therefore holds for every interleaving. History fields (the broadcast log, the
order in which store operations took effect, the list of completed sweeps) are written by the steps; no step of the
bridge or the server is enabled or disabled by them. In the composed protocol the assumptions on operators read the
messages written to their connections. The trace of the server holds each use of the lock and each access to the map
of answers and to a tool's status; happens-before and data races are defined on it as in the Go memory model.

## What the environment may do

* A write to a connection fails or succeeds arbitrarily; a read may fail at any time; peers connect and send at any
  time. `WriteMessage` and `Close` return. For a drained bridge it is assumed that a read on a connection the hub has
  closed comes to an error, after at most the frames that had arrived before.
* Dial, description, health and Run calls end in any of their outcomes; the ticker may fire at any time.
* A generated task id is no other run's and in no message sent so far; other peers cannot send an id that has not
  left the tool; answers come from operators, for ids that the bridge wrote to their connection. The tool registered
  as `human_input` is the one modelled; a call of it may break while its run goes on.
* Happens-before comes from program order and the server's lock. Orderings that the network or client libraries may
  bring about by accident are not counted. A status fits into a machine word, so an unordered read of it yields some
  value that was written and is not known to be overwritten. Discovery is over before any handler or sweep begins.
* A file system is a map from cleaned absolute paths to contents, without symbolic links. Writing a file may fail
  before anything is changed or after a part is stored.

## Findings

* The prefix check of the file tools (`file_reader/main.go:58-62`, also in `file_writer` and `list_directory`) turns
  down every relative path that climbs out of its directory, but also paths inside it whose cleaned form begins with
  a name such as `..notes`. `FileTools.CheckIsExactIff` says exactly when check and rule differ. The documentation
  speaks only of the use of `..`. An absolute path such as `/../x` passes the check and is placed below `/app`.
* `ExecuteTool` reads a tool's status after it has released the lock (`server/cmd/server/main.go:328-332`), and nothing
  orders that read against the writes of a sweep that takes the lock afterwards (`main.go:268-281`).
  * The read races with a write of the requested tool's status if and only if the write was made after the handler's
    look-up, finished or not (`RaceTheorems.ExecuteRacesIff`); by the time of the read it has raced if and only if a
    sweep has set the status since (`CheckRacesIff`). There is no other race (`OnlyExecuteRaces`).
  * A read without a race yields the status `ListTools` would have gone by at the look-up (`OrderedReadIsSnapshot`).
    Otherwise it can yield any value not overwritten at the look-up. So a request can be forwarded to a tool that
    serves in no state between sweeps (`ToolTheorems.ExecuteMidSweep`; `ForwardOutsideSnapshotsIff` says when), or on a
    status that a finished sweep has replaced (`ToolTheorems.ExecuteStale`).
* A sweep holds the write lock while it waits for each health check, which has no deadline (`main.go:268-270`). While a
  tool does not answer, no call of any RPC gets past the lock (`ToolTheorems.UnansweredCheckBlocks`). The locks
  themselves bring about no deadlock: the server stops only when it waits for tools (`ToolTheorems.StopsIffStandstill`).
* A tool that gives an empty name, or the name of another tool, leaves a connection open that nothing refers to
  (`server/cmd/server/main.go:228-248`). `McpServer.Server.DiscoverAndRunTools` says exactly when no connection is
  lost, and `McpServer.DiscoverTwins` loses one.
* Wrapping a non-object result of a tool is not invertible (`server/cmd/server/main.go:354-360`);
  `ServerSpec.WrapLosesOnlyWrapping` gives the only case.
* From an absolute start path that ends in a `..` after a name, `findProjectRoot`
  (`server/cmd/server/main.go:518-534`) looks into a directory that is no ancestor
  (`ProjectRoot.SearchStaysAboveIff`). The server calls it with a clean path, where this cannot happen.

## Model

| member | source | states |
|---|---|---|
| HubCore.Hub.constructor | MCP-NG/human_bridge/main.go:20-27 | a new hub has no clients and has done nothing |
| HubCore.Hub.Register | MCP-NG/human_bridge/main.go:32-36 | the client joins `clients`, from this point of the broadcast log on |
| HubCore.Hub.Unregister | MCP-NG/human_bridge/main.go:37-44 | a registered client is removed and closed once; for any other connection nothing happens |
| HubCore.Hub.Deliver | MCP-NG/human_bridge/main.go:49-56 | one write is attempted, and exactly a failed one starts a goroutine |
| HubCore.Hub.WriteAll | MCP-NG/human_bridge/main.go:48-57 | in whatever order the map is ranged over, every client is written to exactly once and the failures are exactly the goroutines started |
| HubCore.Hub.Broadcast | MCP-NG/human_bridge/main.go:45-58 | the whole new state after a broadcast; `clients` itself is unchanged |
| HubCore.Hub.Run | MCP-NG/human_bridge/main.go:29-61 | any finite prefix of the loop ends in the fold of the single requests |
| HubSystem.RunKeepsInv | MCP-NG/human_bridge/main.go:29-95 | the invariant of the bridge holds in every state of every interleaving |
| HubTheorems.TotalOrder | MCP-NG/human_bridge/main.go:32-57 | what was written to a client is exactly the stretch of the broadcast log from its registration to its removal or the present |
| HubTheorems.CommonOrder | MCP-NG/human_bridge/main.go:45-57 | two clients see the frames they were both sent as the same sequence |
| HubTheorems.SenderOrder | MCP-NG/human_bridge/main.go:84-93 | the log restricted to one sender is what it sent, in order, up to the frame its reader is blocked on and the unread ones; nothing is lost, doubled or reordered, also after the sender's removal |
| HubTheorems.ReaderGoesOn | MCP-NG/human_bridge/main.go:84-93 | a reader goes on, frame after frame, as long as none of its reads fails |
| HubTheorems.StaysUntroubled | MCP-NG/human_bridge/main.go:29-95 | a connection from which no read and to which no write fails stays a client, whatever happens to others |
| HubTheorems.SentIsWhatPeersSend | MCP-NG/human_bridge/main.go:78-93 | what the order is about is exactly the frames the peer sent in the run, and every accepted peer is a connection |
| HubTheorems.FrameHasAuthor | MCP-NG/human_bridge/main.go:45-49 | every frame written to a client was sent by some peer |
| HubTheorems.RunKeepsWire | MCP-NG/human_bridge/main.go:37-57 | after its removal nothing about a connection changes any more, on any run |
| HubTheorems.ClosedOnce | MCP-NG/human_bridge/main.go:37-44 | a connection is closed at most once, exactly when it is removed, and never re-enters `clients` nor is written to afterwards, however many unregisters are in flight |
| HubTheorems.HubProgress | MCP-NG/human_bridge/main.go:29-61 | while a goroutine is blocked sending to the hub, or a request is being served, a step of `run` is enabled |
| HubTheorems.InterleavingIsSequential | MCP-NG/human_bridge/main.go:29-95 | under every interleaving the hub is what the sequential loop makes of the requests served, and during a broadcast differs only by the writes already made |
| HubDrain.StepShrinksWork | MCP-NG/human_bridge/main.go:29-95 | every step but a new connection or a new frame lowers an explicit measure, although one broadcast can start a goroutine per client |
| HubDrain.RunsAreBounded | MCP-NG/human_bridge/main.go:45-57 | no schedule without new input is longer than that measure |
| HubDrain.QuietIsExact | MCP-NG/human_bridge/main.go:32-57 | whenever no send to `run` is pending and the readers of the connections it has closed have ended, `clients` is exactly the connections whose reader runs, however many frames are still unread; each of them was sent everything since it joined, and no write to it ever failed |
| HubDrain.RestIsExact | MCP-NG/human_bridge/main.go:32-57 | with nothing left that is bound to happen the bridge is in such a state, and every frame of an open connection was broadcast |
| HubDrain.UntroubledIsServed | MCP-NG/human_bridge/main.go:29-95 | at rest a connection without a failed read or write is a client, and every frame its peer sent in the run was broadcast, in order |
| HubDrain.CanDrain | MCP-NG/human_bridge/main.go:78-94 | from every good state the bridge can come to rest by steps each of which is bound to happen when it is taken, without a failing write; every connection whose reader goes on and for which no unregister is on its way ends as a client |
| HubDrain.DrainIsExact | MCP-NG/human_bridge/main.go:29-95 | every schedule that ends with nothing pending, whatever came in on the way, left `clients` exact and agrees with the sequential loop; without new input it was bounded, and at rest every frame was broadcast |
| ServerSystem.StepKeepsLockInv | MCP-NG/server/cmd/server/main.go:268-391 | readers exclude writers, and exactly the goroutines inside their critical sections hold the lock |
| StoreTheorems.Linearizable | MCP-NG/server/cmd/server/main.go:369-405 | store operations take effect in one legal sequential order; each finished call is in it exactly once, after its call, with the result it returned |
| StoreTheorems.RealTimeOrder | MCP-NG/server/cmd/server/main.go:369-405 | a call that returned before another began comes before it in that order |
| StoreTheorems.ResponseStable | MCP-NG/server/cmd/server/main.go:379-400 | the object behind a returned pointer shows the same answer for ever, whatever is provided later |
| LockOrder.GuardedAreOrdered | MCP-NG/server/cmd/server/main.go:369-400 | in any trace the lock allows, conflicting accesses made under the lock are ordered by happens-before |
| LockOrder.LateReadRacesIff | MCP-NG/server/cmd/server/main.go:328-332 | a read made after the release races with a write made under the lock if and only if the write came after the reader had taken the lock, before the read or after it |
| LockOrder.SharedUseOrdersNothing | MCP-NG/server/cmd/server/main.go:309-391 | without an exclusive section the lock orders nothing |
| RaceInvariant.StepKeepsTraceInv | MCP-NG/server/cmd/server/main.go:260-405 | every step keeps the trace in agreement with the lock, the handlers and the values written |
| RaceTheorems.AnswerMapIsOrdered | MCP-NG/server/cmd/server/main.go:371-400 | every two conflicting accesses to the map of answers hold the lock and are ordered |
| RaceTheorems.StoreCallEvents | MCP-NG/server/cmd/server/main.go:369-405 | a finished store call has taken the lock, alone or shared, accessed the map unless its id is empty, and released the lock; nothing else |
| StoreTheorems.GetSeesLastProvide | MCP-NG/server/cmd/server/main.go:379-404 | a Get returns the last answer provided before it in that order under the status `completed`, or `pending` without an answer if there is none |
| StoreTheorems.PendingIffNotProvided | MCP-NG/server/cmd/server/main.go:398-404 | the status `pending` is reported exactly as long as nothing was provided for that id, and from then on `completed`, with an answer |
| StoreTheorems.RejectedIffEmpty | MCP-NG/server/cmd/server/main.go:374-394 | an empty id is rejected and nothing else; every other Provide is received, every other Get is given a response |
| StoreTheorems.NeverPendingAgain | MCP-NG/server/cmd/server/main.go:369-405 | after a finished call has provided an answer for an id, or has shown one, every Get called later shows the status `completed` and an answer |
| ToolInvariant.StepKeepsToolInv | MCP-NG/server/cmd/server/main.go:260-341 | registry, statuses, sweeps, what handlers have found out and the calls of tools stay in agreement at every step |
| ToolTheorems.StopsIffStandstill | MCP-NG/server/cmd/server/main.go:260-405 | the server can go on by itself exactly unless every handler is done or waits for a Run or the lock, and the sweep waits for a health check or rests with nobody waiting for the lock |
| ToolTheorems.ServerProgress | MCP-NG/server/cmd/server/main.go:260-405 | no deadlock: while a request is unanswered or a sweep unfinished, some goroutine can go on if the tools that were called or asked answer |
| ToolTheorems.UnansweredCheckBlocks | MCP-NG/server/cmd/server/main.go:268-281 | on every run without the answer to an outstanding health check the sweep stays where it is, and every handler waiting for the lock, or called since, goes on waiting |
| ToolTheorems.SweepRecordsReplies | MCP-NG/server/cmd/server/main.go:268-281 | a completed sweep asked every tool and left it not serving if the check failed, otherwise with the status reported |
| ToolTheorems.ListIsSnapshot | MCP-NG/server/cmd/server/main.go:307-322 | a ListTools result is exactly the descriptions of the serving tools, each once, after a whole number of sweeps, at least those completed at the call; after the first, of exactly the tools that answered that sweep's check with SERVING |
| ToolTheorems.ListIsRecent | MCP-NG/server/cmd/server/main.go:307-322 | a ListTools called after some moment shows no state older than the last sweep over at that moment |
| ToolTheorems.LockIsSharedIff | MCP-NG/server/cmd/server/main.go:308-391 | ProvideHumanInput needs the lock for itself, every other call shares it |
| ToolTheorems.ListingExcludesSweep | MCP-NG/server/cmd/server/main.go:309-314 | while a handler lists tools no sweep is under way |
| RaceTheorems.ListIsOrdered | MCP-NG/server/cmd/server/main.go:307-322 | the status reads of ListTools race with nothing |
| ToolTheorems.RegistryStays | MCP-NG/server/cmd/server/main.go:260-341 | on every run the registry keeps its keys and records, and the tools their descriptions and connections |
| ToolTheorems.ForwardGoesToNamedTool | MCP-NG/server/cmd/server/main.go:328-341 | every call of a Run went to the connection of the tool registered under the requested name, which is the name it gave itself, with the caller's arguments, after its handler had read SERVING; no request is forwarded twice |
| ToolTheorems.ForwardsToldApart | MCP-NG/server/cmd/server/main.go:242-247 | two calls went to the same connection if and only if they were for the same name |
| ToolTheorems.ExecuteRouting | MCP-NG/server/cmd/server/main.go:332-366 | a finished request was forwarded exactly if it was not answered NotFound; NotFound means that the name is not registered or that another status than SERVING was read; a success echoes the task id |
| ToolTheorems.ReplyDecidesAnswer | MCP-NG/server/cmd/server/main.go:344-365 | a forwarded request has exactly one reply, and it decides the answer: Internal for a broken call, Aborted with the tool's error, otherwise the task id with the fields of the result or the wrapped result |
| ToolTheorems.ReadIsSnapshotOrComing | MCP-NG/server/cmd/server/main.go:328-332 | the status a handler has read was left by a sweep completed not before the last one at the call, or is the reply the sweep in progress has heard for that tool |
| ToolTheorems.ReadIsReply | MCP-NG/server/cmd/server/main.go:268-332 | a status read that is not from discovery was reported by the tool in the sweep whose number it has, or is NOT_SERVING because the check failed |
| ToolTheorems.ReadIsRecordedInTheEnd | MCP-NG/server/cmd/server/main.go:268-332 | on every run that completes the sweep, the status read turns out to be recorded by a completed sweep, not older than the last one at the look-up |
| RaceTheorems.KnownIsSweepsAtRelease | MCP-NG/server/cmd/server/main.go:328-330 | the number of values known at the release of the lock is the number of sweeps over by then |
| RaceTheorems.OrderedReadIsSnapshot | MCP-NG/server/cmd/server/main.go:328-332 | a read that does not race yields the status that the last sweep over at the look-up left |
| RaceTheorems.OtherReadRaces | MCP-NG/server/cmd/server/main.go:328-332 | a read that yields any other value is a race |
| RaceTheorems.RuledOutIffOverwritten | MCP-NG/server/cmd/server/main.go:328-332 | a written value is ruled out for the read if and only if a write that overwrites it happens before the read |
| ToolTheorems.ForwardOutsideSnapshotsIff | MCP-NG/server/cmd/server/main.go:328-341 | if no completed sweep from a given one on left a called tool serving, its status was read, in a race, from a sweep still in progress; from the sweep before the one read from, the tool serves in none if and only if that one left it not serving and the one read from is not over |
| RaceTheorems.ExecuteRacesIff | MCP-NG/server/cmd/server/main.go:268-332 | the unlocked read races with a write of the status if and only if the write was made after the handler took the lock for its look-up |
| RaceTheorems.HandlerRacesIff | MCP-NG/server/cmd/server/main.go:268-332 | at any time after its read a handler has raced if and only if a sweep has set the status of the requested tool since the look-up |
| RaceTheorems.CheckRacesIff | MCP-NG/server/cmd/server/main.go:268-332 | the same at the moment of the read, by what is then known of the sweeps |
| RaceTheorems.OnlyExecuteRaces | MCP-NG/server/cmd/server/main.go:268-405 | every race is between the status read of an ExecuteTool handler, of the tool it asked for, and a sweep's write of it made after the handler took the lock |
| ToolTheorems.ExecuteStale | MCP-NG/server/cmd/server/main.go:328-341 | a run in which a request is forwarded on a status that a finished sweep has overwritten |
| ToolTheorems.ExecuteMidSweep | MCP-NG/server/cmd/server/main.go:328-341 | a run in which a request is forwarded, on a racing read, to a tool that serves in no state between sweeps |
| Discovery.FirstDescriptionIsFirst | MCP-NG/server/cmd/server/main.go:203-223 | the outcome of the retries is the first of the fifteen attempts that gets a description, if any does |
| Discovery.DescribedIff | MCP-NG/server/cmd/server/main.go:152-227 | a directory's tool is heard of exactly if its process starts, or none is asked for, and one of the first fifteen attempts gets a description; the first counts |
| Discovery.RegistryKeys | MCP-NG/server/cmd/server/main.go:228-248 | the registry holds exactly the non-empty names that were heard |
| Discovery.LastOfNameStays | MCP-NG/server/cmd/server/main.go:228-248 | under each name stays the last tool that gave it, with its description and the status its first health check gave |
| Discovery.NamesAreGiven | MCP-NG/server/cmd/server/main.go:216-228 | the names heard are those in the descriptions of the directories' tools |
| Discovery.NoConnectionLostIff | MCP-NG/server/cmd/server/main.go:228-248 | there are as many registered tools as descriptions heard if and only if no name was empty or heard twice |
| Discovery.AllUsedIff | MCP-NG/server/cmd/server/main.go:241-248 | when no two tools share a connection, every open one belongs to a tool if and only if there are as many of both |
| McpServer.Server.Connect | MCP-NG/server/cmd/server/main.go:206-227 | at most fifteen attempts; one more open connection on success, none on failure |
| McpServer.Server.Launch | MCP-NG/server/cmd/server/main.go:152-194 | a process that started is appended to `toolCmds`, whatever becomes of its tool |
| McpServer.Server.Register | MCP-NG/server/cmd/server/main.go:241-248 | the tool replaces what was registered under its name; keys stay equal to description names |
| McpServer.Server.Visit | MCP-NG/server/cmd/server/main.go:125-252 | registry, open connections and process list after one directory, for every outcome of its parts |
| McpServer.Server.DiscoverAndRunTools | MCP-NG/server/cmd/server/main.go:108-257 | after discovery the registry holds what the directories call for, one connection is open per description received, and `toolCmds` has exactly the processes that started, without repeats; starting from nothing, every open connection belongs to a registered tool if and only if no name was empty or given twice |
| McpServer.DiscoverTwins | MCP-NG/server/cmd/server/main.go:228-248 | two tools with one name: discovery leaves a connection open that no tool has |
| McpServer.Server.Cleanup | MCP-NG/server/cmd/server/main.go:291-304 | a kill is attempted on every process that was started, once each, in order |
| McpServer.Server.HealthSweep | MCP-NG/server/cmd/server/main.go:268-281 | every tool's status becomes what its health check said, NOT_SERVING if the check failed |
| McpServer.Server.ListTools | MCP-NG/server/cmd/server/main.go:307-322 | exactly the descriptions of the serving tools are listed, each once |
| McpServer.Server.ExecuteTool | MCP-NG/server/cmd/server/main.go:325-366 | a request is forwarded exactly if its tool serves, to the connection of the tool registered under the name, with the caller's arguments; which of the four outcomes it has; the caller's task id is echoed |
| ServerSpec.WrapLosesOnlyWrapping | MCP-NG/server/cmd/server/main.go:354-360 | two results look the same to the caller only if they are equal or one is the other already wrapped |
| McpServer.Server.ProvideHumanInput | MCP-NG/server/cmd/server/main.go:369-385 | the answer is stored in a new object with the status `completed`; no other entry and no object handed out before changes; exactly an empty id is rejected, without effect |
| McpServer.Server.GetHumanInput | MCP-NG/server/cmd/server/main.go:388-405 | the stored object itself, a new one with the status `pending` and no answer, or a rejection of exactly the empty id |
| HumanSystem.StepKeepsInv | MCP-NG/tools/go/human_input/main.go:49-109 | every step of a server handler or sweep, a tool run, the bridge or an operator keeps the invariant of the composed protocol |
| HumanTheorems.CompletedAnswerIsCausal | MCP-NG/server/cmd/server/main.go:369-405 | a completed answer that a finished GetHumanInput shows for a generated id was given by the last ProvideHumanInput before it in the order of effects; an operator called that after the id had been written to the operator's connection, and after the run had published its message; for every run with an id, however it ended |
| HumanTheorems.ProvideIsCausal | MCP-NG/server/cmd/server/main.go:369-385 | the same for every ProvideHumanInput that took effect, shown to anyone or not |
| HumanTheorems.UnsentIsPending | MCP-NG/tools/go/human_input/main.go:74-96 | an id whose message has not left the tool is answered `pending`, without a response, for ever |
| HumanTheorems.PendingUntilProvided | MCP-NG/server/cmd/server/main.go:398-404 | in the composed system a finished GetHumanInput shows `pending` exactly if no operator's answer for the id took effect before it, and `completed` with an answer otherwise |
| HumanTheorems.WaitingIdIsPublished | MCP-NG/tools/go/human_input/main.go:52-108 | every success of ExecuteTool for `human_input` carries the request's task id, the status `waiting_for_human`, and as `task_id` the id generated by the one run this request started, which has published the `prompt` argument of this request under it |
| HumanTheorems.FailureIsTold | MCP-NG/tools/go/human_input/main.go:52-105 | an aborted request was answered with exactly the error its one run reported |
| HumanRun.RequestIsAnswered | MCP-NG/tools/go/human_input/main.go:49-109 | for every prompt, id and answer there is a run in which the prompt is published under the id, the request is told to wait for that id, and a GetHumanInput for it shows the answer as completed |
| HumanRun.RequestFails | MCP-NG/tools/go/human_input/main.go:52-92 | for every error there is a run in which the request is aborted with it |
| Paths.PartsAreNormal | MCP-NG/tools/go/file_reader/main.go:58 | in a cleaned path the `..` components come first, and below the root there are none |
| Paths.CleanIdempotent | MCP-NG/tools/go/file_writer/main.go:67 | cleaning twice is cleaning once |
| Paths.CleanKeepsMeaning | MCP-NG/tools/go/file_reader/main.go:58 | followed component by component from any directory, the cleaned path leads where the path leads |
| Paths.DotsLeftIffClimbs | MCP-NG/tools/go/file_reader/main.go:58-59 | a relative path keeps a `..` if and only if at some point it has gone up more often than down |
| FileTools.CheckIsExactIff | MCP-NG/tools/go/file_reader/main.go:58-62 | the check turns down exactly the paths that climb out, if and only if the cleaned path does not begin with a plain name that begins with two dots |
| FileTools.DottedNameIsDenied | MCP-NG/tools/go/file_writer/main.go:67-71 | a path that the check turns down although it stays inside |
| FileTools.Confined | MCP-NG/tools/go/file_writer/main.go:67-72 | an accepted path stands for `/app` or a file below it, without `..`: the file it names when `/app` is taken for the root |
| FileTools.SameTargetIff | MCP-NG/tools/go/file_reader/main.go:58-65 | two accepted paths stand for the same file if and only if they lead to the same place |
| FileTools.SlashMakesNoDifference | MCP-NG/tools/go/list_directory/main.go:57-62 | `x` and `/x` stand for the same file |
| FileTools.Disk.RunWriter | MCP-NG/tools/go/file_writer/main.go:52-88 | the files afterwards and which error is reported when; a success has stored the whole content at the place the path leads to, and reports its length |
| FileTools.WriterLeaves | MCP-NG/tools/go/file_writer/main.go:52-78 | what is stored after every ending of the write, for every argument |
| FileTools.ReaderAnswers | MCP-NG/tools/go/file_reader/main.go:48-80 | which of the five answers the reader gives, for every argument and every outcome of the read |
| FileTools.WriteThenRead | MCP-NG/tools/go/file_reader/main.go:48-80 | after a write through one path, a read through any path to the same place returns the content, and any other read is unaffected |
| FileTools.WriteIsLocal | MCP-NG/tools/go/file_writer/main.go:66-78 | a run of the writer, however it ends, affects no read of another place |
| FileTools.ListEntries | MCP-NG/tools/go/list_directory/main.go:70-77 | one entry per file, in order, with a slash after directories |
| FileTools.RunList | MCP-NG/tools/go/list_directory/main.go:48-86 | a given path is listed as it is, a missing one as `.`; access is denied exactly to relative paths that climb out or begin with a dotted name; any other is answered from the directory at the place it leads to below `/app`, entry by entry, or with an error exactly if there is none or a name is not text |
| FileTools.SamePlaceListsAlike | MCP-NG/tools/go/list_directory/main.go:57-64 | accepted paths that lead to the same place list alike |
| FileTools.OutsideIsNotRead | MCP-NG/tools/go/file_reader/main.go:58-66 | what lies outside `/app` decides no result of the reader or the lister, whatever the arguments |
| FileTools.OutsideIsNotWritten | MCP-NG/tools/go/file_writer/main.go:66-78 | no run of the writer, however it ends, changes anything outside `/app` |
| FileTools.ListingIsFaithful | MCP-NG/tools/go/list_directory/main.go:71-77 | names and kinds can be read back from the entries |
| FileTools.DefaultIsRoot | MCP-NG/tools/go/list_directory/main.go:51-62 | without a usable path argument `/app` itself is listed |
| ProjectRoot.DirGetsCloser | MCP-NG/server/cmd/server/main.go:527-532 | each step up lowers a measure, for every path, until `Dir` is at its fixed point |
| ProjectRoot.FindProjectRoot | MCP-NG/server/cmd/server/main.go:518-534 | the loop ends for every path, with the first marked directory on the way up, and fails exactly if there is none however far up |
| ProjectRoot.UpIsPrefix | MCP-NG/server/cmd/server/main.go:526-532 | from a clean path the directories on the way up are the shorter and shorter prefixes of its components |
| ProjectRoot.NearestAncestor | MCP-NG/server/cmd/server/main.go:517-534 | from a clean absolute path the result is the longest prefix that holds `go.work` |
| ProjectRoot.NoneIffNoAncestor | MCP-NG/server/cmd/server/main.go:517-534 | from a clean absolute path the search fails exactly if no prefix holds it |
| ProjectRoot.MarkerIsInside | MCP-NG/server/cmd/server/main.go:521-524 | what is looked for is the entry `go.work` of the directory, for every form of path |
| ProjectRoot.SearchStaysAboveIff | MCP-NG/server/cmd/server/main.go:517-534 | only directories above the start are searched, if and only if the start does not end in a `..` that takes back a name |

## Left out

- The mutex of the hub: only `run` takes it, so it restricts nothing.
- Delivery of a frame to an operator's screen: what is recorded is the call of `WriteMessage`; a published prompt may be lost with its connection, and nothing is claimed about that.
- WebSocket framing and the handshake: a connection is a sequence of frames with an error at an arbitrary point.
- HubCore.Hub.Run: serves a finite prefix of the endless loop, for every such prefix.
- Response objects and the registry map in the trace: the former are written once, before a pointer to them is stored; the latter never after discovery.
- The preference of a waiting writer in `sync.RWMutex`: the system allows every order that it allows, and more.
- An absent argument message, on which the tools' field access fails before any of the modelled code runs.
- FileTools.Disk.RunWriter: reports the byte count and path as values, not as the formatted sentence; which byte strings a protobuf string can hold is a parameter.
- Symbolic links, permissions and Windows path rules.
- The kinds of plain values: a prompt argument that is a number counts as a text here, and the run may fail or not.
- JSON encoding of prompts, generation of UUIDs (freshness is assumed), and real time.
- `loadConfig`, construction of command lines, signal handling, the gateway and CORS: single branches or plumbing.
- Generated protobuf code, and the tools that wrap a remote service, a database, an expression evaluator or an interpreter.

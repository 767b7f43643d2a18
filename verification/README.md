# Shared whiteboard: heartbeat, client manager, share directory and admin client

This project models the sequential core of a peer-to-peer shared-whiteboard system
built on a small event-based messaging framework ("pb"), and proves properties of the
model in Dafny. It covers five parts:

- **KeepAlive protocol** (`keepalive.dfy`, module `KeepAlive`). One endpoint's
  heartbeat, in the server role and in the client role. The protocol keeps two flags,
  `isAlive` and `protocolRunning`. Timer firings are explicit events. Sent messages,
  armed timers and `endpointTimedOut` calls are recorded as effects. The class
  `KeepAliveProtocol` updates its fields in place, and each method is proved equal to
  one `Step` of a pure state machine. Lemmas over `Run` describe whole heartbeat
  histories.
- **Client manager** (`client_manager.dfy`, module `Client`; `endpoint.dfy`, module
  `Endpoints`). Covers:
  - the bounded connect loop of the constructor;
  - the reconnect loop after an abrupt disconnection;
  - the protocols layered on a ready endpoint;
  - the reactions to endpoint and protocol callbacks.

  Connection attempts are drawn from an input sequence of outcomes.
  `System.exit(-1)` is the terminal outcome `GaveUp`. The endpoint is an abstract
  object with a protocol registry, an availability flag and a count of `close()` calls.
- **Whiteboard server** (`whiteboard_server.dfy`, module `Server`). The table of shared
  boards keyed by sharer, the client map, `broadcast`, `sendSharingPeer` and the
  session and share/unshare handlers. Emissions are recorded in an outbox.
- **Whiteboard peer** (`whiteboard_app.dfy`, module `App`). Covers:
  - the field accessors for `host:port:boardid%version%PATHS` strings, with Java's
    `String.split` semantics (module `JavaText` in `java_text.dfy`);
  - the peer's bookkeeping of boards, sessions, listener lists and boards shared by
    other peers.
- **Admin client** (`admin_client.dfy`, module `Admin`). The settings left by the
  command-line options, and the choice of at most one shutdown request on session
  start.

Shared helpers live in `common.dfy` (module `Common`):
- Java's `List.remove(Object)` as `RemoveFirst`;
- the "create the list if missing, then append" map update as `Appended`;
- an unspecified enumeration of a `HashMap` key set as `KeysInSomeOrder`.

## Model

| member | source | states |
|---|---|---|
| KeepAlive.KeepAliveProtocol.constructor | src/main/java/pb/protocols/keepalive/KeepAliveProtocol.java:53-58 | a new protocol is neither alive nor running and has done nothing |
| KeepAlive.KeepAliveProtocol.StopProtocol | src/main/java/pb/protocols/keepalive/KeepAliveProtocol.java:82-87 | afterwards not running; `isAlive` and the effects unchanged (a no-op when already stopped) |
| KeepAlive.KeepAliveProtocol.StartAsServer | src/main/java/pb/protocols/keepalive/KeepAliveProtocol.java:97-100 | sets running and arms exactly one server timer, sending nothing |
| KeepAlive.KeepAliveProtocol.CheckClientTimeout | src/main/java/pb/protocols/keepalive/KeepAliveProtocol.java:106-107 | arms one 20000 ms server timer and changes no flag |
| KeepAlive.KeepAliveProtocol.ServerTimerFires | src/main/java/pb/protocols/keepalive/KeepAliveProtocol.java:107-119 | three outcomes: not running changes nothing; running and alive clears `isAlive` and re-arms one timer; running and not alive records exactly one timeout and arms nothing |
| KeepAlive.KeepAliveProtocol.StartAsClient | src/main/java/pb/protocols/keepalive/KeepAliveProtocol.java:126-130 | sets running, sends one request, then arms one client timer; a failed send arms nothing and reports `EndpointUnavailable` |
| KeepAlive.KeepAliveProtocol.ClientTimerFires | src/main/java/pb/protocols/keepalive/KeepAliveProtocol.java:130-144 | alive: clears `isAlive`, resends, re-arms when the send goes through, and is running afterwards whatever it was; not alive and stopped: nothing; not alive and running: exactly one timeout |
| KeepAlive.KeepAliveProtocol.SendRequest | src/main/java/pb/protocols/keepalive/KeepAliveProtocol.java:152-154 | records the message exactly when the send succeeds |
| KeepAlive.KeepAliveProtocol.ReceiveReply | src/main/java/pb/protocols/keepalive/KeepAliveProtocol.java:161-163 | sets `isAlive` and sends nothing |
| KeepAlive.KeepAliveProtocol.ReceiveRequest | src/main/java/pb/protocols/keepalive/KeepAliveProtocol.java:171-175 | sends one reply and then sets `isAlive`; if the reply fails, `isAlive` is unchanged |
| KeepAlive.KeepAliveProtocol.SendReply | src/main/java/pb/protocols/keepalive/KeepAliveProtocol.java:182-184 | records the reply exactly when the send succeeds |
| KeepAlive.RunAppend | src/main/java/pb/protocols/keepalive/KeepAliveProtocol.java:82-184 | handling two event sequences in turn equals handling their concatenation |
| KeepAlive.RunExtends | src/main/java/pb/protocols/keepalive/KeepAliveProtocol.java:82-184 | no handler removes a recorded effect |
| KeepAlive.AnsweredClientNeverTimesOut | src/main/java/pb/protocols/keepalive/KeepAliveProtocol.java:126-163 | a client answered in each of `n` periods has sent exactly `n+1` requests, each followed by one timer, and never timed out |
| KeepAlive.SilentServerTimesOutOnce | src/main/java/pb/protocols/keepalive/KeepAliveProtocol.java:130-144 | once the server stops answering: exactly one timeout, `n+1` requests and `n+1` client timers |
| KeepAlive.RequestedServerNeverTimesOut | src/main/java/pb/protocols/keepalive/KeepAliveProtocol.java:97-119 | a server that gets a request in each of `n` periods replies `n` times, arms `n+1` timers and never times out |
| KeepAlive.SilentClientTimesOutOnce | src/main/java/pb/protocols/keepalive/KeepAliveProtocol.java:107-119 | one period without a request gives exactly one timeout and arms no further timer |
| KeepAlive.StoppedServerIsInert | src/main/java/pb/protocols/keepalive/KeepAliveProtocol.java:109-111 | any number of server-timer firings leave a stopped server unchanged |
| KeepAlive.StoppedQuietClientIsInert | src/main/java/pb/protocols/keepalive/KeepAliveProtocol.java:131-140 | client-timer firings leave a stopped client unchanged while its alive flag is clear |
| KeepAlive.StoppedAliveClientRestarts | src/main/java/pb/protocols/keepalive/KeepAliveProtocol.java:131-136 | a stopped client whose alive flag is set sends a new request, re-arms, and is running again |
| KeepAlive.TimeoutLeavesProtocolRunning | src/main/java/pb/protocols/keepalive/KeepAliveProtocol.java:116-118 | a timeout only records `endpointTimedOut`; the protocol stays running, in both roles |
| Endpoints.Endpoint.HandleProtocol | src/main/java/pb/client/ClientManager.java:122-142 | an unavailable endpoint refuses with `EndpointUnavailable`; a name already registered gets `ProtocolAlreadyRunning`; otherwise the name is registered |
| Endpoints.Endpoint.Close | src/main/java/pb/client/ClientManager.java:126 | the endpoint becomes unavailable and the close is counted |
| Client.ClientManager.constructor | src/main/java/pb/client/ClientManager.java:40-72 | the calls and outcome are those of `InitialConnect`: attempts numbered from 1, and the socket is set exactly when connected |
| Client.InitialLoopShape | src/main/java/pb/client/ClientManager.java:43-61 | closed form of the loop: the leading failures, capped at the attempts left, each followed by one 5000 ms sleep, then give-up, run out, or one success followed by one endpoint run |
| Client.InitialLoopAfter | src/main/java/pb/client/ClientManager.java:44-56 | `k` refused attempts in a row, while attempts remain, contribute `k` numbered attempt/sleep pairs and leave the loop at counter `count + k` |
| Client.InitialConnectShape | src/main/java/pb/client/ClientManager.java:43-63 | at most 10 attempts; the first success ends the loop and runs one endpoint |
| Client.AlwaysRefusedGivesUp | src/main/java/pb/client/ClientManager.java:44-61 | 10 refusals give exactly 10 attempts and 10 sleeps, no endpoint, and the exit outcome |
| Client.ClientManager.RetryConnect | src/main/java/pb/client/ClientManager.java:79-109 | the calls and outcome are those of `ReconnectLoop` starting from counter 0; `socket` ends set exactly when it was set already or some attempt connected |
| Client.ClientManager.RetryLoop | src/main/java/pb/client/ClientManager.java:80-104 | the loop stops at the give-up count or when the outcomes run out, having made the calls of `ReconnectLoop` up to that point; the socket is set exactly when some round connected |
| Client.ClientManager.TryOnce | src/main/java/pb/client/ClientManager.java:86-103 | one round: a connection that works sets `socket` and runs an endpoint, one that fails is slept on |
| Client.ReconnectCounts | src/main/java/pb/client/ClientManager.java:80-108 | never ends connected; gives up exactly when the input holds 11 failures, having failed exactly 11 times; one sleep per failure and one endpoint run per success |
| Client.ReconnectOutcome | src/main/java/pb/client/ClientManager.java:80-108 | from any counter: never connected; gives up exactly when the failures reach the attempts left, with that many failures; running out means every input was tried; at most one give-up |
| Client.ReconnectPairs | src/main/java/pb/client/ClientManager.java:86-104 | from any counter, each failure is followed by one 5000 ms sleep and each success by one endpoint run |
| Client.ReconnectNumbering | src/main/java/pb/client/ClientManager.java:80-104 | a success neither advances nor resets the counter: each attempt carries the start value plus the failures before it |
| Client.ReconnectFirstTry | src/main/java/pb/client/ClientManager.java:86-94 | a first-try success runs one endpoint and then the loop tries again with counter 0 |
| Client.ClientManager.RegisterAndStart | src/main/java/pb/client/ClientManager.java:120-130 | registers before starting; `EndpointUnavailable` from either step closes the endpoint, and `ProtocolAlreadyRunning` closes nothing |
| Client.ClientManager.StartKeepAlive | src/main/java/pb/client/ClientManager.java:131-142 | the KeepAlive step follows `Bootstrap`; the protocol is started as client exactly when the endpoint was available and had no KeepAlive registered |
| Client.ClientManager.CloseEndpoint | src/main/java/pb/client/ClientManager.java:126 | the close is recorded, the endpoint becomes unavailable and its registrations stay |
| Client.ClientManager.EndpointReady | src/main/java/pb/client/ClientManager.java:117-143 | calls and endpoint state are `ReadyCalls`; a fresh KeepAlive protocol is created and started as client exactly when it was newly registered |
| Client.ReadyOrder | src/main/java/pb/client/ClientManager.java:117-143 | the session protocol goes first; the KeepAlive step is always taken; each start follows its successful registration; the endpoint is closed right after each `EndpointUnavailable` and at no other point |
| Client.BootstrapOrder | src/main/java/pb/client/ClientManager.java:121-130 | one protocol step starts with its registration, starts only after registering successfully, and closes the endpoint only right after a failure |
| Client.ReadyOnFreshEndpoint | src/main/java/pb/client/ClientManager.java:117-143 | on a fresh endpoint with both sends delivered, both protocols are registered, session first, and the endpoint stays open |
| Client.ClientManager.EndpointClosed | src/main/java/pb/client/ClientManager.java:149-151 | changes no state |
| Client.ClientManager.EndpointDisconnectedAbruptly | src/main/java/pb/client/ClientManager.java:159-163 | closes the old endpoint once, before the reconnect loop; its registrations and the KeepAlive field stay, and `socket` is as `RetryConnect` leaves it |
| Client.ClientManager.EndpointSentInvalidMessage | src/main/java/pb/client/ClientManager.java:171-174 | closes the endpoint exactly once; nothing else changes |
| Client.ClientManager.EndpointTimedOut | src/main/java/pb/client/ClientManager.java:182-185 | closes the endpoint exactly once; nothing else changes |
| Client.ClientManager.ProtocolViolation | src/main/java/pb/client/ClientManager.java:192-195 | closes the endpoint exactly once; nothing else changes |
| Client.ClientManager.SessionStarted | src/main/java/pb/client/ClientManager.java:202-206 | changes no state |
| Client.ClientManager.SessionStopped | src/main/java/pb/client/ClientManager.java:213-216 | closes the endpoint exactly once; nothing else changes |
| Client.RequestedCalls | src/main/java/pb/client/ClientManager.java:228-241 | accepted iff the start's send and the registration both succeed; the protocol is started before it is registered; the endpoint is never closed |
| Client.ClientManager.ProtocolRequested | src/main/java/pb/client/ClientManager.java:228-241 | result and calls are `RequestedCalls`; the registry grows by the protocol only when accepted |
| Server.WhiteboardServer.constructor | src/main/java/pb/WhiteboardServer.java:95-98 | the server starts with no clients, no shared boards and nothing sent |
| Server.WhiteboardServer.AddShareBoard | src/main/java/pb/WhiteboardServer.java:166-171 | the board is appended to the sharer's list, which is created if absent; the other lists are unchanged |
| Common.Appended | src/main/java/pb/WhiteboardServer.java:166-171 | keys gain the sharer; its list is the old list (or empty) plus the board; every other entry is unchanged |
| Server.WithoutShare | src/main/java/pb/WhiteboardServer.java:172-181 | an unknown sharer changes nothing; otherwise one copy of the board leaves the list, keeping the order of the rest, and the sharer leaves the table exactly when nothing is left; the other entries are unchanged |
| Server.WhiteboardServer.RemoveShareBoard | src/main/java/pb/WhiteboardServer.java:172-181 | the table becomes `WithoutShare` of the old table |
| Server.AddKeepsNoEmptyLists | src/main/java/pb/WhiteboardServer.java:166-171 | adding keeps "no sharer maps to an empty list" |
| Server.RemoveKeepsNoEmptyLists | src/main/java/pb/WhiteboardServer.java:172-181 | removing keeps "no sharer maps to an empty list" |
| Server.ShareThenUnshareRestores | src/main/java/pb/WhiteboardServer.java:166-181 | on a table without empty lists, sharing a board not yet listed and then unsharing it gives back exactly the same table |
| Server.Recipients | src/main/java/pb/WhiteboardServer.java:110-113 | exactly the users other than the sharer, each as often as listed, the sharer never |
| Server.Reach | src/main/java/pb/WhiteboardServer.java:110-114 | the loop gets as far as the first non-sharer user without a session, where the lookup throws |
| Server.WhiteboardServer.Broadcast | src/main/java/pb/WhiteboardServer.java:105-117 | in list order, one emission per user other than the sharer, up to the first user without a session; nothing for an empty list |
| Server.BroadcastToAllClients | src/main/java/pb/WhiteboardServer.java:247 | broadcasting over the client map's keys reaches the end, sends once to every client except the sharer, and never to the sharer |
| Server.FlattenSendsEverything | src/main/java/pb/WhiteboardServer.java:146-151 | in whatever order the sharers are enumerated, every shared board is sent exactly as often as it is listed |
| Server.WhiteboardServer.SendBoards | src/main/java/pb/WhiteboardServer.java:148-149 | one sharer's boards go out as `SHARING_BOARD` emissions in list order |
| Server.WhiteboardServer.SendSharingPeer | src/main/java/pb/WhiteboardServer.java:146-151 | emits one `SHARING_BOARD` per board of every sharer's list, sharer by sharer, in some enumeration of the sharers |
| Server.WhiteboardServer.SessionStarted | src/main/java/pb/WhiteboardServer.java:230-236 | the client is stored under its endpoint id and is sent every board shared at that moment |
| Server.WhiteboardServer.ShareBoardReceived | src/main/java/pb/WhiteboardServer.java:239-248 | the argument is cut to its board name and filed under the raiser; then every other client gets `SHARING_BOARD`, once |
| Server.WhiteboardServer.UnshareBoardReceived | src/main/java/pb/WhiteboardServer.java:249-256 | the board name is removed for the raiser; then every other client gets `UNSHARING_BOARD`, once |
| Server.WhiteboardServer.SessionStopped | src/main/java/pb/WhiteboardServer.java:258-265 | the client and its whole share entry are removed, and nothing is emitted |
| Server.WhiteboardServer.SessionError | src/main/java/pb/WhiteboardServer.java:266-272 | the client and its whole share entry are removed, and nothing is emitted |
| JavaText.SplitAll | src/main/java/pb/app/WhiteboardApp.java:325 | at least one field, none containing the separator, and they join back to the input |
| JavaText.SplitJoin | src/main/java/pb/app/WhiteboardApp.java:325 | splitting a join of separator-free fields gives the fields back |
| JavaText.SplitLimited | src/main/java/pb/app/WhiteboardApp.java:315 | at most `limit` fields joining back to the input; only the last may contain the separator |
| JavaText.SplitLimitedBelowLimit | src/main/java/pb/app/WhiteboardApp.java:315 | when fewer than `limit` fields come back the limit changed nothing: they are the fields of the full split, so none holds the separator |
| JavaText.DropTrailingEmpty | src/main/java/pb/app/WhiteboardApp.java:365 | the result is a prefix of the fields, ends with a non-empty field or is empty, and only empty fields were dropped |
| JavaText.Split | src/main/java/pb/app/WhiteboardApp.java:365 | a positive limit gives 1..limit fields; limit 0 without a separator gives the input itself, and never more fields than the full split |
| JavaText.ParseInteger | src/main/java/pb/app/WhiteboardApp.java:346 | `Long.parseLong` here and `Integer.parseInt` in `getPort`: a result is in range for the type (`max` is `Integer.MAX_VALUE` or `Long.MAX_VALUE`) and needs a non-empty input that is all digits after at most one leading sign; the empty string fails |
| JavaText.NatToString | src/main/java/pb/app/WhiteboardApp.java:500 | decimal digits without a leading zero |
| JavaText.IntToString | src/main/java/pb/app/WhiteboardApp.java:500 | only digits and a minus sign |
| JavaText.ParseIntToString | src/main/java/pb/app/WhiteboardApp.java:500 | parsing gives back every rendered in-range value |
| App.GetBoardName | src/main/java/pb/app/WhiteboardApp.java:314-317 | the longest `%`-free prefix of the input: the whole input, or the text before the first `%` |
| App.GetBoardData | src/main/java/pb/app/WhiteboardApp.java:334-337 | defined iff the input has a `%`; then input = name + `%` + result |
| App.VersionAndPaths | src/main/java/pb/app/WhiteboardApp.java:344-357 | the second field is `%`-free; with a third, input = name `%` version `%` paths |
| App.GetBoardVersion | src/main/java/pb/app/WhiteboardApp.java:344-347 | a result is a `long` and needs a `%` in the input |
| App.GetBoardPaths | src/main/java/pb/app/WhiteboardApp.java:354-357 | a result is everything after the second `%`, following a `%`-free version field |
| App.GetIP | src/main/java/pb/app/WhiteboardApp.java:364-367 | a result is a `:`-free prefix of the input; without any `:` it is the whole input |
| App.GetPort | src/main/java/pb/app/WhiteboardApp.java:374-377 | a result is an `int` and needs a `:` in the input |
| App.GetBoardIdAndData | src/main/java/pb/app/WhiteboardApp.java:324-327 | a result is a single `:`-free field |
| App.SharerKey | src/main/java/pb/app/WhiteboardApp.java:500 | defined iff both the IP and the port are; then it is IP + `:` + the port written back from the parsed `int` |
| App.BoardFieldsRoundTrip | src/main/java/pb/app/WhiteboardApp.java:309-357 | for `name%version%paths` with a `%`-free name: name, data, version and paths come back; the paths may contain `%` |
| App.AddressRoundTrip | src/main/java/pb/app/WhiteboardApp.java:324-377 | for `ip:port:id` with `:`-free parts and a non-empty id: IP, port, id and the sharer key come back; anything after a further `:` is dropped |
| App.EmptyBoardIdHasNoField | src/main/java/pb/app/WhiteboardApp.java:324-327 | with an empty id, Java drops the trailing empty field and there is no third field |
| App.WithoutListener | src/main/java/pb/app/WhiteboardApp.java:255-257 | every board keeps its listener entry |
| App.WithoutListenerRemovesOne | src/main/java/pb/app/WhiteboardApp.java:255-257 | each list loses exactly one copy of the id when it has one, and is unchanged otherwise |
| App.ListenThenStopKeepsKey | src/main/java/pb/app/WhiteboardApp.java:417-427 | listening once and then stopping (`peerStopped`, lines 251-259) restores the lists, except that the board keeps an (empty) entry |
| App.DuplicateListenerSurvivesStop | src/main/java/pb/app/WhiteboardApp.java:417-427 | a peer that listened twice is still listed once after it stops (`peerStopped`, lines 251-259) |
| App.Unshared | src/main/java/pb/app/WhiteboardApp.java:514-515 | for a known sharer, one copy of the board leaves its list; the keys stay, and the other entries are unchanged |
| App.ShareThenUnshare | src/main/java/pb/app/WhiteboardApp.java:498-518 | sharing then unsharing a board not yet listed restores the map, except that the sharer keeps an entry |
| App.NewBoardNameParses | src/main/java/pb/app/WhiteboardApp.java:565-569 | a board created by a peer whose `peerport` is `ip:port`, as the constructor sets it, is filed under that `host:port`, and its id field is `board<millis>` |
| App.NewBoardNameIsWhole | src/main/java/pb/app/WhiteboardApp.java:565-569 | a new board's name contains no `%`, so it is its own board name |
| App.StandaloneNameHasNoPort | src/main/java/pb/app/WhiteboardApp.java:164 | the field default `standalone`, meant for the non-distributed version, would give board names (line 566) whose port `getPort` cannot read; the constructor overwrites it before any board exists |
| App.PortlessFields | src/main/java/pb/app/WhiteboardApp.java:566 | a board name made from a peer name without `:` splits into exactly that name and `board<millis>` |
| App.NoThirdField | src/main/java/pb/app/WhiteboardApp.java:325 | `a:b:` with `:`-free parts splits into at most two fields |
| App.WhiteboardApp.constructor | src/main/java/pb/app/WhiteboardApp.java:191-195 | all maps empty, and `peerport` is `<loopback>:<peerPort>`, as `connectToServer` sets it (line 296) before the first board is shown |
| App.WhiteboardApp.OnPeerStarted | src/main/java/pb/app/WhiteboardApp.java:204-206 | the session is stored under the peer's id; nothing else changes |
| App.WhiteboardApp.OnPeerStopped | src/main/java/pb/app/WhiteboardApp.java:251-259 | the session leaves, every listener list becomes `WithoutListener` of the old lists, and the board keys remain |
| App.WhiteboardApp.RemoveListener | src/main/java/pb/app/WhiteboardApp.java:256 | one board's list loses the first occurrence of the id; nothing else changes |
| App.WhiteboardApp.OnPeerError | src/main/java/pb/app/WhiteboardApp.java:260-263 | only the session leaves; the listener lists keep the id |
| App.WhiteboardApp.OnBoardListen | src/main/java/pb/app/WhiteboardApp.java:417-427 | the listener is appended to the board's list, created if absent; duplicates are kept |
| App.WhiteboardApp.OnBoardUnListen | src/main/java/pb/app/WhiteboardApp.java:432-435 | the board's whole listener entry is removed |
| App.WhiteboardApp.OnShareBoard | src/main/java/pb/app/WhiteboardApp.java:498-509 | when the sharer key parses, the board is filed under it and a remote board of that name is added; otherwise nothing changes |
| App.WhiteboardApp.OnUnshareBoard | src/main/java/pb/app/WhiteboardApp.java:511-518 | only for a known sharer, one copy of the board leaves its list and the local board is deleted; otherwise nothing changes |
| App.WhiteboardApp.AddBoard | src/main/java/pb/app/WhiteboardApp.java:540-545 | a board of the same name is replaced |
| App.WhiteboardApp.DeleteBoard | src/main/java/pb/app/WhiteboardApp.java:551-559 | the name is removed; deleting an absent name leaves the map unchanged |
| App.WhiteboardApp.CreateBoard | src/main/java/pb/app/WhiteboardApp.java:565-569 | adds a local, non-remote board named `peerport:board<millis>` |
| Common.RemoveFirst | src/main/java/pb/app/WhiteboardApp.java:256 | `List.remove(Object)`: without the element, unchanged; otherwise the first occurrence is cut out |
| Common.RemoveFirstMultiset | src/main/java/pb/WhiteboardServer.java:176 | removal takes exactly one copy out, and the length drops by one when there was one |
| Common.RemoveFirstOfAppended | src/main/java/pb/WhiteboardServer.java:166-176 | appending a fresh element and removing it gives the list back |
| Common.KeysInSomeOrder | src/main/java/pb/WhiteboardServer.java:247 | an enumeration of the key set with each key exactly once |
| Admin.Defaults | src/main/java/pb/AdminClient.java:39-44 | empty password, every shutdown flag off, the default server address |
| Admin.Configure | src/main/java/pb/AdminClient.java:87-135 | fails iff a port option does not parse; otherwise each option present overrides its setting and each flag option can only switch its flag on |
| Admin.SessionStartedRequests | src/main/java/pb/AdminClient.java:144-158 | at most one request, carrying the password; shutdown alone gives `shutdownServer`, with force `forceShutdownServer`, with vader `vaderShutdownServer`; nothing without shutdown or with both vader and force (each an iff) |
| Admin.BareRunSendsNothing | src/main/java/pb/AdminClient.java:144-158 | the defaults (lines 39-44) with no options give no request |
| Admin.RequestFollowsOptions | src/main/java/pb/AdminClient.java:87-157 | from the defaults, the three flag options alone decide the request, and it carries the command-line password (empty without one) |
| Admin.AdminClient.constructor | src/main/java/pb/AdminClient.java:39-44 | the fields start at the defaults |
| Admin.AdminClient.ApplyOptions | src/main/java/pb/AdminClient.java:87-135 | the fields become `Configure` of the old settings; a bad port exits with nothing else read |
| Admin.AdminClient.OnSessionStarted | src/main/java/pb/AdminClient.java:144-158 | sends exactly `SessionStartedRequests` of the current settings |

## Left out

- Sockets, name resolution, `Thread.sleep`, threads, `Endpoint.start` and `join` are
  left out. A connection attempt is an input outcome, a sleep is a recorded `Sleep`
  call, and an endpoint's whole life is one recorded `EndpointRun`. The
  `InterruptedException` paths, which close the endpoint or print a trace, are not
  modelled.
- `System.exit(-1)` is the terminal outcome `GaveUp`. A connect loop whose input runs
  out ends in `OutOfOutcomes`, because the reconnect loop never ends while connections
  keep succeeding.
- The timer facility is not modelled. Firings are explicit events, and a firing is
  assumed to come after its arming. Races on `isAlive` and `protocolRunning` between
  the timer thread and the decode thread are concurrency and are out of scope.
- Endpoint, SessionProtocol, the managers, Message and Whiteboard are not part of this
  model; their classes are not shown.
  - The endpoint is an abstract object with a registry, an availability flag and a
    close counter.
  - Only whether a send goes through is an input.
  - The client manager's `sessionProtocol` field is not kept. Only whether that
    protocol's first send went through is an input of `EndpointReady`.
- GUI code, logging, ANSI colours and the display helpers of the server are left out.
- The board-update fan-out to listeners (in the peer's path, undo and clear handlers,
  and in `pathCreatedLocally`, `clearedLocally` and `undoLocally`) is left out. It
  depends on the Whiteboard version logic, which is not shown.
- Command-line parsing and help output (commons-cli) are left out. A parsed command
  line is the set of options present.
- The `Instant.now()` timestamp of `createBoard` is a parameter.
- `InetAddress.getLoopbackAddress()` is not modelled: its host address is the
  constructor's `loopback` parameter.
- Only Java's `split` with a one-character separator is modelled.
- `Integer.parseInt` and `Long.parseLong` are modelled on ASCII digits with an optional
  sign. Non-ASCII Unicode digits, which Java also accepts, are not.
- `sessions` is a static field in the peer (shared by all instances) and a field of the
  one app object here.
- The server's `clients` and `sharingBoards` are static fields there and fields of the
  one server object here.
- HashMap iteration order is an unspecified enumeration of the keys. Each handler that
  iterates returns that enumeration as a ghost value.
- Server.WhiteboardServer.ShareBoardReceived: a null argument, or an argument that is
  not a String, is not modelled.
- Server.WhiteboardServer.UnshareBoardReceived: a null argument, or an argument that is
  not a String, is not modelled.

# A model of the IPC bus

The bus lets Node, native, Electron main and Electron renderer processes publish on
channels, subscribe to them, and answer requests. A broker serves the Node and native
processes over sockets; a bridge in the Electron main process serves the frames of the
renderers and the main process itself; one socket between bridge and broker joins the
two halves. This project models that bus in Dafny and proves what it keeps.

`dafny verify dfyconfig.toml` checks everything.

## How the files belong together

Every component that changes state in place is a class; what its methods do is stated by
functions on values, and the laws are lemmas about those functions and about whole runs
of them.

| files | what they model |
|---|---|
| `Common`, `Contract` | channels, peers, messages, commands |
| `ChannelIndex`, `ChannelConnectionMap` | the reference-counted subscription map, seen as a bag of (channel, key), and its notifications |
| `ChannelsRefCount` | the mirror of somebody else's channels |
| `Listeners`, `Broker`, `BrokerNode` | the broker: endpoints, subscriptions, the attached bridge, message dispatch |
| `EndpointKeys`, `RendererBridge` | renderer frames, their keys, the loss of a page |
| `BridgeImpl` | the bridge: who gets a message, what is announced to the broker |
| `Routing` | the journey of one message over broker and bridge |
| `BridgeSession` | the two mirrors over a link that either end can lose |
| `TransportMulti`, `Subscribers` | the transport that several clients share, and its routes in the broker |
| `Requests` | the life of requests |
| `ClientListeners` | a client's listeners against its references in the transport |
| `QueryState` | the state report |
| `ServiceProxy` | calls that wait for a service |
| `TargetChannel`, `LogText` | channels that name their target; the text of a logged value |

## What has to be known about the model

- Peer ids and request ids are unique, sockets deliver in order, handlers do not call
  back, and reference counts that are added are at least 1.
- An unordered map is visited in an arbitrary order, so the proofs hold for every order.
  The pending calls of a service proxy are the exception: there the order of insertion
  matters and is kept.
- `Travel` is the multiset of processes that are handed a copy of a message. It is
  defined by recursion over the forwarding steps; its decreasing rank is the proof that
  nothing is forwarded for ever. The dispatch methods of broker and bridge are proved to
  write exactly the copies of one such step.
- Routing takes a process to have registered its subscriptions where they are looked up;
  `MirrorsAgree`, `DrainedLinkDrainsMirror` and `NobodyForgotten` are the proofs that the
  registrations get there. `RunsAsRouted` is the proof that a process runs its clients as
  routing takes it to.

## Where the code falls short of its purpose

For each of these the condition under which the code does meet its purpose is proved as an
if-and-only-if, and most come with an input or a run that fails it.

- The broker lets a peer handshake again on another socket. Its subscriptions keep the
  first socket, so that they can be lost, or kept, with the wrong one
  (`HandshakeKeepsRouted`, `TakenOverPeerIsStale`).
- When the last listed client closes, everything is cleared, also what clients hold that
  listen on the live transport without having connected; where the connector serves the
  transport, their requests are rejected as well (`CloseSparesOthers`,
  `CloseForgetsListener`). Main clears in silence, and the broker goes on counting its
  channels (`LastLeaveOfMain`, `SilentClearIsMissed`).
- A first subscription is sent in the name of all listed peers; if the broker knows none
  of them yet it is dropped and never repeated (`AddCovers`, `EarlySubscriptionIsMissed`).
- A loss is announced for the peers that are still listed; what the broker holds for a
  client that has left stays, and goes on being routed (`LeavingStaysTidy`,
  `LeaverStaysServed`).
- A transport that lost its connection keeps its subscriptions and does not send them again
  on the next one (`ReconnectForgets`, `LossIsMissed`).
- A client's listeners and its references in the transport part when a listener is
  removed that was never added, when the empty channel name is used (the transport takes
  it for all channels), when `removeAllListeners()` meets an emitter that takes an
  explicit undefined for an event name, and when listeners were added on a live transport
  before the client's own connect, which counts them again (`StepInStep`,
  `ConnectInStep`).
- A response is looked up by its channel, and the entry deleted is the one of the request
  id it carries. When the two differ a request is settled and stays pending
  (`ArrivalKeepsBalance`).
- A status call made while the service is stopped goes out again if the service starts
  before the answer (`InternalCallRepeats`). A call that was delayed until the start and
  is unanswered at the stop is neither resolved nor rejected by the stop
  (`StopRejectsCallsOfSession`).
- A frame that sends on a renderer-targeted channel of a main frame posts to that page
  directly; other subscribers of the channel are skipped (`FrameReachesAllUnlessShortcut`,
  `ShortcutSkipsSubscribers`).
- Frame keys are unambiguous for frame ids up to 255 and page ids below 2^23 only. Beyond
  that they can collide: frame 257 of page 1 has the key of frame 1 of page 2, and a frame
  of page 2^24 + 1 that of the same frame of page 1 (`KeyNamesFrame`, `KeysCollide`,
  `KeyCollisionsOutOfRange`). Destroying a page is right exactly while its keys are its own
  (`DestroyForgetsPage`, `CollidingPagesShareFate`).
- A target channel cannot be read back when the peer's text contains `_target_`
  (`TextReadBack`).
- A buffer of more than the limit, but not more than twice the limit, is cut without the
  marker that other cuts get (`BufferCutSilently`).

## Model

| member | source | states |
|---|---|---|
| Routing.ExactlyOneCopyEach | packages/ipc-bus/src/main/IpcBusBridgeImpl.ts:207-284 | With the bridge's mirror drained, an untargeted message puts exactly one copy into every other subscribed process, whatever its kind, and none into the sender's or into a process that is not subscribed; any number of nodes and frames, and also a request that main does not answer on the way |
| Routing.CopiesOfUntargeted | packages/universal/src/broker/broker-impl.ts:243-295 | The exact number of copies in every process without assuming the mirror drained, and with a request that main may answer: a node process gets the copy of a main or renderer message exactly when it is subscribed and the mirror knows the channel |
| Routing.EveryListenerRunsOnce | packages/universal/src/client/bus-transport-multi.ts:35-59 | Counted per client instead of per process: as soon as every other process that listens is subscribed, every listening client of every process runs once, local delivery included; processes still subscribed without listeners do no harm |
| Routing.RequestsReachNoMore | packages/ipc-bus/src/main/IpcBusBridgeImpl.ts:279-284 | When main answers a request on the way, the half of the bus behind it gets no copy and everything else is as before; the count is exact |
| Routing.AnsweredRequestStaysInElectron | packages/ipc-bus/src/main/IpcBusBridgeImpl.ts:216-231 | A frame's request that a listening client of main answers on the spot reaches no node process |
| Routing.AnsweredRequestStaysOutOfFrames | packages/ipc-bus/src/main/IpcBusBridgeImpl.ts:279-284 | A node's request that main answers on the spot reaches no frame |
| Routing.DetachedElectronKeepsMessages | packages/ipc-bus/src/main/IpcBusBridgeImpl.ts:216-261 | Without a socket transport no message of a frame or of main reaches a node process |
| Routing.DetachedBrokerKeepsMessages | packages/ipc-bus/src/node/IpcBusBrokerNode.ts:95-104 | Without a bridge no message of a node reaches main or a frame |
| Routing.TargetRunsExactlyOnce | packages/universal/src/broker/broker-impl.ts:297-315 | For every pair of sender and target kind: a targeted message to a registered, listening client runs that client once and no other client of any process |
| Routing.AddressedArrivesOnce | packages/ipc-bus/src/main/IpcBusRendererBridge.ts:297-316 | A message or response for a registered peer arrives exactly once in the peer's process, from wherever it was sent |
| Routing.AddressedBothersFew | packages/universal/src/broker/broker-impl.ts:297-315 | Besides its home a targeted message reaches no node process, no frame when a renderer is the target, and no process twice |
| Routing.LostRendererGetsNothing | packages/ipc-bus/src/main/IpcBusRendererBridge.ts:303-316 | A message for a renderer that is not registered is dropped in Electron |
| Routing.LostProcessIsBroadcast | packages/universal/src/broker/broker-impl.ts:243-251 | A node's message for a node process that the broker does not know travels as if it had no target |
| Routing.LostResponseIsDropped | packages/universal/src/broker/broker-impl.ts:254-261 | A response for such a process reaches no node and no frame |
| Routing.ResponseTakenByRequester | packages/ipc-bus/src/main/IpcBusBridgeImpl.ts:286-293 | A response reaches the transport that waits for it exactly once, and no copy reaches another transport that could take it |
| Routing.FrameReachesAllUnlessShortcut | packages/ipc-bus/src/renderer/IpcBusConnectorRenderer.ts:76-92 | A frame's untargeted message reaches every other subscribed process once exactly when it is sent with ports, or the channel names no main frame of a page, or that main frame is the only other subscriber |
| Routing.ShortcutSkipsSubscribers | packages/ipc-bus/src/renderer/IpcBusConnectorRenderer.ts:76-92 | A network in which a subscribed node process gets no copy of a frame's message |
| BridgeImpl.IpcBusBridgeImpl.BroadcastData | packages/ipc-bus/src/main/IpcBusRendererBridge.ts:297-345 | The copies written to frames are those of the routing model, each once; the message is kept when its target is a renderer, found or not |
| BridgeImpl.IpcBusBridgeImpl.OnRendererMessageReceived | packages/ipc-bus/src/main/IpcBusBridgeImpl.ts:207-234 | A frame's message goes to the other frames, then main, then the broker; each forwarding happens exactly when the routing model says so |
| BridgeImpl.IpcBusBridgeImpl.OnMainMessageReceived | packages/ipc-bus/src/main/IpcBusBridgeImpl.ts:250-263 | Main's message goes to the frames and to the broker unless a renderer is targeted |
| BridgeImpl.IpcBusBridgeImpl.OnSocketMessageReceived | packages/ipc-bus/src/main/IpcBusBridgeImpl.ts:279-293 | The broker's message goes to the frames unless main handled it, and never back |
| BridgeImpl.IpcBusBridgeImpl.SocketIsTarget | packages/ipc-bus/src/main/IpcBusSocketBridge.ts:112-117 | The broker is a target when the mirror holds the channel or a node process is aimed at |
| BrokerNode.IpcBusBrokerNode.OnClientSocketMessage | packages/universal/src/broker/broker-impl.ts:243-261 | The broker writes one copy to each direct socket and one to the bridge exactly when the routing model says so, nothing else |
| BrokerNode.IpcBusBrokerNode.SendToTarget | packages/universal/src/broker/broker-impl.ts:297-315 | A target in main or a renderer goes to the bridge; a registered target to its socket; otherwise nothing is written and the caller goes on |
| BrokerNode.IpcBusBrokerNode.SendToChannel | packages/universal/src/broker/broker-impl.ts:286-295 | Every distinct socket with a subscription gets one copy, however many keys share it, the sender's excepted |
| TransportMulti.IpcBusTransportMulti.OnMessageReceived | packages/universal/src/client/bus-transport-multi.ts:35-59 | Whatever order the clients are visited in: nobody runs twice or after a client that handled the message, and all run when nobody handled it |
| TransportMulti.IpcBusTransportMulti.RunsAsRouted | packages/universal/src/client/bus-transport-impl.ts:241-325 | Routing is right about a process for every message, requests answered on the spot included: the process keeps the message in the cases routing names, only clients it names run, and all of them unless one answered before their turn |
| TransportMulti.IpcBusTransportMulti.EligibleAsRouted | packages/universal/src/client/bus-transport-impl.ts:241-264 | The subscribed and listening clients that the target does not exclude are the ones routing lets run |
| TransportMulti.IpcBusTransportMulti.HandledMeans | packages/universal/src/client/bus-transport-impl.ts:258-324 | A message is handled when its target ran, or when a client answered the request; the target runs alone, and nobody runs after the answer |
| TransportMulti.IpcBusTransportMulti.EmptyTargetIsNone | packages/universal/src/client/bus-transport-impl.ts:259 | A target without an id restricts nothing |
| TransportMulti.IpcBusTransportMulti.ResponsesAsRouted | packages/universal/src/client/bus-transport-impl.ts:69-85 | Routing takes a process to keep a response exactly when its request is pending there |
| BridgeSession.MirrorsAgree | packages/ipc-bus/src/node/IpcBusBrokerNode.ts:37-89 | In every reachable state of successive bridge sessions: the bridge's mirror with the commands in flight counts every channel of the broker once and no other; the broker's mirror with the commands in flight counts every channel once per source (renderers, main) that holds it; without a bridge it is empty |
| BridgeSession.NextKeepsInv | packages/ipc-bus/src/main/IpcBusSocketBridge.ts:54-74 | Each single event keeps the session invariant: node traffic, subscriptions in Electron, connect, close, reads at both ends, a socket lost at either end, a broker reset at any moment |
| BridgeSession.RunKeepsInv | packages/ipc-bus/src/main/IpcBusSocketBridge.ts:154-174 | The invariant over any sequence of events |
| BridgeSession.SourceChanges | packages/ipc-bus/src/main/IpcBusBridgeImpl.ts:177-191 | Announcing the changes of one source moves the count of that source and of nothing else in what the broker will know |
| BridgeSession.BrokerChanges | packages/ipc-bus/src/node/IpcBusBrokerNode.ts:56-71 | Whatever the broker's subscriptions announce arrives in what the bridge will know |
| BridgeSession.DrainedLinkDrainsMirror | packages/ipc-bus/src/main/IpcBusSocketBridge.ts:112-117 | A session with nothing left to read gives routing the drained mirror that it relies on |
| BridgeSession.SilentClear | packages/universal/src/client/bus-transport-multi.ts:102-106 | Main clearing its subscriptions without announcing it keeps the agreement exactly when there is nothing to clear |
| BridgeSession.LastLeaveOfMain | packages/universal/src/client/bus-transport-multi.ts:98-109 | When the last connected client of main leaves, its own channels are withdrawn and the rest is cleared in silence: the agreement survives exactly when no other client held anything |
| BridgeSession.SilentClearIsMissed | packages/universal/src/client/bus-transport-multi.ts:102-106 | A reachable session in which it does not survive: a channel is held by a client that never connected |
| BridgeSession.MainSubscribedSession | packages/ipc-bus/src/main/IpcBusBridgeImpl.ts:168-191 | Two events lead to that session from the start, and it satisfies the invariant |
| BrokerNode.IpcBusBrokerNode.OnBridgeConnected | packages/ipc-bus/src/node/IpcBusBrokerNode.ts:37-73 | The first bridge is attached, its channels are added with multiplicity, the snapshot lists every channel once; a second bridge changes nothing |
| BrokerNode.IpcBusBrokerNode.AnnouncedIsComplete | packages/ipc-bus/src/node/IpcBusBrokerNode.ts:47-71 | Snapshot followed by increments, replayed from nothing, is exactly the current channel set, with no contradiction on the way |
| BrokerNode.IpcBusBrokerNode.OnBridgeClosed | packages/ipc-bus/src/node/IpcBusBrokerNode.ts:75-81 | Detaches the bridge and empties the mirror, unless another socket was meant |
| BridgeImpl.IpcBusBridgeImpl.GetChannels | packages/ipc-bus/src/main/IpcBusBridgeImpl.ts:168-172 | The snapshot of Electron lists a channel once per source that holds it |
| BridgeImpl.IpcBusBridgeImpl.OnConnectorCommand | packages/ipc-bus/src/main/IpcBusSocketBridge.ts:154-162 | The bridge's mirror follows the broker's announcement |
| BridgeImpl.IpcBusBridgeImpl.OnConnectorShutdown | packages/ipc-bus/src/main/IpcBusSocketBridge.ts:170-174 | Losing the socket empties the mirror and unsets the socket transport |
| Subscribers.NobodyForgotten | packages/universal/src/client/bus-transport-multi.ts:73-131 | On any run of joins, leaves, handshakes, subscriptions, lost and new connections and foreign traffic: while the transport is connected, every channel it holds is routed to its socket once the broker has read the commands in flight, unless the channel was missed, that is, first subscribed for peers none of whom had sent a handshake, or held when the connection was made |
| Subscribers.CarefulMissesNothing | packages/universal/src/client/bus-transport-multi.ts:73-131 | Nothing is missed when connections are made with nothing held and first subscriptions with a handshaken peer listed |
| Subscribers.ServedExactlyWhatIsHeld | packages/universal/src/client/bus-transport-multi.ts:73-131 | While clients stay until the last one leaves, the broker, once it has read the commands in flight, routes no channel to the transport that it does not hold; when nothing is missed, exactly those it holds |
| Subscribers.LossUndoesGain | packages/universal/src/client/bus-transport-multi.ts:76-91 | Announcing a gain and then a loss for the same peers, registered or not, leaves the broker as it was |
| Subscribers.LeavingStaysTidy | packages/universal/src/client/bus-transport-impl.ts:217-220 | A client leaves no reference behind exactly when the broker has none of its own: the losses that follow do not name it |
| Subscribers.LeaverStaysServed | packages/universal/src/client/bus-transport-impl.ts:217-223 | A run in which the subscriber leaves another client behind, the channel is lost, and the broker still routes it |
| Subscribers.ReconnectForgets | packages/universal/src/client/bus-transport-multi.ts:73-96 | A new connection serves everything the transport holds exactly when it holds nothing: existing channels are not sent again |
| Subscribers.LossIsMissed | packages/universal/src/client/bus-transport-impl.ts:115-122 | A run in which the connection is lost, another client connects, and the channel still held is not served |
| Subscribers.EarlySubscriptionIsMissed | packages/universal/src/client/bus-transport-multi.ts:78-83 | A run in which a channel is subscribed while only a peer without handshake is listed, and stays unserved after the handshake |
| Subscribers.UnknownPeerIsDropped | packages/universal/src/broker/broker-impl.ts:317-326 | The broker drops a first subscription that names no registered peer |
| Subscribers.NextKeepsInv | packages/universal/src/client/bus-connector-impl.ts:60-63 | Each single event keeps every held and not missed channel covered; a handshake is sent before what relies on it, and a lost connection leaves nothing behind in the broker |
| Subscribers.AddCovers | packages/universal/src/broker/broker-impl.ts:317-326 | A first subscription is routed exactly when some peer it names is registered, and concerns no other channel |
| Subscribers.TellingKeepsCover | packages/universal/src/client/bus-transport-multi.ts:76-91 | A batch of first and last subscriptions leaves the channels it does not mention covered, and covers those it ends up holding if a listed peer is registered |
| Subscribers.ForeignInputAgrees | packages/universal/src/broker/broker-impl.ts:186-211 | Nothing other sockets send or suffer touches the transport's entries |
| BrokerModel.RunKeepsInv | packages/universal/src/broker/broker-impl.ts:186-284 | Over any run without a takeover: every subscribed key is a registered endpoint with the same socket, and the index stays well formed |
| BrokerModel.HandleKeepsInv | packages/universal/src/broker/broker-impl.ts:317-360 | Each command keeps it |
| BrokerModel.CommandAt | packages/universal/src/broker/broker-impl.ts:317-360 | The exact effect of every command on every connection: what is added, what each removal takes, and that nothing else changes |
| BrokerModel.CommandRegisters | packages/universal/src/broker/broker-impl.ts:346-360 | Peers are registered by a handshake, unregistered by a shutdown, and by nothing else |
| BrokerModel.CommandBridges | packages/ipc-bus/src/node/IpcBusBrokerNode.ts:37-89 | Only the first bridge is attached, any BridgeClose detaches it and empties the mirror, announcements count by one |
| BrokerModel.RemovalUndoesAddition | packages/universal/src/broker/broker-impl.ts:317-344 | Removing what was added for the same peers gives back the very same broker |
| BrokerModel.HandshakeKeepsRouted | packages/universal/src/broker/broker-impl.ts:346-352 | A handshake keeps it exactly when no listed peer is subscribed through another socket |
| BrokerModel.TakenOverPeerIsStale | packages/universal/src/broker/broker-impl.ts:346-352 | A run of three commands that breaks it: a subscribed peer handshakes again on a second socket |
| BrokerModel.CleanUpForgetsSocket | packages/universal/src/broker/broker-impl.ts:101-112 | After a socket closed no endpoint and no subscription mentions it, and every other connection keeps its exact count and data |
| BrokerNode.IpcBusBrokerNode.SocketCleanUp | packages/universal/src/broker/broker-impl.ts:101-112 | The clean-up that deletes endpoints while it visits them, in any order, has exactly that effect |
| BrokerNode.IpcBusBrokerNode.RemoveEndpoints | packages/universal/src/broker/broker-impl.ts:104-110 | Exactly the endpoints of the socket and all their subscriptions go |
| BrokerNode.IpcBusBrokerNode.OnClientSocketClose | packages/universal/src/broker/broker-impl.ts:178-184 | A close cleans up and forgets one occurrence of a listed socket, or does nothing without a server |
| BrokerNode.IpcBusBrokerNode.ForgetClient | packages/universal/src/broker/broker-impl.ts:181 | The position of a socket that is not listed is -1, and splicing there forgets the last listed one |
| BrokerNode.IpcBusBrokerNode.OnClientSocketCommand | packages/universal/src/broker/broker-impl.ts:186-284 | Every command has the effect of the broker model on the whole state |
| BrokerNode.IpcBusBrokerNode.OnEndpointHandshake | packages/universal/src/broker/broker-impl.ts:346-352 | Each listed peer is registered, or registered anew, with the socket |
| BrokerNode.IpcBusBrokerNode.OnEndpointShutdown | packages/universal/src/broker/broker-impl.ts:354-360 | The listed peers lose their registration and all subscriptions |
| BrokerNode.IpcBusBrokerNode.AddListeners | packages/universal/src/broker/broker-impl.ts:317-326 | One reference more for each listed peer that is registered |
| BrokerNode.IpcBusBrokerNode.RemoveListeners | packages/universal/src/broker/broker-impl.ts:328-344 | One reference of the channel, all of it, or everything of the peer goes, for each listed peer |
| BrokerNode.IpcBusBrokerNode.Reset | packages/ipc-bus/src/node/IpcBusBrokerNode.ts:31-34 | Bridge, sockets and subscriptions go; the endpoints stay |
| Listeners.RemoveOne | packages/universal/src/broker/broker-impl.ts:332-342 | Each kind of removal has its effect on one key, in place |
| Listeners.SubscribeAt | packages/universal/src/broker/broker-impl.ts:317-326 | What subscribing a list of peers does to every (channel, key): repeated peers count repeatedly, unregistered ones not at all |
| Listeners.UnsubscribeAt | packages/universal/src/broker/broker-impl.ts:328-344 | What unsubscribing a list of peers leaves of every (channel, key), for each of the three kinds of removal |
| BrokerModel.RegisterAt | packages/universal/src/broker/broker-impl.ts:346-352 | What a registration leaves of every key |
| ChannelConnectionMaps.ChannelConnectionMap.Remove | packages/universal/src/utils/channel-map.ts:96-104 | Deleting while iterating, in any order, removes every connection of the key and nothing else; the notifications stay replayable |
| ChannelConnectionMaps.ChannelConnectionMap.AddRef | packages/universal/src/utils/channel-map.ts:68-86 | Adds the references, announces a first subscriber, returns the number of connections |
| ChannelConnectionMaps.ChannelConnectionMap.AddChannel | packages/universal/src/utils/channel-map.ts:138-156 | A new channel has one connection and is announced once |
| ChannelConnectionMaps.ChannelConnectionMap.ReleaseChannel | packages/universal/src/utils/channel-map.ts:194-208 | Takes one or all references of the key, announces the loss of the last subscriber, ignores what is unknown |
| ChannelConnectionMaps.ChannelConnectionMap.DropKey | packages/universal/src/utils/channel-map.ts:172-192 | A connection without references goes, and its channel with its last connection |
| ChannelConnectionMaps.ChannelConnectionMap.AddRefs | packages/universal/src/utils/channel-map.ts:56-60 | Adds one reference per listed channel |
| ChannelConnectionMaps.ChannelConnectionMap.Releases | packages/universal/src/utils/channel-map.ts:62-66 | Takes one reference per listed channel |
| ChannelConnectionMaps.ChannelConnectionMap.GetConns | packages/universal/src/utils/channel-map.ts:110-118 | One entry for every key in use, with data stored under that key |
| ChannelConnectionMaps.ChannelConnectionMap.Clear | packages/universal/src/utils/channel-map.ts:51-54 | Forgets the client first, so that nothing is announced |
| ChannelIndex.ReleasesUndoAddRefs | packages/universal/src/utils/channel-map.ts:56-66 | Releasing the same channels in any order, duplicates included, restores the very same index |
| ChannelIndex.AddRefsAt | packages/universal/src/utils/channel-map.ts:56-60 | Adding a list of channels adds its multiset to the bag and keeps the index well formed |
| ChannelIndex.ReleasesAt | packages/universal/src/utils/channel-map.ts:62-66 | Releasing a list of channels takes its multiset away, never below nothing |
| ChannelIndex.RemoveAt | packages/universal/src/utils/channel-map.ts:96-104 | Removing a key zeroes that key on every channel and leaves no empty channel behind |
| ChannelIndex.AddRefAt | packages/universal/src/utils/channel-map.ts:68-86 | Changes the multiplicity of one (channel, key); the first data stored stays |
| ChannelIndex.ReleaseAt | packages/universal/src/utils/channel-map.ts:88-90 | Takes one from one (channel, key) |
| ChannelIndex.ReleaseAllAt | packages/universal/src/utils/channel-map.ts:92-94 | Zeroes one (channel, key) |
| ChannelIndex.Extensional | packages/universal/src/utils/channel-map.ts:28 | Well-formed indexes with the same bag and data are the same index: no hidden empty channels or spent connections |
| ChannelIndex.ReplayAlternates | packages/universal/src/utils/channel-map.ts:154-166 | Additions and removals of a channel strictly alternate in any history that replays, and their number tells whether the channel is held |
| ChannelCounts.ChannelsRefCount.AddRefs | packages/universal/src/utils/channels-ref-count.ts:26-30 | Adds exactly the multiset of the list |
| ChannelCounts.ChannelsRefCount.AddRef | packages/universal/src/utils/channels-ref-count.ts:32-41 | Counts one more and returns the count |
| ChannelCounts.ChannelsRefCount.Release | packages/universal/src/utils/channels-ref-count.ts:43-56 | Counts one less, forgets the channel at zero, ignores an unknown one |
| ChannelCounts.TakeAllUndoesAddAll | packages/universal/src/utils/channels-ref-count.ts:26-56 | Releasing the same channels in any order restores the counts |
| ChannelCounts.TakeAllGet | packages/universal/src/utils/channels-ref-count.ts:43-56 | Releasing a list takes its multiset away, never below zero |
| ChannelCounts.FollowTracksSource | packages/ipc-bus/src/main/IpcBusSocketBridge.ts:154-162 | Following the notifications of one source keeps its share of the counts exact and leaves the rest alone |
| RequestLedger.RunKeepsBalance | packages/universal/src/client/bus-transport-impl.ts:155-199 | Over every interleaving of posts, answers, timers and cancellations: issued requests split into pending and settled ones, and settled ones keep their outcome |
| RequestLedger.TimeoutIsGuarded | packages/universal/src/client/bus-transport-impl.ts:184-195 | On any run, a request that was posted globally with a non-negative timeout is not pending without an armed timer from then on |
| RequestLedger.NoTimeoutNoTimer | packages/universal/src/client/bus-transport-impl.ts:186-195 | A request that is only posted with negative timeouts never has a timer, and no timer fires for it |
| RequestLedger.TimersFireOnce | packages/universal/src/client/bus-transport-impl.ts:187-194 | A timer fires at most once for each time it was armed |
| RequestLedger.OutcomeHasCause | packages/universal/src/utils/deferred-request.ts:34-69 | A request is fulfilled only by a response to it that resolves, with that response's sender and first argument; it fails only by one that rejects; it times out only by its timer or a cancellation of its owner or of all |
| RequestLedger.FirstAnswerWins | packages/universal/src/utils/deferred-request.ts:34-69 | The fate of a request is decided by the first response, timer or cancellation that concerns it, whatever happens to other requests and afterwards |
| RequestLedger.FateIsVerdict | packages/universal/src/client/bus-transport-impl.ts:63-86 | The same from any balanced state |
| RequestLedger.ArrivalKeepsBalance | packages/universal/src/client/bus-transport-impl.ts:69-71 | A response keeps the books exactly when it finds no request or carries the id it is looked up by |
| RequestLedger.StrayResponseSettlesPending | packages/universal/src/client/bus-transport-impl.ts:69-71 | A response that carries another id settles a request and leaves it pending |
| RequestLedger.LeavingCancelsOwn | packages/universal/src/client/bus-transport-impl.ts:327-338 | A leaving client's pending requests are rejected and nobody else's are touched |
| RequestLedger.ShutdownCancelsAll | packages/universal/src/client/bus-transport-impl.ts:125-127 | Before shutdown every pending request is rejected and the table is emptied |
| Requests.RequestTable.Post | packages/universal/src/client/bus-transport-impl.ts:163-169 | Registers a fresh promise under the request's id |
| Requests.RequestTable.PostGlobally | packages/universal/src/client/bus-transport-impl.ts:184-197 | A timer is armed for a non-negative timeout and none for a negative one |
| Requests.RequestTable.OnRequestResponseReceived | packages/universal/src/client/bus-transport-impl.ts:63-86 | Settles the promise looked up by channel and deletes the table entry of the request id; says whether it found one |
| Requests.RequestTable.OnTimer | packages/universal/src/client/bus-transport-impl.ts:187-194 | Rejects the request if it is still pending |
| Requests.RequestTable.CancelRequest | packages/universal/src/client/bus-transport-impl.ts:327-338 | Deleting while iterating, in any order, rejects exactly the client's requests, or all |
| Requests.DeferredRequestPromise.Settled | packages/universal/src/utils/deferred-request.ts:34-58 | The first call decides, and a rejection without an argument still rejects; `OutcomeHasCause` says which outcome a response gives |
| Requests.DeferredRequestPromise.Timeout | packages/universal/src/utils/deferred-request.ts:60-69 | Rejects unless already decided |
| TransportMulti.IpcBusTransportMulti.AddChannel | packages/universal/src/client/bus-transport-multi.ts:111-116 | Counts the listener once the transport is live, and announces a first subscription for all peers |
| TransportMulti.IpcBusTransportMulti.RemoveChannel | packages/universal/src/client/bus-transport-multi.ts:118-131 | Releases one, all of a channel, or everything when the name is absent or empty; exactly the channels lost are announced, as `LossUndoesGain` says |
| TransportMulti.IpcBusTransportMulti.Close | packages/universal/src/client/bus-transport-multi.ts:98-109 | The client's channels are withdrawn with an announcement, its requests rejected, its peer unlisted; when nobody is listed any more the connector shuts down and the subscriptions are cleared without announcement |
| TransportMulti.CloseSparesOthers | packages/universal/src/client/bus-transport-multi.ts:98-109 | Closing one client leaves every request and every count of the others untouched exactly when another client is still listed or no other client holds anything |
| TransportMulti.CloseTakesOwn | packages/universal/src/client/bus-transport-multi.ts:98-101 | Closing leaves the client no subscription and no pending request |
| TransportMulti.CloseForgetsListener | packages/universal/src/client/bus-transport-multi.ts:98-116 | A use of the transport in which it does not: the first client connects, the second listens without connecting, the first closes, and the second holds nothing any more |
| TransportMulti.IpcBusTransportMulti.Withdraw | packages/universal/src/client/bus-transport-multi.ts:100-102 | Exactly the client's requests are rejected and its subscriptions withdrawn, in the name of the peers listed so far |
| TransportMulti.IpcBusTransportMulti.ShutDownConnector | packages/universal/src/client/bus-connector-impl.ts:66-127 | A connected connector that serves the transport rejects all requests, clears, and says goodbye for the peers still listed; otherwise nothing changes |
| TransportMulti.IpcBusTransportMulti.Join | packages/universal/src/client/bus-transport-impl.ts:202-204 | The peer is listed once per id |
| TransportMulti.IpcBusTransportMulti.Leave | packages/universal/src/client/bus-transport-impl.ts:217-220 | The first occurrence of the peer goes |
| TransportMulti.IpcBusTransportMulti.OnHandshakeDone | packages/universal/src/client/bus-transport-multi.ts:73-96 | The transport is live, with its subscriptions as they were |
| TransportMulti.IpcBusTransportMulti.OnConnectorBeforeShutdown | packages/universal/src/client/bus-transport-multi.ts:61-71 | Rejects every request, forgets every subscription without announcing channels, tells the other end once |
| TransportMulti.IpcBusTransportMulti.OnConnectorShutdown | packages/universal/src/client/bus-transport-impl.ts:115-122 | Nothing can be posted any more and no peer is listed |
| ClientListeners.RunInStep | packages/universal/src/client/bus-client-impl.ts:142-169 | Over any run of safe operations the transport holds one reference per registered listener, on every channel |
| ClientListeners.StepInStep | packages/universal/src/client/bus-client-impl.ts:142-169 | An operation keeps the two in step exactly when it is safe: the listener removed is registered or the channel has none, the empty channel name is used only with nothing else registered, and an emitter that takes an absent name literally has nothing to clear |
| ClientListeners.EmptyNameDropsEverything | packages/universal/src/client/bus-client-impl.ts:148-152 | Removing a listener of the empty channel name drops the references of the other channels |
| ClientListeners.StrangerTakesReference | packages/universal/src/client/bus-client-impl.ts:148-152 | Removing a listener that was never added takes the reference of the one that was |
| ClientListeners.ConnectInStep | packages/universal/src/client/bus-client-impl.ts:52-58 | Connecting brings the two in step exactly when the transport held nothing for the client before |
| ClientListeners.RemoveLastAt | packages/universal/src/client/bus-client-impl.ts:148-152 | Of several instances of a listener the most recent goes, and the others keep their order |
| ClientListeners.OffUndoesOn | packages/universal/src/client/bus-client-impl.ts:142-152 | Removing a listener right after adding it restores the emitter |
| BusClient.IpcBusClientImpl.OnConnected | packages/universal/src/client/bus-client-impl.ts:52-58 | Connecting adds one reference per listener registered so far and touches no other client's |
| BusClient.IpcBusClientImpl.AddListener | packages/universal/src/client/bus-client-impl.ts:142-146 | Emitter and transport change together; before the transport is live only the emitter does |
| BusClient.IpcBusClientImpl.RemoveListener | packages/universal/src/client/bus-client-impl.ts:148-152 | The transport loses a reference whether or not the listener is registered; before the transport is live only the emitter changes |
| BusClient.IpcBusClientImpl.RemoveAllListeners | packages/universal/src/client/bus-client-impl.ts:163-169 | One channel, or all; an absent name reaches the emitter as an explicit undefined; before the transport is live only the emitter changes |
| RendererModel.DestroyForgetsPage | packages/ipc-bus/src/main/IpcBusRendererBridge.ts:225-257 | When a page is destroyed every subscription of its frames goes and no other page loses an endpoint or a subscription, exactly when every key the page is subscribed under carries data of that page only |
| RendererModel.RangedKeysAreOwn | packages/ipc-bus/src/main/IpcBusRendererBridge.ts:225-257 | That is so whenever page and frame ids are in the range in which keys are unambiguous |
| RendererModel.RunKeepsSound | packages/ipc-bus/src/main/IpcBusRendererBridge.ts:157-183 | The state this relies on holds after any run of handshakes with ids in range, commands and destroyed pages: subscribed keys are registered and every key belongs to its frame |
| RendererModel.HandleKeepsSound | packages/ipc-bus/src/main/IpcBusRendererBridge.ts:351-413 | Each command of a frame keeps it |
| RendererModel.CommandAt | packages/ipc-bus/src/main/IpcBusRendererBridge.ts:386-413 | The exact effect of every command on every connection of every frame |
| RendererModel.FramesComeAndGo | packages/ipc-bus/src/main/IpcBusRendererBridge.ts:239-267 | Frames are registered by a handshake and go with a shutdown or their page, and with nothing else |
| RendererModel.CollidingPagesShareFate | packages/ipc-bus/src/main/IpcBusRendererBridge.ts:225-237 | Two frames that share a key: destroying the page that subscribed first takes the other's subscription along, destroying the other takes nothing |
| RendererBridge.IpcBusRendererBridge.OnDestroyed | packages/ipc-bus/src/main/IpcBusRendererBridge.ts:225-237 | The handler, which looks at one connection per key, evicts only keys of the page, and all of them unless one is also subscribed by another page |
| RendererBridge.IpcBusRendererBridge.OnHandshakeReceived | packages/ipc-bus/src/main/IpcBusRendererBridge.ts:157-183 | The peer gets its page and frame ids and is registered under the key made from them |
| RendererBridge.IpcBusRendererBridge.OnIPCCommandReceived | packages/ipc-bus/src/main/IpcBusRendererBridge.ts:351-413 | Every command has the effect of the renderer model on the whole state |
| RendererBridge.IpcBusRendererBridge.DeleteEndpointKey | packages/ipc-bus/src/main/IpcBusRendererBridge.ts:239-243 | A registered key loses its endpoint and all subscriptions; another key nothing |
| RendererBridge.IpcBusRendererBridge.DeleteEndpointKeys | packages/ipc-bus/src/main/IpcBusRendererBridge.ts:261-267 | So does every key of a list, in any order |
| EndpointKeys.KeyNamesFrame | packages/ipc-bus/src/utils/IpcBusCommand-helpers.ts:69-75 | For page ids below 2^23 and frame ids up to 255 two frames share a key exactly when page and frame are the same |
| EndpointKeys.KeysCollide | packages/ipc-bus/src/utils/IpcBusCommand-helpers.ts:69-75 | In general they share it exactly when their packed 32-bit numbers are equal |
| EndpointKeys.KeyCollisionsOutOfRange | packages/ipc-bus/src/utils/IpcBusCommand-helpers.ts:71 | Outside either bound there are frames of two pages with the same key |
| EndpointKeys.DigitsReadBack | packages/ipc-bus/src/utils/IpcBusCommand-helpers.ts:71 | The decimal text of a number reads back as the number |
| EndpointKeys.DecimalInjective | packages/ipc-bus/src/utils/IpcBusCommand-helpers.ts:71 | Different numbers have different decimal texts |
| QueryState.Report | packages/universal/src/broker/broker-impl.ts:136-172 | The books balance: each channel's total is the sum of its reference counts, each peer entry the sum over the keys that belong to it, and the entries of all peers add up to the total |
| QueryState.CountChannel | packages/universal/src/broker/broker-impl.ts:147-162 | Booking one channel adds its references to the entries of their peers and leaves every other channel's entries alone |
| BrokerNode.IpcBusBrokerNode.QueryState | packages/universal/src/broker/broker-impl.ts:136-172 | The broker's books balance, one entry per endpoint |
| TransportMulti.IpcBusTransportMulti.QueryState | packages/universal/src/client/bus-transport-multi.ts:133-167 | The transport's books balance |
| RendererBridge.IpcBusRendererBridge.QueryState | packages/ipc-bus/src/main/IpcBusRendererBridge.ts:436-471 | The renderer bridge's books balance, also when several frames share a process entry |
| ServiceQueue.NeverDispatchedTwice | packages/universal/src/service/bus-service-proxy-impl.ts:149-227 | Over any run no requested or sent call is dispatched twice, and one not dispatched is still waiting |
| ServiceQueue.StartDispatchesEverything | packages/universal/src/service/bus-service-proxy-impl.ts:274-291 | A start dispatches what was waiting, in call order, and then every requested or sent call has gone out exactly once |
| ServiceQueue.StartKeepsCallOrder | packages/universal/src/service/bus-service-proxy-impl.ts:286-288 | Of two calls that waited for the start, the one made first goes out first |
| ServiceQueue.StopRejectsCallsOfSession | packages/universal/src/service/bus-service-proxy-impl.ts:293-308 | A stop rejects exactly the unanswered requests and status calls made since the start; unanswered calls that had waited for the start stay unsettled |
| ServiceQueue.InternalCallRepeats | packages/universal/src/service/bus-service-proxy-impl.ts:213-217 | A status call goes out a second time exactly when the service starts before it was answered |
| ServiceQueue.RunFollowsService | packages/universal/src/service/bus-service-proxy-impl.ts:274-307 | After any run the proxy is started and aimed as the first start since the last stop says: at its sender if the service is direct, at nobody in particular otherwise |
| ServiceQueue.CallsGoToService | packages/universal/src/service/bus-service-proxy-impl.ts:185-227 | Whatever goes out, delayed calls included, goes to the service in force at that moment |
| ServiceQueue.OutcomeHasCause | packages/universal/src/service/bus-service-proxy-impl.ts:190-207 | A call is answered as the bus answered it, and rejected for a stop only by a stop; an answer leaves no call open |
| ServiceQueue.StatusGoesOutTwice | packages/universal/src/service/bus-service-proxy-impl.ts:213-217 | A run in which it does |
| ServiceQueue.DelayedRequestLeftOpen | packages/universal/src/service/bus-service-proxy-impl.ts:286-289 | A run in which a delayed request is sent out and stays unsettled after the stop |
| ServiceQueue.RunKeepsInv | packages/universal/src/service/bus-service-proxy-impl.ts:149-308 | How often each call has gone out, and which calls are pending, over any run |
| ServiceProxy.IpcBusServiceProxyImpl.Apply | packages/universal/src/service/bus-service-proxy-impl.ts:149-227 | A call goes out at once or waits; a call sent while started leaves no trace in the pending calls |
| ServiceProxy.IpcBusServiceProxyImpl.OnAnswer | packages/universal/src/service/bus-service-proxy-impl.ts:196-207 | An answer ends the wait and settles the promise unless it was settled |
| ServiceProxy.IpcBusServiceProxyImpl.DispatchPending | packages/universal/src/service/bus-service-proxy-impl.ts:286-288 | Visiting the pending calls while sent ones delete themselves skips none and repeats none |
| ServiceProxy.IpcBusServiceProxyImpl.OnServiceStart | packages/universal/src/service/bus-service-proxy-impl.ts:274-291 | A start while stopped dispatches to the new target and empties the pending calls; a start while started does nothing |
| ServiceProxy.IpcBusServiceProxyImpl.OnServiceStop | packages/universal/src/service/bus-service-proxy-impl.ts:293-308 | A stop while started rejects what is pending and forgets the target; a stop while stopped does nothing |
| TargetChannel.TargetRoundTrip | packages/ipc-bus/src/utils/IpcBusCommand-helpers.ts:24-80 | Reading the channel created for a peer with the getter of its kind returns the peer, and every other getter returns nothing |
| TargetChannel.MessageTargetDecides | packages/ipc-bus/src/utils/IpcBusCommand-helpers.ts:35-67 | A target in the message decides whatever the channel says: only the getter of its kind finds it; without one, a getter that is not to look at the channel finds nothing |
| TargetChannel.TextReadBack | packages/ipc-bus/src/utils/IpcBusCommand-helpers.ts:29-30 | The text is read back exactly when it does not contain the separator |
| TargetChannel.SeparatorFound | packages/ipc-bus/src/utils/IpcBusCommand-helpers.ts:29 | The separator is first found right behind the text exactly then: it cannot begin inside the text and end behind its closing brace |
| LogText.CutIsBounded | packages/ipc-bus/src/log/IpcBusLogUtils.ts:12-94 | The cut text is at most the limit plus 11 per level of nesting plus the longest piece written whole |
| LogText.CutIsFaithful | packages/ipc-bus/src/log/IpcBusLogUtils.ts:12-94 | A text that fits is printed unchanged, and otherwise its first characters, up to the limit, are |
| LogText.CutIsHonest | packages/ipc-bus/src/log/IpcBusLogUtils.ts:12-94 | A text without buffers is complete or carries the marker |
| LogText.BufferCutSilently | packages/ipc-bus/src/log/IpcBusLogUtils.ts:16-21 | A buffer is complete or marked exactly when it fits or has more than twice the limit |
| LogText.JsonStringify | packages/ipc-bus/src/log/IpcBusLogUtils.ts:12-47 | Prints the cut text, whose length is bounded and whose first characters are unchanged; the recursion ends |
| LogText.StringifyJsonArray | packages/ipc-bus/src/log/IpcBusLogUtils.ts:49-61 | The loop that appends to its output ends with the cut text of the array |
| LogText.JsonStringifyObject | packages/ipc-bus/src/log/IpcBusLogUtils.ts:63-86 | The loop that appends to its output ends with the cut text of the object |

## Left out

- Routing.ExactlyOneCopyEach: does not cover a message that a frame posts to a page directly; `FrameReachesAllUnlessShortcut` covers it.
- Routing.RequestsReachNoMore: whether a client of main answers on the spot is a parameter; which of several clients of one process runs before the answer depends on the visiting order and is left open.
- Routing.TargetRunsExactlyOnce: takes the target to be registered and listening in one process only, as unique peer ids give it; a target id that is empty restricts nothing and is treated as such by `Aim`.
- BridgeSession.MirrorsAgree: follows one bridge connection after another; both ends have seen a connection end before the next begins, a second bridge is ignored by the broker, and the handshake of the bridge's own peer is not among the queued commands.
- BridgeSession.MirrorsAgree: messages on the same socket are not interleaved with the queued commands.
- BridgeSession.MirrorsAgree: main's silent clear is not among the moves; `LastLeaveOfMain` gives its exact effect.
- Subscribers.NobodyForgotten: a connection ends for both ends at once, so that commands sent into a dead connection are those not yet read; the last client to leave ends it in the same step.
- Subscribers.NobodyForgotten: main has no socket to the broker of its own and is not such a transport; its channels travel in the bridge session.
- TransportMulti.IpcBusTransportMulti.Close: the shutdown of the connector and the clearing behind it, which the code awaits, are one step with the close; a shutdown that runs into its timeout is not modelled.
- Subscribers.ServedExactlyWhatIsHeld: after one of several clients has left, only `NobodyForgotten` is promised; `LeavingStaysTidy` says when references stay behind.
- BrokerNode.IpcBusBrokerNode.Reset: the endpoints survive a reset, as in the code, so that freshness after a restart of the broker is not claimed.
- BrokerNode.IpcBusBrokerNode.OnClientSocketCommand: does not model QueryState, QueryStateResponse and LogRoundtrip, which change no state; the first two write to the bridge even when none is attached.
- RendererBridge.IpcBusRendererBridge.OnDestroyed: message and command ports of a frame are not modelled.
- RendererBridge.IpcBusRendererBridge.OnDestroyed: a frame that registered but never subscribed keeps its endpoint when its page is destroyed, as in the code.
- RendererBridge.IpcBusRendererBridge.QueryState: the text of a process id is a parameter.
- BusClient.IpcBusClientImpl.RemoveAllListeners: whether the emitter takes an explicit undefined for all events is a parameter, because emitters differ.
- ServiceProxy.IpcBusServiceProxyImpl.Apply: the deferred objects are values numbered in call order; timeouts of calls belong to the transport.
- TargetChannel.TargetRoundTrip: writing and reading JSON are parameters, with the one law that reading undoes writing and a text ends in `}`; the variant of the universal package is not modelled.
- LogText.JsonStringify: a byte of a buffer is one character, a date or number has a text of its own, and the type switch of `cutData` in front of it is not modelled.
- ChannelConnectionMaps.ChannelConnectionMap.AddRef: reference cells are values inside the map, so aliasing of a cell that was handed out is not captured.
- The key and connection data that accompany a channel notification; its receivers use the channel alone.
- `postCommand` of the main connector, which throws for commands it should not get, among them the one a transport sends before shutdown.
- Sockets, Electron inter-process calls, message ports and packet serialisation.
- Logging, message stamps, factories, options and timeouts of connect and close.
- The bridge as a server, in which broadcasting a command is not implemented.
- `once` listeners, whose delivery unwraps the wrapper that would remove them.
- Connecting while a close is pending, and the reconnection of the browser client.
- Wall-clock time: an armed timer may fire at any later moment.

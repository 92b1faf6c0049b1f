/** Peers, messages and commands, as they travel on the bus. */
module Contract {
  import opened Common

  datatype ProcessType = Native | Node | Renderer | Worker | Undefined | Browser | Main

  /** What a renderer learns about itself during its handshake. */
  datatype Process = Process(wcid: int, frameid: int, isMainFrame: bool)

  datatype Peer = Peer(id: Key, kind: ProcessType, process: Option<Process>)

  datatype MessageKind = SendMessage | RequestResponse

  /** `request` is the id of the request a message makes or answers. */
  datatype Message = Message(
    kind: MessageKind,
    channel: Channel,
    peer: Peer,
    target: Option<Peer>,
    request: Option<Key>)

  /** One end of a socket connection, as its server tells them apart. */
  type Socket = nat

  datatype Command =
    | Handshake(peers: seq<Peer>)
    | Shutdown(peers: seq<Peer>)
    | AddChannelListener(channel: Channel, peers: seq<Peer>)
    | RemoveChannelListener(channel: Channel, peers: seq<Peer>)
    | RemoveChannelAllListeners(channel: Channel, peers: seq<Peer>)
    | RemoveListeners(peers: seq<Peer>)
    | BridgeConnect(channels: seq<Channel>)
    | BridgeAddChannelListener(channel: Channel)
    | BridgeRemoveChannelListener(channel: Channel)
    | BridgeClose

  /** Main and renderer processes are reached through the bridge. */
  predicate IsBridgeTarget(target: Peer) {
    target.kind == Main || target.kind == Renderer
  }

  /** Node and native processes are reached through the broker. */
  predicate IsProcessTarget(target: Peer) {
    target.kind == Node || target.kind == Native
  }
}

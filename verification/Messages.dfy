/** The messages server and browser exchange, one constructor per message code, and websocket pings. */
module Messages {
  import opened Basics

  datatype PeerEntry = PeerEntry(id: int, name: string)

  datatype SharedFile = SharedFile(serverFileId: int, name: Option<string>, size: int)

  /** What a room broadcasts. Joined, Left, Chat and Files can also be kept in its history. */
  datatype Entry =
    | Joined(peerId: int, peerName: string)
    | Left(peerId: int)
    | Chat(peerId: int, peerName: string, timestamp: int, text: Option<string>)
    | Files(peerId: int, peerName: string, timestamp: int, files: seq<SharedFile>)
    | Typing(peerId: int, peerName: string, timestamp: int)

  datatype Message =
    | Info(peerId: int, peerName: string, peers: seq<PeerEntry>, history: seq<Entry>)
    | Broadcast(entry: Entry)
    | RequestChunk(clientFileId: int, serverFileId: int, subscriberId: int, position: nat, size: nat)
    | ApiError(text: string)
    | Ping

  /** A file structure as a client may send it: every field can be missing. */
  datatype RawFile = RawFile(
    clientFileId: Option<int>, serverFileId: Option<int>, name: Option<string>, size: Option<int>,
    subscriberId: Option<int>, data: Option<Bytes>)

  /** A message as a client may send it, with whatever identity and time it claims. */
  datatype RawMessage = RawMessage(
    code: Option<int>, peerId: Option<int>, peerName: Option<string>, timestamp: Option<int>,
    text: Option<string>, files: Option<seq<Option<RawFile>>>)

  const CODE_PEER_MESSAGE := 3
  const CODE_PEER_IS_TYPING := 5
  const CODE_FILE_SHARE := 6
  const CODE_FILE_CHUNK_DATA := 8
}

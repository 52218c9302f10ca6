/** A room and its peers as values, and what each server operation does to them. */
module RoomSpec {
  import opened Basics
  import opened Messages

  /**
   `outbox` is everything ever queued for the peer's socket, in order; `live` says whether `m_socket` is
   still set; `pings` is the ping-pong counter; `files` are the server ids of the files the peer hosts.
   */
  datatype PeerValue = PeerValue(name: string, live: bool, outbox: seq<Message>, pings: int, files: seq<int>)

  /** `index` maps the keys of `m_fileById` to the file's host; a missing limit counts as 0. */
  datatype RoomValue = RoomValue(
    limit: nat, peers: map<int, PeerValue>, history: seq<Entry>, index: map<int, int>, fileIdCounter: int)

  function NewPeer(name: string): PeerValue {
    PeerValue(name, true, [], 0, [])
  }

  function NewRoom(limit: nat): RoomValue {
    RoomValue(limit, map[], [], map[], 1)
  }

  function LastN<T>(s: seq<T>, n: nat): seq<T> {
    if |s| > n then s[|s| - n..] else s
  }

  /** `addHistoryMessage` */
  function Remember(history: seq<Entry>, limit: nat, e: Entry): seq<Entry> {
    if limit == 0 then history else LastN(history + [e], limit)
  }

  /** `Peer::sendMessageAsync` drops the message when the socket is gone. */
  function Sent(p: PeerValue, m: Message): PeerValue {
    if p.live then p.(outbox := p.outbox + [m]) else p
  }

  function SentToAll(peers: map<int, PeerValue>, m: Message): map<int, PeerValue> {
    map id | id in peers :: Sent(peers[id], m)
  }

  function Post(r: RoomValue, e: Entry): RoomValue {
    r.(history := Remember(r.history, r.limit, e), peers := SentToAll(r.peers, Broadcast(e)))
  }

  function Names(peers: map<int, PeerValue>): map<int, string> {
    map id | id in peers :: peers[id].name
  }

  /** `addPeer` */
  function Add(r: RoomValue, id: int, p: PeerValue): RoomValue {
    r.(peers := r.peers[id := p])
  }

  /** `onboardPeer`: the snapshot, in the table's own `order`, and the history. */
  function Onboard(r: RoomValue, id: int, order: seq<PeerEntry>): RoomValue
    requires id in r.peers
  {
    r.(peers := r.peers[id := Sent(r.peers[id], Info(id, r.peers[id].name, order, r.history))])
  }

  /** `onAfterCreate_NonBlocking` within the room: welcome, add, onboard. */
  function Join(r: RoomValue, id: int, name: string, order: seq<PeerEntry>): RoomValue {
    Onboard(Add(Post(r, Joined(id, name)), id, NewPeer(name)), id, order)
  }

  /** `removePeerById` */
  function RemovePeer(r: RoomValue, id: int): RoomValue {
    if id in r.peers then
      r.(peers := r.peers - {id}, index := r.index - (set f | f in r.peers[id].files))
    else r
  }

  /** `onBeforeDestroy_NonBlocking` within the room: remove, say goodbye. */
  function Leave(r: RoomValue, id: int): RoomValue {
    Post(RemovePeer(r, id), Left(id))
  }

  /** `shareFile` of a host that is in the room. */
  function Share(r: RoomValue, host: int): RoomValue
    requires host in r.peers
  {
    r.(fileIdCounter := r.fileIdCounter + 1, index := r.index[r.fileIdCounter := host],
       peers := r.peers[host := r.peers[host].(files := r.peers[host].files + [r.fileIdCounter])])
  }

  // ---- Incoming client messages ----

  function ApiFailure(r: RoomValue, id: int, text: string): RoomValue
    requires id in r.peers
  {
    r.(peers := r.peers[id := Sent(r.peers[id], ApiError(text))])
  }

  function Fault(f: Option<RawFile>): Option<string> {
    if f.None? then Some("File structure is not provided.")
    else if f.value.clientFileId.None? then Some("File clientId is not provided.")
    else if f.value.name.None? then Some("File name is not provided.")
    else if f.value.size.None? then Some("File size is not provided.")
    else None
  }

  function FirstFault(files: seq<Option<RawFile>>): Option<string> {
    if files == [] then None
    else if Fault(files[0]).Some? then Fault(files[0])
    else FirstFault(files[1..])
  }

  /** `validateFilesList`: the first error, if any. */
  function Validate(files: seq<Option<RawFile>>): Option<string> {
    if files == [] then Some("Files list is empty.") else FirstFault(files)
  }

  /** What `handleFilesMessage` needs of its list; the verdict of its validator is thrown away. */
  predicate Shareable(files: Option<seq<Option<RawFile>>>) {
    files.Some? &&
    forall f :: f in files.value ==> f.Some? && f.value.clientFileId.Some? && f.value.size.Some?
  }

  function ShareAll(r: RoomValue, host: int, files: seq<Option<RawFile>>): (RoomValue, seq<SharedFile>)
    requires host in r.peers && Shareable(Some(files))
    decreases |files|
  {
    if files == [] then (r, [])
    else
      var f := files[0].value;
      var (r', rest) := ShareAll(Share(r, host), host, files[1..]);
      (r', [SharedFile(r.fileIdCounter, f.name, f.size.value)] + rest)
  }

  /** The part of a room that sharing a file leaves alone. */
  predicate SameButFiles(r: RoomValue, r': RoomValue) {
    && r'.peers.Keys == r.peers.Keys
    && (forall p :: p in r.peers ==> r'.peers[p].(files := []) == r.peers[p].(files := []))
    && r'.limit == r.limit && r'.history == r.history
  }

  lemma {:induction false} ShareAllFacts(r: RoomValue, host: int, files: seq<Option<RawFile>>)
    requires host in r.peers && Shareable(Some(files))
    ensures SameButFiles(r, ShareAll(r, host, files).0)
    decreases |files|
  {
    if files == [] {
    } else {
      ShareAllFacts(Share(r, host), host, files[1..]);
    }
  }

  datatype ChunkVerdict = Refused(text: string) | Ignored | Forward(file: int, subscriber: int, data: Bytes)

  /** The checks of `handleFileChunkMessage`, up to handing the data to the file. */
  function CheckChunk(index: map<int, int>, id: int, files: Option<seq<Option<RawFile>>>): ChunkVerdict
    requires files.Some? ==> files.value != []
  {
    if files.None? then Refused("No file provided.")
    else if |files.value| > 1 then Refused("Invalid files count. Expected - 1.")
    else match files.value[0]
      case None => Refused("File structure is not provided.")
      case Some(f) =>
        if f.serverFileId.None? then Refused("File clientId is not provided.")
        else if f.subscriberId.None? then Refused("File subscriberId is not provided.")
        else if f.data.None? then Refused("File chunk data is not provided.")
        else if f.serverFileId.value !in index then Ignored
        else if index[f.serverFileId.value] != id then Refused("Wrong file host.")
        else Forward(f.serverFileId.value, f.subscriberId.value, f.data.value)
  }

  predicate Acceptable(raw: RawMessage) {
    && (raw.code == Some(CODE_FILE_SHARE) ==> Shareable(raw.files))
    && (raw.code == Some(CODE_FILE_CHUNK_DATA) ==> raw.files.Some? ==> raw.files.value != [])
  }

  /** `readMessage` overwrites the identity and the time a message claims. */
  function Stamped(raw: RawMessage, id: int, name: string, now: int): RawMessage {
    raw.(peerId := Some(id), peerName := Some(name), timestamp := Some(now))
  }

  predicate IsStamped(m: RawMessage) {
    m.peerId.Some? && m.peerName.Some? && m.timestamp.Some?
  }

  /** `handleMessage` dispatches on the code; chat and typing messages go on as they are. */
  function Dispatch(r: RoomValue, id: int, m: RawMessage, now: int): RoomValue
    requires id in r.peers && Acceptable(m) && IsStamped(m)
  {
    match m.code
    case None => ApiFailure(r, id, "No message code provided.")
    case Some(code) =>
      if code == CODE_PEER_MESSAGE then
        Post(r, Chat(m.peerId.value, m.peerName.value, m.timestamp.value, m.text))
      else if code == CODE_PEER_IS_TYPING then
        r.(peers := SentToAll(r.peers, Broadcast(Typing(m.peerId.value, m.peerName.value, m.timestamp.value))))
      else if code == CODE_FILE_SHARE then
        var (shared, list) := ShareAll(r, id, m.files.value);
        Post(shared, Files(id, r.peers[id].name, now, list))
      else if code == CODE_FILE_CHUNK_DATA then
        match CheckChunk(r.index, id, m.files)
        case Refused(text) => ApiFailure(r, id, text)
        case _ => r
      else ApiFailure(r, id, "Invalid client message code.")
  }

  /** A message arrives on the socket of peer `id`. */
  function Handle(r: RoomValue, id: int, raw: RawMessage, now: int): RoomValue
    requires id in r.peers && Acceptable(raw)
  {
    Dispatch(r, id, Stamped(raw, id, r.peers[id].name, now), now)
  }

  /** Whether the answer is `onApiError`, which needs the sender's socket. */
  predicate AnsweredWithError(r: RoomValue, id: int, raw: RawMessage)
    requires Acceptable(raw)
  {
    match raw.code
    case None => true
    case Some(code) =>
      if code == CODE_FILE_CHUNK_DATA then CheckChunk(r.index, id, raw.files).Refused?
      else code != CODE_PEER_MESSAGE && code != CODE_PEER_IS_TYPING && code != CODE_FILE_SHARE
  }

  /** A message of a peer without a socket is handled all the same, unless it is to be answered with an error. */
  predicate CanHandle(r: RoomValue, id: int, raw: RawMessage) {
    id in r.peers && Acceptable(raw) && (AnsweredWithError(r, id, raw) ==> r.peers[id].live)
  }

  // ---- Ping and pong ----

  predicate Answering(p: PeerValue) {
    p.live && p.pings == 0
  }

  /** `sendPingAsync`, and `invalidateSocket` if it returns false. */
  function Pinged(p: PeerValue): PeerValue {
    if Answering(p) then p.(pings := p.pings + 1, outbox := p.outbox + [Ping])
    else p.(pings := p.pings + 1, live := false)
  }

  function PingAll(r: RoomValue): RoomValue {
    r.(peers := map id | id in r.peers :: Pinged(r.peers[id]))
  }

  function Ponged(p: PeerValue): PeerValue {
    p.(pings := p.pings - 1)
  }
}

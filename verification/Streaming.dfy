/**
 File streaming in one room: any number of files, hosts and HTTP readers.

 The server asks a file's host for one chunk at a position, the host answers with bytes only: a reply names
 the file and the subscriber but not the position. Packets in flight sit in `net` under an arbitrary handle,
 so they are delivered in any order. `honest` is the set of peers that run the shipped browser client; all
 other peers may declare wrong sizes and inject any reply under their own identity.
 */
module Streaming {
  import opened Basics
  import opened Chunks

  datatype Key = Key(file: int, sub: int)

  datatype FileInfo = FileInfo(host: int, clientFileId: int, size: int)

  datatype Packet =
    | Request(to: int, clientFileId: int, key: Key, position: nat, size: nat)
    | Reply(from: int, key: Key, data: Bytes)

  /**
   `clientFiles` is the `filesMap` of every browser, `shared` every file ever shared, `index` the keys of
   `m_fileById`, `streams` every subscriber ever created, `registered` the keys present in `m_subscribers`.
   */
  datatype System = System(
    clientFiles: map<(int, int), Bytes>,
    members: set<int>,
    shared: map<int, FileInfo>,
    index: set<int>,
    fileIdCounter: int,
    subIdCounter: map<int, int>,
    streams: map<Key, Stream>,
    registered: set<Key>,
    net: map<nat, Packet>,
    nextPacket: nat,
    served: nat)

  const EMPTY := System(map[], {}, map[], {}, 1, map[], map[], {}, map[], 0, 0)

  datatype Event =
    | Join(peer: int)
    | PickFile(peer: int, clientFileId: int, content: Bytes)
    | Share(peer: int, clientFileId: int, size: int)
    | Subscribe(file: int)
    | Read(key: Key, count: nat)
    | Wake(key: Key)
    | Answer(packet: nat)
    | Deliver(packet: nat)
    | Lose(packet: nat)
    | Inject(from: int, key: Key, data: Bytes)
    | Close(key: Key)
    | Leave(peer: int)

  predicate Enabled(s: System, honest: set<int>, e: Event) {
    match e
    case Join(peer) => true
    case PickFile(peer, id, content) => (peer, id) !in s.clientFiles
    case Share(peer, id, size) =>
      peer in s.members &&
      (peer in honest ==> (peer, id) in s.clientFiles && size == |s.clientFiles[(peer, id)]|)
    case Subscribe(file) => file in s.index && file in s.shared && file in s.subIdCounter
    case Read(key, count) => key in s.streams && key.file in s.shared && CanRead(s.streams[key], count)
    case Wake(key) => key in s.streams && CanWake(s.streams[key])
    case Answer(i) => i in s.net && s.net[i].Request?
    case Deliver(i) => i in s.net && s.net[i].Reply?
    case Lose(i) => i in s.net
    case Inject(from, key, data) => from !in honest
    case Close(key) => key in s.streams && s.streams[key].reader != Gone
    case Leave(peer) => peer in s.members
  }

  function DoShare(s: System, peer: int, id: int, size: int): System {
    var file := s.fileIdCounter;
    s.(fileIdCounter := file + 1, shared := s.shared[file := FileInfo(peer, id, size)],
       index := s.index + {file}, subIdCounter := s.subIdCounter[file := 1])
  }

  function DoSubscribe(s: System, file: int): System
    requires file in s.subIdCounter
  {
    var key := Key(file, s.subIdCounter[file]);
    s.(subIdCounter := s.subIdCounter[file := key.sub + 1],
       streams := s.streams[key := NEW_STREAM], registered := s.registered + {key})
  }

  /** `ReadCallback::read`: a request goes out to the file's host, delivered bytes are counted as served. */
  function DoRead(s: System, key: Key, count: nat): System
    requires key in s.streams && key.file in s.shared
  {
    var file := s.shared[key.file];
    var st := s.streams[key];
    var outcome := ReadChunk(st.sub, file.size, count).1;
    var sends := outcome.Requested?;
    s.(streams := s.streams[key := AfterRead(st, file.size, count)],
       net := if sends then s.net[s.nextPacket :=
           Request(file.host, file.clientFileId, key, outcome.position, outcome.size)] else s.net,
       nextPacket := if sends then s.nextPacket + 1 else s.nextPacket,
       served := if outcome.Copied? then s.served + |outcome.data| else s.served)
  }

  /** `sendFileChunks` on a request for one file: an unknown file gets no answer. */
  function DoAnswer(s: System, i: nat): System
    requires i in s.net && s.net[i].Request?
  {
    var r := s.net[i];
    if (r.to, r.clientFileId) in s.clientFiles then
      var data := Piece(s.clientFiles[(r.to, r.clientFileId)], r.position, r.size);
      s.(net := s.net[i := Reply(r.to, r.key, data)])
    else
      s.(net := s.net - {i})
  }

  datatype ChunkOutcome = NoSuchFile | WrongHost | NoSuchSubscriber | Collision | Accepted

  /** The checks of `handleFileChunkMessage` and `File::provideFileChunk`, in their order. */
  function ChunkCheck(s: System, p: Packet): ChunkOutcome
    requires p.Reply?
  {
    if !(p.key.file in s.index && p.key.file in s.shared) then NoSuchFile
    else if s.shared[p.key.file].host != p.from then WrongHost
    else if !(p.key in s.registered && p.key in s.streams) then NoSuchSubscriber
    else if Collides(s.streams[p.key].sub) then Collision
    else Accepted
  }

  function DoDeliver(s: System, i: nat): System
    requires i in s.net && s.net[i].Reply?
  {
    var p := s.net[i];
    var s' := s.(net := s.net - {i});
    if ChunkCheck(s, p) == Accepted then
      var st := s.streams[p.key];
      s'.(streams := s.streams[p.key := st.(sub := ProvideChunk(st.sub, p.data))])
    else s'
  }

  /** `Room::removePeerById`: every file of the peer loses its subscribers and leaves the index. */
  function DoLeave(s: System, peer: int): System {
    var gone := set f | f in s.shared && s.shared[f].host == peer;
    var cut := set k | k in s.registered && k.file in gone;
    s.(members := s.members - {peer}, index := s.index - gone, registered := s.registered - cut,
       streams := map k | k in s.streams ::
         if k in cut then s.streams[k].(sub := Chunks.Invalidate(s.streams[k].sub)) else s.streams[k])
  }

  /** One step; an event that is not enabled changes nothing. */
  function Step(s: System, honest: set<int>, e: Event): System {
    if !Enabled(s, honest, e) then s else
    match e
    case Join(peer) => s.(members := s.members + {peer})
    case PickFile(peer, id, content) => s.(clientFiles := s.clientFiles[(peer, id) := content])
    case Share(peer, id, size) => DoShare(s, peer, id, size)
    case Subscribe(file) => DoSubscribe(s, file)
    case Read(key, count) => DoRead(s, key, count)
    case Wake(key) => s.(streams := s.streams[key := AfterWake(s.streams[key])])
    case Answer(i) => DoAnswer(s, i)
    case Deliver(i) => DoDeliver(s, i)
    case Lose(i) => s.(net := s.net - {i})
    case Inject(from, key, data) =>
      s.(net := s.net[s.nextPacket := Reply(from, key, data)], nextPacket := s.nextPacket + 1)
    case Close(key) =>
      s.(registered := s.registered - {key}, streams := s.streams[key := s.streams[key].(reader := Gone)])
    case Leave(peer) => DoLeave(s, peer)
  }

  function Run(s: System, honest: set<int>, events: seq<Event>): System
    decreases |events|
  {
    if events == [] then s
    else Run(Step(s, honest, events[0]), honest, events[1..])
  }

  // ---- The invariant ----

  predicate HonestKey(s: System, honest: set<int>, k: Key) {
    k.file in s.shared && s.shared[k.file].host in honest
  }

  /** The bytes of the file whose share produced this `serverFileId`. */
  function Content(s: System, k: Key): Bytes {
    if k.file in s.shared && (s.shared[k.file].host, s.shared[k.file].clientFileId) in s.clientFiles then
      s.clientFiles[(s.shared[k.file].host, s.shared[k.file].clientFileId)]
    else []
  }

  /** Packets that belong to the protocol: requests, and replies of honest peers. */
  predicate Genuine(honest: set<int>, p: Packet) {
    p.Request? || p.from in honest
  }

  ghost predicate TablesOk(s: System, honest: set<int>) {
    && (forall f :: f in s.shared ==> f < s.fileIdCounter && f in s.subIdCounter)
    && s.index <= s.shared.Keys
    && (forall f :: f in s.shared && s.shared[f].host in honest ==>
        (s.shared[f].host, s.shared[f].clientFileId) in s.clientFiles &&
        s.shared[f].size == |s.clientFiles[(s.shared[f].host, s.shared[f].clientFileId)]|)
    && (forall k :: k in s.streams ==> k.file in s.shared && k.sub < s.subIdCounter[k.file])
    && s.registered <= s.streams.Keys
    && (forall i :: i in s.net ==> i < s.nextPacket)
  }

  /** A subscriber is in `m_subscribers` exactly while it is valid and not destroyed; then its file is indexed. */
  ghost predicate RegisteredOk(s: System) {
    forall k :: k in s.streams ==>
      && (k in s.registered <==> s.streams[k].sub.valid && s.streams[k].reader != Gone)
      && (k in s.registered ==> k.file in s.index)
  }

  predicate StreamOk(st: Stream, content: Bytes) {
    && st.sub.progress <= |content|
    && st.received == content[..st.sub.progress]
    && match st.reader
       case Idle => st.sub.chunk.None?
       case Ended => st.sub.chunk.None? && st.sub.progress == |content|
       case Failed => !st.sub.valid
       case Gone => true
       case Waiting(c) =>
         && 0 < c && st.sub.progress < |content|
         && (st.sub.chunk.Some? ==> st.sub.chunk.value == Piece(content, st.sub.progress, c))
       case Retrying(c) =>
         && 0 < c && st.sub.progress < |content| && WakeGuard(st.sub)
         && (st.sub.chunk.Some? ==> st.sub.chunk.value == Piece(content, st.sub.progress, c))
  }

  ghost predicate StreamsOk(s: System, honest: set<int>) {
    forall k :: k in s.streams && HonestKey(s, honest, k) ==> StreamOk(s.streams[k], Content(s, k))
  }

  /** What a genuine packet in flight says about the subscriber it is for, and conversely. */
  predicate Fits(p: Packet, file: FileInfo, st: Stream, content: Bytes) {
    && (p.Request? ==> p.to == file.host && p.clientFileId == file.clientFileId)
    && (p.Reply? ==> p.from == file.host)
    && (st.reader != Gone && st.reader != Failed ==>
        && (st.reader.Waiting? || st.reader.Retrying?)
        && st.sub.chunk.None?
        && (p.Request? ==> p.position == st.sub.progress && p.size == st.reader.count)
        && (p.Reply? ==> p.data == Piece(content, st.sub.progress, st.reader.count)))
  }

  ghost predicate PacketOk(s: System, honest: set<int>, p: Packet) {
    Genuine(honest, p) ==>
      && p.key in s.streams && p.key.file in s.shared
      && (HonestKey(s, honest, p.key) ==>
          Fits(p, s.shared[p.key.file], s.streams[p.key], Content(s, p.key)))
      && (!HonestKey(s, honest, p.key) ==> p.Request? && p.to == s.shared[p.key.file].host)
  }

  ghost predicate PacketsOk(s: System, honest: set<int>) {
    forall i :: i in s.net ==> PacketOk(s, honest, s.net[i])
  }

  predicate Rivals(s: System, honest: set<int>, p: Packet, q: Packet) {
    Genuine(honest, p) && Genuine(honest, q) && p.key == q.key && HonestKey(s, honest, p.key)
  }

  /** No two genuine packets are in flight for one subscriber of an honest host. */
  ghost predicate OnePacketEach(s: System, honest: set<int>) {
    forall i, j :: i in s.net && j in s.net && Rivals(s, honest, s.net[i], s.net[j]) ==> i == j
  }

  ghost predicate Inv(s: System, honest: set<int>) {
    && TablesOk(s, honest)
    && RegisteredOk(s)
    && StreamsOk(s, honest)
    && PacketsOk(s, honest)
    && OnePacketEach(s, honest)
  }

  /** A read by a reader of an honest host's file: what it returns and the state it leaves. */
  lemma ReadKeepsStream(st: Stream, content: Bytes, count: nat)
    requires StreamOk(st, content) && CanRead(st, count)
    ensures StreamOk(AfterRead(st, |content|, count), content)
    ensures ReadChunk(st.sub, |content|, count).1.Requested? ==>
      st.reader == Idle && st.sub.valid && st.sub.progress < |content|
    ensures !ReadChunk(st.sub, |content|, count).1.InvalidChunkSize?
    ensures ReadChunk(st.sub, |content|, count).1.Copied? ==> ReadChunk(st.sub, |content|, count).1.data != []
  {
    if ReadChunk(st.sub, |content|, count).1.Copied? {
      var piece := Piece(content, st.sub.progress, count);
      assert st.sub.chunk.value == piece;
      assert content[..st.sub.progress] + piece == content[..st.sub.progress + |piece|];
    }
  }

  lemma ReadKeepsPackets(s: System, honest: set<int>, key: Key, count: nat)
    requires Inv(s, honest) && Enabled(s, honest, Read(key, count))
    ensures PacketsOk(DoRead(s, key, count), honest)
    ensures OnePacketEach(DoRead(s, key, count), honest)
  {
    var s' := DoRead(s, key, count);
    var st := s.streams[key];
    var st' := s'.streams[key];
    if HonestKey(s, honest, key) {
      ReadKeepsStream(st, Content(s, key), count);
    }
    forall i | i in s'.net ensures PacketOk(s', honest, s'.net[i]) {
      if i in s.net && i != s.nextPacket {
        assert PacketOk(s, honest, s.net[i]);
        assert Content(s', s.net[i].key) == Content(s, s.net[i].key);
      }
    }
    forall i, j | i in s'.net && j in s'.net && Rivals(s', honest, s'.net[i], s'.net[j]) ensures i == j {
      assert i in s.net ==> PacketOk(s, honest, s.net[i]);
      assert j in s.net ==> PacketOk(s, honest, s.net[j]);
      if i in s.net && j in s.net {
        assert Rivals(s, honest, s.net[i], s.net[j]);
      }
    }
  }

  lemma ReadKeepsInv(s: System, honest: set<int>, key: Key, count: nat)
    requires Inv(s, honest) && Enabled(s, honest, Read(key, count))
    ensures Inv(DoRead(s, key, count), honest)
  {
    var s' := DoRead(s, key, count);
    if HonestKey(s, honest, key) {
      ReadKeepsStream(s.streams[key], Content(s, key), count);
    }
    assert TablesOk(s', honest);
    assert RegisteredOk(s');
    forall k | k in s'.streams && HonestKey(s', honest, k) ensures StreamOk(s'.streams[k], Content(s', k)) {
      assert Content(s', k) == Content(s, k);
    }
    ReadKeepsPackets(s, honest, key, count);
  }

  lemma ShareKeepsInv(s: System, honest: set<int>, peer: int, id: int, size: int)
    requires Inv(s, honest) && Enabled(s, honest, Share(peer, id, size))
    ensures Inv(DoShare(s, peer, id, size), honest)
  {
    var s' := DoShare(s, peer, id, size);
    assert TablesOk(s', honest);
    assert RegisteredOk(s');
    assert StreamsOk(s', honest);
    assert PacketsOk(s', honest);
    assert OnePacketEach(s', honest);
  }

  lemma SubscribeKeepsInv(s: System, honest: set<int>, file: int)
    requires Inv(s, honest) && Enabled(s, honest, Subscribe(file))
    ensures Inv(DoSubscribe(s, file), honest)
  {
    var s' := DoSubscribe(s, file);
    assert TablesOk(s', honest);
    assert RegisteredOk(s');
    assert StreamsOk(s', honest);
    assert PacketsOk(s', honest);
    assert OnePacketEach(s', honest);
  }

  lemma AnswerKeepsInv(s: System, honest: set<int>, i: nat)
    requires Inv(s, honest) && Enabled(s, honest, Answer(i))
    ensures Inv(DoAnswer(s, i), honest)
  {
    var s' := DoAnswer(s, i);
    assert TablesOk(s', honest);
    assert RegisteredOk(s');
    assert StreamsOk(s', honest);
    assert PacketsOk(s', honest);
    assert OnePacketEach(s', honest);
  }

  lemma DeliverKeepsStreams(s: System, honest: set<int>, i: nat)
    requires Inv(s, honest) && Enabled(s, honest, Deliver(i))
    ensures StreamsOk(DoDeliver(s, i), honest)
  {
    var s' := DoDeliver(s, i);
    assert PacketOk(s, honest, s.net[i]);
    forall k | k in s'.streams && HonestKey(s', honest, k) ensures StreamOk(s'.streams[k], Content(s', k)) {
      assert Content(s', k) == Content(s, k);
      assert StreamOk(s.streams[k], Content(s, k));
    }
  }

  lemma DeliverKeepsPackets(s: System, honest: set<int>, i: nat)
    requires Inv(s, honest) && Enabled(s, honest, Deliver(i))
    ensures PacketsOk(DoDeliver(s, i), honest)
  {
    var s' := DoDeliver(s, i);
    assert PacketOk(s, honest, s.net[i]);
    forall j | j in s'.net ensures PacketOk(s', honest, s'.net[j]) {
      assert PacketOk(s, honest, s.net[j]);
      assert Content(s', s.net[j].key) == Content(s, s.net[j].key);
      assert Rivals(s, honest, s.net[i], s.net[j]) ==> i == j;
    }
  }

  lemma DeliverKeepsInv(s: System, honest: set<int>, i: nat)
    requires Inv(s, honest) && Enabled(s, honest, Deliver(i))
    ensures Inv(DoDeliver(s, i), honest)
  {
    var s' := DoDeliver(s, i);
    DeliverKeepsStreams(s, honest, i);
    DeliverKeepsPackets(s, honest, i);
    assert TablesOk(s', honest);
    assert RegisteredOk(s');
    assert OnePacketEach(s', honest);
  }

  lemma LeaveKeepsInv(s: System, honest: set<int>, peer: int)
    requires Inv(s, honest)
    ensures Inv(DoLeave(s, peer), honest)
  {
    var s' := DoLeave(s, peer);
    assert TablesOk(s', honest);
    assert RegisteredOk(s');
    assert StreamsOk(s', honest);
    assert PacketsOk(s', honest);
    assert OnePacketEach(s', honest);
  }

  lemma PickKeepsInv(s: System, honest: set<int>, peer: int, id: int, content: Bytes)
    requires Inv(s, honest) && Enabled(s, honest, PickFile(peer, id, content))
    ensures Inv(Step(s, honest, PickFile(peer, id, content)), honest)
  {
    var s' := Step(s, honest, PickFile(peer, id, content));
    forall k | HonestKey(s, honest, k) ensures Content(s', k) == Content(s, k) {
    }
    assert StreamsOk(s', honest);
    assert PacketsOk(s', honest);
    assert OnePacketEach(s', honest);
  }

  lemma WakeKeepsInv(s: System, honest: set<int>, key: Key)
    requires Inv(s, honest) && Enabled(s, honest, Wake(key))
    ensures Inv(Step(s, honest, Wake(key)), honest)
  {
    var s' := Step(s, honest, Wake(key));
    assert StreamsOk(s', honest);
    assert PacketsOk(s', honest);
    assert OnePacketEach(s', honest);
  }

  lemma LoseKeepsInv(s: System, honest: set<int>, i: nat)
    requires Inv(s, honest) && Enabled(s, honest, Lose(i))
    ensures Inv(Step(s, honest, Lose(i)), honest)
  {
    var s' := Step(s, honest, Lose(i));
    assert StreamsOk(s', honest);
    assert PacketsOk(s', honest);
    assert OnePacketEach(s', honest);
  }

  lemma InjectKeepsInv(s: System, honest: set<int>, from: int, key: Key, data: Bytes)
    requires Inv(s, honest) && Enabled(s, honest, Inject(from, key, data))
    ensures Inv(Step(s, honest, Inject(from, key, data)), honest)
  {
    var s' := Step(s, honest, Inject(from, key, data));
    assert StreamsOk(s', honest);
    assert PacketsOk(s', honest);
    assert OnePacketEach(s', honest);
  }

  lemma CloseKeepsInv(s: System, honest: set<int>, key: Key)
    requires Inv(s, honest) && Enabled(s, honest, Close(key))
    ensures Inv(Step(s, honest, Close(key)), honest)
  {
    var s' := Step(s, honest, Close(key));
    assert StreamsOk(s', honest);
    assert PacketsOk(s', honest);
    assert OnePacketEach(s', honest);
  }

  lemma StepKeepsInv(s: System, honest: set<int>, e: Event)
    requires Inv(s, honest)
    ensures Inv(Step(s, honest, e), honest)
  {
    if Enabled(s, honest, e) {
      match e
      case Join(peer) =>
      case PickFile(peer, id, content) => PickKeepsInv(s, honest, peer, id, content);
      case Share(peer, id, size) => ShareKeepsInv(s, honest, peer, id, size);
      case Subscribe(file) => SubscribeKeepsInv(s, honest, file);
      case Read(key, count) => ReadKeepsInv(s, honest, key, count);
      case Wake(key) => WakeKeepsInv(s, honest, key);
      case Answer(i) => AnswerKeepsInv(s, honest, i);
      case Deliver(i) => DeliverKeepsInv(s, honest, i);
      case Lose(i) => LoseKeepsInv(s, honest, i);
      case Inject(from, key, data) => InjectKeepsInv(s, honest, from, key, data);
      case Close(key) => CloseKeepsInv(s, honest, key);
      case Leave(peer) => LeaveKeepsInv(s, honest, peer);
    }
  }
}

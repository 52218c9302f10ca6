/**
 The server's objects with their fields and methods: `File::Subscriber`, `File`, `ReadCallback`, `Peer`
 and `Room`. Every method is tied to the function of the value models that states what it does.
 */
module Server {
  import opened Basics
  import opened Messages
  import opened Participants
  import opened Chunks
  import opened RoomSpec
  import opened Forwarding
  import opened Effects
  import opened WakeUp
  import Framing

  /** Hash tables are walked in an arbitrary order. */
  method PickAny<T>(s: set<T>) returns (x: T)
    requires s != {}
    ensures x in s
  {
    x :| x in s;
  }

  /** A revoked subscriber; whoever is parked checks again. */
  function Cut(seen: (SubscriberState, WakeUp.Pc)): (SubscriberState, WakeUp.Pc) {
    (Chunks.Invalidate(seen.0), Woken(seen.1))
  }

  /** A subscriber that is given a chunk: if it takes it, whoever is parked checks again. */
  function Fed(seen: (SubscriberState, WakeUp.Pc), data: Bytes): (SubscriberState, WakeUp.Pc) {
    (ProvideChunk(seen.0, data), if Collides(seen.0) then seen.1 else Woken(seen.1))
  }

  lemma FedAndCut(seen: (SubscriberState, WakeUp.Pc), data: Bytes)
    ensures
      var (s, pc) := seen;
      var woken := if pc == Parked then Checking else pc;
      && Cut(seen) == (SubscriberState(false, s.progress, s.chunk), woken)
      && Fed(seen, data) == if s.chunk == None then (SubscriberState(s.valid, s.progress, Some(data)), woken) else seen
  {
  }

  /**
   A subscriber of a file: one HTTP download. `pc` is where the wait coroutine of its reader is, `listeners`
   counts the `onNewItem` calls its wait list still has to make.
   */
  class Subscriber {
    const id: int
    const file: File
    var valid: bool
    var progress: nat
    var chunk: Option<Bytes>
    var pc: WakeUp.Pc
    var listeners: nat

    function State(): SubscriberState
      reads this
    {
      SubscriberState(valid, progress, chunk)
    }

    /** What `invalidate` can change: the state, and where the wait coroutine is. */
    function Seen(): (SubscriberState, WakeUp.Pc)
      reads this
    {
      (State(), pc)
    }

    constructor (id: int, file: File)
      ensures this.id == id && this.file == file && State() == FRESH && pc == Outside && listeners == 0
    {
      this.id := id;
      this.file := file;
      valid := true;
      progress := 0;
      chunk := None;
      pc := Outside;
      listeners := 0;
    }

    method NotifyAll()
      modifies this`pc
      ensures pc == Woken(old(pc)) == if old(pc) == Parked then Checking else old(pc)
    {
      if pc == Parked {
        pc := Checking;
      }
    }

    /** Answers whether "File chunk collision." is thrown; otherwise whoever is parked checks again. */
    method ProvideFileChunk(data: Bytes) returns (collision: bool)
      modifies this
      ensures State() == ProvideChunk(old(State()), data)
      ensures collision == Collides(old(State()))
      ensures pc == (if collision then old(pc) else Woken(old(pc))) && listeners == old(listeners)
    {
      if chunk != None {
        return true;
      }
      chunk := Some(data);
      NotifyAll();
      return false;
    }

    method RequestChunk(size: nat)
      modifies file.host`outbox
      ensures file.host.View() ==
        if valid then
          Sent(old(file.host.View()), Messages.RequestChunk(file.clientFileId, file.serverFileId, id, progress, size))
        else old(file.host.View())
    {
      if valid {
        file.host.SendMessageAsync(
          Messages.RequestChunk(file.clientFileId, file.serverFileId, id, progress, size));
      }
    }

    /** A read that has to wait asks for the chunk and starts the wait coroutine. */
    method ReadChunk(count: nat) returns (outcome: ReadOutcome)
      modifies this, file.host`outbox
      ensures (State(), outcome) == Chunks.ReadChunk(old(State()), file.size, count)
      ensures outcome.Copied? ==> |outcome.data| <= count
      ensures old(valid && progress < file.size && chunk.Some? && count < |chunk.value|) ==>
        outcome == InvalidChunkSize && State() == old(State())
      ensures file.host.View() ==
        if outcome.Requested? then
          Sent(old(file.host.View()),
               Messages.RequestChunk(file.clientFileId, file.serverFileId, id, outcome.position, outcome.size))
        else old(file.host.View())
      ensures pc == (if outcome.Requested? then Checking else old(pc)) && listeners == old(listeners)
    {
      if !valid {
        return NotValid;
      }
      if progress < file.size {
        if chunk.Some? {
          var chunkSize := |chunk.value|;
          if chunkSize > count {
            return InvalidChunkSize;
          }
          outcome := Copied(chunk.value);
          progress := progress + chunkSize;
          chunk := None;
          return;
        }
        RequestChunk(count);
        pc := Checking;
        return Requested(progress, count);
      }
      return EndOfStream;
    }

    /** The wait coroutine's check: it finishes, or asks to be parked. */
    method Act() returns (finished: bool)
      requires pc == Checking
      modifies this`pc
      ensures finished == WakeGuard(State()) && pc == if finished then Outside else Enqueuing
    {
      if chunk.Some? || !valid {
        pc := Outside;
        return true;
      }
      pc := Enqueuing;
      return false;
    }

    /** The wait list puts the coroutine in, and will call `onNewItem`. */
    method Enqueue()
      requires pc == Enqueuing
      modifies this`pc, this`listeners
      ensures pc == Parked && listeners == old(listeners) + 1
    {
      pc := Parked;
      listeners := listeners + 1;
    }

    method OnNewItem()
      requires 0 < listeners
      modifies this`pc, this`listeners
      ensures listeners == old(listeners) - 1
      ensures pc == if WakeGuard(State()) then Woken(old(pc)) else old(pc)
    {
      listeners := listeners - 1;
      if chunk.Some? || !valid {
        NotifyAll();
      }
    }

    method Invalidate()
      modifies this`valid, this`pc
      ensures Seen() == Cut(old(Seen())) && !valid && pc == if old(pc) == Parked then Checking else old(pc)
    {
      valid := false;
      NotifyAll();
    }
  }

  /** `FileController`'s `ReadCallback`, with the counter it adds to. */
  class ReadCallback {
    const subscriber: Subscriber
    var fileServedBytes: nat

    constructor (subscriber: Subscriber)
      ensures this.subscriber == subscriber && fileServedBytes == 0
    {
      this.subscriber := subscriber;
      fileServedBytes := 0;
    }

    /** The counter grows by exactly what the subscriber's progress grows by; retries and errors add nothing. */
    method Read(count: nat) returns (outcome: ReadOutcome)
      modifies this, subscriber, subscriber.file.host`outbox
      ensures (subscriber.State(), outcome) == Chunks.ReadChunk(old(subscriber.State()), subscriber.file.size, count)
      ensures fileServedBytes - old(fileServedBytes) == subscriber.progress - old(subscriber.progress)
      ensures subscriber.file.host.View() ==
        if outcome.Requested? then
          Sent(old(subscriber.file.host.View()),
               Messages.RequestChunk(subscriber.file.clientFileId, subscriber.file.serverFileId, subscriber.id,
                                     outcome.position, outcome.size))
        else old(subscriber.file.host.View())
      ensures subscriber.pc == if outcome.Requested? then Checking else old(subscriber.pc)
      ensures subscriber.listeners == old(subscriber.listeners)
    {
      outcome := subscriber.ReadChunk(count);
      if outcome.Copied? && |outcome.data| > 0 {
        fileServedBytes := fileServedBytes + |outcome.data|;
      }
    }
  }

  class File {
    const host: Peer
    const clientFileId: int
    const serverFileId: int
    const name: Option<string>
    const size: int
    var subscriberIdCounter: int
    var subscribers: map<int, Subscriber>

    constructor (host: Peer, clientFileId: int, serverFileId: int, name: Option<string>, size: int)
      ensures this.host == host && this.clientFileId == clientFileId && this.serverFileId == serverFileId
      ensures this.name == name && this.size == size && subscribers == map[] && subscriberIdCounter == 1
    {
      this.host := host;
      this.clientFileId := clientFileId;
      this.serverFileId := serverFileId;
      this.name := name;
      this.size := size;
      subscriberIdCounter := 1;
      subscribers := map[];
    }

    /** Registered subscribers are filed under their own id, belong to this file and have an id already given out. */
    ghost predicate Valid()
      reads this`subscribers, this`subscriberIdCounter
    {
      forall id :: id in subscribers ==>
        subscribers[id].id == id && subscribers[id].file == this && id < subscriberIdCounter
    }

    /** The objects `m_subscribers` points to. */
    ghost function Registered(): set<Subscriber>
      reads this`subscribers
    {
      set id | id in subscribers :: subscribers[id]
    }

    method Unsubscribe(id: int)
      requires Valid()
      modifies this`subscribers
      ensures Valid() && subscribers == old(subscribers) - {id}
    {
      subscribers := subscribers - {id};
    }

    method Subscribe() returns (s: Subscriber)
      requires Valid()
      modifies this
      ensures Valid() && fresh(s) && s.State() == FRESH && s.file == this
      ensures s.id == old(subscriberIdCounter) && s.id !in old(subscribers)
      ensures subscribers == old(subscribers)[s.id := s] && subscriberIdCounter == old(subscriberIdCounter) + 1
    {
      s := new Subscriber(subscriberIdCounter, this);
      subscriberIdCounter := subscriberIdCounter + 1;
      subscribers := subscribers[s.id := s];
    }

    /** The subscriber a chunk is for, if there is one. */
    ghost function Target(subscriberId: int): set<Subscriber>
      reads this`subscribers
    {
      if subscriberId in subscribers then {subscribers[subscriberId]} else {}
    }

    /** A chunk for an unknown subscriber is ignored; the chunk reaches no other subscriber. */
    method ProvideFileChunk(subscriberId: int, data: Bytes) returns (collision: bool)
      modifies Target(subscriberId)
      ensures subscriberId !in subscribers ==> !collision
      ensures subscriberId in subscribers ==>
        subscribers[subscriberId].Seen() == Fed(old(subscribers[subscriberId].Seen()), data) &&
        subscribers[subscriberId].listeners == old(subscribers[subscriberId].listeners) &&
        collision == Collides(old(subscribers[subscriberId].State()))
    {
      collision := false;
      if subscriberId in subscribers {
        collision := subscribers[subscriberId].ProvideFileChunk(data);
      }
    }

    method ClearSubscribers()
      requires Valid()
      modifies this`subscribers, Registered()`valid, Registered()`pc
      ensures Valid() && subscribers == map[]
      ensures forall id :: id in old(subscribers) ==>
        old(subscribers)[id].Seen() == Cut(old(subscribers[id].Seen()))
    {
      var ids := subscribers.Keys;
      while ids != {}
        invariant subscribers == old(subscribers) && ids <= subscribers.Keys
        invariant forall id :: id in subscribers ==>
          subscribers[id].Seen() ==
            if id in ids then old(subscribers[id].Seen()) else Cut(old(subscribers[id].Seen()))
        decreases ids
      {
        var id := PickAny(ids);
        subscribers[id].Invalidate();
        ids := ids - {id};
      }
      subscribers := map[];
    }
  }

  /** `list` was shared already, the rest of the files are still to come. */
  function SharedThen(list: seq<SharedFile>, r: RoomValue, host: int, files: seq<Option<RawFile>>)
    : (RoomValue, seq<SharedFile>)
    requires host in r.peers && Shareable(Some(files))
  {
    var (r', rest) := ShareAll(r, host, files);
    (r', list + rest)
  }

  lemma NothingShared(r: RoomValue, host: int, files: seq<Option<RawFile>>)
    requires host in r.peers && Shareable(Some(files))
    ensures ShareAll(r, host, files) == SharedThen([], r, host, files[0..])
  {
    assert files[0..] == files && [] + ShareAll(r, host, files).1 == ShareAll(r, host, files).1;
  }

  lemma EverythingShared(list: seq<SharedFile>, r: RoomValue, host: int)
    requires host in r.peers
    ensures SharedThen(list, r, host, []) == (r, list)
  {
    assert list + [] == list;
  }

  lemma OneShared(list: seq<SharedFile>, r: RoomValue, host: int, files: seq<Option<RawFile>>, i: nat)
    requires host in r.peers && i < |files| && Shareable(Some(files[i..]))
    ensures files[i].Some? && Shareable(Some(files[i + 1..]))
    ensures SharedThen(list, r, host, files[i..]) ==
      SharedThen(list + [SharedFile(r.fileIdCounter, files[i].value.name, files[i].value.size.value)],
                 Share(r, host), host, files[i + 1..])
  {
    assert files[i..][0] == files[i] && files[i..][1..] == files[i + 1..] && files[i] in files[i..];
    var rest := ShareAll(Share(r, host), host, files[i + 1..]).1;
    var one := [SharedFile(r.fileIdCounter, files[i].value.name, files[i].value.size.value)];
    assert list + (one + rest) == (list + one) + rest;
  }

  /** The index has this file object: the host's, with the client id, the name and the size it was shared with. */
  ghost predicate HostsAs(index: map<int, File>, host: Peer, f: Option<RawFile>, at: int) {
    && at in index && index[at].host == host && index[at].serverFileId == at
    && f.Some? && f.value.clientFileId == Some(index[at].clientFileId)
    && f.value.name == index[at].name && f.value.size == Some(index[at].size)
  }

  /** The first `n` files of the list are in the index in a row from `first` on. */
  ghost predicate Hosts(index: map<int, File>, host: Peer, files: seq<Option<RawFile>>, first: int, n: nat) {
    n <= |files| && forall i :: 0 <= i < n ==> HostsAs(index, host, files[i], first + i)
  }

  /** The files that were there are there still, the very objects. */
  ghost predicate Extends(index: map<int, File>, index': map<int, File>) {
    forall f :: f in index ==> f in index' && index'[f] == index[f]
  }

  lemma OneMoreHosted(index: map<int, File>, file: File, files: seq<Option<RawFile>>, first: int, n: nat)
    requires Hosts(index, file.host, files, first, n) && n < |files| && file.serverFileId == first + n
    requires forall f :: f in index ==> f < first + n
    requires HostsAs(map[first + n := file], file.host, files[n], first + n)
    ensures Hosts(index[first + n := file], file.host, files, first, n + 1)
    ensures Extends(index, index[first + n := file])
  {
  }

  /** The message, if a whole one was read and it parses. */
  function MessageIn(reading: Framing.Reading, parse: Bytes -> Option<RawMessage>): Option<RawMessage> {
    if reading.Whole? then parse(reading.message) else None
  }

  predicate Readable(message: Option<RawMessage>) {
    message.Some? ==> Acceptable(message.value)
  }

  /** The verdict on the chunk, if it is a chunk message. */
  function Heard(index: map<int, int>, id: int, message: Option<RawMessage>): ChunkVerdict
    requires Readable(message)
  {
    if message.Some? then Verdict(index, id, message.value) else Ignored
  }

  /** What a call of `readMessage` does to the room, by what it read. */
  function Received(r: RoomValue, id: int, reading: Framing.Reading, message: Option<RawMessage>, now: int): RoomValue
    requires id in r.peers && Readable(message)
  {
    match reading
    case TooLarge => ApiFailure(r, id, "Message size exceeds max allowed size.")
    case Nothing => r
    case Whole(_) =>
      if message.Some? then Handle(r, id, message.value, now) else ApiFailure(r, id, "Can't parse message")
  }

  /** The handler answers with an API error: what it got did not parse, or it refuses the message. */
  predicate Turned(r: RoomValue, id: int, message: Option<RawMessage>)
    requires Readable(message)
  {
    message.Some? ==> AnsweredWithError(r, id, message.value)
  }

  /**
   A piece of a message is felt by nobody; one too many, or a message that does not parse, by its sender alone. Only
   whole messages are parsed, one that does not parse ends the connection, and none of this is a chunk.
   */
  lemma UnreadIsAnswered(
    r: RoomValue, id: int, reading: Framing.Reading, parse: Bytes -> Option<RawMessage>, now: int)
    requires id in r.peers
    ensures Received(r, id, Framing.Nothing, None, now) == r
    ensures OneGot(r, Received(r, id, Framing.TooLarge, None, now), id,
                   ApiError("Message size exceeds max allowed size."))
    ensures reading.Whole? ==>
      OneGot(r, Received(r, id, reading, None, now), id, ApiError("Can't parse message"))
    ensures MessageIn(reading, parse) == if reading.Whole? then parse(reading.message) else None
    ensures Turned(r, id, None) && Heard(r.index, id, None) == Ignored
  {
  }

  class Peer {
    const room: Room
    const id: int
    const nickname: string
    var socket: bool
    var outbox: seq<Message>
    var pings: int
    var files: seq<File>
    var messageBuffer: Bytes
    var closed: bool

    function View(): PeerValue
      reads this`socket, this`outbox, this`pings, this`files
    {
      PeerValue(nickname, socket, outbox, pings, FileIds(files))
    }

    static function FileIds(files: seq<File>): seq<int> {
      seq(|files|, i requires 0 <= i < |files| => files[i].serverFileId)
    }

    constructor (room: Room, nickname: string, id: int)
      ensures this.room == room && this.id == id && this.nickname == nickname
      ensures files == [] && View() == NewPeer(nickname) && messageBuffer == [] && !closed
    {
      this.room := room;
      this.id := id;
      this.nickname := nickname;
      socket := true;
      outbox := [];
      pings := 0;
      files := [];
      messageBuffer := [];
      closed := false;
    }

    function InboxView(maxMessageSizeBytes: nat): Framing.Inbox
      reads this`messageBuffer, this`closed
    {
      Framing.Inbox(messageBuffer, maxMessageSizeBytes, closed)
    }

    /** One piece of a message from the websocket layer, or an empty one at the message's end. */
    method CollectMessage(data: Bytes, maxMessageSizeBytes: nat) returns (r: Framing.Reading)
      modifies this`messageBuffer
      ensures (InboxView(maxMessageSizeBytes), r) == Framing.Read(old(InboxView(maxMessageSizeBytes)), data)
    {
      if |messageBuffer| + |data| > maxMessageSizeBytes {
        return Framing.TooLarge;
      }
      if |data| == 0 {
        var wholeMessage := messageBuffer;
        messageBuffer := [];
        return Framing.Whole(wholeMessage);
      }
      messageBuffer := messageBuffer + data;
      return Framing.Nothing;
    }

    /**
     A whole message is parsed, stamped with this peer's identity and the time, and handled. `parse` stands for
     the object mapper; it gives nothing where that throws.
     */
    method ReadMessage(data: Bytes, maxMessageSizeBytes: nat, parse: Bytes -> Option<RawMessage>, now: int)
      returns (r: Framing.Reading, collision: bool)
      requires room.Valid() && id in room.peerById && room.peerById[id] == this
      requires Readable(MessageIn(Framing.Read(InboxView(maxMessageSizeBytes), data).1, parse))
      modifies this`messageBuffer, this`closed
      modifies room`history, room`fileById, room`fileIdCounter
      modifies room.Members()`outbox, room.Members()`files
      modifies
        var message := MessageIn(Framing.Read(InboxView(maxMessageSizeBytes), data).1, parse);
        room.Target(Heard(Room.IndexView(room.fileById), id, message))
      ensures room.Valid() && r == Framing.Read(old(InboxView(maxMessageSizeBytes)), data).1
      ensures InboxView(maxMessageSizeBytes) ==
        Framing.Answered(Framing.Read(old(InboxView(maxMessageSizeBytes)), data).0, r,
                         Turned(old(room.View()), id, MessageIn(r, parse)))
      ensures room.View() == Received(old(room.View()), id, r, MessageIn(r, parse), now)
      ensures
        var v := Heard(Room.IndexView(old(room.fileById)), id, MessageIn(r, parse));
        room.Delivered(v, old(room.Target(v)), collision)
    {
      ghost var (b, reading) := Framing.Read(InboxView(maxMessageSizeBytes), data);
      r := CollectMessage(data, maxMessageSizeBytes);
      assert InboxView(maxMessageSizeBytes) == b && r == reading;
      room.LinksStay();
      assert room.View() == old(room.View());
      var message := MessageIn(r, parse);
      ghost var v := Heard(Room.IndexView(room.fileById), id, message);
      assert room.Target(v) == old(room.Target(v)) && room.TargetCollides(v) == old(room.TargetCollides(v));
      assert forall s :: s in room.Target(v) ==> s.Seen() == old(s.Seen()) && s.listeners == old(s.listeners);
      collision := Attend(r, message, now, maxMessageSizeBytes);
    }

    /** What was read is refused, waited for, or taken as a message. */
    method Attend(r: Framing.Reading, message: Option<RawMessage>, now: int, ghost max: nat) returns (collision: bool)
      requires room.Valid() && id in room.peerById && room.peerById[id] == this
      requires Readable(message) && (message.Some? ==> r.Whole?)
      modifies room`history, room`fileById, room`fileIdCounter, this`closed
      modifies room.Members()`outbox, room.Members()`files
      modifies room.Target(Heard(Room.IndexView(room.fileById), id, message))
      ensures room.Valid() && room.View() == Received(old(room.View()), id, r, message, now)
      ensures InboxView(max) == Framing.Answered(old(InboxView(max)), r, Turned(old(room.View()), id, message))
      ensures
        var v := Heard(Room.IndexView(old(room.fileById)), id, message);
        room.Delivered(v, old(room.Target(v)), collision)
    {
      collision := false;
      if r.TooLarge? {
        OnApiError("Message size exceeds max allowed size.");
      } else if r.Whole? {
        collision := TakeMessage(message, now);
      }
    }

    /** The whole message, if it could be parsed, becomes this peer's. */
    method TakeMessage(message: Option<RawMessage>, now: int) returns (collision: bool)
      requires room.Valid() && id in room.peerById && room.peerById[id] == this && Readable(message)
      modifies room`history, room`fileById, room`fileIdCounter, this`closed
      modifies room.Members()`outbox, room.Members()`files
      modifies
        if message.Some? then room.Target(Verdict(Room.IndexView(room.fileById), id, message.value)) else {}
      ensures room.Valid()
      ensures room.View() ==
        if message.Some? then Handle(old(room.View()), id, message.value, now)
        else ApiFailure(old(room.View()), id, "Can't parse message")
      ensures closed == (old(closed) || Turned(old(room.View()), id, message))
      ensures
        var v := Heard(Room.IndexView(old(room.fileById)), id, message);
        room.Delivered(v, old(room.Target(v)), collision)
    {
      if message.None? {
        OnApiError("Can't parse message");
        return false;
      }
      var m := message.value;
      m := m.(peerName := Some(nickname), peerId := Some(id), timestamp := Some(now));
      collision := HandleMessage(m, now);
    }

    method SendMessageAsync(m: Message)
      modifies this`outbox
      ensures View() == Sent(old(View()), m)
    {
      if socket {
        outbox := outbox + [m];
      }
    }

    method SendPingAsync() returns (sent: bool)
      modifies this`pings, this`outbox
      ensures sent == Answering(old(View()))
      ensures View() == Pinged(old(View())).(live := old(socket))
    {
      pings := pings + 1;
      if socket && pings == 1 {
        outbox := outbox + [Ping];
        return true;
      }
      return false;
    }

    method OnPong()
      modifies this`pings
      ensures View() == Ponged(old(View()))
    {
      pings := pings - 1;
    }

    method InvalidateSocket()
      modifies this`socket
      ensures View() == old(View()).(live := false)
    {
      socket := false;
    }

    method AddFile(file: File)
      modifies this`files
      ensures files == old(files) + [file]
      ensures View() == old(View()).(files := old(View()).files + [file.serverFileId])
    {
      files := files + [file];
      assert FileIds(files) == FileIds(old(files)) + [file.serverFileId];
    }

    /** An API error concerns nobody in the room but this peer, and is the end of its connection. */
    method OnApiError(text: string)
      requires room.Keyed() && id in room.peerById && room.peerById[id] == this
      modifies this`outbox, this`closed
      ensures room.View() == ApiFailure(old(room.View()), id, text) && closed
      ensures old(room.Valid()) ==> room.Valid()
    {
      ghost var before := room.View().peers;
      SendMessageAsync(ApiError(text));
      closed := true;
      Room.PeersViewWith(room.peerById, before, id);
      if old(room.Valid()) {
        room.LinksStay();
      }
    }

    /** The first thing wrong with the list, if any. */
    method ValidateFilesList(files: seq<Option<RawFile>>) returns (error: Option<string>)
      ensures error == Validate(files)
    {
      if |files| == 0 {
        return Some("Files list is empty.");
      }
      assert files[0..] == files;
      for i := 0 to |files|
        invariant FirstFault(files) == FirstFault(files[i..])
      {
        assert files[i..][1..] == files[i + 1..];
        if files[i].None? {
          return Some("File structure is not provided.");
        }
        if files[i].value.clientFileId.None? {
          return Some("File clientId is not provided.");
        }
        if files[i].value.name.None? {
          return Some("File name is not provided.");
        }
        if files[i].value.size.None? {
          return Some("File size is not provided.");
        }
      }
      return None;
    }

    /** The list is validated, and whatever the verdict, every file of it is shared and all are announced. */
    method HandleFilesMessage(files: seq<Option<RawFile>>, now: int)
      requires room.Valid() && id in room.peerById && room.peerById[id] == this && Shareable(Some(files))
      modifies room`history, room`fileById, room`fileIdCounter
      modifies room.Members()`outbox, room.Members()`files
      ensures room.Valid()
      ensures
        var (shared, list) := ShareAll(old(room.View()), id, files);
        room.View() == Post(shared, Files(id, nickname, now, list))
      ensures Hosts(room.fileById, this, files, old(room.fileIdCounter), |files|)
      ensures Extends(old(room.fileById), room.fileById)
    {
      var _ := ValidateFilesList(files);
      room.LinksStay();
      assert room.View() == old(room.View());
      ShareAndAnnounce(files, now);
    }

    /** Every file of the list is shared, and all are announced in one message. */
    method ShareAndAnnounce(files: seq<Option<RawFile>>, now: int)
      requires room.Valid() && id in room.peerById && room.peerById[id] == this && Shareable(Some(files))
      modifies room`history, room`fileById, room`fileIdCounter
      modifies room.Members()`outbox, room.Members()`files
      ensures room.Valid()
      ensures
        var (shared, list) := ShareAll(old(room.View()), id, files);
        room.View() == Post(shared, Files(id, nickname, now, list))
      ensures Hosts(room.fileById, this, files, old(room.fileIdCounter), |files|)
      ensures Extends(old(room.fileById), room.fileById)
    {
      var list := ShareFiles(files);
      room.Publish(Files(id, nickname, now, list));
    }

    /** The files of the list are shared one by one. */
    method ShareFiles(files: seq<Option<RawFile>>) returns (list: seq<SharedFile>)
      requires room.Valid() && id in room.peerById && room.peerById[id] == this && Shareable(Some(files))
      modifies room`fileById, room`fileIdCounter, room.Members()`files
      ensures room.Valid() && (room.View(), list) == ShareAll(old(room.View()), id, files)
      ensures Hosts(room.fileById, this, files, old(room.fileIdCounter), |files|)
      ensures Extends(old(room.fileById), room.fileById)
    {
      list := [];
      ghost var r, first, before := room.View(), room.fileIdCounter, room.fileById;
      NothingShared(r, id, files);
      for i := 0 to |files|
        invariant room.Valid() && r == room.View() && Shareable(Some(files[i..])) && id in r.peers
        invariant ShareAll(old(room.View()), id, files) == SharedThen(list, r, id, files[i..])
        invariant room.fileIdCounter == first + i && Hosts(room.fileById, this, files, first, i)
        invariant Extends(before, room.fileById)
      {
        OneShared(list, r, id, files, i);
        var shared := ShareOne(files[i], files, i, first);
        list := list + [shared];
        r := Share(r, id);
      }
      assert files[|files|..] == [];
      EverythingShared(list, r, id);
    }

    /** The `i`th file of the list is shared under its own client id. */
    method ShareOne(f: Option<RawFile>, ghost files: seq<Option<RawFile>>, ghost i: nat, ghost first: int)
      returns (shared: SharedFile)
      requires room.Valid() && id in room.peerById && room.peerById[id] == this && Shareable(Some([f]))
      requires i < |files| && files[i] == f && room.fileIdCounter == first + i
      requires Hosts(room.fileById, this, files, first, i)
      modifies room`fileById, room`fileIdCounter, room.Members()`files
      ensures room.Valid() && room.View() == Share(old(room.View()), id)
      ensures shared == SharedFile(first + i, f.value.name, f.value.size.value)
      ensures room.fileIdCounter == first + i + 1 && Hosts(room.fileById, this, files, first, i + 1)
      ensures Extends(old(room.fileById), room.fileById)
    {
      room.IndexedAreOlder();
      ghost var index := room.fileById;
      assert f in [f];
      var currFile := f.value;
      var file := room.ShareFile(id, currFile.clientFileId.value, currFile.name, currFile.size.value);
      OneMoreHosted(index, file, files, first, i);
      shared := SharedFile(file.serverFileId, file.name, file.size);
    }

    /** The answer to a judged chunk message: an error, the delivery, or nothing. */
    method ActOnChunk(v: ChunkVerdict) returns (collision: bool)
      requires room.Valid() && id in room.peerById && room.peerById[id] == this
      requires v.Forward? ==> v.file in room.fileById
      modifies this`outbox, this`closed, room.Target(v)
      ensures room.Valid() && room.View() == Answered(old(room.View()), id, v)
      ensures closed == (old(closed) || v.Refused?)
      ensures forall f, sub | f in room.fileById && sub in room.fileById[f].subscribers ::
        room.fileById[f].subscribers[sub].State() ==
          After(v, f, sub, old(room.fileById[f].subscribers[sub].State()))
      ensures room.Delivered(v, old(room.Target(v)), collision)
    {
      collision := false;
      if v.Refused? {
        OnApiError(v.text);
      } else if v.Forward? {
        collision := room.Deliver(v);
      }
      room.LinksStay();
    }

    /** A chunk reaches the subscriber it names, and only if this peer hosts the file; nothing else changes. */
    method HandleFileChunkMessage(files: Option<seq<Option<RawFile>>>) returns (collision: bool)
      requires room.Valid() && id in room.peerById && room.peerById[id] == this
      requires files.Some? ==> files.value != []
      modifies this`outbox, this`closed, room.Target(CheckChunk(Room.IndexView(room.fileById), id, files))
      ensures room.Valid()
      ensures closed == (old(closed) || CheckChunk(Room.IndexView(old(room.fileById)), id, files).Refused?)
      ensures room.View() == Answered(old(room.View()), id, CheckChunk(Room.IndexView(old(room.fileById)), id, files))
      ensures forall f, sub | f in room.fileById && sub in room.fileById[f].subscribers ::
        room.fileById[f].subscribers[sub].State() ==
          After(CheckChunk(Room.IndexView(old(room.fileById)), id, files), f, sub,
                old(room.fileById[f].subscribers[sub].State()))
      ensures
        var v := CheckChunk(Room.IndexView(old(room.fileById)), id, files);
        room.Delivered(v, old(room.Target(v)), collision)
    {
      var verdict: ChunkVerdict;
      if files.None? {
        verdict := Refused("No file provided.");
      } else if |files.value| > 1 {
        verdict := Refused("Invalid files count. Expected - 1.");
      } else if files.value[0].None? {
        verdict := Refused("File structure is not provided.");
      } else {
        var f := files.value[0].value;
        if f.serverFileId.None? {
          verdict := Refused("File clientId is not provided.");
        } else if f.subscriberId.None? {
          verdict := Refused("File subscriberId is not provided.");
        } else if f.data.None? {
          verdict := Refused("File chunk data is not provided.");
        } else if f.serverFileId.value !in room.fileById {
          verdict := Ignored;
        } else if room.fileById[f.serverFileId.value].host.id != id {
          verdict := Refused("Wrong file host.");
        } else {
          verdict := Forward(f.serverFileId.value, f.subscriberId.value, f.data.value);
        }
      }
      assert verdict == CheckChunk(Room.IndexView(room.fileById), id, files);
      collision := ActOnChunk(verdict);
    }

    /** The dispatch of all messages but chunks; none of them reaches a subscriber. */
    method HandleRoomMessage(m: RawMessage, now: int)
      requires room.Valid() && id in room.peerById && room.peerById[id] == this && Acceptable(m) && IsStamped(m)
      requires m.code != Some(CODE_FILE_CHUNK_DATA)
      modifies room`history, room`fileById, room`fileIdCounter, this`closed
      modifies room.Members()`outbox, room.Members()`files
      ensures room.Valid() && room.View() == Dispatch(old(room.View()), id, m, now)
      ensures closed == (old(closed) || AnsweredWithError(old(room.View()), id, m))
      ensures m.code == Some(CODE_PEER_MESSAGE) ==>
        var e := Chat(m.peerId.value, m.peerName.value, m.timestamp.value, m.text);
        AllGot(old(room.View()), room.View(), Broadcast(e)) && Newest(old(room.View()), room.View(), e)
      ensures m.code == Some(CODE_FILE_SHARE) ==>
        && Hosts(room.fileById, this, m.files.value, old(room.fileIdCounter), |m.files.value|)
        && Extends(old(room.fileById), room.fileById)
    {
      if m.code.None? {
        OnApiError("No message code provided.");
      } else if m.code.value == CODE_PEER_MESSAGE {
        room.Publish(Chat(m.peerId.value, m.peerName.value, m.timestamp.value, m.text));
      } else if m.code.value == CODE_PEER_IS_TYPING {
        room.SendMessageAsync(Broadcast(Typing(m.peerId.value, m.peerName.value, m.timestamp.value)));
      } else if m.code.value == CODE_FILE_SHARE {
        HandleFilesMessage(m.files.value, now);
      } else {
        OnApiError("Invalid client message code.");
      }
    }

    /** Dispatch of a message that bears its sender's identity. */
    method HandleMessage(m: RawMessage, now: int) returns (collision: bool)
      requires room.Valid() && id in room.peerById && room.peerById[id] == this && Acceptable(m) && IsStamped(m)
      modifies room`history, room`fileById, room`fileIdCounter, this`closed
      modifies room.Members()`outbox, room.Members()`files, room.Target(Verdict(Room.IndexView(room.fileById), id, m))
      ensures room.Valid() && room.View() == Dispatch(old(room.View()), id, m, now)
      ensures closed == (old(closed) || AnsweredWithError(old(room.View()), id, m))
      ensures m.code == Some(CODE_FILE_SHARE) ==>
        && Hosts(room.fileById, this, m.files.value, old(room.fileIdCounter), |m.files.value|)
        && Extends(old(room.fileById), room.fileById)
      ensures m.code == Some(CODE_FILE_CHUNK_DATA) ==>
        forall f, sub | f in old(room.fileById) && sub in old(room.fileById[f].subscribers) ::
          old(room.fileById[f].subscribers[sub]).State() ==
            After(CheckChunk(Room.IndexView(old(room.fileById)), id, m.files), f, sub,
                  old(room.fileById[f].subscribers[sub].State()))
      ensures
        var v := Verdict(Room.IndexView(old(room.fileById)), id, m);
        room.Delivered(v, old(room.Target(v)), collision)
    {
      collision := false;
      if m.code == Some(CODE_FILE_CHUNK_DATA) {
        collision := HandleFileChunkMessage(m.files);
      } else {
        assert Verdict(Room.IndexView(room.fileById), id, m) == Ignored;
        HandleRoomMessage(m, now);
      }
    }
  }

  lemma WelcomedNames(r: RoomValue, id: int, name: string)
    ensures Names(Add(Post(r, Joined(id, name)), id, NewPeer(name)).peers) == Names(r.peers)[id := name]
  {
    var peers := Add(Post(r, Joined(id, name)), id, NewPeer(name)).peers;
    forall x | x in Names(r.peers)[id := name] ensures x in peers && peers[x].name == Names(r.peers)[id := name][x] {
    }
  }

  // ---- Walks over a room's table that are not through yet ----

  function SentToAllBut(peers: map<int, PeerValue>, ids: set<int>, m: Message): map<int, PeerValue> {
    map id | id in peers :: if id in ids then peers[id] else Sent(peers[id], m)
  }

  lemma NobodySent(peers: map<int, PeerValue>, m: Message)
    ensures SentToAllBut(peers, peers.Keys, m) == peers
    ensures SentToAllBut(peers, {}, m) == SentToAll(peers, m)
  {
  }

  lemma OneSent(peers: map<int, PeerValue>, ids: set<int>, id: int, m: Message)
    requires id in peers && id in ids
    ensures SentToAllBut(peers, ids, m)[id] == peers[id]
    ensures SentToAllBut(peers, ids, m)[id := Sent(peers[id], m)] == SentToAllBut(peers, ids - {id}, m)
  {
  }

  function PingedAllBut(peers: map<int, PeerValue>, ids: set<int>): map<int, PeerValue> {
    map id | id in peers :: if id in ids then peers[id] else Pinged(peers[id])
  }

  lemma NobodyPinged(peers: map<int, PeerValue>)
    ensures PingedAllBut(peers, peers.Keys) == peers
    ensures PingedAllBut(peers, {}) == map id | id in peers :: Pinged(peers[id])
  {
  }

  lemma OnePinged(peers: map<int, PeerValue>, ids: set<int>, id: int)
    requires id in peers && id in ids
    ensures PingedAllBut(peers, ids)[id] == peers[id]
    ensures PingedAllBut(peers, ids)[id := Pinged(peers[id])] == PingedAllBut(peers, ids - {id})
  {
  }

  class Room {
    const name: string
    const limit: nat
    var fileIdCounter: int
    var fileById: map<int, File>
    var peerById: map<int, Peer>
    var history: seq<Entry>

    constructor (name: string, limit: nat)
      ensures this.name == name && this.limit == limit && Keyed()
      ensures peerById == map[] && fileById == map[] && history == [] && fileIdCounter == 1
      ensures View() == NewRoom(limit)
    {
      this.name := name;
      this.limit := limit;
      fileIdCounter := 1;
      fileById := map[];
      peerById := map[];
      history := [];
    }

    /** Peers and files are filed under their own ids. */
    ghost predicate Keyed()
      reads this`peerById, this`fileById
    {
      && (forall id :: id in peerById ==> peerById[id].id == id)
      && (forall f :: f in fileById ==> fileById[f].serverFileId == f)
    }

    ghost function Members(): set<Peer>
      reads this`peerById
    {
      set id | id in peerById :: peerById[id]
    }

    /** Every member's own list of files. */
    ghost function Lists(): map<int, seq<File>>
      reads this`peerById, Members()`files
    {
      map id | id in peerById :: peerById[id].files
    }

    static ghost function FilesIn(lists: map<int, seq<File>>): set<File> {
      set id, f | id in lists && f in lists[id] :: f
    }

    static ghost predicate AllValid(files: set<File>)
      reads files`subscribers, files`subscriberIdCounter
    {
      forall f :: f in files ==> f.Valid()
    }

    /** The members' lists hold just the indexed file objects, each with its host, and each file is in order. */
    ghost predicate Linked()
      reads this`peerById, this`fileById, this`fileIdCounter, Members()`files
      reads FilesIn(Lists())`subscribers, FilesIn(Lists())`subscriberIdCounter
    {
      LinkedBy(peerById, Lists(), fileById, fileIdCounter) && AllValid(FilesIn(Lists()))
    }

    static ghost predicate OnList(lists: map<int, seq<File>>, id: int, older f: File) {
      id in lists && f in lists[id]
    }

    static ghost predicate IsIndexed(index: map<int, File>, x: int, older f: File) {
      x in index && index[x] == f
    }

    static ghost predicate LinkedBy(
      peers: map<int, Peer>, lists: map<int, seq<File>>, index: map<int, File>, counter: int)
    {
      && lists.Keys == peers.Keys
      && (forall id, f :: OnList(lists, id, f) ==>
          id in peers && f.host == peers[id] && f.serverFileId < counter && IsIndexed(index, f.serverFileId, f))
      && (forall x, f :: IsIndexed(index, x, f) ==>
          f.host.id in peers && peers[f.host.id] == f.host && OnList(lists, f.host.id, f))
    }

    static lemma LinkedWithFile(
      peers: map<int, Peer>, lists: map<int, seq<File>>, index: map<int, File>, counter: int, file: File)
      requires LinkedBy(peers, lists, index, counter) && file.serverFileId == counter
      requires file.host.id in peers && peers[file.host.id] == file.host
      ensures LinkedBy(peers, lists[file.host.id := lists[file.host.id] + [file]], index[counter := file], counter + 1)
      ensures FilesIn(lists[file.host.id := lists[file.host.id] + [file]]) == FilesIn(lists) + {file}
    {
      var lists', index' := lists[file.host.id := lists[file.host.id] + [file]], index[counter := file];
      forall id, f ensures OnList(lists', id, f) <==> OnList(lists, id, f) || (id == file.host.id && f == file) {
      }
      forall x, f ensures IsIndexed(index', x, f) <==> if x == counter then f == file else IsIndexed(index, x, f) {
      }
      assert OnList(lists', file.host.id, file);
      forall f ensures f in FilesIn(lists') <==> f in FilesIn(lists) || f == file {
        if f in FilesIn(lists) {
          var id :| id in lists && f in lists[id];
          assert OnList(lists', id, f);
        }
      }
    }

    static lemma LinkedWithPeer(
      peers: map<int, Peer>, lists: map<int, seq<File>>, index: map<int, File>, counter: int, peer: Peer)
      requires LinkedBy(peers, lists, index, counter) && peer.id !in peers
      ensures LinkedBy(peers[peer.id := peer], lists[peer.id := []], index, counter)
      ensures FilesIn(lists[peer.id := []]) == FilesIn(lists)
    {
      var lists' := lists[peer.id := []];
      forall id, f ensures OnList(lists', id, f) <==> OnList(lists, id, f) {
      }
      forall f ensures f in FilesIn(lists') <==> f in FilesIn(lists) {
        if f in FilesIn(lists) {
          var id :| id in lists && f in lists[id];
          assert OnList(lists', id, f);
        }
      }
    }

    static lemma LinkedWithoutPeer(
      peers: map<int, Peer>, lists: map<int, seq<File>>, index: map<int, File>, counter: int, id: int)
      requires LinkedBy(peers, lists, index, counter) && id in peers && forall x :: x in peers ==> peers[x].id == x
      requires forall x :: x in index ==> index[x].serverFileId == x
      ensures LinkedBy(peers - {id}, lists - {id}, index - IdsOf(lists[id]), counter)
    {
      var index' := index - IdsOf(lists[id]);
      forall x, f ensures OnList(lists - {id}, x, f) <==> OnList(lists, x, f) && x != id {
      }
      forall x, f ensures IsIndexed(index', x, f) <==> IsIndexed(index, x, f) && f.host.id != id {
        if IsIndexed(index, x, f) {
          assert OnList(lists, f.host.id, f) && f.serverFileId == x;
          forall g | g in lists[id] && g.serverFileId == x ensures g == f && g.host.id == id {
            assert OnList(lists, id, g);
          }
        }
      }
    }

    ghost predicate Valid()
      reads this`peerById, this`fileById, this`fileIdCounter, Members()`files
      reads FilesIn(Lists())`subscribers, FilesIn(Lists())`subscriberIdCounter
    {
      Keyed() && Linked()
    }

    function View(): RoomValue
      reads this`peerById, this`fileById, this`fileIdCounter, this`history
      reads Members()`socket, Members()`outbox, Members()`pings, Members()`files
    {
      RoomValue(limit, PeersView(peerById), history, IndexView(fileById), fileIdCounter)
    }

    /** The subscriber a chunk message reaches, if any. */
    ghost function Target(v: ChunkVerdict): set<Subscriber>
      reads this`fileById, (if v.Forward? && v.file in fileById then {fileById[v.file]} else {})`subscribers
    {
      if v.Forward? && v.file in fileById then fileById[v.file].Target(v.subscriber) else {}
    }

    /** Whether that subscriber still has a chunk buffered. */
    ghost predicate TargetCollides(v: ChunkVerdict)
      reads this`fileById, (if v.Forward? && v.file in fileById then {fileById[v.file]} else {})`subscribers, Target(v)
    {
      v.Forward? && v.file in fileById && v.subscriber in fileById[v.file].subscribers &&
      Collides(fileById[v.file].subscribers[v.subscriber].State())
    }

    /** The chunk reached the subscriber it names, or met one that was still there. */
    twostate predicate Delivered(v: ChunkVerdict, target: set<Subscriber>, collision: bool)
      reads target
    {
      && target == old(Target(v)) && collision == old(TargetCollides(v))
      && forall s :: s in target ==> s.Seen() == Fed(old(s.Seen()), v.data) && s.listeners == old(s.listeners)
    }

    static function PeersView(peers: map<int, Peer>): map<int, PeerValue>
      reads (set id | id in peers :: peers[id])`socket, (set id | id in peers :: peers[id])`outbox
      reads (set id | id in peers :: peers[id])`pings, (set id | id in peers :: peers[id])`files
    {
      map id | id in peers :: peers[id].View()
    }

    static function IndexView(files: map<int, File>): map<int, int> {
      map f | f in files :: files[f].host.id
    }

    static lemma PeersViewIs(peers: map<int, Peer>, want: map<int, PeerValue>)
      requires want.Keys == peers.Keys && forall id :: id in peers ==> peers[id].View() == want[id]
      ensures PeersView(peers) == want
    {
      var view := PeersView(peers);
      assert view.Keys == peers.Keys;
      forall id | id in want ensures id in view && view[id] == want[id] {
        assert id in want.Keys;
      }
    }

    static lemma PeersViewWithout(peers: map<int, Peer>, id: int)
      ensures PeersView(peers - {id}) == PeersView(peers) - {id}
    {
    }

    static lemma IndexViewWith(files: map<int, File>, f: int, file: File)
      ensures IndexView(files[f := file]) == IndexView(files)[f := file.host.id]
    {
    }

    static lemma IndexViewWithout(files: map<int, File>, gone: set<int>)
      ensures IndexView(files - gone) == IndexView(files) - gone
    {
    }

    static lemma PeersViewWith(peers: map<int, Peer>, before: map<int, PeerValue>, id: int)
      requires id in peers && before.Keys == peers.Keys
      requires forall x :: x in peers && x != id ==> peers[x].View() == before[x]
      ensures PeersView(peers) == before[id := peers[id].View()]
    {
      PeersViewIs(peers, before[id := peers[id].View()]);
    }

    /** Links only depend on the tables, the members' lists and the files' own tables. */
    twostate lemma LinksStay()
      requires old(Valid()) && peerById == old(peerById) && fileById == old(fileById)
      requires fileIdCounter == old(fileIdCounter)
      requires forall id :: id in peerById ==> peerById[id].files == old(peerById[id].files)
      requires forall f :: f in old(FilesIn(Lists())) ==>
        f.subscribers == old(f.subscribers) && f.subscriberIdCounter == old(f.subscriberIdCounter)
      ensures Valid()
    {
      ListsAre(old(Lists()));
      assert AllValid(old(FilesIn(Lists())));
    }

    /** One peer's turn of a broadcast that `ids` still wait for. */
    method SendTo(id: int, m: Message, ghost before: map<int, PeerValue>, ghost ids: set<int>)
      requires Keyed() && id in peerById && id in ids && PeersView(peerById) == SentToAllBut(before, ids, m)
      modifies {peerById[id]}`outbox
      ensures PeersView(peerById) == SentToAllBut(before, ids - {id}, m)
    {
      OneSent(before, ids, id, m);
      ghost var now := PeersView(peerById);
      peerById[id].SendMessageAsync(m);
      PeersViewWith(peerById, now, id);
    }

    method SendMessageAsync(m: Message)
      requires Keyed()
      modifies Members()`outbox
      ensures View() == old(View()).(peers := SentToAll(old(View()).peers, m))
      ensures old(Valid()) ==> Valid()
    {
      var ids := peerById.Keys;
      ghost var before := PeersView(peerById);
      NobodySent(before, m);
      while ids != {}
        invariant ids <= peerById.Keys && PeersView(peerById) == SentToAllBut(before, ids, m)
        decreases ids
      {
        var id := PickAny(ids);
        SendTo(id, m, before, ids);
        ids := ids - {id};
      }
      if old(Valid()) {
        LinksStay();
      }
    }

    method AddHistoryMessage(e: Entry)
      requires Keyed()
      modifies this`history
      ensures View() == old(View()).(history := Remember(old(history), limit, e))
      ensures old(Valid()) ==> Valid()
    {
      if limit == 0 {
        return;
      }
      history := history + [e];
      PruneHistory();
      if old(Valid()) {
        LinksStay();
      }
    }

    /** The oldest messages go, down to the limit. */
    method PruneHistory()
      modifies this`history
      ensures history == LastN(old(history), limit)
    {
      while |history| > limit
        invariant |history| <= |old(history)|
        invariant history == old(history)[|old(history)| - |history|..]
        invariant |history| >= Min(limit, |old(history)|)
        decreases |history|
      {
        history := history[1..];
      }
    }

    /** Into the history, then to everybody. */
    method Publish(e: Entry)
      requires Keyed()
      modifies this`history, Members()`outbox
      ensures View() == Post(old(View()), e)
      ensures AllGot(old(View()), View(), Broadcast(e)) && Newest(old(View()), View(), e)
      ensures old(Valid()) ==> Valid()
    {
      PostReachesAll(View(), e);
      AddHistoryMessage(e);
      SendMessageAsync(Broadcast(e));
    }

    /** A chunk for a subscriber of one of the room's files. */
    method Deliver(v: ChunkVerdict) returns (collision: bool)
      requires Valid() && v.Forward? && v.file in fileById
      modifies Target(v)
      ensures forall f, sub | f in fileById && sub in fileById[f].subscribers ::
        fileById[f].subscribers[sub].State() == After(v, f, sub, old(fileById[f].subscribers[sub].State()))
      ensures Delivered(v, old(Target(v)), collision)
    {
      IndexedAreValid();
      var file := fileById[v.file];
      collision := file.ProvideFileChunk(v.subscriber, v.data);
    }

    lemma IndexedAreValid()
      requires Valid()
      ensures forall f :: f in fileById ==> fileById[f].Valid()
    {
      var lists := Lists();
      forall f | f in fileById ensures fileById[f].Valid() {
        assert IsIndexed(fileById, f, fileById[f]);
        assert OnList(lists, fileById[f].host.id, fileById[f]);
      }
    }

    lemma IndexedAreOlder()
      requires Valid()
      ensures forall f :: f in fileById ==> f < fileIdCounter
    {
      var lists := Lists();
      forall f | f in fileById ensures f < fileIdCounter {
        assert IsIndexed(fileById, f, fileById[f]);
        assert OnList(lists, fileById[f].host.id, fileById[f]);
      }
    }

    method AddPeer(peer: Peer)
      requires Keyed()
      modifies this`peerById
      ensures Keyed() && peerById == old(peerById)[peer.id := peer]
      ensures Lists() == old(Lists())[peer.id := peer.files]
      ensures View() == Add(old(View()), peer.id, peer.View())
    {
      ghost var lists := Lists();
      peerById := peerById[peer.id := peer];
      PeersViewIs(peerById, old(View()).peers[peer.id := peer.View()]);
      ListsAre(lists[peer.id := peer.files]);
    }

    method WelcomePeer(peer: Peer)
      requires Keyed()
      modifies this`history, Members()`outbox
      ensures View() == Post(old(View()), Joined(peer.id, peer.nickname))
      ensures old(Valid()) ==> Valid()
    {
      AddHistoryMessage(Joined(peer.id, peer.nickname));
      SendMessageAsync(Broadcast(Joined(peer.id, peer.nickname)));
    }

    method GoodbyePeer(peer: Peer)
      requires Keyed()
      modifies this`history, Members()`outbox
      ensures View() == Post(old(View()), Left(peer.id))
      ensures old(Valid()) ==> Valid()
    {
      AddHistoryMessage(Left(peer.id));
      SendMessageAsync(Broadcast(Left(peer.id)));
    }

    /** The table's entries in the order of the walk. */
    method ListPeers() returns (list: seq<PeerEntry>)
      requires Keyed()
      ensures UniqueIds(list) && ToMap(list) == Names(View().peers)
    {
      list := [];
      ghost var all := Names(View().peers);
      var ids := peerById.Keys;
      assert ToMap([]) == all - ids;
      while ids != {}
        invariant ids <= peerById.Keys && UniqueIds(list) && ToMap(list) == all - ids
        decreases ids
      {
        var id := PickAny(ids);
        EntryListed(list, id, peerById[id].nickname, all, ids);
        list := list + [PeerEntry(peerById[id].id, peerById[id].nickname)];
        ids := ids - {id};
      }
      assert all - {} == all;
    }

    static lemma EntryListed(list: seq<PeerEntry>, id: int, name: string, all: map<int, string>, ids: set<int>)
      requires UniqueIds(list) && ToMap(list) == all - ids && id in ids && id in all && all[id] == name
      ensures UniqueIds(list + [PeerEntry(id, name)])
      ensures ToMap(list + [PeerEntry(id, name)]) == all - (ids - {id})
    {
      ToMapKeys(list);
      assert id !in ToMap(list).Keys;
      PutFresh(list, id, name);
      PutFacts(list, id, name);
    }

    method OnboardPeer(peer: Peer) returns (ghost order: seq<PeerEntry>)
      requires Keyed() && peer.id in peerById && peerById[peer.id] == peer
      modifies peer`outbox
      ensures UniqueIds(order) && ToMap(order) == Names(old(View()).peers)
      ensures View() == Onboard(old(View()), peer.id, order)
      ensures old(Valid()) ==> Valid()
    {
      var list := ListPeers();
      assert View() == old(View());
      order := list;
      peer.SendMessageAsync(Info(peer.id, peer.nickname, list, history));
      PeersViewIs(peerById, Onboard(old(View()), peer.id, order).peers);
      if old(Valid()) {
        LinksStay();
      }
    }

    method GetPeerById(peerId: int) returns (peer: Peer?)
      requires Keyed()
      ensures (peer == null <==> peerId !in peerById) && (peer != null ==> peer == peerById[peerId])
    {
      return if peerId in peerById then peerById[peerId] else null;
    }

    method GetFileById(fileId: int) returns (file: File?)
      requires Keyed()
      ensures (file == null <==> fileId !in fileById) && (file != null ==> file == fileById[fileId])
    {
      return if fileId in fileById then fileById[fileId] else null;
    }

    /** Null stands for the exception "File host not found.", which leaves everything as it was. */
    method ShareFile(hostPeerId: int, clientFileId: int, fileName: Option<string>, fileSize: int) returns (file: File?)
      requires Valid()
      modifies this`fileIdCounter, this`fileById, Members()`files
      ensures Valid()
      ensures hostPeerId !in peerById ==> file == null && View() == old(View()) && fileById == old(fileById)
      ensures hostPeerId in peerById ==>
        && file != null && fresh(file) && file.host == peerById[hostPeerId]
        && file.clientFileId == clientFileId && file.serverFileId == old(fileIdCounter)
        && file.name == fileName && file.size == fileSize && file.subscribers == map[]
        && fileById == old(fileById)[old(fileIdCounter) := file]
        && Lists() == old(Lists())[hostPeerId := old(Lists())[hostPeerId] + [file]]
        && View() == Share(old(View()), hostPeerId)
    {
      var host := GetPeerById(hostPeerId);
      if host == null {
        return null;
      }
      file := MakeFile(host, clientFileId, fileName, fileSize);
    }

    static lemma AllValidWith(files: set<File>, file: File)
      requires AllValid(files) && file.Valid()
      ensures AllValid(files + {file})
    {
    }

    /** A new file object of a member, in the member's list and in the index. */
    method MakeFile(host: Peer, clientFileId: int, fileName: Option<string>, fileSize: int) returns (file: File)
      requires Valid() && host.id in peerById && peerById[host.id] == host
      modifies this`fileIdCounter, this`fileById, host`files
      ensures Valid() && fresh(file) && file.host == host
      ensures file.clientFileId == clientFileId && file.serverFileId == old(fileIdCounter)
      ensures file.name == fileName && file.size == fileSize && file.subscribers == map[]
      ensures fileById == old(fileById)[old(fileIdCounter) := file]
      ensures Lists() == old(Lists())[host.id := old(Lists())[host.id] + [file]]
      ensures View() == Share(old(View()), host.id)
    {
      ghost var lists, index := Lists(), fileById;
      file := NumberFile(host, clientFileId, fileName, fileSize);
      LinkedWithFile(peerById, lists, index, file.serverFileId, file);
      AllValidWith(FilesIn(lists), file);
      FileAway(host, file, FilesIn(lists) + {file});
    }

    /** The file goes into its host's list and into the index. */
    method FileAway(host: Peer, file: File, ghost files: set<File>)
      requires AllValid(files)
      requires Keyed() && host.id in peerById && peerById[host.id] == host && file.host == host
      modifies this`fileById, host`files
      ensures Keyed() && fileById == old(fileById)[file.serverFileId := file] && AllValid(files)
      ensures Lists() == old(Lists())[host.id := old(Lists())[host.id] + [file]]
      ensures View() ==
        Share(old(View()).(fileIdCounter := file.serverFileId), host.id).(fileIdCounter := fileIdCounter)
    {
      AddFileTo(host, file);
      IndexFile(file);
    }

    /** Only the counter changes. */
    method NumberFile(host: Peer, clientFileId: int, fileName: Option<string>, fileSize: int) returns (file: File)
      modifies this`fileIdCounter
      ensures fileIdCounter == old(fileIdCounter) + 1
      ensures fresh(file) && file.Valid() && file.host == host
      ensures file.clientFileId == clientFileId && file.serverFileId == old(fileIdCounter)
      ensures file.name == fileName && file.size == fileSize && file.subscribers == map[]
      ensures Lists() == old(Lists()) && View() == old(View()).(fileIdCounter := fileIdCounter)
      ensures old(AllValid(FilesIn(Lists()))) ==> AllValid(old(FilesIn(Lists())))
    {
      var serverFileId := fileIdCounter;
      fileIdCounter := fileIdCounter + 1;
      file := new File(host, clientFileId, serverFileId, fileName, fileSize);
    }

    /** Only the index changes. */
    method IndexFile(file: File)
      requires Keyed()
      modifies this`fileById
      ensures Keyed() && fileById == old(fileById)[file.serverFileId := file]
      ensures Lists() == old(Lists())
      ensures View() == old(View()).(index := old(View()).index[file.serverFileId := file.host.id])
    {
      fileById := fileById[file.serverFileId := file];
      IndexViewWith(old(fileById), file.serverFileId, file);
    }

    /** One member's list grows. */
    method AddFileTo(host: Peer, file: File)
      requires Keyed() && host.id in peerById && peerById[host.id] == host
      modifies host`files
      ensures Lists() == old(Lists())[host.id := old(Lists())[host.id] + [file]]
      ensures
        var before := old(View()).peers;
        View() == old(View()).(
          peers := before[host.id := before[host.id].(files := before[host.id].files + [file.serverFileId])])
    {
      ghost var before, lists := PeersView(peerById), Lists();
      host.AddFile(file);
      PeersViewWith(peerById, before, host.id);
      ListsAre(lists[host.id := lists[host.id] + [file]]);
    }

    lemma ListsAre(want: map<int, seq<File>>)
      requires want.Keys == peerById.Keys && forall id :: id in peerById ==> peerById[id].files == want[id]
      ensures Lists() == want
    {
      forall id | id in want ensures id in Lists() && Lists()[id] == want[id] {
        assert id in want.Keys;
      }
    }

    /** One peer's turn of a ping round that `ids` still wait for: it is pinged, or loses its socket. */
    method PingOne(id: int, ghost before: map<int, PeerValue>, ghost ids: set<int>)
      requires Keyed() && id in peerById && id in ids && PeersView(peerById) == PingedAllBut(before, ids)
      modifies {peerById[id]}`pings, {peerById[id]}`outbox, {peerById[id]}`socket
      ensures PeersView(peerById) == PingedAllBut(before, ids - {id})
    {
      OnePinged(before, ids, id);
      ghost var now := PeersView(peerById);
      var sent := peerById[id].SendPingAsync();
      if !sent {
        peerById[id].InvalidateSocket();
      }
      PeersViewWith(peerById, now, id);
    }

    method PingAllPeers()
      requires Keyed()
      modifies Members()`pings, Members()`outbox, Members()`socket
      ensures View() == PingAll(old(View()))
      ensures old(Valid()) ==> Valid()
    {
      PingEach();
      if old(Valid()) {
        LinksStay();
      }
    }

    method PingEach()
      requires Keyed()
      modifies Members()`pings, Members()`outbox, Members()`socket
      ensures View() == PingAll(old(View()))
    {
      var ids := peerById.Keys;
      ghost var before := PeersView(peerById);
      NobodyPinged(before);
      while ids != {}
        invariant ids <= peerById.Keys && PeersView(peerById) == PingedAllBut(before, ids)
        decreases ids
      {
        var id := PickAny(ids);
        PingOne(id, before, ids);
        ids := ids - {id};
      }
    }

    predicate IsEmpty()
      reads this
    {
      |peerById| == 0
    }

    static ghost function SetOf(files: seq<File>): set<File> {
      set f | f in files
    }

    /** The files of one member. */
    ghost function ListOf(peerId: int): seq<File>
      reads this`peerById, Members()`files
    {
      if peerId in peerById then peerById[peerId].files else []
    }

    static ghost function SubscribersOf(files: seq<File>): set<Subscriber>
      reads (set f | f in files)`subscribers
    {
      set f, s | f in files && s in f.Registered() :: s
    }

    /** One file of a departed peer: its subscribers are revoked, and it leaves the index. */
    method DropFile(files: seq<File>, i: nat)
      requires Keyed() && i < |files| && forall f :: f in files ==> f.Valid()
      modifies this`fileById, {files[i]}`subscribers, files[i].Registered()`valid, files[i].Registered()`pc
      ensures Keyed() && fileById == old(fileById) - {files[i].serverFileId}
      ensures forall f :: f in files ==>
        f.Valid() && f.subscribers == if f == files[i] then map[] else old(f.subscribers)
      ensures Revoked(old(files[i].Registered()))
    {
      files[i].ClearSubscribers();
      fileById := fileById - {files[i].serverFileId};
    }

    /** The subscribers registered with these files are revoked, and the files leave the index. */
    method DropFiles(files: seq<File>)
      requires Keyed() && forall f :: f in files ==> f.Valid()
      modifies this`fileById, SetOf(files)`subscribers, SubscribersOf(files)`valid, SubscribersOf(files)`pc
      ensures Keyed()
      ensures fileById == old(fileById) - IdsOf(files)
      ensures forall f :: f in files ==> f.subscribers == map[] && f.Valid()
      ensures Revoked(old(SubscribersOf(files)))
    {
      ghost var all := SubscribersOf(files);
      ghost var states := map s | s in all :: s.Seen();
      var i := 0;
      ghost var revoked: set<Subscriber> := {};
      ghost var done: set<File> := {};
      while i < |files|
        invariant 0 <= i <= |files|
        invariant Keyed() && fileById == old(fileById) - IdsOf(files[..i])
        invariant forall f :: f in files ==> f.Valid()
        invariant forall j :: 0 <= j < i ==> files[j] in done
        invariant forall f :: f in files ==>
          if f in done then f.subscribers == map[] && old(f.Registered()) <= revoked
          else f.subscribers == old(f.subscribers)
        invariant forall s :: s in all ==> s.Seen() == if s in revoked then Cut(states[s]) else states[s]
      {
        assert files[i].Registered() <= old(files[i].Registered());
        revoked := revoked + files[i].Registered();
        done := done + {files[i]};
        IdsGrow(old(fileById), files, i);
        DropFile(files, i);
        i := i + 1;
      }
      assert files[..|files|] == files;
    }

    static ghost function IdsOf(files: seq<File>): set<int> {
      set f | f in files :: f.serverFileId
    }

    static lemma IdsGrow(index: map<int, File>, files: seq<File>, i: nat)
      requires i < |files|
      ensures index - IdsOf(files[..i + 1]) == (index - IdsOf(files[..i])) - {files[i].serverFileId}
    {
      assert files[..i + 1] == files[..i] + [files[i]];
      assert IdsOf(files[..i + 1]) == IdsOf(files[..i]) + {files[i].serverFileId};
    }

    static lemma IdsOfFileIds(files: seq<File>)
      ensures IdsOf(files) == set f | f in Peer.FileIds(files)
    {
      forall f | f in IdsOf(files) ensures f in Peer.FileIds(files) {
        var i :| 0 <= i < |files| && files[i].serverFileId == f;
        assert Peer.FileIds(files)[i] == f;
      }
    }

    /** The departed peer's files leave the index, and every subscriber registered with one of them is revoked. */
    method RemovePeerById(peerId: int)
      requires Valid()
      modifies this`fileById, this`peerById
      modifies SetOf(ListOf(peerId))`subscribers
      modifies SubscribersOf(ListOf(peerId))`valid, SubscribersOf(ListOf(peerId))`pc
      ensures Valid() && peerById == old(peerById) - {peerId}
      ensures View() == RemovePeer(old(View()), peerId)
      ensures peerId in old(peerById) ==>
        && (forall f :: f in old(peerById[peerId].files) ==> f.subscribers == map[])
        && Revoked(old(SubscribersOf(peerById[peerId].files)))
    {
      if peerId in peerById {
        ghost var lists := Lists();
        TakeOut(peerId);
        LinkedWithoutPeer(old(peerById), lists, old(fileById), fileIdCounter, peerId);
        assert FilesIn(lists - {peerId}) <= FilesIn(lists);
      } else {
        assert peerById - {peerId} == peerById;
      }
    }

    /** All these subscribers went through `invalidate`. */
    static twostate predicate Revoked(subscribers: set<Subscriber>)
      reads subscribers
    {
      forall s :: s in subscribers ==> s.Seen() == Cut(old(s.Seen()))
    }

    /** A member and its files leave the tables. */
    method TakeOut(peerId: int)
      requires Keyed() && peerId in peerById && AllValid(FilesIn(Lists()))
      modifies this`fileById, this`peerById, SetOf(ListOf(peerId))`subscribers
      modifies SubscribersOf(ListOf(peerId))`valid, SubscribersOf(ListOf(peerId))`pc
      ensures Keyed() && peerById == old(peerById) - {peerId}
      ensures fileById == old(fileById) - IdsOf(old(peerById[peerId].files))
      ensures Lists() == old(Lists()) - {peerId} && AllValid(old(FilesIn(Lists())))
      ensures View() == RemovePeer(old(View()), peerId)
      ensures forall f :: f in old(peerById[peerId].files) ==> f.subscribers == map[]
      ensures Revoked(old(SubscribersOf(peerById[peerId].files)))
    {
      IndexViewWithout(fileById, IdsOf(peerById[peerId].files));
      IdsOfFileIds(peerById[peerId].files);
      DropFilesOf(peerId);
      ErasePeer(peerId);
    }

    /** The member's files leave the index, and their subscribers are revoked; lists and peers stay as they are. */
    method DropFilesOf(peerId: int)
      requires Keyed() && peerId in peerById && AllValid(FilesIn(Lists()))
      modifies this`fileById, SetOf(ListOf(peerId))`subscribers
      modifies SubscribersOf(ListOf(peerId))`valid, SubscribersOf(ListOf(peerId))`pc
      ensures Keyed() && fileById == old(fileById) - IdsOf(old(peerById[peerId].files))
      ensures Lists() == old(Lists()) && PeersView(peerById) == old(PeersView(peerById))
      ensures AllValid(old(FilesIn(Lists())))
      ensures forall f :: f in old(peerById[peerId].files) ==> f.subscribers == map[]
      ensures Revoked(old(SubscribersOf(peerById[peerId].files)))
    {
      var files := peerById[peerId].files;
      ghost var lists := Lists();
      forall f | f in files ensures f in FilesIn(lists) {
        assert OnList(lists, peerId, f);
      }
      DropFiles(files);
    }

    method ErasePeer(peerId: int)
      requires Keyed() && peerId in peerById
      modifies this`peerById
      ensures Keyed() && peerById == old(peerById) - {peerId} && Lists() == old(Lists()) - {peerId}
      ensures PeersView(peerById) == old(PeersView(peerById)) - {peerId}
    {
      ghost var lists := Lists();
      PeersViewWithout(peerById, peerId);
      peerById := peerById - {peerId};
      ListsAre(lists - {peerId});
    }

    /** The lobby's three steps for a new peer: welcome, add, onboard. */
    method Receive(peer: Peer) returns (ghost order: seq<PeerEntry>)
      requires Valid() && peer.id !in peerById && peer.View() == NewPeer(peer.nickname) && peer.files == []
      modifies this`history, this`peerById, Members()`outbox, peer`outbox
      ensures Valid() && peerById == old(peerById)[peer.id := peer]
      ensures UniqueIds(order) && ToMap(order) == Names(old(View()).peers)[peer.id := peer.nickname]
      ensures View() == Join(old(View()), peer.id, peer.nickname, order)
    {
      ghost var r := View();
      WelcomePeer(peer);
      assert peer.View() == NewPeer(peer.nickname);
      Admit(peer);
      WelcomedNames(r, peer.id, peer.nickname);
      order := OnboardPeer(peer);
    }

    /** A new peer has no files to bring along. */
    method Admit(peer: Peer)
      requires Valid() && peer.id !in peerById && peer.files == []
      modifies this`peerById
      ensures Valid() && peerById == old(peerById)[peer.id := peer]
      ensures View() == Add(old(View()), peer.id, peer.View())
    {
      ghost var lists := Lists();
      AddPeer(peer);
      LinkedWithPeer(old(peerById), lists, fileById, fileIdCounter, peer);
    }

    /** The lobby's first two steps for a leaving peer: remove, say goodbye. */
    method Dismiss(peer: Peer)
      requires Valid() && (peer.id in peerById ==> peerById[peer.id] == peer)
      modifies this`history, this`fileById, this`peerById, Members()`outbox
      modifies SetOf(peer.files)`subscribers, SubscribersOf(peer.files)`valid, SubscribersOf(peer.files)`pc
      ensures Valid() && peerById == old(peerById) - {peer.id}
      ensures View() == Leave(old(View()), peer.id)
      ensures peer.id in old(peerById) ==> Revoked(old(SubscribersOf(peer.files)))
    {
      RemovePeerById(peer.id);
      GoodbyePeer(peer);
    }
  }
}

/**
 What each operation of a room does to its members' queues, to its history and to its tables, field by field: who
 gets which message and who does not, what is kept, and what stays as it was.
 */
module Effects {
  import opened Basics
  import opened Messages
  import opened RoomSpec

  // ---- Queues and history ----

  /** The message is queued once, behind all others, if the peer has a socket; otherwise it is dropped. */
  predicate Got(p: PeerValue, p': PeerValue, m: Message) {
    && p'.outbox == (if p.live then p.outbox + [m] else p.outbox)
    && p'.name == p.name && p'.live == p.live && p'.pings == p.pings
  }

  /** Every member got the message, the sender included, and there are no other members than before. */
  ghost predicate AllGot(r: RoomValue, r': RoomValue, m: Message) {
    r'.peers.Keys == r.peers.Keys && forall p :: p in r.peers ==> Got(r.peers[p], r'.peers[p], m)
  }

  /** One member got the message, and that is all that happened. */
  ghost predicate OneGot(r: RoomValue, r': RoomValue, id: int, m: Message) {
    && r'.peers.Keys == r.peers.Keys && r' == r.(peers := r'.peers)
    && forall p :: p in r.peers ==>
        if p == id then Got(r.peers[p], r'.peers[p], m) && r'.peers[p].files == r.peers[p].files
        else r'.peers[p] == r.peers[p]
  }

  /** The entry is the newest of the history, and the oldest are gone down to the limit; no limit, no history. */
  predicate Newest(r: RoomValue, r': RoomValue, e: Entry) {
    var n := |r'.history|;
    if r.limit == 0 then r'.history == r.history
    else
      && n == Min(r.limit, |r.history| + 1) && r'.history[n - 1] == e
      && forall i :: 0 <= i < n - 1 ==> r'.history[i] == r.history[|r.history| - (n - 1) + i]
  }

  /** Nothing about files changed. */
  ghost predicate SameFiles(r: RoomValue, r': RoomValue) {
    && r'.index == r.index && r'.fileIdCounter == r.fileIdCounter && r'.limit == r.limit
    && forall p :: p in r.peers && p in r'.peers ==> r'.peers[p].files == r.peers[p].files
  }

  lemma PostReachesAll(r: RoomValue, e: Entry)
    ensures AllGot(r, Post(r, e), Broadcast(e)) && Newest(r, Post(r, e), e) && SameFiles(r, Post(r, e))
  {
  }

  // ---- Messages of clients ----

  /** A chat message goes to everybody, under the sender's identity and the server's time, and is kept. */
  lemma ChatReachesAll(r: RoomValue, id: int, raw: RawMessage, now: int)
    requires id in r.peers && raw.code == Some(CODE_PEER_MESSAGE)
    ensures
      var r' := Handle(r, id, raw, now);
      var e := Chat(id, r.peers[id].name, now, raw.text);
      AllGot(r, r', Broadcast(e)) && Newest(r, r', e) && SameFiles(r, r') && !AnsweredWithError(r, id, raw)
  {
  }

  /** A typing note goes to everybody and is not kept. */
  lemma TypingReachesAll(r: RoomValue, id: int, raw: RawMessage, now: int)
    requires id in r.peers && raw.code == Some(CODE_PEER_IS_TYPING)
    ensures
      var r' := Handle(r, id, raw, now);
      AllGot(r, r', Broadcast(Typing(id, r.peers[id].name, now))) && r'.history == r.history && SameFiles(r, r')
    ensures !AnsweredWithError(r, id, raw)
  {
  }

  /** What is announced: each file with its name and size, under consecutive ids. */
  function Listed(files: seq<Option<RawFile>>, first: int): seq<SharedFile>
    requires Shareable(Some(files))
  {
    seq(|files|, i requires 0 <= i < |files| =>
      SharedFile(first + i, files[i].value.name, files[i].value.size.value))
  }

  function Numbered(first: int, n: nat): seq<int> {
    seq(n, i => first + i)
  }

  /** The new ids are the host's, in the index and at the end of its list; all else about files is as before. */
  ghost predicate FilesAdded(r: RoomValue, r': RoomValue, host: int, n: nat) {
    && r'.fileIdCounter == r.fileIdCounter + n && r'.limit == r.limit && r'.peers.Keys == r.peers.Keys
    && (forall f :: f in r'.index <==> f in r.index || r.fileIdCounter <= f < r.fileIdCounter + n)
    && (forall f :: f in r'.index ==>
        if r.fileIdCounter <= f < r.fileIdCounter + n then r'.index[f] == host
        else f in r.index && r'.index[f] == r.index[f])
    && (forall p :: p in r.peers ==>
        r'.peers[p].files == r.peers[p].files + if p == host then Numbered(r.fileIdCounter, n) else [])
  }

  lemma OneMoreAdded(r: RoomValue, r': RoomValue, host: int, n: nat)
    requires host in r.peers && FilesAdded(Share(r, host), r', host, n)
    ensures FilesAdded(r, r', host, n + 1)
  {
    var c := r.fileIdCounter;
    var mid := Share(r, host);
    assert Numbered(c, n + 1) == [c] + Numbered(c + 1, n);
    forall p | p in r.peers
      ensures r'.peers[p].files == r.peers[p].files + if p == host then Numbered(c, n + 1) else []
    {
      assert p in mid.peers;
      assert r.peers[p].files + [] == r.peers[p].files;
      assert (r.peers[p].files + [c]) + Numbered(c + 1, n) == r.peers[p].files + ([c] + Numbered(c + 1, n));
    }
  }

  lemma {:induction false} ShareAllAdds(r: RoomValue, host: int, files: seq<Option<RawFile>>)
    requires host in r.peers && Shareable(Some(files))
    ensures FilesAdded(r, ShareAll(r, host, files).0, host, |files|)
    ensures ShareAll(r, host, files).1 == Listed(files, r.fileIdCounter)
    decreases |files|
  {
    if files == [] {
      assert Numbered(r.fileIdCounter, 0) == [];
      assert forall p :: p in r.peers ==> r.peers[p].files + [] == r.peers[p].files;
    } else {
      ShareAllAdds(Share(r, host), host, files[1..]);
      OneMoreAdded(r, ShareAll(r, host, files).0, host, |files| - 1);
      var rest := Listed(files[1..], r.fileIdCounter + 1);
      var one := [SharedFile(r.fileIdCounter, files[0].value.name, files[0].value.size.value)];
      assert Listed(files, r.fileIdCounter) == one + rest;
    }
  }

  /** Shared files get the next ids, are the sender's, and are announced to everybody in one message that is kept. */
  lemma FilesReachAll(r: RoomValue, id: int, raw: RawMessage, now: int)
    requires id in r.peers && raw.code == Some(CODE_FILE_SHARE) && Shareable(raw.files)
    ensures
      var r' := Handle(r, id, raw, now);
      var e := Files(id, r.peers[id].name, now, Listed(raw.files.value, r.fileIdCounter));
      AllGot(r, r', Broadcast(e)) && Newest(r, r', e) && FilesAdded(r, r', id, |raw.files.value|)
    ensures !AnsweredWithError(r, id, raw)
  {
    var (mid, list) := ShareAll(r, id, raw.files.value);
    ShareAllAdds(r, id, raw.files.value);
    ShareAllFacts(r, id, raw.files.value);
    assert forall p :: p in r.peers ==> mid.peers[p].(files := []) == r.peers[p].(files := []);
  }

  /** A message without a code, or with one a client may not use, is an error of its sender's. */
  lemma WrongCodeIsAnswered(r: RoomValue, id: int, raw: RawMessage, now: int)
    requires id in r.peers && Acceptable(raw)
    requires raw.code != Some(CODE_PEER_MESSAGE) && raw.code != Some(CODE_PEER_IS_TYPING)
    requires raw.code != Some(CODE_FILE_SHARE) && raw.code != Some(CODE_FILE_CHUNK_DATA)
    ensures
      var text := if raw.code == None then "No message code provided." else "Invalid client message code.";
      OneGot(r, Handle(r, id, raw, now), id, ApiError(text)) && AnsweredWithError(r, id, raw)
  {
  }

  /** One file structure, with the three fields a chunk needs. */
  predicate IsChunk(files: Option<seq<Option<RawFile>>>) {
    files.Some? && |files.value| == 1 && files.value[0].Some? &&
    var f := files.value[0].value; f.serverFileId.Some? && f.subscriberId.Some? && f.data.Some?
  }

  /** The first thing that is wrong with a chunk message. */
  predicate FirstWrong(files: Option<seq<Option<RawFile>>>, text: string)
    requires files.Some? ==> files.value != []
  {
    && (text == "No file provided." <==> files == None)
    && (text == "Invalid files count. Expected - 1." <==> files.Some? && 1 < |files.value|)
    && (files.Some? && |files.value| == 1 ==>
        && (text == "File structure is not provided." <==> files.value[0] == None)
        && (files.value[0].Some? ==>
            var f := files.value[0].value;
            && (text == "File clientId is not provided." <==> f.serverFileId == None)
            && (text == "File subscriberId is not provided." <==> f.serverFileId.Some? && f.subscriberId == None)
            && (text == "File chunk data is not provided." <==>
                f.serverFileId.Some? && f.subscriberId.Some? && f.data == None)))
  }

  /**
   A chunk is forwarded exactly if it is complete and comes from the host of a file that is there, to the
   subscriber it names and unchanged; it is ignored exactly if it is complete and there is no such file.
   */
  lemma ChunkIsJudged(index: map<int, int>, id: int, files: Option<seq<Option<RawFile>>>)
    requires files.Some? ==> files.value != []
    ensures
      var v := CheckChunk(index, id, files);
      if !IsChunk(files) then v.Refused? && FirstWrong(files, v.text)
      else
        var f := files.value[0].value;
        && (v.Ignored? <==> f.serverFileId.value !in index)
        && (f.serverFileId.value in index && index[f.serverFileId.value] == id ==>
            v == Forward(f.serverFileId.value, f.subscriberId.value, f.data.value))
        && (f.serverFileId.value in index && index[f.serverFileId.value] != id ==> v == Refused("Wrong file host."))
  {
  }

  /** In the room a chunk message is felt by nobody but its sender, who is told what was wrong with it. */
  lemma ChunkIsAnswered(r: RoomValue, id: int, raw: RawMessage, now: int)
    requires id in r.peers && raw.code == Some(CODE_FILE_CHUNK_DATA) && Acceptable(raw)
    ensures
      var r' := Handle(r, id, raw, now);
      match CheckChunk(r.index, id, raw.files)
      case Refused(text) => OneGot(r, r', id, ApiError(text)) && AnsweredWithError(r, id, raw)
      case _ => r' == r && !AnsweredWithError(r, id, raw)
  {
  }

  // ---- Arrivals, departures and pings ----

  /**
   An arrival goes to all who were there and is kept. The newcomer is in the table under its id, with a socket
   and no files, and gets the snapshot with the whole history, its own arrival included, before anything else.
   */
  lemma ArrivalReachesAll(r: RoomValue, id: int, name: string, order: seq<PeerEntry>)
    requires id !in r.peers
    ensures
      var r' := Join(r, id, name, order);
      && r'.peers.Keys == r.peers.Keys + {id}
      && (forall p :: p in r.peers ==> Got(r.peers[p], r'.peers[p], Broadcast(Joined(id, name))))
      && r'.peers[id] == PeerValue(name, true, [Info(id, name, order, r'.history)], 0, [])
      && Newest(r, r', Joined(id, name)) && SameFiles(r, r')
  {
  }

  /** A departure goes to all who stay and is kept; the peer's files, and no others, leave the index. */
  lemma DepartureReachesAll(r: RoomValue, id: int)
    requires id in r.peers
    ensures
      var r' := Leave(r, id);
      && r'.peers.Keys == r.peers.Keys - {id}
      && (forall p :: p in r'.peers ==>
          Got(r.peers[p], r'.peers[p], Broadcast(Left(id))) && r'.peers[p].files == r.peers[p].files)
      && (forall f :: f in r'.index <==> f in r.index && f !in r.peers[id].files)
      && (forall f :: f in r'.index ==> r'.index[f] == r.index[f])
      && r'.fileIdCounter == r.fileIdCounter && r'.limit == r.limit && Newest(r, r', Left(id))
  {
  }

  /** A ping to one that has a socket and answered all pings before; otherwise the socket is gone. */
  predicate HadItsTurn(p: PeerValue, p': PeerValue) {
    p' == if p.live && p.pings == 0 then p.(pings := 1, outbox := p.outbox + [Ping])
          else p.(pings := p.pings + 1, live := false)
  }

  /** A round pings exactly those that have a socket and answered all pings before; the others lose the socket. */
  lemma RoundReachesAll(r: RoomValue, p: int)
    requires p in r.peers
    ensures
      var r' := PingAll(r);
      && r' == r.(peers := r'.peers) && r'.peers.Keys == r.peers.Keys
      && HadItsTurn(r.peers[p], r'.peers[p])
  {
  }
}

/** What every run of a room keeps: its log, its history, and the view of every connected browser. */
module MembershipTheorems {
  import opened Basics
  import opened Messages
  import opened RoomSpec
  import opened Membership
  import opened Effects

  // ---- The log ----

  predicate FromClient(e: Entry) {
    e.Chat? || e.Files? || e.Typing?
  }

  /** A message attributed to a peer bears the name under which that peer arrived. */
  predicate Authentic(log: seq<Entry>, e: Entry) {
    FromClient(e) ==> Joined(e.peerId, e.peerName) in log
  }

  ghost predicate LogOk(s: System) {
    && OnceEach(s.log)
    && (forall e :: e in s.log ==> e.peerId < s.nextId && Authentic(s.log, e))
    && (forall p :: p in s.room.peers ==> p < s.nextId && Joined(p, s.room.peers[p].name) in s.log)
    && (forall e :: e in s.log && e.Left? ==> e.peerId !in s.room.peers)
    && Names(s.room.peers) == Replay(map[], s.log)
    && s.room.history == LastN(s.log, s.room.limit)
  }

  lemma RememberIsLastN(log: seq<Entry>, limit: nat, e: Entry)
    ensures Remember(LastN(log, limit), limit, e) == LastN(log + [e], limit)
  {
  }

  /** What a message of peer `id` lets the room say: the sender's own words under the sender's own identity. */
  function Uttered(r: RoomValue, id: int, raw: RawMessage, now: int): (u: Option<Entry>)
    requires id in r.peers && Acceptable(raw)
    ensures u.Some? ==> FromClient(u.value) && u.value.peerId == id && u.value.peerName == r.peers[id].name
  {
    if raw.code == Some(CODE_PEER_MESSAGE) then Some(Chat(id, r.peers[id].name, now, raw.text))
    else if raw.code == Some(CODE_PEER_IS_TYPING) then Some(Typing(id, r.peers[id].name, now))
    else if raw.code == Some(CODE_FILE_SHARE) then
      Some(Files(id, r.peers[id].name, now, ShareAll(r, id, raw.files.value).1))
    else None
  }

  /** What is uttered is posted or broadcast as a note; anything else concerns the sender alone, or nobody. */
  lemma HandleSteps(r: RoomValue, id: int, raw: RawMessage, now: int)
    requires id in r.peers && Acceptable(raw)
    ensures
      var r' := Handle(r, id, raw, now);
      var logged := Logged(r, id, raw, now);
      match Uttered(r, id, raw, now)
      case Some(e) =>
        || (logged == [e] && exists mid :: SameButFiles(r, mid) && r' == Post(mid, e))
        || (logged == [] && r' == r.(peers := SentToAll(r.peers, Broadcast(e))))
      case None =>
        logged == [] &&
        if AnsweredWithError(r, id, raw) then exists text :: r' == ApiFailure(r, id, text) else r' == r
  {
    var r' := Handle(r, id, raw, now);
    var name := r.peers[id].name;
    if raw.code == Some(CODE_PEER_MESSAGE) {
      assert SameButFiles(r, r) && r' == Post(r, Chat(id, name, now, raw.text));
    } else if raw.code == Some(CODE_FILE_SHARE) {
      ShareAllFacts(r, id, raw.files.value);
      var (mid, list) := ShareAll(r, id, raw.files.value);
      assert SameButFiles(r, mid) && r' == Post(mid, Files(id, name, now, list));
    }
  }

  /**
   Every client message is one of these: what its sender uttered, which everybody with a socket gets once, and
   which becomes one log entry and the newest of the history unless it is a typing note; an error, which the sender
   alone gets; or nothing to the room.
   */
  lemma HandleFacts(r: RoomValue, id: int, raw: RawMessage, now: int)
    requires id in r.peers && Acceptable(raw)
    ensures
      var r' := Handle(r, id, raw, now);
      var logged := Logged(r, id, raw, now);
      match Uttered(r, id, raw, now)
      case Some(e) =>
        && AllGot(r, r', Broadcast(e))
        && if e.Typing? then logged == [] && r'.history == r.history else logged == [e] && Newest(r, r', e)
      case None =>
        logged == [] &&
        if AnsweredWithError(r, id, raw) then exists text :: OneGot(r, r', id, ApiError(text)) else r' == r
  {
    if raw.code == Some(CODE_PEER_MESSAGE) {
      ChatReachesAll(r, id, raw, now);
    } else if raw.code == Some(CODE_PEER_IS_TYPING) {
      TypingReachesAll(r, id, raw, now);
    } else if raw.code == Some(CODE_FILE_SHARE) {
      FilesReachAll(r, id, raw, now);
      ShareAllAdds(r, id, raw.files.value);
    } else if raw.code == Some(CODE_FILE_CHUNK_DATA) {
      ChunkIsAnswered(r, id, raw, now);
    } else {
      WrongCodeIsAnswered(r, id, raw, now);
    }
  }

  lemma AppendOnce(log: seq<Entry>, e: Entry)
    requires OnceEach(log)
    requires e.Joined? ==> forall f :: f in log ==> f.peerId != e.peerId
    requires e.Left? ==> forall f :: f in log && f.Left? ==> f.peerId != e.peerId
    ensures OnceEach(log + [e])
  {
    assert forall i :: 0 <= i < |log| ==> log[i] in log;
  }

  lemma ReplayLast(log: seq<Entry>, e: Entry)
    ensures Replay(map[], log + [e]) == ReplayOne(Replay(map[], log), e)
  {
    ReplayAppend(map[], log, [e]);
    assert [e][1..] == [];
  }

  lemma NamesAt(peers: map<int, PeerValue>)
    ensures Names(peers).Keys == peers.Keys
    ensures forall p :: p in peers ==> Names(peers)[p] == peers[p].name
  {
  }

  lemma SameMap(m: map<int, string>, m': map<int, string>)
    requires m.Keys == m'.Keys && forall p :: p in m ==> m[p] == m'[p]
    ensures m == m'
  {
    forall p | p in m ensures p in m' && m[p] == m'[p] {
      assert p in m.Keys;
    }
  }

  lemma NamesSame(peers: map<int, PeerValue>, peers': map<int, PeerValue>)
    requires peers'.Keys == peers.Keys && forall p :: p in peers ==> peers'[p].name == peers[p].name
    ensures Names(peers') == Names(peers)
  {
    NamesAt(peers);
    NamesAt(peers');
    SameMap(Names(peers'), Names(peers));
  }

  /** One more log entry, with what it stands for in the room's tables. */
  lemma LogGrows(s: System, s': System, e: Entry)
    requires LogOk(s)
    requires s'.log == s.log + [e] && s'.room.limit == s.room.limit && s.nextId <= s'.nextId
    requires s'.room.history == Remember(s.room.history, s.room.limit, e)
    requires Names(s'.room.peers) == ReplayOne(Names(s.room.peers), e)
    requires e.Joined? ==> e.peerId < s'.nextId && forall f :: f in s.log ==> f.peerId != e.peerId
    requires e.Left? ==> e.peerId in s.room.peers
    requires FromClient(e) ==> e.peerId in s.room.peers && e.peerName == s.room.peers[e.peerId].name
    ensures LogOk(s')
  {
    AppendOnce(s.log, e);
    ReplayLast(s.log, e);
    RememberIsLastN(s.log, s.room.limit, e);
    NamesAt(s.room.peers);
    NamesAt(s'.room.peers);
    forall p | p in s'.room.peers ensures p < s'.nextId && Joined(p, s'.room.peers[p].name) in s'.log {
      assert p in Names(s'.room.peers);
    }
    forall f | f in s'.log && f.Left? ensures f.peerId !in s'.room.peers {
      assert f.peerId in s'.room.peers ==> f.peerId in Names(s'.room.peers);
    }
  }

  lemma LogStays(s: System, s': System)
    requires LogOk(s) && s'.log == s.log && s'.nextId == s.nextId
    requires s'.room.limit == s.room.limit && s'.room.history == s.room.history
    requires Names(s'.room.peers) == Names(s.room.peers)
    ensures LogOk(s')
  {
    NamesAt(s.room.peers);
    NamesAt(s'.room.peers);
  }

  lemma JoinNames(r: RoomValue, id: int, name: string, order: seq<PeerEntry>)
    ensures Names(Join(r, id, name, order).peers) == Names(r.peers)[id := name]
    ensures Names(Leave(r, id).peers) == Names(r.peers) - {id}
  {
    NamesAt(r.peers);
    NamesAt(Join(r, id, name, order).peers);
    NamesAt(Leave(r, id).peers);
    SameMap(Names(Join(r, id, name, order).peers), Names(r.peers)[id := name]);
    SameMap(Names(Leave(r, id).peers), Names(r.peers) - {id});
  }

  lemma IncomingKeepsLog(s: System, id: int, raw: RawMessage, now: int)
    requires LogOk(s) && Enabled(s, Incoming(id, raw, now))
    ensures LogOk(Step(s, Incoming(id, raw, now)))
  {
    var s' := Step(s, Incoming(id, raw, now));
    HandleSteps(s.room, id, raw, now);
    NamesSame(s.room.peers, s'.room.peers);
    assert s.log + [] == s.log;
    var logged := Logged(s.room, id, raw, now);
    if logged == [] {
      LogStays(s, s');
    } else {
      LogGrows(s, s', logged[0]);
    }
  }

  lemma StepKeepsLog(s: System, e: Event)
    requires LogOk(s)
    ensures LogOk(Step(s, e))
  {
    var s' := Step(s, e);
    if Enabled(s, e) {
      match e {
        case Connect(id, name, order) =>
          JoinNames(s.room, id, name, order);
          LogGrows(s, s', Joined(id, name));
        case Disconnect(id) =>
          JoinNames(s.room, id, "", []);
          LogGrows(s, s', Left(id));
        case Incoming(id, raw, now) => IncomingKeepsLog(s, id, raw, now);
        case _ =>
          NamesSame(s.room.peers, s'.room.peers);
          LogStays(s, s');
      }
    }
  }

  lemma {:induction false} RunKeepsLog(s: System, events: seq<Event>)
    requires LogOk(s)
    ensures LogOk(Run(s, events))
    decreases |events|
  {
    if events == [] {
    } else {
      StepKeepsLog(s, events[0]);
      RunKeepsLog(Step(s, events[0]), events[1..]);
    }
  }

  lemma {:induction false} RunKeepsLimit(s: System, events: seq<Event>)
    ensures Run(s, events).room.limit == s.room.limit
    decreases |events|
  {
    if events == [] {
    } else {
      if events[0].Incoming? && Enabled(s, events[0]) {
        HandleSteps(s.room, events[0].id, events[0].raw, events[0].now);
      }
      RunKeepsLimit(Step(s, events[0]), events[1..]);
    }
  }

  /** The retained history is the last `min(limit, total)` messages ever added, for every limit, 0 included. */
  lemma HistoryIsSuffix(limit: nat, events: seq<Event>)
    ensures
      var s := Run(Empty(limit), events);
      && |s.room.history| == Min(limit, |s.log|)
      && s.room.history == s.log[|s.log| - |s.room.history|..]
  {
    RunKeepsLog(Empty(limit), events);
    RunKeepsLimit(Empty(limit), events);
  }

  /**
   In every run, the first message on a newcomer's socket is the snapshot with the history: the last
   `min(limit, total)` messages ever added, of every kind, its own arrival being the newest.
   */
  lemma NewcomerIsTold(limit: nat, events: seq<Event>, id: int, name: string, order: seq<PeerEntry>)
    requires Enabled(Run(Empty(limit), events), Connect(id, name, order))
    ensures
      var s := Run(Empty(limit), events);
      var s' := Step(s, Connect(id, name, order));
      var log := s.log + [Joined(id, name)];
      && id !in s.room.peers && s'.log == log && id in s'.room.peers
      && s'.room.peers[id].outbox == [Info(id, name, order, log[|log| - Min(limit, |log|)..])]
      && forall p :: p in s.room.peers ==>
          p in s'.room.peers && Got(s.room.peers[p], s'.room.peers[p], Broadcast(Joined(id, name)))
  {
    var s := Run(Empty(limit), events);
    RunKeepsLog(Empty(limit), events);
    RunKeepsLimit(Empty(limit), events);
    ArrivalReachesAll(s.room, id, name, order);
    RememberIsLastN(s.log, limit, Joined(id, name));
  }
}

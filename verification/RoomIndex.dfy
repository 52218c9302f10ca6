/** The file index of a room over whole runs: what sharing, leaving and everything else do to it. */
module RoomIndex {
  import opened Basics
  import opened Messages
  import opened RoomSpec
  import opened Membership

  predicate Hosts(peers: map<int, PeerValue>, p: int, f: int) {
    p in peers && f in peers[p].files
  }

  predicate NoRepeats(x: seq<int>) {
    forall i, j :: 0 <= i < j < |x| ==> x[i] != x[j]
  }

  /** The index is exactly the disjoint union of the members' own lists, with ids already given out. */
  ghost predicate IndexOk(r: RoomValue) {
    && (forall f, p :: f in r.index && r.index[f] == p <==> Hosts(r.peers, p, f))
    && (forall p :: p in r.peers ==> NoRepeats(r.peers[p].files))
    && (forall f :: f in r.index ==> f < r.fileIdCounter)
  }

  predicate SameFiles(r: RoomValue, r': RoomValue) {
    && r'.peers.Keys == r.peers.Keys
    && (forall p :: p in r.peers ==> r'.peers[p].files == r.peers[p].files)
    && r'.index == r.index && r'.fileIdCounter == r.fileIdCounter
  }

  lemma SameFilesKeep(r: RoomValue, r': RoomValue)
    requires IndexOk(r) && SameFiles(r, r')
    ensures IndexOk(r')
  {
    forall p, f ensures Hosts(r'.peers, p, f) <==> Hosts(r.peers, p, f) {
    }
  }

  lemma PostKeepsIndex(r: RoomValue, e: Entry)
    requires IndexOk(r)
    ensures IndexOk(Post(r, e))
  {
    SameFilesKeep(r, Post(r, e));
  }

  lemma AddKeepsIndex(r: RoomValue, id: int, p: PeerValue)
    requires IndexOk(r) && id !in r.peers && p.files == []
    ensures IndexOk(Add(r, id, p))
  {
    forall q, f ensures Hosts(Add(r, id, p).peers, q, f) <==> Hosts(r.peers, q, f) {
    }
  }

  /** A shared file goes under an id that was free, to the host that shares it and to nobody else. */
  lemma ShareKeepsIndex(r: RoomValue, host: int)
    requires IndexOk(r) && host in r.peers
    ensures IndexOk(Share(r, host))
    ensures r.fileIdCounter !in r.index && Share(r, host).index == r.index[r.fileIdCounter := host]
  {
    var r' := Share(r, host);
    assert forall p :: !Hosts(r.peers, p, r.fileIdCounter);
    forall p, f ensures Hosts(r'.peers, p, f) <==> Hosts(r.peers, p, f) || (p == host && f == r.fileIdCounter) {
    }
    assert Hosts(r.peers, host, r.fileIdCounter) <==> r.fileIdCounter in r.peers[host].files;
  }

  lemma {:induction false} ShareAllKeepsIndex(r: RoomValue, host: int, files: seq<Option<RawFile>>)
    requires IndexOk(r) && host in r.peers && Shareable(Some(files))
    ensures IndexOk(ShareAll(r, host, files).0)
    decreases |files|
  {
    if files == [] {
    } else {
      ShareKeepsIndex(r, host);
      ShareAllKeepsIndex(Share(r, host), host, files[1..]);
    }
  }

  /** A removal takes exactly the peer's own files out of the index. */
  lemma RemoveKeepsIndex(r: RoomValue, id: int)
    requires IndexOk(r)
    ensures IndexOk(RemovePeer(r, id))
    ensures forall f :: f in RemovePeer(r, id).index <==> f in r.index && r.index[f] != id
  {
    var r' := RemovePeer(r, id);
    forall p, f ensures Hosts(r'.peers, p, f) <==> Hosts(r.peers, p, f) && p != id {
    }
    forall f ensures f in r'.index <==> f in r.index && r.index[f] != id {
      assert f in r.index ==> Hosts(r.peers, r.index[f], f);
      assert Hosts(r.peers, id, f) ==> f in r.index && r.index[f] == id;
    }
  }

  lemma HandleKeepsIndex(r: RoomValue, id: int, raw: RawMessage, now: int)
    requires IndexOk(r) && id in r.peers && Acceptable(raw)
    ensures IndexOk(Handle(r, id, raw, now))
  {
    var r' := Handle(r, id, raw, now);
    if raw.code == Some(CODE_FILE_SHARE) {
      var (shared, list) := ShareAll(r, id, raw.files.value);
      ShareAllKeepsIndex(r, id, raw.files.value);
      PostKeepsIndex(shared, Files(id, r.peers[id].name, now, list));
    } else {
      SameFilesKeep(r, r');
    }
  }

  ghost predicate Ready(s: System) {
    IndexOk(s.room) && forall p :: p in s.room.peers ==> p < s.nextId
  }

  lemma ConnectKeepsIndex(s: System, id: int, name: string, order: seq<PeerEntry>)
    requires Ready(s) && s.nextId <= id
    ensures IndexOk(Join(s.room, id, name, order))
  {
    var posted := Post(s.room, Joined(id, name));
    PostKeepsIndex(s.room, Joined(id, name));
    AddKeepsIndex(posted, id, NewPeer(name));
    SameFilesKeep(Add(posted, id, NewPeer(name)), Join(s.room, id, name, order));
  }

  lemma StepKeepsMembersOld(s: System, e: Event)
    requires forall p :: p in s.room.peers ==> p < s.nextId
    ensures forall p :: p in Step(s, e).room.peers ==> p < Step(s, e).nextId
  {
    if e.Incoming? && Enabled(s, e) && e.raw.code == Some(CODE_FILE_SHARE) {
      ShareAllFacts(s.room, e.id, e.raw.files.value);
    }
  }

  lemma StepKeepsIndex(s: System, e: Event)
    requires Ready(s)
    ensures Ready(Step(s, e))
  {
    StepKeepsMembersOld(s, e);
    if Enabled(s, e) {
      match e
      case Connect(id, name, order) => ConnectKeepsIndex(s, id, name, order);
      case Disconnect(id) =>
        RemoveKeepsIndex(s.room, id);
        PostKeepsIndex(RemovePeer(s.room, id), Left(id));
      case Incoming(id, raw, now) => HandleKeepsIndex(s.room, id, raw, now);
      case _ => SameFilesKeep(s.room, Step(s, e).room);
    }
  }

  lemma {:induction false} RunKeepsIndex(s: System, events: seq<Event>)
    requires Ready(s)
    ensures Ready(Run(s, events))
    decreases |events|
  {
    if events == [] {
    } else {
      StepKeepsIndex(s, events[0]);
      RunKeepsIndex(Step(s, events[0]), events[1..]);
    }
  }

  /**
   In every run of a room its index is exactly the disjoint union of the members' own file lists: each file
   under the one member that shared it, no file twice, and no id at or above the counter.
   */
  lemma RoomIndexIsUnion(limit: nat, events: seq<Event>)
    ensures IndexOk(Run(Empty(limit), events).room)
  {
    RunKeepsIndex(Empty(limit), events);
  }
}

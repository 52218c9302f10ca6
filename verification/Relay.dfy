/**
 The relay of the streaming results runs in a room: its shares, departures and deliveries are the operations of
 `RoomSpec` that the server's methods are proved against.
 */
module Relay {
  import opened Basics
  import opened Messages
  import opened Chunks
  import opened RoomSpec
  import opened Forwarding
  import RoomIndex
  import S = Streaming

  /** Members, counter and index are the same; the lists of the peers are what the index says. */
  ghost predicate SameRoom(s: S.System, r: RoomValue) {
    && r.peers.Keys == s.members
    && r.fileIdCounter == s.fileIdCounter
    && (forall f, p :: f in s.index && f in s.shared && s.shared[f].host == p <==> RoomIndex.Hosts(r.peers, p, f))
    && RoomIndex.IndexOk(r)
  }

  /** What a step of the relay is for the room. */
  function Mirror(s: S.System, r: RoomValue, honest: set<int>, e: S.Event): RoomValue {
    if !S.Enabled(s, honest, e) then r
    else match e
      case Join(p) => if p in r.peers then r else Add(r, p, NewPeer(""))
      case Share(p, _, _) => if p in r.peers then RoomSpec.Share(r, p) else r
      case Leave(p) => RemovePeer(r, p)
      case _ => r
  }

  function MirrorAll(s: S.System, r: RoomValue, honest: set<int>, events: seq<S.Event>): RoomValue
    decreases |events|
  {
    if events == [] then r
    else MirrorAll(S.Step(s, honest, events[0]), Mirror(s, r, honest, events[0]), honest, events[1..])
  }

  lemma IndexIsSame(s: S.System, r: RoomValue)
    requires SameRoom(s, r) && s.index <= s.shared.Keys
    ensures forall f :: f in s.index <==> f in r.index
    ensures forall f :: f in r.index ==> r.index[f] == s.shared[f].host
  {
    forall f | f in s.index ensures f in r.index && r.index[f] == s.shared[f].host {
      assert RoomIndex.Hosts(r.peers, s.shared[f].host, f);
    }
    forall f | f in r.index ensures f in s.index {
      assert RoomIndex.Hosts(r.peers, r.index[f], f);
    }
  }

  lemma JoinMirrors(s: S.System, r: RoomValue, p: int)
    requires SameRoom(s, r) && p !in r.peers
    ensures SameRoom(s.(members := s.members + {p}), Add(r, p, NewPeer("")))
  {
    var r' := Add(r, p, NewPeer(""));
    RoomIndex.AddKeepsIndex(r, p, NewPeer(""));
    forall q, f ensures RoomIndex.Hosts(r'.peers, q, f) <==> RoomIndex.Hosts(r.peers, q, f) {
    }
  }

  lemma ShareMirrors(s: S.System, r: RoomValue, p: int, id: int, size: int)
    requires SameRoom(s, r) && p in r.peers && forall f :: f in s.shared ==> f < s.fileIdCounter
    ensures SameRoom(S.DoShare(s, p, id, size), RoomSpec.Share(r, p))
  {
    var r' := RoomSpec.Share(r, p);
    RoomIndex.ShareKeepsIndex(r, p);
    forall q, f ensures RoomIndex.Hosts(r'.peers, q, f) <==>
      RoomIndex.Hosts(r.peers, q, f) || (q == p && f == r.fileIdCounter)
    {
    }
  }

  lemma LeaveMirrors(s: S.System, r: RoomValue, p: int)
    requires SameRoom(s, r)
    ensures SameRoom(S.DoLeave(s, p), RemovePeer(r, p))
  {
    var r' := RemovePeer(r, p);
    RoomIndex.RemoveKeepsIndex(r, p);
    forall q, f ensures RoomIndex.Hosts(r'.peers, q, f) <==> RoomIndex.Hosts(r.peers, q, f) && q != p {
    }
  }

  lemma StepMirrors(s: S.System, r: RoomValue, honest: set<int>, e: S.Event)
    requires SameRoom(s, r) && S.Inv(s, honest)
    ensures SameRoom(S.Step(s, honest, e), Mirror(s, r, honest, e))
  {
    if S.Enabled(s, honest, e) {
      match e
      case Join(p) =>
        if p in r.peers {
          assert s.members + {p} == s.members;
        } else {
          JoinMirrors(s, r, p);
        }
      case Share(p, id, size) => ShareMirrors(s, r, p, id, size);
      case Leave(p) => LeaveMirrors(s, r, p);
      case _ =>
    }
  }

  lemma {:induction false} RunMirrors(s: S.System, r: RoomValue, honest: set<int>, events: seq<S.Event>)
    requires SameRoom(s, r) && S.Inv(s, honest)
    ensures SameRoom(S.Run(s, honest, events), MirrorAll(s, r, honest, events))
    decreases |events|
  {
    if events == [] {
    } else {
      StepMirrors(s, r, honest, events[0]);
      S.StepKeepsInv(s, honest, events[0]);
      RunMirrors(S.Step(s, honest, events[0]), Mirror(s, r, honest, events[0]), honest, events[1..]);
    }
  }

  /** In every run of the relay the room around it is the one its own operations lead to. */
  lemma RelayRunsInARoom(limit: nat, honest: set<int>, events: seq<S.Event>)
    ensures SameRoom(S.Run(S.EMPTY, honest, events), MirrorAll(S.EMPTY, NewRoom(limit), honest, events))
  {
    RunMirrors(S.EMPTY, NewRoom(limit), honest, events);
  }

  /** The file list of the client message that brings a reply. */
  function ChunkFiles(p: S.Packet): Option<seq<Option<RawFile>>>
    requires p.Reply?
  {
    Some([Some(RawFile(None, Some(p.key.file), None, None, Some(p.key.sub), Some(p.data)))])
  }

  /**
   A delivery of the relay is a chunk message: it is judged alike, it collides alike, and every registered
   subscriber is left as the server's handler leaves it.
   */
  lemma DeliveryIsHandled(s: S.System, r: RoomValue, honest: set<int>, i: nat)
    requires SameRoom(s, r) && S.Inv(s, honest) && i in s.net && s.net[i].Reply?
    ensures
      var p := s.net[i];
      var v := CheckChunk(r.index, p.from, ChunkFiles(p));
      && (S.ChunkCheck(s, p) == S.NoSuchFile <==> v == Ignored)
      && (S.ChunkCheck(s, p) == S.WrongHost <==> v == Refused("Wrong file host."))
      && (S.ChunkCheck(s, p) == S.Collision <==>
          v.Forward? && p.key in s.registered && Collides(s.streams[p.key].sub))
      && (forall k :: k in s.registered ==>
          k in s.streams && S.DoDeliver(s, i).streams[k].sub == After(v, k.file, k.sub, s.streams[k].sub))
      && (forall k :: k in s.streams && k !in s.registered ==> S.DoDeliver(s, i).streams[k] == s.streams[k])
  {
    IndexIsSame(s, r);
  }

  /**
   A departure of the relay is a removal: exactly the subscribers registered with the peer's own files are
   revoked and no longer registered.
   */
  lemma DepartureIsRemoval(s: S.System, r: RoomValue, honest: set<int>, p: int)
    requires SameRoom(s, r) && S.Inv(s, honest) && p in r.peers
    ensures
      var s' := S.DoLeave(s, p);
      && s'.streams.Keys == s.streams.Keys
      && (forall k | k in s'.streams ::
          s'.streams[k].sub ==
          if k in s.registered && k.file in r.peers[p].files then Chunks.Invalidate(s.streams[k].sub)
          else s.streams[k].sub)
      && (forall k :: k in s'.registered <==> k in s.registered && k.file !in r.peers[p].files)
  {
    IndexIsSame(s, r);
    forall k | k in s.registered
      ensures k.file in s.shared && (s.shared[k.file].host == p <==> k.file in r.peers[p].files)
    {
      assert k in s.streams && k.file in s.index;
      assert RoomIndex.Hosts(r.peers, p, k.file) <==> k.file in r.peers[p].files;
    }
  }
}

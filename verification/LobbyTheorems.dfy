/** Every room of the lobby runs as a room by itself, so what holds in every run of a room holds in the lobby. */
module LobbyTheorems {
  import opened Messages
  import opened Participants
  import opened ClientSpec
  import opened RoomSpec
  import opened Membership
  import opened ViewTheorems
  import L = LobbySpec

  /** No browser handles anything in such a run; what is sent to each waits in its outbox. */
  predicate Undelivered(events: seq<Event>) {
    forall e :: e in events ==> !e.Deliver? && !e.FadeOut?
  }

  ghost predicate Reaches(limit: nat, events: seq<Event>, r: RoomValue, next: int) {
    Undelivered(events) && Run(Empty(limit), events).room == r && Run(Empty(limit), events).nextId <= next
  }

  /** The room's state is that of some run of the single-room system, with no id from `next` on in use. */
  ghost predicate RunsAlone(r: RoomValue, limit: nat, next: int) {
    exists events :: Reaches(limit, events, r, next)
  }

  lemma OneMore(r: RoomValue, limit: nat, next: int, e: Event, r': RoomValue, next': int)
    requires RunsAlone(r, limit, next) && next <= next'
    requires !e.Deliver? && !e.FadeOut?
    requires forall s: System :: s.room == r && s.nextId <= next ==>
      Step(s, e).room == r' && Step(s, e).nextId <= next'
    ensures RunsAlone(r', limit, next')
  {
    var events :| Reaches(limit, events, r, next);
    RunAppend(Empty(limit), events, e);
    assert Reaches(limit, events + [e], r', next');
  }

  lemma LaterIsFine(r: RoomValue, limit: nat, next: int, next': int)
    requires RunsAlone(r, limit, next) && next <= next'
    ensures RunsAlone(r, limit, next')
  {
    var events :| Reaches(limit, events, r, next);
    assert Reaches(limit, events, r, next');
  }

  lemma NewRoomRuns(limit: nat, next: int)
    requires 1 <= next
    ensures RunsAlone(NewRoom(limit), limit, next)
  {
    assert Reaches(limit, [], NewRoom(limit), next);
  }

  ghost predicate AllRunAlone<N>(l: L.LobbyValue<N>) {
    1 <= l.nextId && forall at :: 0 <= at < |l.objects| ==> RunsAlone(l.objects[at].room, l.limit, l.nextId)
  }

  lemma ArriveKeepsRooms<N>(l: L.LobbyValue<N>, n: N, nickname: string, order: seq<PeerEntry>)
    requires AllRunAlone(l) && L.Enabled(l, L.Connect(n, nickname, order))
    ensures AllRunAlone(L.Arrive(l, n, nickname, order))
  {
    var l' := L.Arrive(l, n, nickname, order);
    var touched := if L.HasRoom(l, n) then l.rooms[n] else |l.objects|;
    forall at | 0 <= at < |l'.objects| ensures RunsAlone(l'.objects[at].room, l.limit, l'.nextId) {
      if at == touched {
        NewRoomRuns(l.limit, l.nextId);
        OneMore(L.RoomOrNew(l, n), l.limit, l.nextId, Connect(l.nextId, nickname, order), l'.objects[at].room,
                l'.nextId);
      } else {
        LaterIsFine(l.objects[at].room, l.limit, l.nextId, l'.nextId);
      }
    }
  }

  lemma InsideKeepsRooms<N>(l: L.LobbyValue<N>, id: int, e: Event, r: RoomValue)
    requires AllRunAlone(l) && L.Seated(l, id) && !e.Deliver? && !e.FadeOut?
    requires forall s: System :: s.room == l.objects[l.seats[id]].room ==>
      Step(s, e).room == r && Step(s, e).nextId == s.nextId
    ensures AllRunAlone(L.WithRoom(l, l.seats[id], r))
  {
    OneMore(l.objects[l.seats[id]].room, l.limit, l.nextId, e, r, l.nextId);
  }

  lemma PingKeepsRooms<N>(l: L.LobbyValue<N>)
    requires AllRunAlone(l)
    ensures AllRunAlone(L.PingRooms(l))
  {
    var l' := L.PingRooms(l);
    forall at | 0 <= at < |l'.objects| ensures RunsAlone(l'.objects[at].room, l.limit, l'.nextId) {
      OneMore(l.objects[at].room, l.limit, l.nextId, PingRound, PingAll(l.objects[at].room), l.nextId);
    }
  }

  lemma StepKeepsRooms<N>(l: L.LobbyValue<N>, e: L.Event<N>)
    requires AllRunAlone(l)
    ensures AllRunAlone(L.Step(l, e)) && L.Step(l, e).limit == l.limit
  {
    if L.Enabled(l, e) {
      match e
      case Connect(n, nickname, order) => ArriveKeepsRooms(l, n, nickname, order);
      case Disconnect(id) =>
        InsideKeepsRooms(l, id, Disconnect(id), Leave(l.objects[l.seats[id]].room, id));
      case Incoming(id, raw, now) =>
        InsideKeepsRooms(l, id, Incoming(id, raw, now), Handle(l.objects[l.seats[id]].room, id, raw, now));
      case PingRound => PingKeepsRooms(l);
      case Pong(id) =>
        var r := l.objects[l.seats[id]].room;
        InsideKeepsRooms(l, id, Pong(id), r.(peers := r.peers[id := Ponged(r.peers[id])]));
    }
  }

  lemma {:induction false} RunKeepsRooms<N>(l: L.LobbyValue<N>, events: seq<L.Event<N>>)
    requires AllRunAlone(l)
    ensures AllRunAlone(L.Run(l, events)) && L.Run(l, events).limit == l.limit
    decreases |events|
  {
    if events == [] {
    } else {
      StepKeepsRooms(l, events[0]);
      RunKeepsRooms(L.Step(l, events[0]), events[1..]);
    }
  }

  /**
   In every run of the lobby, every room object is in a state that a run of one room by itself reaches from
   empty: rooms do not disturb each other, and a room deleted and created again under its name starts over.
   */
  lemma RoomsRunAlone<N>(limit: nat, events: seq<L.Event<N>>, at: nat)
    requires at < |L.Run(L.NewLobby(limit), events).objects|
    ensures exists own :: Run(Empty(limit), own).room == L.Run(L.NewLobby(limit), events).objects[at].room
  {
    RunKeepsRooms(L.NewLobby(limit), events);
    var l := L.Run(L.NewLobby(limit), events);
    var own :| Reaches(limit, own, l.objects[at].room, l.nextId);
  }

  lemma {:induction false} NobodyStarts(s: System, events: seq<Event>)
    requires Undelivered(events) && forall id :: id in s.sessions ==> s.sessions[id] == Session(BLANK, 0)
    ensures forall id :: id in Run(s, events).sessions ==> Run(s, events).sessions[id] == Session(BLANK, 0)
    decreases |events|
  {
    if events == [] {
    } else {
      assert events[0] in events && forall e :: e in events[1..] ==> e in events;
      NobodyStarts(Step(s, events[0]), events[1..]);
    }
  }

  /**
   In every run of the lobby, for every room object and every connected peer in it: a browser that handles all
   the peer was ever sent has exactly the members of its room in its map and in its panel, and never throws.
   */
  lemma LobbyViewsConverge<N>(limit: nat, events: seq<L.Event<N>>, at: nat, id: int)
    requires at < |L.Run(L.NewLobby(limit), events).objects|
    requires id in L.Run(L.NewLobby(limit), events).objects[at].room.peers
    requires L.Run(L.NewLobby(limit), events).objects[at].room.peers[id].live
    ensures
      var r := L.Run(L.NewLobby(limit), events).objects[at].room;
      var c := OnMessages(BLANK, r.peers[id].outbox);
      Shown(c) && c.rendered && c.self == id && ToMap(c.view) == Names(r.peers)
  {
    RunKeepsRooms(L.NewLobby(limit), events);
    var l := L.Run(L.NewLobby(limit), events);
    var own :| Reaches(limit, own, l.objects[at].room, l.nextId);
    var s := Run(Empty(limit), own);
    NobodyStarts(Empty(limit), own);
    RunKeepsSessions(Empty(limit), own);
    Drained(s.room.peers[id], s.sessions[id], id, Names(s.room.peers), s.nextId);
    assert s.room.peers[id].outbox[0..] == s.room.peers[id].outbox;
  }
}

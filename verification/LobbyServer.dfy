/**
 The lobby object over the room and peer objects. Each callback touches one room, so its contract speaks of that
 room's object and the table; its `modifies` clause says that every other object stays as it was.
 */
module LobbyServer {
  import opened Messages
  import opened Participants
  import opened RoomSpec
  import opened Server

  /** The rooms when all but those of the given names have had their turn of a ping round. */
  function PingedBut<N>(rooms: map<N, RoomValue>, names: set<N>): map<N, RoomValue> {
    map n | n in rooms :: if n in names then rooms[n] else PingAll(rooms[n])
  }

  lemma NobodyYet<N>(rooms: map<N, RoomValue>)
    ensures PingedBut(rooms, rooms.Keys) == rooms
  {
  }

  lemma OneTurn<N>(rooms: map<N, RoomValue>, names: set<N>, n: N)
    requires n in rooms && n in names
    ensures n in PingedBut(rooms, names)
    ensures PingedBut(rooms, names)[n := PingAll(PingedBut(rooms, names)[n])] == PingedBut(rooms, names - {n})
  {
  }

  class Lobby {
    const limit: nat
    var peerIdCounter: int
    var rooms: map<string, Room>
    var connected: nat
    var disconnected: nat

    constructor (limit: nat)
      ensures this.limit == limit && peerIdCounter == 1 && rooms == map[] && connected == 0 && disconnected == 0
      ensures Tidy()
    {
      this.limit := limit;
      peerIdCounter := 1;
      rooms := map[];
      connected := 0;
      disconnected := 0;
    }

    ghost function Rooms(): set<Room>
      reads this`rooms
    {
      set n | n in rooms :: rooms[n]
    }

    ghost function Everybody(): set<Peer>
      reads this`rooms, Rooms()`peerById
    {
      set n, p | n in rooms && p in rooms[n].Members() :: p
    }

    /** The room goes by this name, and every member points to it and has an id the lobby gave out. */
    static ghost predicate InOrder(room: Room, name: string, next: int)
      reads room`peerById, room`fileById
    {
      room.Keyed() && room.name == name &&
      forall id :: id in room.peerById ==> id < next && room.peerById[id].room == room
    }

    /**
     Between callbacks: no room in the table is empty, and every member's room object is the one its name leads
     to. So different names lead to rooms with different peers.
     */
    ghost predicate Tidy()
      reads this`rooms, this`peerIdCounter, Rooms()`peerById, Rooms()`fileById
    {
      forall n :: n in rooms ==> InOrder(rooms[n], n, peerIdCounter) && rooms[n].peerById != map[]
    }

    method ObtainNewPeerId() returns (id: int)
      modifies this`peerIdCounter
      ensures id == old(peerIdCounter) && peerIdCounter == id + 1
    {
      id := peerIdCounter;
      peerIdCounter := peerIdCounter + 1;
    }

    method GetOrCreateRoom(roomName: string) returns (room: Room)
      requires roomName in rooms ==> rooms[roomName].Valid()
      modifies this`rooms
      ensures rooms == old(rooms)[roomName := room]
      ensures if roomName in old(rooms) then room == old(rooms)[roomName] && room.peerById == old(room.peerById)
              else fresh(room) && room.name == roomName && room.peerById == map[]
      ensures room.Valid() && room.View() == old(RoomView(roomName))
    {
      if roomName !in rooms {
        room := new Room(roomName, limit);
        rooms := rooms[roomName := room];
      } else {
        room := rooms[roomName];
      }
    }

    method DeleteRoom(roomName: string)
      modifies this`rooms
      ensures rooms == old(rooms) - {roomName}
    {
      rooms := rooms - {roomName};
    }

    /** The room object that goes by this name, if any. */
    ghost function RoomOf(roomName: string): set<Room>
      reads this`rooms
    {
      if roomName in rooms then {rooms[roomName]} else {}
    }

    ghost function MembersOf(roomName: string): set<Peer>
      reads this`rooms, RoomOf(roomName)`peerById
    {
      if roomName in rooms then rooms[roomName].Members() else {}
    }

    ghost function RoomView(roomName: string): RoomValue
      reads this`rooms
      reads RoomOf(roomName)`peerById, RoomOf(roomName)`fileById
      reads RoomOf(roomName)`fileIdCounter, RoomOf(roomName)`history
      reads MembersOf(roomName)`socket, MembersOf(roomName)`outbox, MembersOf(roomName)`pings, MembersOf(roomName)`files
    {
      if roomName in rooms then rooms[roomName].View() else NewRoom(limit)
    }

    static method Admit(room: Room, nickname: string, id: int, ghost others: set<Room>)
      returns (peer: Peer, ghost order: seq<PeerEntry>)
      requires room.Valid() && id !in room.peerById && room !in others
      modifies room`history, room`peerById, room.Members()`outbox
      ensures fresh(peer) && peer.id == id && peer.nickname == nickname && peer.room == room
      ensures room.Valid() && room.peerById == old(room.peerById)[id := peer]
      ensures UniqueIds(order) && ToMap(order) == Names(old(room.View()).peers)[id := nickname]
      ensures room.View() == Join(old(room.View()), id, nickname, order)
      ensures Untouched(others)
    {
      peer := new Peer(room, nickname, id);
      assert room.View() == old(room.View());
      order := room.Receive(peer);
    }

    /** The whole callback, as far as the room that is entered goes: the one the name leads to, or a new one. */
    method Enter(roomName: string, nickname: string) returns (peer: Peer, ghost order: seq<PeerEntry>)
      requires roomName in rooms ==> rooms[roomName].Valid() && peerIdCounter !in rooms[roomName].peerById
      modifies this`rooms, this`peerIdCounter, this`connected
      modifies RoomOf(roomName)`history, RoomOf(roomName)`peerById, MembersOf(roomName)`outbox
      ensures fresh(peer) && peer.id == old(peerIdCounter) && peer.nickname == nickname
      ensures if roomName in old(rooms) then peer.room == old(rooms)[roomName]
              else fresh(peer.room) && peer.room.name == roomName
      ensures rooms == old(rooms)[roomName := peer.room] && peerIdCounter == old(peerIdCounter) + 1
      ensures connected == old(connected) + 1
      ensures Untouched(old(Rooms()) - {peer.room})
      ensures peer.room.Valid() && peer.room.peerById ==
        (if roomName in old(rooms) then old(rooms[roomName].peerById) else map[])[peer.id := peer]
      ensures UniqueIds(order) && ToMap(order) == Names(old(RoomView(roomName)).peers)[peer.id := nickname]
      ensures peer.room.View() == Join(old(RoomView(roomName)), peer.id, nickname, order)
    {
      ghost var others := Rooms() - RoomOf(roomName);
      var room, id := Prepare(roomName, others);
      peer, order := Admit(room, nickname, id, others);
    }

    /** The arrival is counted, and a room object and an id are at hand; nothing has happened in the room yet. */
    method Prepare(roomName: string, ghost others: set<Room>) returns (room: Room, id: int)
      requires roomName in rooms ==> rooms[roomName].Valid()
      modifies this`rooms, this`peerIdCounter, this`connected
      ensures connected == old(connected) + 1 && id == old(peerIdCounter) && peerIdCounter == id + 1
      ensures rooms == old(rooms)[roomName := room]
      ensures if roomName in old(rooms) then room == old(rooms)[roomName] && room.peerById == old(room.peerById)
              else fresh(room) && room.name == roomName && room.peerById == map[]
      ensures room.Valid() && room.View() == old(RoomView(roomName)) && Untouched(others)
    {
      id := CountArrival(roomName);
      room := GetOrCreateRoom(roomName);
    }

    /** Counter and id, which no room feels. */
    method CountArrival(ghost roomName: string) returns (id: int)
      requires roomName in rooms ==> rooms[roomName].Valid()
      modifies this`peerIdCounter, this`connected
      ensures connected == old(connected) + 1 && id == old(peerIdCounter) && peerIdCounter == id + 1
      ensures (roomName in rooms ==> rooms[roomName].Valid()) && RoomView(roomName) == old(RoomView(roomName))
    {
      connected := connected + 1;
      id := ObtainNewPeerId();
      if roomName in rooms {
        rooms[roomName].LinksStay();
      }
    }

    /** These rooms' tables are as they were. */
    static twostate predicate Untouched(others: set<Room>)
      reads others
    {
      forall r :: r in others ==> r.peerById == old(r.peerById) && r.fileById == old(r.fileById)
    }

    /** The one room is in order or gone, and no other room's tables changed. */
    twostate lemma StaysTidy(new touched: Room)
      requires old(Tidy()) && old(peerIdCounter) <= peerIdCounter
      requires InOrder(touched, touched.name, peerIdCounter)
      requires touched.name in rooms ==> rooms[touched.name] == touched && touched.peerById != map[]
      requires forall n :: n in rooms && n != touched.name ==> n in old(rooms) && rooms[n] == old(rooms)[n]
      requires Untouched(old(Rooms()) - {touched})
      ensures Tidy()
    {
      forall n | n in rooms ensures InOrder(rooms[n], n, peerIdCounter) && rooms[n].peerById != map[] {
        if n != touched.name {
          assert old(InOrder(rooms[n], n, peerIdCounter));
          assert rooms[n] in old(Rooms()) && rooms[n] != touched;
        }
      }
    }

    twostate lemma NewcomerInOrder(roomName: string, new peer: Peer)
      requires old(Tidy()) && peer.id == old(peerIdCounter) && old(peerIdCounter) < peerIdCounter
      requires if roomName in old(rooms) then peer.room == old(rooms)[roomName] else peer.room.name == roomName
      requires peer.room.Keyed() && peer.room.peerById ==
        (if roomName in old(rooms) then old(rooms[roomName].peerById) else map[])[peer.id := peer]
      ensures InOrder(peer.room, roomName, peerIdCounter) && peer.room.peerById != map[]
    {
      if roomName in old(rooms) {
        assert old(InOrder(rooms[roomName], roomName, peerIdCounter));
      }
      assert peer.id in peer.room.peerById;
    }

    /** The new peer has entered the room object its room name leads to, by welcome, add and onboard. */
    method OnAfterCreate(roomName: string, nickname: string) returns (peer: Peer, ghost order: seq<PeerEntry>)
      requires Tidy() && (roomName in rooms ==> rooms[roomName].Valid())
      modifies this`rooms, this`peerIdCounter, this`connected
      modifies RoomOf(roomName)`history, RoomOf(roomName)`peerById, MembersOf(roomName)`outbox
      ensures Tidy() && peer.room.Valid()
      ensures connected == old(connected) + 1 && peerIdCounter == old(peerIdCounter) + 1
      ensures fresh(peer) && peer.id == old(peerIdCounter) && peer.nickname == nickname
      ensures if roomName in old(rooms) then peer.room == old(rooms)[roomName]
              else fresh(peer.room) && peer.room.name == roomName
      ensures rooms == old(rooms)[roomName := peer.room]
      ensures peer.room.peerById ==
        (if roomName in old(rooms) then old(rooms[roomName].peerById) else map[])[peer.id := peer]
      ensures UniqueIds(order) && ToMap(order) == Names(old(RoomView(roomName)).peers)[peer.id := nickname]
      ensures peer.room.View() == Join(old(RoomView(roomName)), peer.id, nickname, order)
    {
      peer, order := Enter(roomName, nickname);
      NewcomerInOrder(roomName, peer);
      StaysTidy(peer.room);
    }

    /** What the leaving peer's own room does, and the end of its socket, which nobody in the room feels. */
    static method Expel(room: Room, peer: Peer, ghost others: set<Room>)
      requires room !in others
      requires room.Valid() && peer.id in room.peerById && room.peerById[peer.id] == peer
      modifies room`history, room`fileById, room`peerById, room.Members()`outbox, peer`socket
      modifies Room.SetOf(peer.files)`subscribers
      modifies Room.SubscribersOf(peer.files)`valid, Room.SubscribersOf(peer.files)`pc
      ensures room.Valid() && room.peerById == old(room.peerById) - {peer.id}
      ensures room.View() == Leave(old(room.View()), peer.id)
      ensures !peer.socket && Room.Revoked(old(Room.SubscribersOf(peer.files)))
      ensures Untouched(others)
    {
      room.Dismiss(peer);
      HangUp(room, peer);
    }

    static method HangUp(room: Room, peer: Peer)
      requires room.Valid() && peer.id !in room.peerById
      modifies peer`socket
      ensures room.Valid() && room.View() == old(room.View()) && !peer.socket
    {
      assert peer !in room.Members();
      peer.InvalidateSocket();
      room.LinksStay();
    }

    /** The departure is counted, and a room that is empty now goes; no room feels either. */
    method CloseUp(room: Room, ghost others: set<Room>, ghost revoked: set<Subscriber>)
      requires room.Valid()
      modifies this`rooms, this`disconnected
      ensures room.Valid() && room.View() == old(room.View())
      ensures forall s :: s in revoked ==> s.Seen() == old(s.Seen())
      ensures rooms == if room.peerById == map[] then old(rooms) - {room.name} else old(rooms)
      ensures disconnected == old(disconnected) + 1 && Untouched(others)
    {
      disconnected := disconnected + 1;
      assert |room.peerById| == 0 <==> room.peerById == map[];
      if room.IsEmpty() {
        DeleteRoom(room.name);
      }
      room.LinksStay();
    }

    /** The whole callback, as far as the room that is left goes: deleted under its own name once it is empty. */
    method Exit(room: Room, peer: Peer, ghost others: set<Room>)
      requires room !in others
      requires room.Valid() && peer.id in room.peerById && room.peerById[peer.id] == peer
      modifies this`rooms, this`disconnected
      modifies room`history, room`fileById, room`peerById, room.Members()`outbox, peer`socket
      modifies Room.SetOf(peer.files)`subscribers
      modifies Room.SubscribersOf(peer.files)`valid, Room.SubscribersOf(peer.files)`pc
      ensures room.Valid() && room.peerById == old(room.peerById) - {peer.id}
      ensures room.View() == Leave(old(room.View()), peer.id)
      ensures !peer.socket && Room.Revoked(old(Room.SubscribersOf(peer.files)))
      ensures rooms == if room.peerById == map[] then old(rooms) - {room.name} else old(rooms)
      ensures disconnected == old(disconnected) + 1 && Untouched(others)
    {
      Expel(room, peer, others);
      CloseUp(room, others, old(Room.SubscribersOf(peer.files)));
    }

    /** The room the peer points to has lost it, and is gone from the table exactly if nobody is left. */
    method OnBeforeDestroy(peer: Peer)
      requires Tidy() && peer.room.name in rooms && rooms[peer.room.name] == peer.room && peer.room.Valid()
      requires peer.id in peer.room.peerById && peer.room.peerById[peer.id] == peer
      modifies this`rooms, this`disconnected
      modifies peer.room`history, peer.room`fileById, peer.room`peerById, peer.room.Members()`outbox, peer`socket
      modifies Room.SetOf(peer.files)`subscribers
      modifies Room.SubscribersOf(peer.files)`valid, Room.SubscribersOf(peer.files)`pc
      ensures Tidy() && peer.room.Valid() && peer.room.peerById == old(peer.room.peerById) - {peer.id}
      ensures peer.room.View() == Leave(old(peer.room.View()), peer.id)
      ensures !peer.socket && Room.Revoked(old(Room.SubscribersOf(peer.files)))
      ensures rooms == if peer.room.peerById == map[] then old(rooms) - {peer.room.name} else old(rooms)
      ensures disconnected == old(disconnected) + 1
    {
      var room := peer.room;
      Exit(room, peer, Rooms() - {room});
      assert InOrder(room, room.name, peerIdCounter);
      StaysTidy(room);
    }

    ghost function Views(): map<string, RoomValue>
      reads this`rooms, Rooms()`peerById, Rooms()`fileById, Rooms()`fileIdCounter, Rooms()`history
      reads Everybody()`socket, Everybody()`outbox, Everybody()`pings, Everybody()`files
    {
      map n | n in rooms :: rooms[n].View()
    }

    /** The peers of the other rooms are other objects. */
    method PingOne(roomName: string)
      requires Tidy() && roomName in rooms
      modifies rooms[roomName].Members()`pings, rooms[roomName].Members()`outbox, rooms[roomName].Members()`socket
      ensures Views() == old(Views())[roomName := PingAll(old(Views())[roomName])]
    {
      ghost var now := Views();
      Apart(roomName);
      rooms[roomName].PingAllPeers();
      forall n | n in rooms && n != roomName ensures rooms[n].View() == now[n] {
        assert rooms[n].Members() !! rooms[roomName].Members();
      }
      ViewsAre(now[roomName := PingAll(now[roomName])]);
    }

    lemma Apart(roomName: string)
      requires Tidy() && roomName in rooms
      ensures forall n :: n in rooms && n != roomName ==> rooms[n].Members() !! rooms[roomName].Members()
    {
    }

    lemma ViewsAre(want: map<string, RoomValue>)
      requires want.Keys == rooms.Keys && forall n :: n in rooms ==> rooms[n].View() == want[n]
      ensures Views() == want
    {
      forall n | n in want ensures n in Views() && Views()[n] == want[n] {
        assert n in want.Keys;
      }
    }

    /** One room's turn of a round that `names` still wait for. */
    method Turn(roomName: string, ghost before: map<string, RoomValue>, ghost names: set<string>)
      requires Tidy() && roomName in rooms
      requires roomName in names && roomName in before && Views() == PingedBut(before, names)
      modifies rooms[roomName].Members()`pings, rooms[roomName].Members()`outbox, rooms[roomName].Members()`socket
      ensures Tidy() && Views() == PingedBut(before, names - {roomName})
    {
      OneTurn(before, names, roomName);
      PingOne(roomName);
    }

    /** One round of the ping loop. */
    method PingRooms()
      requires Tidy()
      modifies Everybody()`pings, Everybody()`outbox, Everybody()`socket
      ensures Tidy() && Views() == PingedBut(old(Views()), {})
      ensures forall n :: n in rooms ==> rooms[n].View() == PingAll(old(rooms[n].View()))
    {
      var names := rooms.Keys;
      ghost var before := Views();
      NobodyYet(before);
      while names != {}
        invariant names <= rooms.Keys && names <= before.Keys
        invariant Tidy() && Views() == PingedBut(before, names)
        decreases names
      {
        var n :| n in names;
        Turn(n, before, names);
        names := names - {n};
      }
    }
  }
}

/** The lobby: rooms by name, created with their first peer and deleted with their last. */
module LobbySpec {
  import opened Basics
  import opened Messages
  import opened Participants
  import opened RoomSpec
  import opened Effects
  import opened Sums
  import Seating

  datatype RoomObject<N> = RoomObject(name: N, room: RoomValue)

  /**
   `rooms` is `m_rooms`, a pointer being an index into `objects`, all the room objects ever made; `seats` gives
   the `m_room` of every connected peer; `connected` and `disconnected` are the counters
   EVENT_PEER_CONNECTED and EVENT_PEER_DISCONNECTED. Room names are only ever compared.
   */
  datatype LobbyValue<N> = LobbyValue(
    limit: nat, nextId: int, rooms: map<N, nat>, objects: seq<RoomObject<N>>, seats: map<int, nat>,
    connected: nat, disconnected: nat)

  function NewLobby<N>(limit: nat): LobbyValue<N> {
    LobbyValue(limit, 1, map[], [], map[], 0, 0)
  }

  predicate HasRoom<N>(l: LobbyValue<N>, n: N) {
    n in l.rooms && l.rooms[n] < |l.objects|
  }

  function RoomOrNew<N>(l: LobbyValue<N>, n: N): RoomValue {
    if HasRoom(l, n) then l.objects[l.rooms[n]].room else NewRoom(l.limit)
  }

  /** The lobby after the room object `at` changed to `r`. */
  function WithRoom<N>(l: LobbyValue<N>, at: nat, r: RoomValue): LobbyValue<N>
    requires at < |l.objects|
  {
    l.(objects := l.objects[at := l.objects[at].(room := r)])
  }

  /** `getOrCreateRoom` */
  function GetOrCreate<N>(l: LobbyValue<N>, n: N): (LobbyValue<N>, nat) {
    if HasRoom(l, n) then (l, l.rooms[n])
    else (l.(rooms := l.rooms[n := |l.objects|], objects := l.objects + [RoomObject(n, NewRoom(l.limit))]), |l.objects|)
  }

  /** `onAfterCreate_NonBlocking` */
  function Arrive<N>(l: LobbyValue<N>, n: N, nickname: string, order: seq<PeerEntry>): LobbyValue<N> {
    var (l', at) := GetOrCreate(l, n);
    WithRoom(l', at, Join(l'.objects[at].room, l.nextId, nickname, order)).(
      nextId := l.nextId + 1, connected := l.connected + 1, seats := l.seats[l.nextId := at])
  }

  predicate Seated<N>(l: LobbyValue<N>, id: int) {
    id in l.seats && l.seats[id] < |l.objects| && id in l.objects[l.seats[id]].room.peers
  }

  /** `onBeforeDestroy_NonBlocking`: by the peer's own room pointer, then by that room's name if it is empty. */
  function Depart<N>(l: LobbyValue<N>, id: int): LobbyValue<N>
    requires Seated(l, id)
  {
    var at := l.seats[id];
    var room := Leave(l.objects[at].room, id);
    WithRoom(l, at, room).(
      disconnected := l.disconnected + 1, seats := l.seats - {id},
      rooms := if room.peers == map[] then l.rooms - {l.objects[at].name} else l.rooms)
  }

  /** One round of the ping loop over the rooms in the table. */
  function PingRooms<N>(l: LobbyValue<N>): LobbyValue<N> {
    l.(objects := seq(|l.objects|, at requires 0 <= at < |l.objects| =>
         var o := l.objects[at];
         if o.name in l.rooms && l.rooms[o.name] == at then o.(room := PingAll(o.room)) else o))
  }

  datatype Event<N> =
    | Connect(n: N, nickname: string, order: seq<PeerEntry>)
    | Disconnect(id: int)
    | Incoming(id: int, raw: RawMessage, now: int)
    | PingRound
    | Pong(id: int)

  predicate Enabled<N>(l: LobbyValue<N>, e: Event<N>) {
    match e
    case Connect(n, nickname, order) =>
      UniqueIds(order) && ToMap(order) == Names(RoomOrNew(l, n).peers)[l.nextId := nickname]
    case Disconnect(id) => Seated(l, id)
    case Incoming(id, raw, _) =>
      Seated(l, id) && CanHandle(l.objects[l.seats[id]].room, id, raw)
    case PingRound => true
    case Pong(id) => Seated(l, id)
  }

  function Step<N>(l: LobbyValue<N>, e: Event<N>): LobbyValue<N> {
    if !Enabled(l, e) then l else
    match e
    case Connect(n, nickname, order) => Arrive(l, n, nickname, order)
    case Disconnect(id) => Depart(l, id)
    case Incoming(id, raw, now) =>
      WithRoom(l, l.seats[id], Handle(l.objects[l.seats[id]].room, id, raw, now))
    case PingRound => PingRooms(l)
    case Pong(id) =>
      var r := l.objects[l.seats[id]].room;
      WithRoom(l, l.seats[id], r.(peers := r.peers[id := Ponged(r.peers[id])]))
  }

  function Run<N>(l: LobbyValue<N>, events: seq<Event<N>>): LobbyValue<N>
    decreases |events|
  {
    if events == [] then l else Run(Step(l, events[0]), events[1..])
  }

  // ---- The seating behind the lobby ----

  function SpotOf<N>(o: RoomObject<N>): Seating.Spot<N> {
    Seating.Spot(o.name, o.room.peers.Keys)
  }

  function PlanOf<N>(l: LobbyValue<N>): Seating.Plan<N> {
    Seating.Plan(l.rooms, seq(|l.objects|, at requires 0 <= at < |l.objects| => SpotOf(l.objects[at])), l.seats)
  }

  ghost predicate Inv<N>(l: LobbyValue<N>) {
    && Seating.Inv(PlanOf(l))
    && (forall id :: id in l.seats ==> id < l.nextId)
    && l.connected == l.disconnected + |l.seats|
  }

  lemma HandleKeys(r: RoomValue, id: int, raw: RawMessage, now: int)
    requires id in r.peers && Acceptable(raw)
    ensures Handle(r, id, raw, now).peers.Keys == r.peers.Keys
  {
    if raw.code == Some(CODE_FILE_SHARE) {
      ShareAllFacts(r, id, raw.files.value);
    }
  }

  lemma JoinKeys(r: RoomValue, id: int, name: string, order: seq<PeerEntry>)
    ensures Join(r, id, name, order).peers.Keys == r.peers.Keys + {id}
  {
  }

  lemma LeaveKeys(r: RoomValue, id: int)
    requires id in r.peers
    ensures Leave(r, id).peers.Keys == r.peers.Keys - {id}
    ensures Leave(r, id).peers == map[] <==> r.peers.Keys - {id} == {}
  {
    var peers := Leave(r, id).peers;
    assert peers == map[] <==> peers.Keys == {};
  }

  lemma ArriveIsEnter<N>(l: LobbyValue<N>, n: N, nickname: string, order: seq<PeerEntry>)
    ensures PlanOf(Arrive(l, n, nickname, order)) == Seating.Enter(PlanOf(l), n, l.nextId)
  {
    JoinKeys(RoomOrNew(l, n), l.nextId, nickname, order);
    var p, p' := PlanOf(Arrive(l, n, nickname, order)), Seating.Enter(PlanOf(l), n, l.nextId);
    assert !HasRoom(l, n) ==> RoomOrNew(l, n).peers.Keys + {l.nextId} == {l.nextId};
    assert |p.spots| == |p'.spots|;
    forall at | 0 <= at < |p.spots| ensures p.spots[at] == p'.spots[at] {
    }
    assert p.spots == p'.spots;
  }

  lemma DepartIsExit<N>(l: LobbyValue<N>, id: int)
    requires Seated(l, id)
    ensures Seating.Seated(PlanOf(l), id)
    ensures PlanOf(Depart(l, id)) == Seating.Exit(PlanOf(l), id)
  {
    LeaveKeys(l.objects[l.seats[id]].room, id);
    var p, p' := PlanOf(Depart(l, id)), Seating.Exit(PlanOf(l), id);
    assert p.spots == p'.spots;
  }

  lemma ArriveKeepsInv<N>(l: LobbyValue<N>, n: N, nickname: string, order: seq<PeerEntry>)
    requires Inv(l)
    ensures Inv(Arrive(l, n, nickname, order))
    ensures
      var l' := Arrive(l, n, nickname, order);
      && l.nextId !in l.seats && l'.nextId == l.nextId + 1
      && (forall id :: id in l'.seats <==> id in l.seats || id == l.nextId)
  {
    ArriveIsEnter(l, n, nickname, order);
    Seating.EnterKeepsInv(PlanOf(l), n, l.nextId);
    Seating.OneMoreSeat(PlanOf(l), n, l.nextId);
  }

  lemma DepartKeepsInv<N>(l: LobbyValue<N>, id: int)
    requires Inv(l) && Seated(l, id)
    ensures Inv(Depart(l, id))
  {
    DepartIsExit(l, id);
    Seating.ExitKeepsInv(PlanOf(l), id);
    Seating.OneSeatLess(PlanOf(l), id);
  }

  /** A room object that changed, but not in who sits in it. */
  lemma InsideKeepsInv<N>(l: LobbyValue<N>, at: nat, r: RoomValue)
    requires Inv(l) && at < |l.objects| && r.peers.Keys == l.objects[at].room.peers.Keys
    ensures Inv(WithRoom(l, at, r))
  {
    assert PlanOf(WithRoom(l, at, r)).spots == PlanOf(l).spots;
  }

  lemma PingKeepsInv<N>(l: LobbyValue<N>)
    requires Inv(l)
    ensures Inv(PingRooms(l))
  {
    forall at | 0 <= at < |l.objects| ensures SpotOf(PingRooms(l).objects[at]) == SpotOf(l.objects[at]) {
      assert PingAll(l.objects[at].room).peers.Keys == l.objects[at].room.peers.Keys;
    }
    assert PlanOf(PingRooms(l)).spots == PlanOf(l).spots;
  }

  lemma StepKeepsInv<N>(l: LobbyValue<N>, e: Event<N>)
    requires Inv(l)
    ensures Inv(Step(l, e))
  {
    if Enabled(l, e) {
      match e
      case Connect(n, nickname, order) => ArriveKeepsInv(l, n, nickname, order);
      case Disconnect(id) => DepartKeepsInv(l, id);
      case Incoming(id, raw, now) =>
        HandleKeys(l.objects[l.seats[id]].room, id, raw, now);
        InsideKeepsInv(l, l.seats[id], Handle(l.objects[l.seats[id]].room, id, raw, now));
      case PingRound => PingKeepsInv(l);
      case Pong(id) =>
        var r := l.objects[l.seats[id]].room;
        InsideKeepsInv(l, l.seats[id], r.(peers := r.peers[id := Ponged(r.peers[id])]));
    }
  }

  lemma {:induction false} RunKeepsInv<N>(l: LobbyValue<N>, events: seq<Event<N>>)
    requires Inv(l)
    ensures Inv(Run(l, events))
    decreases |events|
  {
    if events == [] {
    } else {
      StepKeepsInv(l, events[0]);
      RunKeepsInv(Step(l, events[0]), events[1..]);
    }
  }

  /** The peers in the room a name leads to. */
  function Members<N>(l: LobbyValue<N>, n: N): set<int> {
    if HasRoom(l, n) then l.objects[l.rooms[n]].room.peers.Keys else {}
  }

  function HeadCounts<N>(l: LobbyValue<N>): map<N, nat> {
    map n | n in l.rooms :: |Members(l, n)|
  }

  predicate IsIn<N>(l: LobbyValue<N>, at: nat, id: int) {
    at < |l.objects| && id in l.objects[at].room.peers
  }

  /** The object a connected peer points to is the one that object's own name leads to. */
  predicate FindableByName<N>(l: LobbyValue<N>, id: int) {
    && id in l.seats && l.seats[id] < |l.objects|
    && HasRoom(l, l.objects[l.seats[id]].name) && l.rooms[l.objects[l.seats[id]].name] == l.seats[id]
  }

  lemma FoundByName<N>(l: LobbyValue<N>, id: int)
    requires Inv(l) && id in l.seats
    ensures IsIn(l, l.seats[id], id) && FindableByName(l, id)
  {
    assert Seating.Holds(PlanOf(l), l.seats[id], id);
  }

  lemma OnlyWhereItPoints<N>(l: LobbyValue<N>, at: nat, id: int)
    requires Inv(l) && IsIn(l, at, id)
    ensures id in l.seats && l.seats[id] == at && id < l.nextId
  {
    assert Seating.Holds(PlanOf(l), at, id);
  }

  lemma NamesLeadToPeers<N>(l: LobbyValue<N>, n: N)
    requires Inv(l) && n in l.rooms
    ensures HasRoom(l, n) && l.objects[l.rooms[n]].name == n && Members(l, n) != {}
  {
    assert Seating.Leads(PlanOf(l), n);
  }

  lemma CountsAreHeads<N>(l: LobbyValue<N>)
    requires Inv(l)
    ensures Sum(HeadCounts(l)) == |l.seats|
  {
    forall n | n in l.rooms ensures l.rooms[n] < |l.objects| {
      assert Seating.Leads(PlanOf(l), n);
    }
    assert HeadCounts(l) == Seating.Heads(PlanOf(l));
  }

  /**
   Between callbacks, in every run: a name is in the table exactly while somebody is in its room, every
   connected peer is in the room object it points to and that object is the one its name leads to, nobody is in
   two room objects, deleted ones included, and arrivals minus departures are the heads in all rooms.
   */
  lemma RoomsLiveWithTheirPeers<N>(limit: nat, events: seq<Event<N>>)
    ensures
      var l := Run(NewLobby(limit), events);
      && (forall n :: n in l.rooms ==> Members(l, n) != {})
      && (forall id :: id in l.seats ==> IsIn(l, l.seats[id], id) && FindableByName(l, id))
      && (forall at, id :: IsIn(l, at, id) ==> id in l.seats && l.seats[id] == at && id < l.nextId)
      && l.connected - l.disconnected == Sum(HeadCounts(l))
  {
    var l := Run(NewLobby<N>(limit), events);
    assert Seating.Heads(PlanOf(NewLobby<N>(limit))) == map[];
    RunKeepsInv(NewLobby(limit), events);
    CountsAreHeads(l);
    forall n | n in l.rooms ensures Members(l, n) != {} {
      NamesLeadToPeers(l, n);
    }
    forall id | id in l.seats ensures IsIn(l, l.seats[id], id) && FindableByName(l, id) {
      FoundByName(l, id);
    }
    forall at: nat, id | IsIn(l, at, id) ensures id in l.seats && l.seats[id] == at && id < l.nextId {
      OnlyWhereItPoints(l, at, id);
    }
  }

  // ---- Who feels what ----

  /** A connected peer, in the room object it points to. */
  function PeerOf<N>(l: LobbyValue<N>, id: int): PeerValue
    requires Seated(l, id)
  {
    l.objects[l.seats[id]].room.peers[id]
  }

  lemma SeatedIsIn<N>(l: LobbyValue<N>, id: int)
    requires Inv(l) && id in l.seats
    ensures Seated(l, id)
  {
    FoundByName(l, id);
  }

  lemma RoundGetsTo<N>(l: LobbyValue<N>, id: int)
    requires Inv(l) && id in l.seats
    ensures
      var l' := Step(l, PingRound);
      Seated(l, id) && Seated(l', id) && HadItsTurn(PeerOf(l, id), PeerOf(l', id))
  {
    FoundByName(l, id);
    RoundReachesAll(l.objects[l.seats[id]].room, id);
  }

  /** In every run a round of the ping loop gets to every connected peer, in whatever room, once. */
  lemma RoundReachesEverybody<N>(limit: nat, events: seq<Event<N>>, id: int)
    requires id in Run<N>(NewLobby(limit), events).seats
    ensures
      var l := Run(NewLobby(limit), events);
      var l' := Step(l, PingRound);
      Seated(l, id) && Seated(l', id) && HadItsTurn(PeerOf(l, id), PeerOf(l', id))
  {
    var l := Run<N>(NewLobby(limit), events);
    RunKeepsInv<N>(NewLobby(limit), events);
    RoundGetsTo(l, id);
  }

  /**
   In every run a chat message gets to every connected peer of its sender's room, once and under the sender's
   identity, and to nobody in another room, namesakes of the room included.
   */
  lemma ChatStaysInItsRoom<N>(limit: nat, events: seq<Event<N>>, id: int, raw: RawMessage, now: int, q: int)
    requires
      var l := Run<N>(NewLobby(limit), events);
      Enabled(l, Incoming(id, raw, now)) && raw.code == Some(CODE_PEER_MESSAGE) && q in l.seats
    ensures
      var l := Run<N>(NewLobby(limit), events);
      var l' := Step(l, Incoming(id, raw, now));
      Seated(l, q) && Seated(l', q) && l'.seats == l.seats &&
      if l.seats[q] == l.seats[id] then
        Got(PeerOf(l, q), PeerOf(l', q), Broadcast(Chat(id, PeerOf(l, id).name, now, raw.text)))
      else PeerOf(l', q) == PeerOf(l, q)
  {
    var l := Run<N>(NewLobby(limit), events);
    RunKeepsInv<N>(NewLobby(limit), events);
    SeatedIsIn(l, q);
    ChatReachesAll(l.objects[l.seats[id]].room, id, raw, now);
  }
}

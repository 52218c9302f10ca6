/**
 The lobby with its callbacks taken apart: an arrival looks its room up and is added to it later, a departure is
 removed, finds the room empty or not, and deletes it by name later; anything can happen in between.
 */
module LobbyCalls {
  /** `birth` counts how often the name had been deleted when the object was made. */
  datatype Spot<N> = Spot(name: N, birth: nat, members: set<int>)

  datatype Phase = Arriving | Seated | Removed | Deleting | Gone

  /** A peer's room object, where it is in its life, and how often the name had been deleted at its look-up. */
  datatype Seat = Seat(at: nat, phase: Phase, seen: nat)

  /** `deletions` counts for each name how often it left the table. */
  datatype State<N> = State(rooms: map<N, nat>, objects: seq<Spot<N>>, seats: map<int, Seat>, deletions: map<N, nat>)

  function Start<N>(): State<N> {
    State(map[], [], map[], map[])
  }

  datatype Call<N> =
    | LookUp(id: int, n: N)
    | Add(id: int)
    | Remove(id: int)
    | Test(id: int)
    | Delete(id: int)

  function Deletions<N>(s: State<N>, n: N): nat {
    if n in s.deletions then s.deletions[n] else 0
  }

  predicate In<N>(s: State<N>, id: int, phase: Phase) {
    id in s.seats && s.seats[id].at < |s.objects| && s.seats[id].phase == phase
  }

  predicate Can<N>(s: State<N>, c: Call<N>) {
    match c
    case LookUp(id, n) => id !in s.seats && (n in s.rooms ==> s.rooms[n] < |s.objects|)
    case Add(id) => In(s, id, Arriving)
    case Remove(id) => In(s, id, Seated)
    case Test(id) => In(s, id, Removed)
    case Delete(id) => In(s, id, Deleting)
  }

  function Moved<N>(s: State<N>, id: int, phase: Phase): State<N>
    requires id in s.seats
  {
    s.(seats := s.seats[id := s.seats[id].(phase := phase)])
  }

  function WithMembers<N>(s: State<N>, at: nat, members: set<int>): State<N>
    requires at < |s.objects|
  {
    s.(objects := s.objects[at := s.objects[at].(members := members)])
  }

  /** `getOrCreateRoom` */
  function LookedUp<N>(s: State<N>, id: int, n: N): State<N> {
    if n in s.rooms then s.(seats := s.seats[id := Seat(s.rooms[n], Arriving, Deletions(s, n))])
    else
      s.(rooms := s.rooms[n := |s.objects|], objects := s.objects + [Spot(n, Deletions(s, n), {})],
         seats := s.seats[id := Seat(|s.objects|, Arriving, Deletions(s, n))])
  }

  /** `deleteRoom` */
  function Deleted<N>(s: State<N>, n: N): State<N> {
    s.(rooms := s.rooms - {n},
       deletions := if n in s.rooms then s.deletions[n := Deletions(s, n) + 1] else s.deletions)
  }

  function Do<N>(s: State<N>, c: Call<N>): State<N> {
    if !Can(s, c) then s else
    match c
    case LookUp(id, n) => LookedUp(s, id, n)
    case Add(id) =>
      Moved(WithMembers(s, s.seats[id].at, s.objects[s.seats[id].at].members + {id}), id, Seated)
    case Remove(id) =>
      Moved(WithMembers(s, s.seats[id].at, s.objects[s.seats[id].at].members - {id}), id, Removed)
    case Test(id) => Moved(s, id, if s.objects[s.seats[id].at].members == {} then Deleting else Gone)
    case Delete(id) => Moved(Deleted(s, s.objects[s.seats[id].at].name), id, Gone)
  }

  function DoAll<N>(s: State<N>, calls: seq<Call<N>>): State<N>
    decreases |calls|
  {
    if calls == [] then s else DoAll(Do(s, calls[0]), calls[1..])
  }

  // ---- The invariant ----

  /** A name leads to the one object that was made since it was last deleted. */
  ghost predicate NamesOk<N>(s: State<N>) {
    && (forall n :: n in s.rooms ==> s.rooms[n] < |s.objects| && s.objects[s.rooms[n]].name == n)
    && (forall n :: n in s.rooms ==> s.objects[s.rooms[n]].birth == Deletions(s, n))
    && (forall i :: 0 <= i < |s.objects| ==> s.objects[i].birth <= Deletions(s, s.objects[i].name))
    && (forall i :: 0 <= i < |s.objects| && s.objects[i].birth == Deletions(s, s.objects[i].name) ==>
        s.objects[i].name in s.rooms && s.rooms[s.objects[i].name] == i)
  }

  /** One object for each time a name came up. */
  ghost predicate BirthsOk<N>(s: State<N>) {
    forall i, j :: 0 <= i < j < |s.objects| && s.objects[i].name == s.objects[j].name ==>
      s.objects[i].birth != s.objects[j].birth
  }

  ghost predicate SeatsOk<N>(s: State<N>) {
    && (forall id :: id in s.seats ==>
        s.seats[id].at < |s.objects| && s.seats[id].seen == s.objects[s.seats[id].at].birth)
    && (forall i, id :: 0 <= i < |s.objects| && id in s.objects[i].members ==>
        id in s.seats && s.seats[id].at == i && s.seats[id].phase == Seated)
    && (forall id :: id in s.seats && s.seats[id].phase == Seated ==> id in s.objects[s.seats[id].at].members)
  }

  ghost predicate Inv<N>(s: State<N>) {
    NamesOk(s) && BirthsOk(s) && SeatsOk(s)
  }

  /** Steps that leave names and objects alone, but for who is in them. */
  lemma SameNames<N>(s: State<N>, s': State<N>)
    requires NamesOk(s) && BirthsOk(s)
    requires s'.rooms == s.rooms && s'.deletions == s.deletions && |s'.objects| == |s.objects|
    requires forall i :: 0 <= i < |s.objects| ==>
      s'.objects[i].name == s.objects[i].name && s'.objects[i].birth == s.objects[i].birth
    ensures NamesOk(s') && BirthsOk(s')
  {
    assert forall n :: Deletions(s', n) == Deletions(s, n);
  }

  /** A peer that is not a member yet gets a pointer; there may be a new object without members. */
  lemma NewcomerKeepsSeats<N>(s: State<N>, s': State<N>, id: int, seat: Seat)
    requires SeatsOk(s) && id !in s.seats && s'.seats == s.seats[id := seat] && seat.phase == Arriving
    requires |s.objects| <= |s'.objects| && s'.objects[..|s.objects|] == s.objects
    requires forall i :: |s.objects| <= i < |s'.objects| ==> s'.objects[i].members == {}
    requires seat.at < |s'.objects| && seat.seen == s'.objects[seat.at].birth
    ensures SeatsOk(s')
  {
    assert forall i :: 0 <= i < |s.objects| ==> s'.objects[i] == s.objects[i];
  }

  lemma FoundKeepsInv<N>(s: State<N>, id: int, n: N)
    requires Inv(s) && id !in s.seats && n in s.rooms
    ensures Inv(LookedUp(s, id, n))
  {
    var s' := LookedUp(s, id, n);
    SameNames(s, s');
    assert s'.objects[..|s.objects|] == s.objects;
    NewcomerKeepsSeats(s, s', id, Seat(s.rooms[n], Arriving, Deletions(s, n)));
  }

  /** A new object behind a name that leads nowhere. */
  lemma MadeKeepsNames<N>(s: State<N>, s': State<N>, n: N)
    requires NamesOk(s) && BirthsOk(s) && n !in s.rooms && s'.deletions == s.deletions
    requires s'.rooms == s.rooms[n := |s.objects|] && s'.objects == s.objects + [Spot(n, Deletions(s, n), {})]
    ensures NamesOk(s') && BirthsOk(s')
  {
    assert forall m :: Deletions(s', m) == Deletions(s, m);
    assert forall i :: 0 <= i < |s.objects| ==> s'.objects[i] == s.objects[i];
  }

  lemma MadeKeepsInv<N>(s: State<N>, id: int, n: N)
    requires Inv(s) && id !in s.seats && n !in s.rooms
    ensures Inv(LookedUp(s, id, n))
  {
    var s' := LookedUp(s, id, n);
    MadeKeepsNames(s, s', n);
    assert s'.objects[..|s.objects|] == s.objects;
    NewcomerKeepsSeats(s, s', id, Seat(|s.objects|, Arriving, Deletions(s, n)));
  }

  /** One peer's step in or out of the object it points to. */
  lemma MoveKeepsSeats<N>(s: State<N>, s': State<N>, id: int, members: set<int>, phase: Phase)
    requires SeatsOk(s) && id in s.seats && s'.seats == s.seats[id := s.seats[id].(phase := phase)]
    requires s'.objects == s.objects[s.seats[id].at := s.objects[s.seats[id].at].(members := members)]
    requires members == s.objects[s.seats[id].at].members - {id} + (if phase == Seated then {id} else {})
    ensures SeatsOk(s')
  {
  }

  lemma MoveKeepsInv<N>(s: State<N>, s': State<N>, id: int, members: set<int>, phase: Phase)
    requires Inv(s) && id in s.seats && s.seats[id].at < |s.objects|
    requires s' == Moved(WithMembers(s, s.seats[id].at, members), id, phase)
    requires members == s.objects[s.seats[id].at].members - {id} + (if phase == Seated then {id} else {})
    ensures Inv(s')
  {
    SameNames(s, s');
    MoveKeepsSeats(s, s', id, members, phase);
  }

  lemma PhaseKeepsInv<N>(s: State<N>, id: int, phase: Phase)
    requires Inv(s) && id in s.seats && s.seats[id].phase != Seated && phase != Seated
    ensures Inv(Moved(s, id, phase))
  {
    SameNames(s, Moved(s, id, phase));
  }

  lemma DeleteKeepsNames<N>(s: State<N>, n: N)
    requires NamesOk(s)
    ensures NamesOk(Deleted(s, n))
  {
    var s' := Deleted(s, n);
    assert forall m :: Deletions(s', m) == Deletions(s, m) + if m == n && n in s.rooms then 1 else 0;
  }

  lemma DeleteKeepsInv<N>(s: State<N>, n: N)
    requires Inv(s)
    ensures Inv(Deleted(s, n))
  {
    DeleteKeepsNames(s, n);
  }

  lemma CallKeepsInv<N>(s: State<N>, c: Call<N>)
    requires Inv(s)
    ensures Inv(Do(s, c))
  {
    if Can(s, c) {
      match c
      case LookUp(id, n) =>
        if n in s.rooms {
          FoundKeepsInv(s, id, n);
        } else {
          MadeKeepsInv(s, id, n);
        }
      case Add(id) =>
        var members := s.objects[s.seats[id].at].members;
        assert id !in members && members - {id} + {id} == members + {id};
        MoveKeepsInv(s, Do(s, c), id, members + {id}, Seated);
      case Remove(id) => MoveKeepsInv(s, Do(s, c), id, s.objects[s.seats[id].at].members - {id}, Removed);
      case Test(id) => PhaseKeepsInv(s, id, if s.objects[s.seats[id].at].members == {} then Deleting else Gone);
      case Delete(id) =>
        var n := s.objects[s.seats[id].at].name;
        DeleteKeepsInv(s, n);
        PhaseKeepsInv(Deleted(s, n), id, Gone);
    }
  }

  lemma {:induction false} CallsKeepInv<N>(s: State<N>, calls: seq<Call<N>>)
    requires Inv(s)
    ensures Inv(DoAll(s, calls))
    decreases |calls|
  {
    if calls == [] {
    } else {
      CallKeepsInv(s, calls[0]);
      CallsKeepInv(Do(s, calls[0]), calls[1..]);
    }
  }

  // ---- Results ----

  /** The name of the room a peer looked up. */
  function NameOf<N>(s: State<N>, id: int): N
    requires id in s.seats && s.seats[id].at < |s.objects|
  {
    s.objects[s.seats[id].at].name
  }

  /**
   However the steps interleave: a peer's name still leads to the object the peer points to if and only if the name
   was not deleted since the peer looked it up. Two peers point to the same object if and only if they looked up
   the same name with no deletion of it in between. And a peer is a member of just the object it points to.
   */
  lemma LedExactlyIfNotDeleted<N>(calls: seq<Call<N>>, s: State<N>, a: int, b: int)
    requires s == DoAll(Start(), calls) && a in s.seats && b in s.seats
    ensures s.seats[a].at < |s.objects| && s.seats[b].at < |s.objects|
    ensures
      var n := NameOf(s, a);
      (n in s.rooms && s.rooms[n] == s.seats[a].at) <==> s.seats[a].seen == Deletions(s, n)
    ensures s.seats[a].at == s.seats[b].at <==>
      NameOf(s, a) == NameOf(s, b) && s.seats[a].seen == s.seats[b].seen
    ensures s.seats[a].phase == Seated ==>
      forall i :: 0 <= i < |s.objects| ==> (a in s.objects[i].members <==> i == s.seats[a].at)
  {
    CallsKeepInv(Start(), calls);
  }

  /** Peer 2 looks the room up, its last member leaves and it is deleted, and only then peer 2 is added. */
  function Calls<N>(n: N): seq<Call<N>> {
    [LookUp(1, n), Add(1), LookUp(2, n), Remove(1), Test(1), Delete(1), Add(2), LookUp(3, n), Add(3)]
  }

  /** The lobby before each of these calls, and after the last. */
  function States<N>(n: N): (r: seq<State<N>>)
    ensures |r| == 10
  {
    var live, dead := map[n := 0], map[n := 1];
    [Start(),
     State(live, [Spot(n, 0, {})], map[1 := Seat(0, Arriving, 0)], map[]),
     State(live, [Spot(n, 0, {1})], map[1 := Seat(0, Seated, 0)], map[]),
     State(live, [Spot(n, 0, {1})], map[1 := Seat(0, Seated, 0), 2 := Seat(0, Arriving, 0)], map[]),
     State(live, [Spot(n, 0, {})], map[1 := Seat(0, Removed, 0), 2 := Seat(0, Arriving, 0)], map[]),
     State(live, [Spot(n, 0, {})], map[1 := Seat(0, Deleting, 0), 2 := Seat(0, Arriving, 0)], map[]),
     State(map[], [Spot(n, 0, {})], map[1 := Seat(0, Gone, 0), 2 := Seat(0, Arriving, 0)], dead),
     State(map[], [Spot(n, 0, {2})], map[1 := Seat(0, Gone, 0), 2 := Seat(0, Seated, 0)], dead),
     State(map[n := 1], [Spot(n, 0, {2}), Spot(n, 1, {})],
           map[1 := Seat(0, Gone, 0), 2 := Seat(0, Seated, 0), 3 := Seat(1, Arriving, 1)], dead),
     State(map[n := 1], [Spot(n, 0, {2}), Spot(n, 1, {3})],
           map[1 := Seat(0, Gone, 0), 2 := Seat(0, Seated, 0), 3 := Seat(1, Seated, 1)], dead)]
  }

  lemma SameState<N>(s: State<N>, s': State<N>)
    requires s.rooms == s'.rooms && s.objects == s'.objects && s.seats == s'.seats && s.deletions == s'.deletions
    ensures s == s'
  {
  }

  lemma EarlyStates<N>(n: N, k: nat)
    requires k < 4
    ensures Do(States(n)[k], Calls(n)[k]) == States(n)[k + 1]
  {
    var s, s' := Do(States(n)[k], Calls(n)[k]), States(n)[k + 1];
    assert {} + {1} == {1} && {1} - {1} == {};
    if k == 0 {
      SameState(s, s');
    } else if k == 1 {
      assert s.objects[0] == s'.objects[0];
      SameState(s, s');
    } else if k == 2 {
      SameState(s, s');
    } else {
      assert s.objects[0] == s'.objects[0];
      SameState(s, s');
    }
  }

  lemma MiddleStates<N>(n: N, k: nat)
    requires 4 <= k < 7
    ensures Do(States(n)[k], Calls(n)[k]) == States(n)[k + 1]
  {
    var s, s' := Do(States(n)[k], Calls(n)[k]), States(n)[k + 1];
    assert {} + {2} == {2};
    if k == 4 {
      SameState(s, s');
    } else if k == 5 {
      SameState(s, s');
    } else {
      assert s.objects[0] == s'.objects[0];
      SameState(s, s');
    }
  }

  lemma LateStates<N>(n: N, k: nat)
    requires 7 <= k < 9
    ensures Do(States(n)[k], Calls(n)[k]) == States(n)[k + 1]
  {
    var s, s' := Do(States(n)[k], Calls(n)[k]), States(n)[k + 1];
    assert {} + {3} == {3};
    if k == 7 {
      SameState(s, s');
    } else {
      assert s.objects[1] == s'.objects[1];
      SameState(s, s');
    }
  }

  lemma {:induction false} StatesFollow<N>(n: N, k: nat)
    requires k <= 9
    ensures DoAll(States(n)[k], Calls(n)[k..]) == States(n)[9]
    decreases 9 - k
  {
    if k == 9 {
      assert Calls(n)[9..] == [];
    } else {
      assert Calls(n)[k..][0] == Calls(n)[k] && Calls(n)[k..][1..] == Calls(n)[k + 1..];
      if k < 4 {
        EarlyStates(n, k);
      } else if k < 7 {
        MiddleStates(n, k);
      } else {
        LateStates(n, k);
      }
      StatesFollow(n, k + 1);
    }
  }

  /** So a newcomer can end up where nobody finds it: peer 3 then gets another room of the same name. */
  lemma NewcomerIsStranded<N>(n: N)
    ensures
      var s := DoAll(Start(), Calls(n));
      && s.rooms == map[n := 1] && s.objects == [Spot(n, 0, {2}), Spot(n, 1, {3})]
      && s.seats == map[1 := Seat(0, Gone, 0), 2 := Seat(0, Seated, 0), 3 := Seat(1, Seated, 1)]
  {
    StatesFollow(n, 0);
    assert Calls(n)[0..] == Calls(n);
  }
}

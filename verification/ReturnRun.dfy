/** A run in which a page throws: a namesake comes and goes between a peer's addition and its snapshot. */
module ReturnRun {
  import opened Messages
  import opened Participants
  import opened ClientSpec
  import opened RoomSpec
  import opened Membership
  import opened MembershipTheorems
  import opened RoomCalls
  import opened RoomCallTheorems

  const ONE := PeerEntry(1, "x")
  const TWO := PeerEntry(2, "y")
  const THREE := PeerEntry(3, "x")

  /** Peer 3 arrives and leaves while peer 2 is in the table but has no snapshot yet. */
  const CALLS := [
    Welcome(1, "x"), AddPeer(1), OnboardPeer(1, [ONE]), Welcome(2, "y"), AddPeer(2),
    Welcome(3, "x"), AddPeer(3), OnboardPeer(3, [ONE, TWO, THREE]), RemovePeerById(3), Goodbye(3),
    OnboardPeer(2, [ONE, TWO])]

  const LOG := [Joined(1, "x"), Joined(2, "y"), Joined(3, "x"), Left(3)]
  const OUTBOX := [Broadcast(Joined(3, "x")), Broadcast(Left(3)), Info(2, "y", [ONE, TWO], LOG)]

  // ---- The page ----

  lemma SortOne(a: PeerEntry)
    ensures StableSort([a]) == [a]
  {
    assert [a][..0] == [] && StableSort([]) == [];
  }

  lemma ThreeArrives(c: Client)
    requires c == OnMessage(BLANK, Broadcast(Joined(3, "x")))
    ensures c == Client(0, true, [THREE], [Element(0, 3, false)], 1, false)
  {
    SortOne(THREE);
    assert Put([], 3, "x") == [THREE] && [THREE][1..] == [];
    assert Others([THREE], 0) == [3] + Others([], 0);
    assert Created([3], 0) == [Element(0, 3, false)] + Created([], 1);
  }

  lemma ThreeLeaves(c: Client, c': Client)
    requires c == Client(0, true, [THREE], [Element(0, 3, false)], 1, false)
    requires c' == OnMessage(c, Broadcast(Left(3)))
    ensures c' == Client(0, true, [], [Element(0, 3, true)], 1, false)
  {
    assert [THREE][1..] == [] && IdSet([THREE]) == {3} + IdSet([]);
    assert Remove([THREE], 3) == Keep([], {}) == [];
    var e := Element(0, 3, false);
    assert [e][1..] == [] && Kept([e], {}) == Kept([], {}) == [];
    assert Render([], 0) == [] && Ids([]) == [];
    assert Merge([e], [], {}, 1) == [e.(dying := true)] + Merge([], [], {}, 1);
    assert Merge([], [], {}, 1) == Created([], 1) == [];
  }

  lemma TwoPeers()
    ensures IdSet([ONE, TWO]) == {1, 2} && StableSort([ONE, TWO]) == [ONE, TWO] && Render([ONE, TWO], 2) == [1]
  {
    assert [ONE, TWO][1..] == [TWO] && [TWO][1..] == [] && [ONE][1..] == [];
    assert IdSet([TWO]) == {2} + IdSet([]);
    SortOne(ONE);
    assert [ONE, TWO][..1] == [ONE] && Before("x", "y");
    assert StableSort([ONE, TWO]) == InsertSorted([ONE], TWO) == [ONE] + InsertSorted([], TWO);
    assert Others([TWO], 2) == Others([], 2) == [];
    assert Others([ONE, TWO], 2) == [1] + Others([TWO], 2);
  }

  /** With the snapshot, peer 1 gets an element behind the fading one of its namesake. */
  lemma SnapshotComes(c: Client, c': Client)
    requires c == Client(0, true, [], [Element(0, 3, true)], 1, false)
    requires c' == UpdateParticipants(AtSnapshot(c, OUTBOX[2])) && !Fails(AtSnapshot(c, OUTBOX[2]))
    ensures c' == Client(2, true, [ONE, TWO], [Element(0, 3, true), Element(1, 1, false)], 2, false)
  {
    assert [ONE, TWO][1..] == [TWO] && [TWO][1..] == [] && [ONE][1..] == [];
    assert Put([], 1, "x") == [ONE] && Put([], 2, "y") == [TWO] && Put([ONE], 2, "y") == [ONE, TWO];
    assert PutAll([], [ONE, TWO]) == PutAll([ONE], [TWO]) == PutAll([ONE, TWO], []);
    TwoPeers();
    var e := Element(0, 3, true);
    assert Merge([e], [1], {1, 2}, 1) == [e] + Merge([], [1], {1, 2}, 1);
    assert Merge([], [1], {1, 2}, 1) == Created([1], 1) == [Element(1, 1, false)] + Created([], 2);
  }

  /** Peers that are in the map already change nothing. */
  lemma AgainIsNothing(c: Client, e: Entry)
    requires c == Client(2, true, [ONE, TWO], [Element(0, 3, true), Element(1, 1, false)], 2, false)
    requires e == Joined(1, "x") || e == Joined(2, "y")
    ensures OnEntry(c, e) == c && !Throws(c, e)
  {
    assert [ONE, TWO][1..] == [TWO] && [TWO][1..] == [];
    assert Put([TWO], 2, "y") == [TWO] + [] && Put([ONE, TWO], 2, "y") == [ONE] + [TWO];
    assert Put([ONE, TWO], 1, "x") == [ONE] + [TWO];
    TwoPeers();
    var d, b := Element(0, 3, true), Element(1, 1, false);
    assert [d, b][1..] == [b] && [b][1..] == [] && [1][1..] == [];
    assert Kept([b], {1, 2}) == [b] + Kept([], {1, 2}) && Kept([d, b], {1, 2}) == [b];
    assert Ids([b]) == [1] + Ids([]) && IsSubsequence([1], [1]);
    assert Merge([], [], {1, 2}, 2) == Created([], 2) == [];
    assert Merge([b], [1], {1, 2}, 2) == [b] + Merge([], [], {1, 2}, 2);
    assert Merge([d, b], [1], {1, 2}, 2) == [d] + Merge([b], [1], {1, 2}, 2);
  }

  lemma ThreeReturns(c: Client)
    requires c == Client(2, true, [ONE, TWO], [Element(0, 3, true), Element(1, 1, false)], 2, false)
    ensures Throws(c, Joined(3, "x")) && OnEntry(c, Joined(3, "x")).view == [ONE, TWO, THREE]
  {
    var view := [ONE, TWO, THREE];
    assert [ONE, TWO][1..] == [TWO] && [TWO][1..] == [] && Put([], 3, "x") == [THREE];
    assert Put([TWO], 3, "x") == [TWO, THREE] && Put([ONE, TWO], 3, "x") == view;
    assert view[..2] == [ONE, TWO] && view[2] == THREE && Before("x", "y");
    TwoPeers();
    assert InsertSorted([TWO], THREE) == [THREE, TWO];
    assert StableSort(view) == InsertSorted([ONE, TWO], THREE) == [ONE, THREE, TWO];
    assert [ONE, THREE, TWO][1..] == [THREE, TWO] && [THREE, TWO][1..] == [TWO];
    assert Others([TWO], 2) == Others([], 2) == [];
    assert Others([THREE, TWO], 2) == [3] + [] && Render(view, 2) == [1, 3];
    assert view[1..] == [TWO, THREE] && [TWO, THREE][1..] == [THREE] && [THREE][1..] == [];
    assert IdSet([THREE]) == {3} + IdSet([]) && IdSet([TWO, THREE]) == {2, 3} && IdSet(view) == {1, 2, 3};
    var d, b := Element(0, 3, true), Element(1, 1, false);
    assert [d, b][1..] == [b] && [b][1..] == [];
    assert Kept([b], {1, 2, 3}) == [b] + Kept([], {1, 2, 3}) && Kept([d, b], {1, 2, 3}) == [d, b];
    assert Ids([b]) == [1] + Ids([]) && Ids([d, b]) == [3, 1];
    assert [1, 3][1..] == [3] && [3, 1][1..] == [1] && [3][1..] == [];
    assert !IsSubsequence([1], []) && !IsSubsequence([3, 1], [1, 3]);
  }

  lemma LogReplays(c: Client)
    requires c == Client(2, true, [ONE, TWO], [Element(0, 3, true), Element(1, 1, false)], 2, false)
    ensures OnEntries(c, LOG).thrown && OnEntries(c, LOG).view == [ONE, TWO, THREE]
  {
    AgainIsNothing(c, LOG[0]);
    AgainIsNothing(c, LOG[1]);
    ThreeReturns(c);
    assert LOG[1..][0] == LOG[1] && LOG[1..][1..][0] == LOG[2];
    assert OnEntries(c, LOG) == OnEntries(c, LOG[1..]) == OnEntries(c, LOG[1..][1..]) == OnEntry(c, LOG[2]);
  }

  lemma ThreeMessages(c: Client, m: Message, n: Message, o: Message)
    ensures OnMessages(c, [m, n, o]) == OnMessage(OnMessage(OnMessage(c, m), n), o)
  {
    var c1, c2 := OnMessage(c, m), OnMessage(OnMessage(c, m), n);
    assert [m, n, o][1..] == [n, o] && [n, o][1..] == [o] && [o][1..] == [];
    assert OnMessages(c2, [o]) == OnMessage(c2, o);
    assert OnMessages(c1, [n, o]) == OnMessages(c2, [o]);
  }

  lemma SnapshotFits(c: Client)
    requires c == Client(0, true, [], [Element(0, 3, true)], 1, false)
    ensures !Fails(AtSnapshot(c, OUTBOX[2]))
  {
    assert [ONE, TWO][1..] == [TWO] && [TWO][1..] == [] && [ONE][1..] == [];
    assert Put([], 1, "x") == [ONE] && Put([], 2, "y") == [TWO] && Put([ONE], 2, "y") == [ONE, TWO];
    assert PutAll([], [ONE, TWO]) == PutAll([ONE], [TWO]) == PutAll([ONE, TWO], []);
    TwoPeers();
    var e := Element(0, 3, true);
    assert [e][1..] == [] && Kept([e], {1, 2}) == Kept([], {1, 2}) == [];
    assert Ids([]) == [];
  }

  /** The page throws in the middle of the history, and keeps the peer whose departure comes after that. */
  lemma OutboxThrows()
    ensures OnMessages(BLANK, OUTBOX).thrown && OnMessages(BLANK, OUTBOX).view == [ONE, TWO, THREE]
  {
    var c1 := OnMessage(BLANK, OUTBOX[0]);
    var c2 := OnMessage(c1, OUTBOX[1]);
    ThreeArrives(c1);
    ThreeLeaves(c1, c2);
    SnapshotFits(c2);
    var c3 := UpdateParticipants(AtSnapshot(c2, OUTBOX[2]));
    SnapshotComes(c2, c3);
    LogReplays(c3);
    ThreeMessages(BLANK, OUTBOX[0], OUTBOX[1], OUTBOX[2]);
  }

  // ---- The room ----

  /** What matters of the room on the way; `news` is what peer 2 was sent. */
  datatype Sight = Sight(
    table: map<int, string>, arriving: map<int, string>, leaving: map<int, string>,
    welcomed: set<int>, onboarded: set<int>, log: seq<Entry>, news: seq<Message>)

  /** Nothing is cut off the history, everybody has a socket, and peer 2's browser has not started. */
  ghost predicate At(s: State, v: Sight) {
    && Names(s.sys.room.peers) == v.table && s.arriving == v.arriving && s.leaving == v.leaving
    && s.welcomes.Keys == v.welcomed && s.onboardings.Keys == v.onboarded
    && s.sys.room.history == v.log && s.sys.room.limit == 10
    && (forall p :: p in s.sys.room.peers ==> s.sys.room.peers[p].live)
    && (2 in s.sys.room.peers ==>
        s.sys.room.peers[2].outbox == v.news && 2 in s.sys.sessions && s.sys.sessions[2] == Session(BLANK, 0))
  }

  function Told(v: Sight, e: Entry): Sight {
    v.(log := v.log + [e], news := if 2 in v.table then v.news + [Broadcast(e)] else v.news)
  }

  lemma WelcomeAt(s: State, v: Sight, id: int, name: string)
    requires At(s, v) && |v.log| < 10 && id != 0 && id !in v.welcomed
    ensures At(Do(s, Welcome(id, name)),
               Told(v, Joined(id, name)).(arriving := v.arriving[id := name], welcomed := v.welcomed + {id}))
  {
    PostNames(s.sys.room, Joined(id, name));
    NamesAt(s.sys.room.peers);
    assert id !in s.welcomes.Keys;
  }

  lemma AddAt(s: State, v: Sight, id: int)
    requires At(s, v) && id in v.arriving && (id == 2 ==> v.news == [])
    ensures At(Do(s, AddPeer(id)), v.(table := v.table[id := v.arriving[id]], arriving := v.arriving - {id}))
  {
    NamesAt(s.sys.room.peers);
    NamesAt(Do(s, AddPeer(id)).sys.room.peers);
    SameMap(Names(Do(s, AddPeer(id)).sys.room.peers), v.table[id := v.arriving[id]]);
  }

  lemma OnboardAt(s: State, v: Sight, id: int, order: seq<PeerEntry>)
    requires At(s, v) && id in v.table && id !in v.onboarded && UniqueIds(order) && ToMap(order) == v.table
    ensures At(Do(s, OnboardPeer(id, order)),
               v.(onboarded := v.onboarded + {id},
                  news := if id == 2 then v.news + [Info(2, v.table[2], order, v.log)] else v.news))
  {
    NamesAt(s.sys.room.peers);
    assert id in s.sys.room.peers && id !in s.onboardings.Keys;
    OnboardNames(s.sys.room, id, order);
  }

  lemma RemoveAt(s: State, v: Sight, id: int)
    requires At(s, v) && id in v.table && id in v.onboarded && id != 2
    ensures At(Do(s, RemovePeerById(id)), v.(table := v.table - {id}, leaving := v.leaving[id := v.table[id]]))
  {
    NamesAt(s.sys.room.peers);
    assert id in s.sys.room.peers && id in s.onboardings.Keys;
    NamesAt(Do(s, RemovePeerById(id)).sys.room.peers);
    SameMap(Names(Do(s, RemovePeerById(id)).sys.room.peers), v.table - {id});
  }

  lemma GoodbyeAt(s: State, v: Sight, id: int)
    requires At(s, v) && id in v.leaving && |v.log| < 10
    ensures At(Do(s, Goodbye(id)), Told(v, Left(id)).(leaving := v.leaving - {id}))
  {
    PostNames(s.sys.room, Left(id));
    NamesAt(s.sys.room.peers);
  }

  const J1 := Joined(1, "x")
  const J2 := Joined(2, "y")
  const J3 := Joined(3, "x")
  const NEWS := [Broadcast(J3), Broadcast(Left(3))]

  /** The room before each call, and after the last. */
  const SIGHTS := [
    Sight(map[], map[], map[], {}, {}, [], []),
    Sight(map[], map[1 := "x"], map[], {1}, {}, [J1], []),
    Sight(map[1 := "x"], map[], map[], {1}, {}, [J1], []),
    Sight(map[1 := "x"], map[], map[], {1}, {1}, [J1], []),
    Sight(map[1 := "x"], map[2 := "y"], map[], {1, 2}, {1}, [J1, J2], []),
    Sight(map[1 := "x", 2 := "y"], map[], map[], {1, 2}, {1}, [J1, J2], []),
    Sight(map[1 := "x", 2 := "y"], map[3 := "x"], map[], {1, 2, 3}, {1}, [J1, J2, J3], [Broadcast(J3)]),
    Sight(map[1 := "x", 2 := "y", 3 := "x"], map[], map[], {1, 2, 3}, {1}, [J1, J2, J3], [Broadcast(J3)]),
    Sight(map[1 := "x", 2 := "y", 3 := "x"], map[], map[], {1, 2, 3}, {1, 3}, [J1, J2, J3], [Broadcast(J3)]),
    Sight(map[1 := "x", 2 := "y"], map[], map[3 := "x"], {1, 2, 3}, {1, 3}, [J1, J2, J3], [Broadcast(J3)]),
    Sight(map[1 := "x", 2 := "y"], map[], map[], {1, 2, 3}, {1, 3}, LOG, NEWS),
    Sight(map[1 := "x", 2 := "y"], map[], map[], {1, 2, 3}, {1, 2, 3}, LOG, OUTBOX)]

  lemma Orders()
    ensures UniqueIds([ONE]) && ToMap([ONE]) == map[1 := "x"]
    ensures UniqueIds([ONE, TWO]) && ToMap([ONE, TWO]) == map[1 := "x", 2 := "y"]
    ensures UniqueIds([ONE, TWO, THREE]) && ToMap([ONE, TWO, THREE]) == map[1 := "x", 2 := "y", 3 := "x"]
  {
    assert [ONE, TWO, THREE][1..] == [TWO, THREE] && [TWO, THREE][1..] == [THREE] && [THREE][1..] == [];
    assert [ONE, TWO][1..] == [TWO] && [TWO][1..] == [] && [ONE][1..] == [];
    assert ToMap([THREE]) == map[3 := "x"] && ToMap([TWO]) == map[2 := "y"];
    assert IdSet([THREE]) == {3} + IdSet([]) && IdSet([TWO, THREE]) == {2} + IdSet([THREE]);
    assert IdSet([TWO]) == {2} + IdSet([]);
    assert UniqueIds([THREE]) && UniqueIds([TWO, THREE]);
  }

  lemma WelcomeCall(s: State, k: nat)
    requires (k == 0 || k == 3 || k == 5) && At(s, SIGHTS[k])
    ensures At(Do(s, CALLS[k]), SIGHTS[k + 1])
  {
    var v := SIGHTS[k];
    var e := CALLS[k];
    WelcomeAt(s, v, e.id, e.name);
    assert Told(v, Joined(e.id, e.name)).(arriving := v.arriving[e.id := e.name], welcomed := v.welcomed + {e.id}) ==
      SIGHTS[k + 1];
  }

  lemma AddCall(s: State, k: nat)
    requires (k == 1 || k == 4 || k == 6) && At(s, SIGHTS[k])
    ensures At(Do(s, CALLS[k]), SIGHTS[k + 1])
  {
    var v, id := SIGHTS[k], CALLS[k].id;
    AddAt(s, v, id);
    assert v.(table := v.table[id := v.arriving[id]], arriving := v.arriving - {id}) == SIGHTS[k + 1];
  }

  lemma OrderFits(k: nat)
    requires k == 2 || k == 7 || k == 10
    ensures UniqueIds(CALLS[k].order) && ToMap(CALLS[k].order) == SIGHTS[k].table
  {
    Orders();
  }

  lemma OnboardCall(s: State, k: nat)
    requires (k == 2 || k == 7 || k == 10) && At(s, SIGHTS[k])
    ensures At(Do(s, CALLS[k]), SIGHTS[k + 1])
  {
    var v, id := SIGHTS[k], CALLS[k].id;
    OrderFits(k);
    OnboardAt(s, v, id, CALLS[k].order);
    assert v.onboarded + {id} == SIGHTS[k + 1].onboarded;
  }

  lemma DepartureCall(s: State, k: nat)
    requires (k == 8 || k == 9) && At(s, SIGHTS[k])
    ensures At(Do(s, CALLS[k]), SIGHTS[k + 1])
  {
    var v := SIGHTS[k];
    if k == 8 {
      RemoveAt(s, v, 3);
      assert v.(table := v.table - {3}, leaving := v.leaving[3 := "x"]) == SIGHTS[9];
    } else {
      GoodbyeAt(s, v, 3);
      assert Told(v, Left(3)).(leaving := v.leaving - {3}) == SIGHTS[10];
    }
  }

  lemma {:induction false} CallsGoOn(s: State, k: nat)
    requires k <= 11 && At(s, SIGHTS[k])
    ensures At(DoAll(s, CALLS[k..]), SIGHTS[11])
    decreases 11 - k
  {
    if k == 11 {
      assert CALLS[11..] == [];
    } else {
      assert CALLS[k..][0] == CALLS[k] && CALLS[k..][1..] == CALLS[k + 1..];
      match CALLS[k] {
        case Welcome(_, _) => WelcomeCall(s, k);
        case AddPeer(_) => AddCall(s, k);
        case OnboardPeer(_, _) => OnboardCall(s, k);
        case _ => DepartureCall(s, k);
      }
      CallsGoOn(Do(s, CALLS[k]), k + 1);
    }
  }

  /**
   The room gets there: peer 2 is a connected member of a room of two, its page throws when it has handled what
   it was sent, and it shows the departed peer 3 from then on.
   */
  lemma ReturnThrowsInARun()
    ensures
      var s := DoAll(Start(10), CALLS);
      && s.sys.room.peers.Keys == {1, 2} && s.sys.room.peers[2].live && s.sys.room.peers[2].outbox == OUTBOX
      && 2 in s.sys.sessions && s.sys.sessions[2].consumed == 0
      && CaughtUp(s.sys, 2).thrown && IdSet(CaughtUp(s.sys, 2).view) == {1, 2, 3}
  {
    var s := DoAll(Start(10), CALLS);
    assert Names(Start(10).sys.room.peers) == map[] && CALLS[0..] == CALLS;
    CallsGoOn(Start(10), 0);
    NamesAt(s.sys.room.peers);
    assert 2 in s.sys.room.peers;
    OutboxThrows();
    assert OUTBOX[0..] == OUTBOX;
    assert [ONE, TWO, THREE][1..] == [TWO, THREE] && [TWO, THREE][1..] == [THREE] && [THREE][1..] == [];
    assert IdSet([THREE]) == {3} + IdSet([]) && IdSet([TWO, THREE]) == {2, 3};
  }
}

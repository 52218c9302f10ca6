/**
 Which messages make a browser's handler throw: none but its INFO, and that one exactly if its history brings back
 a peer whose element is still fading and out of its place.
 */
module Returns {
  import opened Messages
  import opened Participants
  import opened ClientSpec
  import opened Membership
  import opened ViewTheorems
  import opened Learning
  import opened Panel

  /** The entry puts a peer back into the map whose element is still there, but not where it would go now. */
  ghost predicate ReturnsOutOfPlace(c: Client, e: Entry) {
    e.Joined? && e.peerId !in IdSet(c.view) &&
    exists i, j :: 0 <= i < |c.children| && 0 <= j < |c.children| && c.children[i].id == e.peerId &&
      Misplaced(c, e.peerName, i, j)
  }

  /**
   The panel can be updated, everybody in it was heard of, the names are those of the log, and elements without
   a peer in the map are of peers in `gone`.
   */
  ghost predicate PanelAt(c: Client, ms: seq<Message>, log: seq<Entry>, self: int, gone: set<int>) {
    && Walks(c) && c.self == self && (self != 0 ==> self in IdSet(c.view))
    && (forall e :: e in c.children ==> Hears(ms, e.id))
    && (forall x :: x in IdSet(c.view) ==> Hears(ms, x))
    && (forall p :: p in c.view ==> Joined(p.id, p.name) in log)
    && (forall e :: e in c.children && e.id !in IdSet(c.view) ==> e.id in gone)
  }

  lemma OneName(log: seq<Entry>, id: int, name: string, other: string)
    requires OnceEach(log) && Joined(id, name) in log && Joined(id, other) in log
    ensures name == other
  {
    var i :| 0 <= i < |log| && log[i] == Joined(id, name);
    var j :| 0 <= j < |log| && log[j] == Joined(id, other);
    assert SamePeer(log[i], log[j]);
  }

  lemma AgainIsSame(m: PeersMap, p: PeerEntry, log: seq<Entry>)
    requires OnceEach(log) && UniqueIds(m) && p.id in IdSet(m) && Joined(p.id, p.name) in log
    requires forall q :: q in m ==> Joined(q.id, q.name) in log
    ensures Put(m, p.id, p.name) == m
  {
    ToMapKeys(m);
    ToMapHas(m);
    assert PeerEntry(p.id, ToMap(m)[p.id]) in m;
    OneName(log, p.id, p.name, ToMap(m)[p.id]);
    PutSame(m, p.id, p.name);
  }

  /** A peer that is in the map is put into it again. */
  lemma AgainChangesNothing(c: Client, ms: seq<Message>, log: seq<Entry>, self: int, gone: set<int>, e: Entry)
    requires PanelAt(c, ms, log, self, gone) && OnceEach(log)
    requires e.Joined? && e in log && e.peerId in IdSet(c.view)
    ensures Put(c.view, e.peerId, e.peerName) == c.view && c.(view := c.view) == c
  {
    AgainIsSame(c.view, PeerEntry(e.peerId, e.peerName), log);
  }

  /** What an update of the panel leaves, if it does not throw. */
  lemma UpdateKeepsPanel(c: Client, m: PeersMap, ms: seq<Message>, ms': seq<Message>, log: seq<Entry>, self: int,
                         gone: set<int>, gone': set<int>)
    requires PanelAt(c, ms, log, self, gone) && UniqueIds(m) && !Fails(c.(view := m))
    requires forall a :: Hears(ms, a) ==> Hears(ms', a)
    requires forall x :: x in IdSet(m) ==> Hears(ms', x)
    requires forall p :: p in m ==> Joined(p.id, p.name) in log
    requires self != 0 ==> self in IdSet(m)
    requires gone <= gone' && forall x :: x in IdSet(c.view) && x !in IdSet(m) ==> x in gone'
    ensures PanelAt(UpdateParticipants(c.(view := m)), ms', log, self, gone')
    ensures UpdateParticipants(c.(view := m)).thrown == c.thrown
    ensures UpdateParticipants(c.(view := m)).rendered
  {
    UpdateWalks(c.(view := m));
  }

  lemma {:induction false} KeepIn(m: PeersMap, ids: set<int>)
    ensures forall p :: p in Keep(m, ids) ==> p in m
  {
    KeepSubset(m, ids);
  }

  lemma ArrivalWalks(c: Client, e: Entry, ms: seq<Message>, ms': seq<Message>, log: seq<Entry>, self: int,
                     gone: set<int>)
    requires PanelAt(c, ms, log, self, gone) && OnceEach(log) && forall a :: Hears(ms, a) ==> Hears(ms', a)
    requires e.Joined? && e in log && Hears(ms', e.peerId) && e.peerId != 0
    ensures Throws(c, e) <==> ReturnsOutOfPlace(c, e)
    ensures Throws(c, e) ==> e.peerId in gone
    ensures !Throws(c, e) ==> PanelAt(OnEntry(c, e), ms', log, self, gone) && OnEntry(c, e).thrown == c.thrown
  {
    var id, name := e.peerId, e.peerName;
    var m := Put(c.view, id, name);
    if id in IdSet(c.view) {
      AgainChangesNothing(c, ms, log, self, gone, e);
      assert !Fails(c);
    } else {
      PutIdSet(c.view, id, name);
      PutFresh(c.view, id, name);
      if i :| 0 <= i < |c.children| && c.children[i].id == id {
        assert c.children[i] in c.children;
        ReturnThrows(c, id, name, i);
        assert forall k :: 0 <= k < |c.children| && c.children[k].id == id ==> k == i;
      } else if c.rendered {
        CompatiblePut(c.view, id, name);
        SmoothlyWalks(c, m);
      }
    }
    if !Throws(c, e) {
      UpdateKeepsPanel(c, m, ms, ms', log, self, gone, gone);
    }
  }

  /** What an entry of the log does to such a panel. */
  lemma EntryWalks(c: Client, e: Entry, ms: seq<Message>, ms': seq<Message>, log: seq<Entry>, self: int,
                   gone: set<int>, gone': set<int>)
    requires PanelAt(c, ms, log, self, gone) && OnceEach(log) && forall a :: Hears(ms, a) ==> Hears(ms', a)
    requires e.Joined? ==> e in log && Hears(ms', e.peerId) && e.peerId != 0
    requires e.Left? ==> e.peerId != self
    requires gone' == if e.Left? then gone + {e.peerId} else gone
    ensures Throws(c, e) <==> ReturnsOutOfPlace(c, e)
    ensures Throws(c, e) ==> e.Joined? && e.peerId in gone
    ensures !Throws(c, e) ==> PanelAt(OnEntry(c, e), ms', log, self, gone') && OnEntry(c, e).thrown == c.thrown
  {
    match e
    case Joined(id, name) => ArrivalWalks(c, e, ms, ms', log, self, gone);
    case Left(id) =>
      var m := Remove(c.view, id);
      KeepFacts(c.view, IdSet(c.view) - {id});
      CompatibleKeep(c.view, IdSet(c.view) - {id});
      KeepIn(c.view, IdSet(c.view) - {id});
      if c.rendered {
        SmoothlyWalks(c, m);
      }
      UpdateKeepsPanel(c, m, ms, ms', log, self, gone, gone');
    case _ =>
  }

  // ---- A history is replayed ----

  /** The replay comes to an entry that brings somebody back out of place. */
  ghost predicate ReplaysOutOfPlace(c: Client, es: seq<Entry>) {
    exists k :: 0 <= k < |es| && ReturnsOutOfPlace(OnEntries(c, es[..k]), es[k])
  }

  /** Entries of the log in its order: known arrivals, nobody's after its departure, and oneself does not leave. */
  ghost predicate InOrder(es: seq<Entry>, ms: seq<Message>, log: seq<Entry>, self: int) {
    && (forall e :: e in es && e.Joined? ==> e in log && Hears(ms, e.peerId) && e.peerId != 0)
    && (forall e :: e in es && e.Left? ==> e.peerId != self)
    && (forall i, j :: 0 <= i < j < |es| && es[i].Left? && es[j].Joined? ==> es[i].peerId != es[j].peerId)
  }

  lemma ReplayGoesOn(c: Client, es: seq<Entry>)
    requires es != [] && (Throws(c, es[0]) <==> ReturnsOutOfPlace(c, es[0]))
    ensures ReplaysOutOfPlace(c, es) <==>
      (Throws(c, es[0]) || ReplaysOutOfPlace(OnEntry(c, es[0]), es[1..]))
  {
    assert es[..0] == [] && OnEntries(c, []) == c;
    if !Throws(c, es[0]) {
      var c', rest := OnEntry(c, es[0]), es[1..];
      forall k | 0 <= k < |rest| ensures OnEntries(c, es[..k + 1]) == OnEntries(c', rest[..k]) {
        assert es[..k + 1][0] == es[0] && es[..k + 1][1..] == rest[..k];
      }
      if ReplaysOutOfPlace(c, es) {
        var k :| 0 <= k < |es| && ReturnsOutOfPlace(OnEntries(c, es[..k]), es[k]);
        assert k > 0 && ReturnsOutOfPlace(OnEntries(c', rest[..k - 1]), rest[k - 1]);
      }
      if ReplaysOutOfPlace(c', rest) {
        var k :| 0 <= k < |rest| && ReturnsOutOfPlace(OnEntries(c', rest[..k]), rest[k]);
        assert ReturnsOutOfPlace(OnEntries(c, es[..k + 1]), es[k + 1]);
      }
    }
  }

  lemma LeftIdsCons(e: Entry, rest: seq<Entry>, gone: set<int>)
    ensures (if e.Left? then gone + {e.peerId} else gone) + LeftIds(rest) == gone + LeftIds([e] + rest)
  {
    assert forall x :: x in [e] + rest <==> x == e || x in rest;
  }

  lemma RestInOrder(es: seq<Entry>, ms: seq<Message>, log: seq<Entry>, self: int)
    requires es != [] && InOrder(es, ms, log, self)
    ensures InOrder(es[1..], ms, log, self)
    ensures es[0].Left? ==> forall d :: d in es[1..] && d.Joined? ==> d.peerId != es[0].peerId
  {
    var rest := es[1..];
    assert forall e :: e in rest ==> e in es;
    forall d | d in rest && d.Joined? && es[0].Left? ensures d.peerId != es[0].peerId {
      var j :| 0 <= j < |rest| && rest[j] == d;
      assert es[j + 1] == d;
    }
  }

  /** The history brings back somebody in `gone`. */
  ghost predicate Revives(es: seq<Entry>, gone: set<int>) {
    exists e :: e in es && e.Joined? && e.peerId in gone
  }

  lemma RevivesEarlier(es: seq<Entry>, ms: seq<Message>, log: seq<Entry>, self: int, gone: set<int>)
    requires es != [] && InOrder(es, ms, log, self)
    requires Revives(es[1..], if es[0].Left? then gone + {es[0].peerId} else gone)
    ensures Revives(es, gone)
  {
    RestInOrder(es, ms, log, self);
    var d :| d in es[1..] && d.Joined? && d.peerId in if es[0].Left? then gone + {es[0].peerId} else gone;
    assert d in es && d.peerId in gone;
  }

  lemma ThrowIsKept(c: Client, e: Entry)
    ensures OnEntry(c, e).thrown == (c.thrown || Throws(c, e))
  {
  }

  lemma {:induction false} EntriesWalk(c: Client, es: seq<Entry>, ms: seq<Message>, log: seq<Entry>, self: int,
                                       gone: set<int>)
    requires PanelAt(c, ms, log, self, gone) && OnceEach(log) && InOrder(es, ms, log, self)
    ensures OnEntries(c, es).thrown <==> c.thrown || ReplaysOutOfPlace(c, es)
    ensures ReplaysOutOfPlace(c, es) ==> Revives(es, gone)
    ensures !ReplaysOutOfPlace(c, es) ==> PanelAt(OnEntries(c, es), ms, log, self, gone + LeftIds(es))
    decreases |es|
  {
    if es == [] {
      assert LeftIds(es) == {} && gone + {} == gone;
    } else {
      var e, rest := es[0], es[1..];
      var gone' := if e.Left? then gone + {e.peerId} else gone;
      assert es == [e] + rest && e in es;
      EntryWalks(c, e, ms, ms, log, self, gone, gone');
      ReplayGoesOn(c, es);
      if Throws(c, e) {
        ThrowIsKept(c, e);
      } else {
        RestInOrder(es, ms, log, self);
        EntriesWalk(OnEntry(c, e), rest, ms, log, self, gone');
        LeftIdsCons(e, rest, gone);
        if ReplaysOutOfPlace(OnEntry(c, e), rest) {
          RevivesEarlier(es, ms, log, self, gone);
        }
      }
    }
  }

  // ---- Messages ----

  /** What a room may send next to peer `self`, after the messages `done`. */
  ghost predicate Sensible(done: seq<Message>, m: Message, log: seq<Entry>, self: int) {
    match m
    case Info(id, _, peers, _) =>
      && id == self && self != 0 && self in IdSet(peers) && UniqueIds(peers)
      && NoInfo(done) && !Hears(done, self)
      && (forall p :: p in peers ==>
          Joined(p.id, p.name) in log && p.id != 0 && Broadcast(Left(p.id)) !in done)
      && InOrder(Replayed(m), done + [m], log, self)
    case Broadcast(e) =>
      && (e.Joined? ==> e in log && !Hears(done, e.peerId) && e.peerId != 0 && e.peerId != self)
      && (e.Left? ==> e in log && e.peerId != self && e.peerId != 0)
    case _ => true
  }

  /** Those whose departure was broadcast. */
  function SaidGone(done: seq<Message>): set<int> {
    LeftIds(Entries(done))
  }

  /** Who may still have an element without being in the map: before the snapshot, only those said to be gone. */
  function MayFade(c: Client, done: seq<Message>): set<int> {
    if NoInfo(done) then SaidGone(done) else set e | e in c.children :: e.id
  }

  ghost predicate PanelOk(c: Client, done: seq<Message>, log: seq<Entry>, self: int) {
    PanelAt(c, done, log, if NoInfo(done) then 0 else self, MayFade(c, done))
  }

  /** The INFO whose history brings back a peer that was said to be gone. */
  ghost predicate BringsBack(done: seq<Message>, m: Message, a: int) {
    m.Info? && a in SaidGone(done) && exists e :: e in Replayed(m) && Announces(e, a)
  }

  lemma NoneFades(c: Client, ms: seq<Message>, log: seq<Entry>, self: int, gone: set<int>)
    requires PanelAt(c, ms, log, self, gone)
    ensures PanelAt(c, ms, log, self, set e | e in c.children :: e.id)
  {
  }

  lemma LeftIdsAppend(es: seq<Entry>, e: Entry)
    ensures LeftIds(es + [e]) == if e.Left? then LeftIds(es) + {e.peerId} else LeftIds(es)
  {
    assert forall x :: x in es + [e] <==> x in es || x == e;
  }

  lemma BroadcastWalks(c: Client, done: seq<Message>, e: Entry, log: seq<Entry>, self: int)
    requires PanelOk(c, done, log, self) && OnceEach(log) && Sensible(done, Broadcast(e), log, self) && self != 0
    ensures OnMessage(c, Broadcast(e)).thrown == c.thrown
    ensures PanelOk(OnMessage(c, Broadcast(e)), done + [Broadcast(e)], log, self)
  {
    var m := Broadcast(e);
    var ms' := done + [m];
    var gone := MayFade(c, done);
    var gone' := if e.Left? then gone + {e.peerId} else gone;
    forall a ensures Hears(ms', a) <==> Hears(done, a) || Tells(m, a) {
      HearsAppend(done, m, a);
    }
    EntryWalks(c, e, done, ms', log, if NoInfo(done) then 0 else self, gone, gone');
    EntriesAppend(done, m);
    assert NoInfo(ms') <==> NoInfo(done) by {
      assert forall x :: x in ms' <==> x in done || x == m;
    }
    if NoInfo(done) {
      LeftIdsAppend(Entries(done), e);
    } else {
      NoneFades(OnEntry(c, e), ms', log, self, gone');
    }
  }

  // ---- The INFO ----

  lemma {:induction false} EntriesHave(ms: seq<Message>, e: Entry)
    ensures e in Entries(ms) <==> Broadcast(e) in ms
  {
    if ms == [] {
    } else {
      assert ms == [ms[0]] + ms[1..];
      EntriesHave(ms[1..], e);
      if ms[0].Broadcast? {
        assert Entries(ms) == [ms[0].entry] + Entries(ms[1..]);
      }
    }
  }

  lemma SaidGoneSays(done: seq<Message>, a: int)
    ensures a in SaidGone(done) <==> Broadcast(Left(a)) in done
  {
    EntriesHave(done, Left(a));
    if a in SaidGone(done) {
      var e :| e in Entries(done) && e.Left? && e.peerId == a;
      assert e == Left(a);
    }
  }

  /** The names in both lists are those of the log, so the snapshot only adds to the map, at its end. */
  lemma {:induction false} PutAllExtends(m: PeersMap, peers: seq<PeerEntry>, log: seq<Entry>)
    returns (extra: PeersMap)
    requires OnceEach(log) && UniqueIds(m)
    requires forall p :: p in m || p in peers ==> Joined(p.id, p.name) in log
    ensures PutAll(m, peers) == m + extra && UniqueIds(m + extra) && IdSet(m) !! IdSet(extra)
    ensures forall p :: p in extra ==> p in peers
    decreases |peers|
  {
    if peers == [] {
      extra := [];
      assert m + [] == m;
    } else {
      var p := peers[0];
      assert p in peers && forall q :: q in peers[1..] ==> q in peers;
      PutIdSet(m, p.id, p.name);
      if p.id in IdSet(m) {
        AgainIsSame(m, p, log);
        extra := PutAllExtends(m, peers[1..], log);
      } else {
        PutFresh(m, p.id, p.name);
        assert p == PeerEntry(p.id, p.name);
        var more := PutAllExtends(m + [p], peers[1..], log);
        extra := [p] + more;
        assert (m + [p]) + more == m + extra && extra[1..] == more;
        IdSetAppend(m, p);
      }
    }
  }

  lemma {:induction false} IdSetOfBoth(m: PeersMap, extra: PeersMap)
    ensures IdSet(m + extra) == IdSet(m) + IdSet(extra)
  {
    if m == [] {
      assert m + extra == extra;
    } else {
      assert (m + extra)[1..] == m[1..] + extra;
      IdSetOfBoth(m[1..], extra);
    }
  }

  lemma ExtendsCompatibly(m: PeersMap, extra: PeersMap)
    requires IdSet(m) !! IdSet(extra)
    ensures Compatible(m, m + extra)
  {
    KeepAppend(m, extra, IdSet(m));
    KeepAll(m, IdSet(m));
    KeepNone(extra, IdSet(m));
    assert m + [] == m;
    IdSetOfBoth(m, extra);
    KeepAll(m, IdSet(m + extra));
  }

  lemma {:induction false} OthersWithout(s: seq<PeerEntry>, self: int, other: int)
    requires self !in IdSet(s) && other !in IdSet(s)
    ensures Others(s, self) == Others(s, other)
  {
    if s == [] {
    } else {
      OthersWithout(s[1..], self, other);
    }
  }

  /** As long as it is not in its own map, a browser does not care who it is. */
  lemma SelfIsNothing(c: Client, self: int)
    requires Walks(c) && c.self !in IdSet(c.view) && self !in IdSet(c.view)
    ensures Walks(c.(self := self))
  {
    SortIds(c.view);
    OthersWithout(StableSort(c.view), c.self, self);
  }

  lemma {:induction false} InPeers(peers: seq<PeerEntry>, x: int)
    requires x in IdSet(peers)
    ensures exists p :: p in peers && p.id == x
  {
    if peers[0].id == x {
      assert peers[0] in peers;
    } else {
      InPeers(peers[1..], x);
      var p :| p in peers[1..] && p.id == x;
      assert p in peers;
    }
  }

  lemma SnapshotIsSmooth(c: Client, done: seq<Message>, m: Message, log: seq<Entry>, self: int)
    requires PanelOk(c, done, log, self) && m.Info? && Sensible(done, m, log, self) && OnceEach(log)
    requires forall e :: e in log && e.Joined? ==> e.peerId != 0
    ensures Walks(c.(self := self)) && Smoothly(c.(self := self), PutAll(c.view, m.peers))
    ensures IdSet(PutAll(c.view, m.peers)) == IdSet(c.view) + IdSet(m.peers)
    ensures forall p :: p in PutAll(c.view, m.peers) ==> Joined(p.id, p.name) in log
  {
    IdSetHas(c.view);
    forall x | x in IdSet(c.view) ensures x != 0 && x != self {
      ToMapKeys(c.view);
      ToMapHas(c.view);
      assert PeerEntry(x, ToMap(c.view)[x]) in c.view;
    }
    SelfIsNothing(c, self);
    var extra := PutAllExtends(c.view, m.peers, log);
    ExtendsCompatibly(c.view, extra);
    PutAllIds(c.view, m.peers);
    forall e | e in c.children && e.id in IdSet(PutAll(c.view, m.peers)) ensures e.id in IdSet(c.view) {
      if e.id !in IdSet(c.view) {
        SaidGoneSays(done, e.id);
        InPeers(m.peers, e.id);
      }
    }
  }

  /** The snapshot itself never throws. */
  lemma SnapshotWalks(c: Client, done: seq<Message>, m: Message, log: seq<Entry>, self: int)
    requires PanelOk(c, done, log, self) && m.Info? && Sensible(done, m, log, self) && OnceEach(log)
    requires forall e :: e in log && e.Joined? ==> e.peerId != 0
    ensures
      var c' := UpdateParticipants(AtSnapshot(c, m));
      && !Fails(AtSnapshot(c, m)) && c'.thrown == c.thrown && c'.rendered
      && PanelAt(c', done + [m], log, self, SaidGone(done))
  {
    var start := AtSnapshot(c, m);
    var view := PutAll(c.view, m.peers);
    SnapshotIsSmooth(c, done, m, log, self);
    if c.rendered {
      SmoothlyWalks(c.(self := self), view);
    }
    assert start == c.(self := self, view := view);
    UpdateWalks(start);
    RenderPresent(view, self);
    var ms' := done + [m];
    forall a ensures Hears(ms', a) <==> Hears(done, a) || Tells(m, a) {
      HearsAppend(done, m, a);
    }
  }

  /** The history of the INFO brings back somebody out of place. */
  ghost predicate OutOfPlace(c: Client, m: Message) {
    m.Info? && ReplaysOutOfPlace(UpdateParticipants(AtSnapshot(c, m)), Replayed(m))
  }

  ghost predicate SoundLog(log: seq<Entry>) {
    OnceEach(log) && forall e :: e in log && e.Joined? ==> e.peerId != 0
  }

  lemma RevivesBrings(done: seq<Message>, m: Message)
    requires m.Info?
    ensures Revives(Replayed(m), SaidGone(done)) ==> exists a :: BringsBack(done, m, a)
  {
    if Revives(Replayed(m), SaidGone(done)) {
      var e :| e in Replayed(m) && e.Joined? && e.peerId in SaidGone(done);
      assert BringsBack(done, m, e.peerId);
    }
  }

  lemma InfoWalks(c: Client, done: seq<Message>, m: Message, log: seq<Entry>, self: int)
    requires PanelOk(c, done, log, self) && m.Info? && Sensible(done, m, log, self) && SoundLog(log)
    ensures OnMessage(c, m).thrown <==> c.thrown || OutOfPlace(c, m)
    ensures OutOfPlace(c, m) ==> exists a :: BringsBack(done, m, a)
    ensures !OutOfPlace(c, m) ==> PanelOk(OnMessage(c, m), done + [m], log, self)
  {
    var start := UpdateParticipants(AtSnapshot(c, m));
    SnapshotWalks(c, done, m, log, self);
    EntriesWalk(start, Replayed(m), done + [m], log, self, SaidGone(done));
    if OutOfPlace(c, m) {
      RevivesBrings(done, m);
    } else {
      assert m in done + [m];
      NoneFades(OnMessage(c, m), done + [m], log, self, SaidGone(done) + LeftIds(Replayed(m)));
    }
  }

  lemma NoteWalks(c: Client, done: seq<Message>, m: Message, log: seq<Entry>, self: int)
    requires PanelOk(c, done, log, self) && !m.Info? && !m.Broadcast?
    ensures PanelOk(c, done + [m], log, self)
  {
    forall a ensures Hears(done + [m], a) <==> Hears(done, a) {
      HearsAppend(done, m, a);
    }
    EntriesAppend(done, m);
    assert Entries(done) + [] == Entries(done);
    assert NoInfo(done + [m]) <==> NoInfo(done) by {
      assert forall x :: x in done + [m] <==> x in done || x == m;
    }
  }

  /**
   Exactly when a message a browser handles makes it throw: it is its INFO, and replaying the history comes to
   the arrival of a peer whose element is still fading with somebody's element on the wrong side of it. Such a peer
   was said to be gone before the INFO.
   */
  lemma MessageWalks(c: Client, done: seq<Message>, m: Message, log: seq<Entry>, self: int)
    requires PanelOk(c, done, log, self) && Sensible(done, m, log, self) && SoundLog(log) && self != 0
    ensures OnMessage(c, m).thrown <==> c.thrown || OutOfPlace(c, m)
    ensures OutOfPlace(c, m) ==> exists a :: BringsBack(done, m, a)
    ensures !OutOfPlace(c, m) ==> PanelOk(OnMessage(c, m), done + [m], log, self)
  {
    match m
    case Info(_, _, _, _) => InfoWalks(c, done, m, log, self);
    case Broadcast(e) => BroadcastWalks(c, done, e, log, self);
    case _ => NoteWalks(c, done, m, log, self);
  }

  lemma FadeOutKeepsPanel(c: Client, done: seq<Message>, log: seq<Entry>, self: int, handle: nat)
    requires PanelOk(c, done, log, self)
    ensures PanelOk(FinishRemoval(c, handle), done, log, self)
  {
    FadeOutWalks(c, handle);
  }

  // ---- The panel of a browser that nobody comes back to ----

  lemma EntryShown(c: Client, e: Entry, ms: seq<Message>, log: seq<Entry>, self: int, gone: set<int>)
    requires Shown(c) && PanelAt(c, ms, log, self, gone) && OnceEach(log)
    requires e.Joined? ==> e in log && e.peerId !in gone
    ensures Shown(OnEntry(c, e)) && (c.rendered ==> OnEntry(c, e).rendered)
  {
    match e
    case Joined(id, name) =>
      ToMapKeys(c.view);
      if id in IdSet(c.view) {
        AgainChangesNothing(c, ms, log, self, gone, e);
        ToMapHas(c.view);
        var other := ToMap(c.view)[id];
        assert PeerEntry(id, other) in c.view;
        OneName(log, id, name, other);
      }
      if c.rendered {
        JoinedShows(c, id, name);
      } else {
        PutIdSet(c.view, id, name);
        FirstRendering(c, c.self, Put(c.view, id, name));
      }
    case Left(id) =>
      if c.rendered {
        LeftShows(c, id);
      } else {
        KeepFacts(c.view, IdSet(c.view) - {id});
        FirstRendering(c, c.self, Remove(c.view, id));
      }
    case _ =>
  }

  lemma {:induction false} EntriesShown(c: Client, es: seq<Entry>, ms: seq<Message>, log: seq<Entry>, self: int,
                                        gone: set<int>)
    requires Shown(c) && c.rendered && PanelAt(c, ms, log, self, gone) && OnceEach(log)
    requires InOrder(es, ms, log, self) && !Revives(es, gone)
    ensures Shown(OnEntries(c, es)) && OnEntries(c, es).rendered
    decreases |es|
  {
    if es == [] {
    } else {
      var e, rest := es[0], es[1..];
      var gone' := if e.Left? then gone + {e.peerId} else gone;
      assert e in es;
      EntryWalks(c, e, ms, ms, log, self, gone, gone');
      EntryShown(c, e, ms, log, self, gone);
      RestInOrder(es, ms, log, self);
      if Revives(rest, gone') {
        RevivesEarlier(es, ms, log, self, gone);
      }
      EntriesShown(OnEntry(c, e), rest, ms, log, self, gone');
    }
  }

  lemma SnapshotShown(c: Client, done: seq<Message>, m: Message, log: seq<Entry>, self: int)
    requires Shown(c) && PanelOk(c, done, log, self) && m.Info? && Sensible(done, m, log, self) && SoundLog(log)
    ensures Shown(UpdateParticipants(AtSnapshot(c, m))) && UpdateParticipants(AtSnapshot(c, m)).rendered
  {
    var view := PutAll(c.view, m.peers);
    SnapshotIsSmooth(c, done, m, log, self);
    if c.rendered {
      IdSetHas(c.view);
      forall x | x in IdSet(c.view) ensures x != 0 && x != self {
        ToMapKeys(c.view);
        ToMapHas(c.view);
        assert PeerEntry(x, ToMap(c.view)[x]) in c.view;
      }
      SortIds(c.view);
      OthersWithout(StableSort(c.view), c.self, self);
      UpdateShows(c.(self := self), view);
    } else {
      FirstRendering(c, self, view);
    }
    assert AtSnapshot(c, m) == c.(self := self, view := view);
  }

  /** Nobody comes back with this message. */
  ghost predicate BringsNobodyBack(done: seq<Message>, m: Message) {
    forall a :: !BringsBack(done, m, a)
  }

  lemma MessageShown(c: Client, done: seq<Message>, m: Message, log: seq<Entry>, self: int)
    requires Shown(c) && PanelOk(c, done, log, self) && Sensible(done, m, log, self) && SoundLog(log) && self != 0
    requires BringsNobodyBack(done, m)
    ensures Shown(OnMessage(c, m)) && (c.rendered || m.Info? ==> OnMessage(c, m).rendered)
  {
    match m
    case Info(_, _, _, _) =>
      SnapshotShown(c, done, m, log, self);
      SnapshotWalks(c, done, m, log, self);
      RevivesBrings(done, m);
      EntriesShown(UpdateParticipants(AtSnapshot(c, m)), Replayed(m), done + [m], log, self, SaidGone(done));
    case Broadcast(e) =>
      var who := if NoInfo(done) then 0 else self;
      var gone := if e.Joined? then MayFade(c, done) - {e.peerId} else MayFade(c, done);
      assert PanelAt(c, done, log, who, gone);
      EntryShown(c, e, done, log, who, gone);
    case _ =>
  }
}

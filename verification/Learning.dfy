/** What a browser learns from its messages, whatever their order and whether its handler throws or not. */
module Learning {
  import opened Messages
  import opened Participants
  import opened ClientSpec
  import opened Membership

  predicate Announces(e: Entry, a: int) {
    e.Joined? && e.peerId == a
  }

  /** A message from which a browser learns of peer `a`. */
  predicate Tells(m: Message, a: int) {
    match m
    case Info(_, _, peers, _) => a in IdSet(peers) || exists e :: e in Replayed(m) && Announces(e, a)
    case Broadcast(e) => Announces(e, a)
    case _ => false
  }

  predicate Hears(ms: seq<Message>, a: int) {
    exists m :: m in ms && Tells(m, a)
  }

  lemma HearsAppend(ms: seq<Message>, m: Message, a: int)
    ensures Hears(ms + [m], a) <==> Hears(ms, a) || Tells(m, a)
  {
    if Hears(ms, a) {
      var x :| x in ms && Tells(x, a);
      assert x in ms + [m];
    }
    assert m in ms + [m];
  }

  // ---- What a browser can know ----

  lemma {:induction false} PutIds(m: PeersMap, id: int, name: string)
    ensures IdSet(Put(m, id, name)) == IdSet(m) + {id}
  {
    if m == [] || m[0].id == id {
    } else {
      PutIds(m[1..], id, name);
    }
  }

  lemma {:induction false} PutAllIds(m: PeersMap, peers: seq<PeerEntry>)
    ensures IdSet(PutAll(m, peers)) == IdSet(m) + IdSet(peers)
    decreases |peers|
  {
    if peers == [] {
    } else {
      PutIds(m, peers[0].id, peers[0].name);
      PutAllIds(Put(m, peers[0].id, peers[0].name), peers[1..]);
    }
  }

  lemma {:induction false} KeepIdSet(m: PeersMap, ids: set<int>)
    ensures IdSet(Keep(m, ids)) == IdSet(m) * ids
  {
    if m == [] {
    } else {
      KeepIdSet(m[1..], ids);
    }
  }

  lemma EntryTeaches(c: Client, e: Entry, a: int)
    requires a in IdSet(OnEntry(c, e).view)
    ensures a in IdSet(c.view) || Announces(e, a)
  {
    match e
    case Joined(id, name) => PutIds(c.view, id, name);
    case Left(id) => KeepIdSet(c.view, IdSet(c.view) - {id});
    case _ =>
  }

  lemma {:induction false} EntriesTeach(c: Client, es: seq<Entry>, a: int)
    requires a in IdSet(OnEntries(c, es).view)
    ensures a in IdSet(c.view) || exists e :: e in es && Announces(e, a)
    decreases |es|
  {
    if es == [] {
    } else {
      if !Throws(c, es[0]) {
        EntriesTeach(OnEntry(c, es[0]), es[1..], a);
      }
      if a in IdSet(OnEntry(c, es[0]).view) {
        EntryTeaches(c, es[0], a);
      }
    }
  }

  /** A browser knows only the peers it knew or is told of, whether its handler throws or not. */
  lemma MessageTeaches(c: Client, m: Message, a: int)
    requires a in IdSet(OnMessage(c, m).view)
    ensures a in IdSet(c.view) || Tells(m, a)
  {
    match m
    case Info(_, _, peers, _) =>
      PutAllIds(c.view, peers);
      if !Fails(AtSnapshot(c, m)) {
        EntriesTeach(UpdateParticipants(AtSnapshot(c, m)), Replayed(m), a);
      }
    case Broadcast(e) => EntryTeaches(c, e, a);
    case _ =>
  }

  // ---- What messages do to a browser's map ----

  /** What a message says about the browser's map. */
  function Learnt(m: map<int, string>, x: Message): map<int, string> {
    match x
    case Info(_, _, peers, _) => Replay(m + ToMap(peers), Replayed(x))
    case Broadcast(e) => ReplayOne(m, e)
    case _ => m
  }

  function LearntAll(m: map<int, string>, ms: seq<Message>): map<int, string>
    decreases |ms|
  {
    if ms == [] then m else LearntAll(Learnt(m, ms[0]), ms[1..])
  }

  lemma {:induction false} LearntAppend(m: map<int, string>, ms: seq<Message>, x: Message)
    ensures LearntAll(m, ms + [x]) == Learnt(LearntAll(m, ms), x)
    decreases |ms|
  {
    if ms == [] {
      assert ms + [x] == [x] && [x][1..] == [];
      assert LearntAll(m, [x]) == LearntAll(Learnt(m, x), []);
    } else {
      assert (ms + [x])[1..] == ms[1..] + [x];
      LearntAppend(Learnt(m, ms[0]), ms[1..], x);
    }
  }

  lemma PutEarlier(m: map<int, string>, n: map<int, string>, id: int, name: string)
    requires id !in n
    ensures m[id := name] + n == m + n[id := name]
  {
  }

  lemma {:induction false} PutAllLearns(m: PeersMap, peers: seq<PeerEntry>)
    requires UniqueIds(m) && UniqueIds(peers)
    ensures UniqueIds(PutAll(m, peers)) && ToMap(PutAll(m, peers)) == ToMap(m) + ToMap(peers)
    decreases |peers|
  {
    if peers == [] {
    } else {
      PutFacts(m, peers[0].id, peers[0].name);
      PutAllLearns(Put(m, peers[0].id, peers[0].name), peers[1..]);
      ToMapKeys(peers[1..]);
      PutEarlier(ToMap(m), ToMap(peers[1..]), peers[0].id, peers[0].name);
    }
  }

  lemma EntryLearns(c: Client, e: Entry)
    requires UniqueIds(c.view)
    ensures UniqueIds(OnEntry(c, e).view) && ToMap(OnEntry(c, e).view) == ReplayOne(ToMap(c.view), e)
  {
    match e
    case Joined(id, name) => PutFacts(c.view, id, name);
    case Left(id) =>
      KeepFacts(c.view, IdSet(c.view) - {id});
      ToMapKeys(c.view);
    case _ =>
  }

  /** How many entries of a history are handled: all of them, or those up to the one that throws. */
  function Handled(c: Client, es: seq<Entry>): (n: nat)
    ensures n <= |es| && (es != [] ==> 0 < n)
    decreases |es|
  {
    if es == [] then 0
    else if Throws(c, es[0]) then 1
    else 1 + Handled(OnEntry(c, es[0]), es[1..])
  }

  /** An entry that throws has changed the map all the same; the rest of the history is skipped. */
  lemma {:induction false} EntriesLearn(c: Client, es: seq<Entry>)
    requires UniqueIds(c.view)
    ensures UniqueIds(OnEntries(c, es).view)
    ensures ToMap(OnEntries(c, es).view) == Replay(ToMap(c.view), es[..Handled(c, es)])
    ensures !OnEntries(c, es).thrown ==> Handled(c, es) == |es|
    decreases |es|
  {
    if es == [] {
    } else {
      EntryLearns(c, es[0]);
      var done := es[..Handled(c, es)];
      assert done[0] == es[0];
      if Throws(c, es[0]) {
        assert done[1..] == [];
      } else {
        EntriesLearn(OnEntry(c, es[0]), es[1..]);
        assert done[1..] == es[1..][..Handled(OnEntry(c, es[0]), es[1..])];
      }
    }
  }

  /** The message with a history of its first `n` entries; 0 stands for the message as it is. */
  function Cut(m: Message, n: nat): Message {
    if m.Info? && 0 < n <= |Replayed(m)| then m.(history := Replayed(m)[..n]) else m
  }

  function CutAll(ms: seq<Message>, n: nat): seq<Message> {
    if ms == [] then [] else [Cut(ms[0], n)] + CutAll(ms[1..], n)
  }

  /** What a message makes of the browser's map; an INFO that throws counts as far as it was handled. */
  lemma MessageLearns(c: Client, x: Message) returns (n: nat)
    requires UniqueIds(c.view) && (x.Info? ==> UniqueIds(x.peers) && !Fails(AtSnapshot(c, x)))
    ensures UniqueIds(OnMessage(c, x).view) && ToMap(OnMessage(c, x).view) == Learnt(ToMap(c.view), Cut(x, n))
    ensures !OnMessage(c, x).thrown || !x.Info? ==> n == 0
  {
    n := 0;
    match x
    case Info(_, _, peers, _) =>
      var start := UpdateParticipants(AtSnapshot(c, x));
      PutAllLearns(c.view, peers);
      EntriesLearn(start, Replayed(x));
      if OnMessage(c, x).thrown {
        n := Handled(start, Replayed(x));
      } else {
        assert Replayed(x)[..|Replayed(x)|] == Replayed(x);
      }
    case Broadcast(e) => EntryLearns(c, e);
    case _ =>
  }

  lemma {:induction false} CutNothing(ms: seq<Message>, n: nat)
    requires n == 0 || forall m :: m in ms ==> !m.Info?
    ensures CutAll(ms, n) == ms
  {
    if ms == [] {
    } else {
      assert ms[0] in ms;
      CutNothing(ms[1..], n);
    }
  }

  lemma {:induction false} CutAppend(ms: seq<Message>, m: Message, n: nat)
    ensures CutAll(ms + [m], n) == CutAll(ms, n) + [Cut(m, n)]
  {
    if ms == [] {
      assert ms + [m] == [m] && [m][1..] == [];
    } else {
      assert (ms + [m])[1..] == ms[1..] + [m];
      CutAppend(ms[1..], m, n);
    }
  }
}

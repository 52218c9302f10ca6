/** What the streaming protocol guarantees, over every run of every number of files, hosts and readers. */
module StreamTheorems {
  import opened Basics
  import opened Chunks
  import opened Streaming
  import opened Sums

  lemma {:induction false} RunKeepsInv(s: System, honest: set<int>, events: seq<Event>)
    requires Inv(s, honest)
    ensures Inv(Run(s, honest, events), honest)
    decreases |events|
  {
    if events == [] {
    } else {
      StepKeepsInv(s, honest, events[0]);
      RunKeepsInv(Step(s, honest, events[0]), honest, events[1..]);
    }
  }

  lemma Reachable(honest: set<int>, events: seq<Event>)
    ensures Inv(Run(EMPTY, honest, events), honest)
  {
    RunKeepsInv(EMPTY, honest, events);
  }

  // ---- Exact reassembly ----

  /** A shared file keeps its host and its content for ever, and a subscriber id is never given out again. */
  lemma StepKeepsContent(s: System, honest: set<int>, e: Event, k: Key)
    requires Inv(s, honest) && HonestKey(s, honest, k)
    ensures HonestKey(Step(s, honest, e), honest, k)
    ensures Content(Step(s, honest, e), k) == Content(s, k)
    ensures Step(s, honest, e).shared[k.file] == s.shared[k.file]
    ensures k in s.streams ==> k in Step(s, honest, e).streams
  {
  }

  lemma {:induction false} RunKeepsContent(s: System, honest: set<int>, events: seq<Event>, k: Key)
    requires Inv(s, honest) && HonestKey(s, honest, k)
    ensures HonestKey(Run(s, honest, events), honest, k)
    ensures Content(Run(s, honest, events), k) == Content(s, k)
    ensures Run(s, honest, events).shared[k.file] == s.shared[k.file]
    ensures k in s.streams ==> k in Run(s, honest, events).streams
    decreases |events|
  {
    if events == [] {
    } else {
      StepKeepsContent(s, honest, events[0], k);
      StepKeepsInv(s, honest, events[0]);
      RunKeepsContent(Step(s, honest, events[0]), honest, events[1..], k);
    }
  }

  /**
   In every run, the bytes handed to a reader are the first `m_progress` bytes of the file that was shared
   under its `serverFileId`; what other runs of events follow does not change which file that is.
   */
  lemma ReassemblyIsExact(honest: set<int>, before: seq<Event>, after: seq<Event>, k: Key)
    requires HonestKey(Run(EMPTY, honest, before), honest, k)
    requires k in Run(Run(EMPTY, honest, before), honest, after).streams
    ensures
      var content := Content(Run(EMPTY, honest, before), k);
      var st := Run(Run(EMPTY, honest, before), honest, after).streams[k];
      && st.sub.progress <= |content| == Run(EMPTY, honest, before).shared[k.file].size
      && st.received == content[..st.sub.progress]
      && (st.reader == Ended ==> st.received == content)
  {
    Reachable(honest, before);
    var s := Run(EMPTY, honest, before);
    RunKeepsInv(s, honest, after);
    RunKeepsContent(s, honest, after, k);
    var s' := Run(s, honest, after);
    assert StreamOk(s'.streams[k], Content(s', k));
  }

  // ---- One outstanding chunk ----

  ghost function InFlight(s: System, honest: set<int>, k: Key): set<nat> {
    set i | i in s.net && Genuine(honest, s.net[i]) && s.net[i].key == k
  }

  lemma AtMostOne(x: set<nat>)
    requires forall i, j :: i in x && j in x ==> i == j
    ensures |x| <= 1
  {
    if i :| i in x {
      assert x == {i};
    }
  }

  /**
   A valid subscriber has at most one request in flight, reply in flight or buffered chunk, and it is for the
   position `m_progress` the subscriber stands at.
   */
  lemma OneOutstanding(honest: set<int>, events: seq<Event>, k: Key)
    requires k in Run(EMPTY, honest, events).registered
    requires HonestKey(Run(EMPTY, honest, events), honest, k)
    ensures
      var s := Run(EMPTY, honest, events);
      k in s.streams &&
      var st := s.streams[k];
      && |InFlight(s, honest, k)| + (if st.sub.chunk.Some? then 1 else 0) <= 1
      && (forall i :: i in InFlight(s, honest, k) ==>
          && (st.reader.Waiting? || st.reader.Retrying?)
          && (s.net[i].Request? ==> s.net[i].position == st.sub.progress)
          && (s.net[i].Reply? ==> s.net[i].data == Piece(Content(s, k), st.sub.progress, st.reader.count)))
      && (st.sub.chunk.Some? ==> st.reader.Waiting? || st.reader.Retrying?)
      && (st.sub.chunk.Some? ==> st.sub.chunk.value == Piece(Content(s, k), st.sub.progress, st.reader.count))
  {
    Reachable(honest, events);
    var s := Run(EMPTY, honest, events);
    var st := s.streams[k];
    forall i, j | i in InFlight(s, honest, k) && j in InFlight(s, honest, k) ensures i == j {
      assert Rivals(s, honest, s.net[i], s.net[j]);
    }
    AtMostOne(InFlight(s, honest, k));
    forall i | i in InFlight(s, honest, k)
      ensures Fits(s.net[i], s.shared[k.file], st, Content(s, k))
    {
      assert PacketOk(s, honest, s.net[i]);
    }
    assert StreamOk(st, Content(s, k));
    if i :| i in InFlight(s, honest, k) {
      assert st.sub.chunk.None?;
    } else {
      assert InFlight(s, honest, k) == {};
    }
  }

  /** With an honest host, "File chunk collision." and "Invalid chunk size" are never thrown. */
  lemma ErrorsUnreachable(honest: set<int>, events: seq<Event>, k: Key)
    requires HonestKey(Run(EMPTY, honest, events), honest, k)
    ensures
      var s := Run(EMPTY, honest, events);
      && (forall i | i in s.net && s.net[i].Reply? && s.net[i].key == k :: ChunkCheck(s, s.net[i]) != Collision)
      && (forall count | Enabled(s, honest, Read(k, count)) ::
          ReadChunk(s.streams[k].sub, s.shared[k.file].size, count).1 != InvalidChunkSize)
  {
    Reachable(honest, events);
    var s := Run(EMPTY, honest, events);
    forall i | i in s.net && s.net[i].Reply? && s.net[i].key == k
      ensures ChunkCheck(s, s.net[i]) != Collision
    {
      assert PacketOk(s, honest, s.net[i]);
    }
    forall count | Enabled(s, honest, Read(k, count))
      ensures ReadChunk(s.streams[k].sub, s.shared[k.file].size, count).1 != InvalidChunkSize
    {
      ReadKeepsStream(s.streams[k], Content(s, k), count);
    }
  }

  /**
   Whoever the host is and whatever it sends: what a step hands to a reader fits the buffer the reader brought, and
   a read that finds a longer chunk ends the download with an error and hands out nothing.
   */
  lemma ReadsFitTheirBuffer(honest: set<int>, events: seq<Event>, e: Event, k: Key)
    requires k in Run(EMPTY, honest, events).streams
    ensures
      var s := Run(EMPTY, honest, events);
      var s' := Step(s, honest, e);
      && k in s'.streams && s.streams[k].received <= s'.streams[k].received
      && |s'.streams[k].received| - |s.streams[k].received| <= (if e.Read? && e.key == k then e.count else 0)
      && (e.Read? && e.key == k && Enabled(s, honest, e) && s.streams[k].sub.valid &&
          s.streams[k].sub.progress < s.shared[k.file].size &&
          s.streams[k].sub.chunk.Some? && e.count < |s.streams[k].sub.chunk.value| ==>
          && s'.streams[k] == s.streams[k].(reader := Failed)
          && s'.net == s.net && s'.served == s.served)
  {
    Reachable(honest, events);
  }

  lemma RunSix(s: System, honest: set<int>, a: Event, b: Event, c: Event, d: Event, e: Event, f: Event)
    ensures Run(s, honest, [a, b, c, d, e, f]) ==
      Step(Step(Step(Step(Step(Step(s, honest, a), honest, b), honest, c), honest, d), honest, e), honest, f)
  {
    var s1 := Step(s, honest, a);
    var s2 := Step(s1, honest, b);
    var s3 := Step(s2, honest, c);
    var s4 := Step(s3, honest, d);
    var s5 := Step(s4, honest, e);
    assert [a, b, c, d, e, f][1..] == [b, c, d, e, f];
    assert [b, c, d, e, f][1..] == [c, d, e, f];
    assert [c, d, e, f][1..] == [d, e, f];
    assert [d, e, f][1..] == [e, f];
    assert [e, f][1..] == [f];
    assert Run(s5, honest, [f]) == Step(s5, honest, f);
    assert Run(s4, honest, [e, f]) == Run(s5, honest, [f]);
    assert Run(s3, honest, [d, e, f]) == Run(s4, honest, [e, f]);
    assert Run(s2, honest, [c, d, e, f]) == Run(s3, honest, [d, e, f]);
    assert Run(s1, honest, [b, c, d, e, f]) == Run(s2, honest, [c, d, e, f]);
  }

  /** A host that sends a reply nobody asked for can make a chunk collide. */
  lemma DishonestHostCollides()
    ensures
      var k := Key(1, 1);
      var events := [Join(7), Share(7, 5, 10), Subscribe(1), Inject(7, k, [1]), Deliver(0), Inject(7, k, [2])];
      var s := Run(EMPTY, {}, events);
      1 in s.net && s.net[1].Reply? && ChunkCheck(s, s.net[1]) == Collision
  {
    var k := Key(1, 1);
    var s1 := Step(EMPTY, {}, Join(7));
    var s2 := Step(s1, {}, Share(7, 5, 10));
    var s3 := Step(s2, {}, Subscribe(1));
    assert s3.streams == map[k := NEW_STREAM];
    var s4 := Step(s3, {}, Inject(7, k, [1]));
    var s5 := Step(s4, {}, Deliver(0));
    assert s5.streams[k].sub.chunk.Some?;
    var s6 := Step(s5, {}, Inject(7, k, [2]));
    RunSix(EMPTY, {}, Join(7), Share(7, 5, 10), Subscribe(1), Inject(7, k, [1]), Deliver(0), Inject(7, k, [2]));
  }

  // ---- Departures ----

  /** After its host was removed, a subscriber's reader receives nothing more and never sees an end of stream. */
  predicate CutOff(st: Stream, received: Bytes) {
    !st.sub.valid && st.received == received && st.reader != Ended
  }

  lemma StepKeepsCutOff(s: System, honest: set<int>, e: Event, k: Key, received: Bytes)
    requires Inv(s, honest) && k in s.streams && CutOff(s.streams[k], received)
    ensures k in Step(s, honest, e).streams && CutOff(Step(s, honest, e).streams[k], received)
  {
  }

  lemma {:induction false} RunKeepsCutOff(s: System, honest: set<int>, events: seq<Event>, k: Key, received: Bytes)
    requires Inv(s, honest) && k in s.streams && CutOff(s.streams[k], received)
    ensures k in Run(s, honest, events).streams && CutOff(Run(s, honest, events).streams[k], received)
    decreases |events|
  {
    if events == [] {
    } else {
      StepKeepsCutOff(s, honest, events[0], k, received);
      StepKeepsInv(s, honest, events[0]);
      RunKeepsCutOff(Step(s, honest, events[0]), honest, events[1..], k, received);
    }
  }

  /**
   Once a host is removed, every subscriber then registered on one of its files throws on its next read,
   whatever happens in between, so a departure never looks like the end of a short file.
   */
  lemma HostGoneMeansError(honest: set<int>, before: seq<Event>, peer: int, after: seq<Event>, k: Key, count: nat)
    requires
      var s := Run(EMPTY, honest, before);
      peer in s.members && k in s.registered && k.file in s.shared && s.shared[k.file].host == peer &&
      k in s.streams && s.streams[k].reader != Ended
    ensures
      var s := Run(EMPTY, honest, before);
      var s' := Run(Step(s, honest, Leave(peer)), honest, after);
      && k in s'.streams && k.file in s'.shared
      && s'.streams[k].received == s.streams[k].received
      && s'.streams[k].reader != Ended
      && ReadChunk(s'.streams[k].sub, s'.shared[k.file].size, count).1 == NotValid
      && (s'.streams[k].reader.Waiting? ==> CanWake(s'.streams[k]))
  {
    Reachable(honest, before);
    var s := Run(EMPTY, honest, before);
    StepKeepsInv(s, honest, Leave(peer));
    var s1 := Step(s, honest, Leave(peer));
    RunKeepsCutOff(s1, honest, after, k, s.streams[k].received);
    RunKeepsInv(s1, honest, after);
  }

  lemma StepKeepsGone(s: System, honest: set<int>, e: Event, k: Key)
    requires Inv(s, honest) && k in s.streams && s.streams[k].reader == Gone
    ensures k in Step(s, honest, e).streams && Step(s, honest, e).streams[k] == s.streams[k]
  {
  }

  /**
   A destroyed subscriber is out of `m_subscribers`, its id is never reused, and no later event, a late
   chunk for it included, touches it.
   */
  lemma {:induction false} DepartedStaysDeparted(s: System, honest: set<int>, events: seq<Event>, k: Key)
    requires Inv(s, honest) && k in s.streams && s.streams[k].reader == Gone
    ensures k in Run(s, honest, events).streams && Run(s, honest, events).streams[k] == s.streams[k]
    ensures k !in Run(s, honest, events).registered
    decreases |events|
  {
    if events == [] {
    } else {
      StepKeepsGone(s, honest, events[0], k);
      StepKeepsInv(s, honest, events[0]);
      DepartedStaysDeparted(Step(s, honest, events[0]), honest, events[1..], k);
    }
  }

  /** A chunk for a subscriber that left, or from a peer that is not the host, changes no subscriber at all. */
  lemma StrayChunkIgnored(s: System, honest: set<int>, i: nat)
    requires Inv(s, honest) && i in s.net && s.net[i].Reply?
    requires s.net[i].key !in s.registered ||
      (s.net[i].key.file in s.shared && s.shared[s.net[i].key.file].host != s.net[i].from)
    ensures Step(s, honest, Deliver(i)) == s.(net := s.net - {i})
  {
  }

  // ---- Conservation of served bytes ----

  function ProgressOf(m: map<Key, Stream>): map<Key, nat> {
    map k | k in m :: m[k].sub.progress
  }

  ghost function TotalProgress(m: map<Key, Stream>): nat {
    Sum(ProgressOf(m))
  }

  lemma TotalSame(m: map<Key, Stream>, m': map<Key, Stream>)
    requires m.Keys == m'.Keys
    requires forall k :: k in m ==> m[k].sub.progress == m'[k].sub.progress
    ensures TotalProgress(m) == TotalProgress(m')
  {
    forall k | k in m ensures k in m' {
      assert k in m.Keys;
    }
    assert ProgressOf(m) == ProgressOf(m');
  }

  lemma TotalUpdated(m: map<Key, Stream>, k: Key, st: Stream)
    ensures TotalProgress(m[k := st]) ==
      TotalProgress(m) + st.sub.progress - (if k in m then m[k].sub.progress else 0)
  {
    SumUpdated(ProgressOf(m), k, st.sub.progress);
    assert ProgressOf(m[k := st]) == ProgressOf(m)[k := st.sub.progress];
  }

  lemma ReadServes(s: System, key: Key, count: nat)
    requires key in s.streams && key.file in s.shared && CanRead(s.streams[key], count)
    requires s.served == TotalProgress(s.streams)
    ensures DoRead(s, key, count).served == TotalProgress(DoRead(s, key, count).streams)
  {
    TotalUpdated(s.streams, key, DoRead(s, key, count).streams[key]);
  }

  lemma OtherStepsServeNothing(s: System, honest: set<int>, e: Event)
    requires Inv(s, honest) && Enabled(s, honest, e) && !e.Read?
    ensures TotalProgress(Step(s, honest, e).streams) == TotalProgress(s.streams)
    ensures Step(s, honest, e).served == s.served
  {
    match e {
      case Subscribe(file) =>
        assert Key(file, s.subIdCounter[file]) !in s.streams;
        TotalUpdated(s.streams, Key(file, s.subIdCounter[file]), NEW_STREAM);
      case Wake(key) => TotalSame(s.streams, Step(s, honest, e).streams);
      case Close(key) => TotalSame(s.streams, Step(s, honest, e).streams);
      case Deliver(i) => TotalSame(s.streams, DoDeliver(s, i).streams);
      case Leave(peer) => TotalSame(s.streams, DoLeave(s, peer).streams);
      case _ =>
    }
  }

  lemma StepKeepsServed(s: System, honest: set<int>, e: Event)
    requires Inv(s, honest) && s.served == TotalProgress(s.streams)
    ensures Step(s, honest, e).served == TotalProgress(Step(s, honest, e).streams)
  {
    if Enabled(s, honest, e) && !e.Read? {
      OtherStepsServeNothing(s, honest, e);
    } else if Enabled(s, honest, e) {
      ReadServes(s, e.key, e.count);
    }
  }

  lemma {:induction false} ServedFrom(s: System, honest: set<int>, events: seq<Event>)
    requires Inv(s, honest) && s.served == TotalProgress(s.streams)
    ensures Run(s, honest, events).served == TotalProgress(Run(s, honest, events).streams)
    decreases |events|
  {
    if events == [] {
    } else {
      StepKeepsServed(s, honest, events[0]);
      StepKeepsInv(s, honest, events[0]);
      ServedFrom(Step(s, honest, events[0]), honest, events[1..]);
    }
  }

  /** FILE_SERVED_BYTES is the sum of `m_progress` over all subscribers ever created, honest hosts or not. */
  lemma ServedBytesAreProgress(honest: set<int>, events: seq<Event>)
    ensures Run(EMPTY, honest, events).served == TotalProgress(Run(EMPTY, honest, events).streams)
  {
    ServedFrom(EMPTY, honest, events);
  }

  // ---- Termination of a download ----

  /** The events that advance the download of `k`. */
  predicate Own(s: System, honest: set<int>, e: Event, k: Key) {
    Enabled(s, honest, e) &&
    match e
    case Read(key, _) => key == k
    case Wake(key) => key == k
    case Answer(i) => s.net[i].key == k
    case Deliver(i) => s.net[i].key == k && Genuine(honest, s.net[i])
    case _ => false
  }

  /** The events that end it early: a lost packet, a closed connection, a host that leaves. */
  predicate Disturbs(s: System, e: Event, k: Key) {
    match e
    case Lose(i) => i in s.net && s.net[i].key == k
    case Close(key) => key == k
    case Leave(peer) => k.file in s.shared && s.shared[k.file].host == peer
    case _ => false
  }

  ghost predicate Flowing(s: System, honest: set<int>, k: Key) {
    && HonestKey(s, honest, k) && k in s.registered && k in s.streams
    && (s.streams[k].reader.Waiting? ==>
        s.streams[k].sub.chunk.Some? || exists i :: i in s.net && Genuine(honest, s.net[i]) && s.net[i].key == k)
  }

  ghost function Rank(s: System, k: Key): nat
    requires k in s.streams
  {
    match s.streams[k].reader
    case Idle => 4
    case Waiting(_) =>
      if exists i :: i in s.net && s.net[i].Request? && s.net[i].key == k then 3
      else if s.streams[k].sub.chunk.None? then 2
      else 1
    case _ => 0
  }

  /** Five steps for every byte still missing, minus how far the current chunk has come. */
  ghost function Measure(s: System, k: Key): int
    requires k in s.streams
  {
    5 * (|Content(s, k)| - s.streams[k].sub.progress) + Rank(s, k)
  }

  lemma ReadAdvances(s: System, honest: set<int>, k: Key, count: nat)
    requires Inv(s, honest) && Flowing(s, honest, k) && Enabled(s, honest, Read(k, count))
    ensures Flowing(DoRead(s, k, count), honest, k)
    ensures Measure(DoRead(s, k, count), k) < Measure(s, k)
  {
    var s' := DoRead(s, k, count);
    var st := s.streams[k];
    ReadKeepsStream(st, Content(s, k), count);
    ReadKeepsInv(s, honest, k, count);
    StepKeepsContent(s, honest, Read(k, count), k);
    if st.reader == Idle && st.sub.progress < |Content(s, k)| {
      assert s'.net[s.nextPacket].Request? && s'.net[s.nextPacket].key == k;
      assert s'.streams[k].reader.Waiting?;
    }
  }

  lemma AnswerAdvances(s: System, honest: set<int>, k: Key, i: nat)
    requires Inv(s, honest) && Flowing(s, honest, k) && Own(s, honest, Answer(i), k)
    ensures Flowing(DoAnswer(s, i), honest, k)
    ensures Measure(DoAnswer(s, i), k) < Measure(s, k)
  {
    var s' := DoAnswer(s, i);
    assert PacketOk(s, honest, s.net[i]);
    assert i in s'.net && s'.net[i].Reply? && Genuine(honest, s'.net[i]) && s'.net[i].key == k;
    forall j | j in s'.net && s'.net[j].Request? && s'.net[j].key == k ensures false {
      assert Rivals(s, honest, s.net[i], s.net[j]);
    }
    assert Content(s', k) == Content(s, k);
  }

  lemma DeliverAdvances(s: System, honest: set<int>, k: Key, i: nat)
    requires Inv(s, honest) && Flowing(s, honest, k) && Own(s, honest, Deliver(i), k)
    ensures Flowing(DoDeliver(s, i), honest, k)
    ensures Measure(DoDeliver(s, i), k) < Measure(s, k)
  {
    var s' := DoDeliver(s, i);
    assert PacketOk(s, honest, s.net[i]);
    assert k in s.streams && RegisteredOk(s);
    assert ChunkCheck(s, s.net[i]) == Accepted;
    forall j | j in s.net && s.net[j].Request? && s.net[j].key == k ensures false {
      assert Rivals(s, honest, s.net[i], s.net[j]);
    }
    assert s'.streams[k].reader == s.streams[k].reader;
    assert s.streams[k].reader.Waiting?;
    assert Content(s', k) == Content(s, k);
  }

  lemma OwnStepAdvances(s: System, honest: set<int>, e: Event, k: Key)
    requires Inv(s, honest) && Flowing(s, honest, k) && Own(s, honest, e, k)
    ensures Flowing(Step(s, honest, e), honest, k)
    ensures Measure(Step(s, honest, e), k) < Measure(s, k)
  {
    match e
    case Read(key, count) => ReadAdvances(s, honest, k, count);
    case Answer(i) => AnswerAdvances(s, honest, k, i);
    case Deliver(i) => DeliverAdvances(s, honest, k, i);
    case Wake(key) =>
      var s' := Step(s, honest, e);
      assert Content(s', k) == Content(s, k);
  }

  lemma OtherStepKeepsStream(s: System, honest: set<int>, e: Event, k: Key)
    requires Inv(s, honest) && Flowing(s, honest, k) && !Own(s, honest, e, k) && !Disturbs(s, e, k)
    ensures k in Step(s, honest, e).streams && Step(s, honest, e).streams[k] == s.streams[k]
    ensures k in Step(s, honest, e).registered
  {
    if Enabled(s, honest, e) && e.Deliver? && s.net[e.packet].key == k {
      assert ChunkCheck(s, s.net[e.packet]) != Accepted;
    }
  }

  predicate Concerns(honest: set<int>, p: Packet, k: Key) {
    Genuine(honest, p) && p.key == k
  }

  /** The genuine packets for one subscriber are the same in both nets. */
  ghost predicate SamePackets(net: map<nat, Packet>, net': map<nat, Packet>, honest: set<int>, k: Key) {
    && (forall i :: i in net && Concerns(honest, net[i], k) ==> i in net' && net'[i] == net[i])
    && (forall i :: i in net' && Concerns(honest, net'[i], k) ==> i in net && net'[i] == net[i])
  }

  lemma OtherStepKeepsPackets(s: System, honest: set<int>, e: Event, k: Key)
    requires forall i :: i in s.net ==> i < s.nextPacket
    requires !Own(s, honest, e, k) && !Disturbs(s, e, k)
    ensures SamePackets(s.net, Step(s, honest, e).net, honest, k)
  {
    if Enabled(s, honest, e) {
      match e
      case Read(key, count) => assert key != k;
      case Answer(i) => assert !Concerns(honest, s.net[i], k);
      case Deliver(i) => assert !Concerns(honest, s.net[i], k);
      case _ =>
    }
  }

  lemma SameRank(s: System, s': System, honest: set<int>, k: Key)
    requires Flowing(s, honest, k) && SamePackets(s.net, s'.net, honest, k)
    requires k in s'.streams && s'.streams[k] == s.streams[k] && k in s'.registered && HonestKey(s', honest, k)
    ensures Flowing(s', honest, k) && Rank(s', k) == Rank(s, k)
  {
    if s.streams[k].reader.Waiting? && s.streams[k].sub.chunk.None? {
      var i :| i in s.net && Genuine(honest, s.net[i]) && s.net[i].key == k;
      assert Concerns(honest, s.net[i], k) && i in s'.net && s'.net[i] == s.net[i];
    }
    forall i | i in s.net && s.net[i].Request? && s.net[i].key == k ensures i in s'.net && s'.net[i] == s.net[i] {
      assert Concerns(honest, s.net[i], k);
    }
    forall i | i in s'.net && s'.net[i].Request? && s'.net[i].key == k ensures i in s.net && s'.net[i] == s.net[i] {
      assert Concerns(honest, s'.net[i], k);
    }
  }

  lemma OtherStepKeepsMeasure(s: System, honest: set<int>, e: Event, k: Key)
    requires Inv(s, honest) && Flowing(s, honest, k) && !Own(s, honest, e, k) && !Disturbs(s, e, k)
    ensures Flowing(Step(s, honest, e), honest, k)
    ensures Measure(Step(s, honest, e), k) == Measure(s, k)
  {
    OtherStepKeepsStream(s, honest, e, k);
    OtherStepKeepsPackets(s, honest, e, k);
    StepKeepsContent(s, honest, e, k);
    SameRank(s, Step(s, honest, e), honest, k);
  }

  ghost function OwnSteps(s: System, honest: set<int>, events: seq<Event>, k: Key): nat
    decreases |events|
  {
    if events == [] then 0
    else (if Own(s, honest, events[0], k) then 1 else 0) +
         OwnSteps(Step(s, honest, events[0]), honest, events[1..], k)
  }

  predicate Undisturbed(s: System, honest: set<int>, events: seq<Event>, k: Key)
    decreases |events|
  {
    events == [] ||
    (!Disturbs(s, events[0], k) && Undisturbed(Step(s, honest, events[0]), honest, events[1..], k))
  }

  lemma SomethingToDo(s: System, honest: set<int>, k: Key)
    requires Inv(s, honest) && Flowing(s, honest, k) && s.streams[k].reader != Ended
    ensures exists e :: Own(s, honest, e, k)
  {
    match s.streams[k].reader
    case Idle => assert Own(s, honest, Read(k, 1), k);
    case Retrying(c) => assert Own(s, honest, Read(k, c), k);
    case Waiting(_) =>
      if s.streams[k].sub.chunk.Some? {
        assert Own(s, honest, Wake(k), k);
      } else {
        var i :| i in s.net && Genuine(honest, s.net[i]) && s.net[i].key == k;
        assert Own(s, honest, if s.net[i].Request? then Answer(i) else Deliver(i), k);
      }
    case _ =>
  }

  /**
   A download whose host stays and answers terminates: in every undisturbed run, interleaved with anything
   else, at most `Measure` of its own steps happen, and as long as it has not ended one of them can happen.
   */
  lemma {:induction false} DownloadTerminates(s: System, honest: set<int>, events: seq<Event>, k: Key)
    requires Inv(s, honest) && Flowing(s, honest, k) && Undisturbed(s, honest, events, k)
    ensures
      var s' := Run(s, honest, events);
      && Flowing(s', honest, k) && Inv(s', honest)
      && 0 <= Measure(s', k)
      && OwnSteps(s, honest, events, k) + Measure(s', k) <= Measure(s, k)
      && (s'.streams[k].reader == Ended || exists e :: Own(s', honest, e, k))
      && (s'.streams[k].reader == Ended ==> s'.streams[k].received == Content(s', k))
    decreases |events|
  {
    if events == [] {
      assert StreamOk(s.streams[k], Content(s, k));
      if s.streams[k].reader != Ended {
        SomethingToDo(s, honest, k);
      }
    } else {
      var e := events[0];
      StepKeepsInv(s, honest, e);
      if Own(s, honest, e, k) {
        OwnStepAdvances(s, honest, e, k);
      } else {
        OtherStepKeepsMeasure(s, honest, e, k);
      }
      DownloadTerminates(Step(s, honest, e), honest, events[1..], k);
    }
  }

  /** A fresh subscription starts such a download, with five steps per byte and four more to go at most. */
  lemma SubscriptionFlows(s: System, honest: set<int>, file: int)
    requires Inv(s, honest) && Enabled(s, honest, Subscribe(file)) && s.shared[file].host in honest
    ensures
      var k := Key(file, s.subIdCounter[file]);
      var s' := Step(s, honest, Subscribe(file));
      k !in s.streams && Flowing(s', honest, k) && Measure(s', k) == 5 * |Content(s', k)| + 4
  {
    StepKeepsInv(s, honest, Subscribe(file));
  }

  // ---- The number of requests ----

  predicate ReadsWith(events: seq<Event>, k: Key, c: nat) {
    forall e :: e in events && e.Read? && e.key == k ==> e.count == c
  }

  /** How many chunks of size `c` it takes: the ceiling of `size / c`. */
  function Chunked(size: nat, c: nat): nat
    requires 0 < c
  {
    (size + c - 1) / c
  }

  function Taken(st: Stream): int {
    if st.reader.Waiting? || st.reader.Retrying? then st.requests - 1 else st.requests
  }

  /** Every completed request but the last moved the reader by exactly `c`. */
  predicate Paced(st: Stream, content: Bytes, c: nat) {
    st.reader != Gone && st.reader != Failed ==>
      && 0 <= Taken(st)
      && st.sub.progress == Min(|content|, c * Taken(st))
      && (0 < Taken(st) ==> c * (Taken(st) - 1) < |content|)
      && ((st.reader.Waiting? || st.reader.Retrying?) ==> st.reader.count == c)
  }

  lemma PaceGoesOn(size: nat, progress: nat, n: nat, c: nat)
    requires progress == Min(size, c * n) && progress < size
    ensures progress + Min(c, size - progress) == Min(size, c * (n + 1)) && c * n < size
  {
    assert c * (n + 1) == c * n + c;
  }

  lemma ReadKeepsPace(st: Stream, content: Bytes, c: nat)
    requires 0 < c && CanRead(st, c) && StreamOk(st, content) && Paced(st, content, c)
    ensures Paced(AfterRead(st, |content|, c), content, c)
  {
    var sub', outcome := ReadChunk(st.sub, |content|, c).0, ReadChunk(st.sub, |content|, c).1;
    if outcome.Copied? {
      var piece := Piece(content, st.sub.progress, c);
      assert st.reader == Retrying(c) && outcome.data == piece && sub'.progress == st.sub.progress + |piece|;
      assert |piece| == Min(c, |content| - st.sub.progress);
      PaceGoesOn(|content|, st.sub.progress, Taken(st), c);
    }
  }

  lemma StepKeepsPace(s: System, honest: set<int>, e: Event, k: Key, c: nat)
    requires Inv(s, honest) && HonestKey(s, honest, k) && 0 < c
    requires k in s.streams ==> Paced(s.streams[k], Content(s, k), c)
    requires e.Read? && e.key == k ==> e.count == c
    ensures k in Step(s, honest, e).streams ==> Paced(Step(s, honest, e).streams[k], Content(s, k), c)
  {
    if Enabled(s, honest, e) && k in s.streams {
      assert StreamOk(s.streams[k], Content(s, k));
      if e.Read? && e.key == k {
        ReadKeepsPace(s.streams[k], Content(s, k), c);
      }
    }
  }

  lemma {:induction false} RunKeepsPace(s: System, honest: set<int>, events: seq<Event>, k: Key, c: nat)
    requires Inv(s, honest) && HonestKey(s, honest, k) && 0 < c && ReadsWith(events, k, c)
    requires k in s.streams ==> Paced(s.streams[k], Content(s, k), c)
    ensures k in Run(s, honest, events).streams ==> Paced(Run(s, honest, events).streams[k], Content(s, k), c)
    decreases |events|
  {
    if events == [] {
    } else {
      var s' := Step(s, honest, events[0]);
      StepKeepsPace(s, honest, events[0], k, c);
      StepKeepsInv(s, honest, events[0]);
      StepKeepsContent(s, honest, events[0], k);
      RunKeepsPace(s', honest, events[1..], k, c);
    }
  }

  lemma MulMonotone(c: nat, a: int, b: int)
    ensures a <= b ==> c * a <= c * b
  {
  }

  lemma CeilingIsUnique(size: nat, c: nat, n: nat)
    requires 0 < c && size <= c * n && (0 < n ==> c * (n - 1) < size)
    ensures n == Chunked(size, c)
  {
    var q := Chunked(size, c);
    assert c * q <= size + c - 1 < c * q + c;
    assert c * (n + 1) == c * n + c;
    assert 0 < n ==> c * (n - 1) == c * n - c;
    MulMonotone(c, n + 1, q);
    MulMonotone(c, q + 1, n);
    assert c * (q + 1) == c * q + c;
  }

  /** With a constant buffer size, a reader that reached the end caused exactly `ceil(size / c)` requests. */
  lemma RequestsAreCeiling(honest: set<int>, before: seq<Event>, events: seq<Event>, k: Key, c: nat)
    requires HonestKey(Run(EMPTY, honest, before), honest, k) && k !in Run(EMPTY, honest, before).streams
    requires 0 < c && ReadsWith(events, k, c)
    requires k in Run(Run(EMPTY, honest, before), honest, events).streams
    requires Run(Run(EMPTY, honest, before), honest, events).streams[k].reader == Ended
    ensures Run(Run(EMPTY, honest, before), honest, events).streams[k].requests ==
      Chunked(|Content(Run(EMPTY, honest, before), k)|, c)
  {
    Reachable(honest, before);
    var s := Run(EMPTY, honest, before);
    RunKeepsPace(s, honest, events, k, c);
    RunKeepsInv(s, honest, events);
    RunKeepsContent(s, honest, events, k);
    var st := Run(s, honest, events).streams[k];
    assert StreamOk(st, Content(s, k));
    CeilingIsUnique(|Content(s, k)|, c, st.requests);
  }
}

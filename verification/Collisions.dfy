/** When "File chunk collision." is thrown: replies counted against requests, whoever the host is. */
module Collisions {
  import opened Chunks
  import opened Streaming
  import opened StreamTheorems

  // ---- Counting over a run ----

  /** The step is a delivery whose chunk subscriber `k` takes. */
  predicate Accepts(s: System, honest: set<int>, e: Event, k: Key) {
    e.Deliver? && Enabled(s, honest, e) && s.net[e.packet].key == k && ChunkCheck(s, s.net[e.packet]) == Accepted
  }

  /** The step is a read that copies a chunk. */
  predicate Copies(s: System, honest: set<int>, e: Event, k: Key) {
    e.Read? && e.key == k && Enabled(s, honest, e) &&
    ReadChunk(s.streams[k].sub, s.shared[k.file].size, e.count).1.Copied?
  }

  /** The step is `host` sending a reply for `k`, asked or not. */
  predicate Replies(s: System, honest: set<int>, e: Event, k: Key, host: int) {
    Enabled(s, honest, e) &&
    match e
    case Answer(i) => s.net[i].key == k && s.net[i].to == host && (host, s.net[i].clientFileId) in s.clientFiles
    case Inject(from, key, _) => key == k && from == host
    case _ => false
  }

  function AcceptedIn(s: System, honest: set<int>, events: seq<Event>, k: Key): nat
    decreases |events|
  {
    if events == [] then 0
    else (if Accepts(s, honest, events[0], k) then 1 else 0) +
         AcceptedIn(Step(s, honest, events[0]), honest, events[1..], k)
  }

  function CopiedIn(s: System, honest: set<int>, events: seq<Event>, k: Key): nat
    decreases |events|
  {
    if events == [] then 0
    else (if Copies(s, honest, events[0], k) then 1 else 0) +
         CopiedIn(Step(s, honest, events[0]), honest, events[1..], k)
  }

  function Buffered(s: System, k: Key): nat {
    if k in s.streams && s.streams[k].sub.chunk.Some? then 1 else 0
  }

  /** The chunk requests the reads of `k` have sent. */
  function Asked(s: System, k: Key): nat {
    if k in s.streams then s.streams[k].requests else 0
  }

  // ---- The exact condition ----

  lemma StepKeepsBalance(s: System, honest: set<int>, e: Event, k: Key)
    requires Inv(s, honest)
    ensures Buffered(Step(s, honest, e), k) + (if Copies(s, honest, e, k) then 1 else 0) ==
      Buffered(s, k) + (if Accepts(s, honest, e, k) then 1 else 0)
  {
  }

  lemma {:induction false} RunKeepsBalance(s: System, honest: set<int>, events: seq<Event>, k: Key)
    requires Inv(s, honest)
    ensures Buffered(Run(s, honest, events), k) + CopiedIn(s, honest, events, k) ==
      Buffered(s, k) + AcceptedIn(s, honest, events, k)
    decreases |events|
  {
    if events == [] {
    } else {
      StepKeepsBalance(s, honest, events[0], k);
      StepKeepsInv(s, honest, events[0]);
      RunKeepsBalance(Step(s, honest, events[0]), honest, events[1..], k);
    }
  }

  /** A chunk of the file's host for a subscriber that is registered. */
  predicate Arrives(s: System, p: Packet)
    requires p.Reply?
  {
    ChunkCheck(s, p) == Collision || ChunkCheck(s, p) == Accepted
  }

  /**
   In every run, honest host or not: the chunks a subscriber accepted are those its reads copied and the one it
   may have buffered; and a chunk that passes all other checks collides if and only if one more was accepted
   than copied.
   */
  lemma CollidesExactlyIfUnread(honest: set<int>, events: seq<Event>, k: Key)
    ensures
      var s := Run(EMPTY, honest, events);
      var accepted, copied := AcceptedIn(EMPTY, honest, events, k), CopiedIn(EMPTY, honest, events, k);
      && accepted == copied + Buffered(s, k)
      && (forall i | i in s.net && s.net[i].Reply? && s.net[i].key == k && Arrives(s, s.net[i]) ::
          ChunkCheck(s, s.net[i]) == Collision <==> accepted == copied + 1)
  {
    Reachable(honest, []);
    RunKeepsBalance(EMPTY, honest, events, k);
  }

  // ---- One reply per request is enough ----

  /** What a step adds to the replies sent. */
  function Sends(s: System, honest: set<int>, e: Event, k: Key, host: int): nat {
    if Replies(s, honest, e, k, host) then 1 else 0
  }

  /** At every point of the run `host` has sent at most as many replies for `k` as `k` has sent requests. */
  predicate OneReplyEach(s: System, honest: set<int>, events: seq<Event>, k: Key, host: int, sent: nat)
    decreases |events|
  {
    sent <= Asked(s, k) &&
    (events == [] ||
     OneReplyEach(Step(s, honest, events[0]), honest, events[1..], k, host,
                  sent + Sends(s, honest, events[0], k, host)))
  }

  /** A reply of the host for the subscriber. */
  predicate IsFor(p: Packet, k: Key, host: int) {
    p.Reply? && p.key == k && p.from == host
  }

  ghost function OnTheWay(net: map<nat, Packet>, k: Key, host: int): set<nat> {
    set i | i in net && IsFor(net[i], k, host)
  }

  /** No request is waiting for its chunk. */
  predicate Served(st: Stream) {
    st.sub.chunk.Some? || st.reader == Idle || st.reader == Ended
  }

  /** A request is sent only once all earlier ones are answered. */
  predicate AsksInTurn(s: System, k: Key, accepted: nat) {
    k in s.streams ==>
      && s.streams[k].requests <= accepted + 1
      && (Served(s.streams[k]) ==> s.streams[k].requests <= accepted)
      && (s.streams[k].reader.Retrying? ==> WakeGuard(s.streams[k].sub))
  }

  /** `taken` chunks were accepted, and there are no more replies than requests. */
  ghost predicate InStep(s: System, k: Key, host: int, taken: nat) {
    AsksInTurn(s, k, taken) && taken + |OnTheWay(s.net, k, host)| <= Asked(s, k)
  }

  predicate HostIs(s: System, k: Key, host: int) {
    k.file in s.shared ==> s.shared[k.file].host == host
  }

  lemma FewerOnTheWay(net: map<nat, Packet>, k: Key, host: int, i: nat)
    requires i in net
    ensures |OnTheWay(net - {i}, k, host)| == |OnTheWay(net, k, host)| - if IsFor(net[i], k, host) then 1 else 0
  {
    assert OnTheWay(net - {i}, k, host) == OnTheWay(net, k, host) - {i};
    if !IsFor(net[i], k, host) {
      assert OnTheWay(net, k, host) - {i} == OnTheWay(net, k, host);
    }
  }

  lemma MoreOnTheWay(net: map<nat, Packet>, k: Key, host: int, i: nat, p: Packet)
    requires i in net ==> net[i].Request?
    ensures |OnTheWay(net[i := p], k, host)| == |OnTheWay(net, k, host)| + if IsFor(p, k, host) then 1 else 0
  {
    assert i !in OnTheWay(net, k, host);
    if IsFor(p, k, host) {
      assert OnTheWay(net[i := p], k, host) == OnTheWay(net, k, host) + {i};
    } else {
      assert OnTheWay(net[i := p], k, host) == OnTheWay(net, k, host);
    }
  }

  lemma AnswerKeepsStep(s: System, k: Key, host: int, i: nat)
    requires i in s.net && s.net[i].Request?
    ensures
      var sends := s.net[i].key == k && s.net[i].to == host && (host, s.net[i].clientFileId) in s.clientFiles;
      |OnTheWay(DoAnswer(s, i).net, k, host)| == |OnTheWay(s.net, k, host)| + if sends then 1 else 0
  {
    var s' := DoAnswer(s, i);
    if (s.net[i].to, s.net[i].clientFileId) in s.clientFiles {
      MoreOnTheWay(s.net, k, host, i, s'.net[i]);
    } else {
      FewerOnTheWay(s.net, k, host, i);
    }
  }

  lemma NetKeepsStep(s: System, honest: set<int>, e: Event, k: Key, host: int)
    requires Inv(s, honest)
    ensures |OnTheWay(Step(s, honest, e).net, k, host)| <= |OnTheWay(s.net, k, host)| + Sends(s, honest, e, k, host)
    ensures HostIs(s, k, host) && Accepts(s, honest, e, k) ==>
      |OnTheWay(Step(s, honest, e).net, k, host)| < |OnTheWay(s.net, k, host)|
  {
    var s' := Step(s, honest, e);
    if Enabled(s, honest, e) {
      match e
      case Answer(i) => AnswerKeepsStep(s, k, host, i);
      case Deliver(i) => FewerOnTheWay(s.net, k, host, i);
      case Lose(i) => FewerOnTheWay(s.net, k, host, i);
      case Inject(from, key, data) => MoreOnTheWay(s.net, k, host, s.nextPacket, Reply(from, key, data));
      case Read(key, count) =>
        if s'.net != s.net {
          MoreOnTheWay(s.net, k, host, s.nextPacket, s'.net[s.nextPacket]);
        }
      case _ =>
    }
  }

  lemma ReaderKeepsStep(s: System, honest: set<int>, e: Event, k: Key, accepted: nat)
    requires Inv(s, honest) && AsksInTurn(s, k, accepted)
    ensures AsksInTurn(Step(s, honest, e), k, accepted + if Accepts(s, honest, e, k) then 1 else 0)
  {
  }

  lemma StepKeepsHost(s: System, honest: set<int>, e: Event, f: int)
    requires Inv(s, honest) && f in s.shared
    ensures f in Step(s, honest, e).shared && Step(s, honest, e).shared[f] == s.shared[f]
  {
  }

  lemma {:induction false} RunKeepsHost(s: System, honest: set<int>, events: seq<Event>, f: int)
    requires Inv(s, honest) && f in s.shared
    ensures f in Run(s, honest, events).shared && Run(s, honest, events).shared[f] == s.shared[f]
    decreases |events|
  {
    if events == [] {
    } else {
      StepKeepsHost(s, honest, events[0], f);
      StepKeepsInv(s, honest, events[0]);
      RunKeepsHost(Step(s, honest, events[0]), honest, events[1..], f);
    }
  }

  lemma {:induction false} RunKeepsStep(s: System, honest: set<int>, events: seq<Event>, k: Key, host: int,
                                        accepted: nat, sent: nat)
    requires Inv(s, honest) && HostIs(Run(s, honest, events), k, host)
    requires OneReplyEach(s, honest, events, k, host, sent)
    requires AsksInTurn(s, k, accepted) && accepted + |OnTheWay(s.net, k, host)| <= sent
    ensures exists taken: nat :: InStep(Run(s, honest, events), k, host, taken)
    decreases |events|
  {
    if events == [] {
      assert InStep(s, k, host, accepted);
    } else {
      var e := events[0];
      if k.file in s.shared {
        RunKeepsHost(s, honest, events, k.file);
      }
      NetKeepsStep(s, honest, e, k, host);
      ReaderKeepsStep(s, honest, e, k, accepted);
      StepKeepsInv(s, honest, e);
      var taken := accepted + if Accepts(s, honest, e, k) then 1 else 0;
      assert taken + |OnTheWay(Step(s, honest, e).net, k, host)| <= sent + Sends(s, honest, e, k, host);
      RunKeepsStep(Step(s, honest, e), honest, events[1..], k, host, taken, sent + Sends(s, honest, e, k, host));
      var t: nat :| InStep(Run(Step(s, honest, e), honest, events[1..]), k, host, t);
      assert InStep(Run(s, honest, events), k, host, t);
    }
  }

  /**
   Whoever the host is and whatever bytes it sends: as long as it sends at most one reply per request of a
   subscriber, asked for or not, no chunk of its for that subscriber ever collides.
   */
  lemma OneReplyEachNeverCollides(honest: set<int>, events: seq<Event>, k: Key, host: int)
    requires HostIs(Run(EMPTY, honest, events), k, host) && OneReplyEach(EMPTY, honest, events, k, host, 0)
    ensures
      var s := Run(EMPTY, honest, events);
      forall i | i in s.net && s.net[i].Reply? && s.net[i].key == k :: ChunkCheck(s, s.net[i]) != Collision
  {
    Reachable(honest, []);
    assert OnTheWay(EMPTY.net, k, host) == {};
    RunKeepsStep(EMPTY, honest, events, k, host, 0, 0);
    var s := Run(EMPTY, honest, events);
    var taken: nat :| InStep(s, k, host, taken);
    forall i | i in s.net && s.net[i].Reply? && s.net[i].key == k ensures ChunkCheck(s, s.net[i]) != Collision {
      assert s.net[i].from == host ==> i in OnTheWay(s.net, k, host);
    }
  }
}

/** The ping-pong counter of one peer over any sequence of ping rounds and pongs, and over whole room runs. */
module PingPong {
  import opened Basics
  import opened Messages
  import opened RoomSpec
  import opened Membership

  datatype Beat = Round | Answer

  function Feel(p: PeerValue, b: Beat): PeerValue {
    match b
    case Round => Pinged(p)
    case Answer => Ponged(p)
  }

  function Feels(p: PeerValue, beats: seq<Beat>): PeerValue
    decreases |beats|
  {
    if beats == [] then p else Feels(Feel(p, beats[0]), beats[1..])
  }

  function Rounds(beats: seq<Beat>): nat {
    if beats == [] then 0 else Rounds(beats[1..]) + if beats[0] == Round then 1 else 0
  }

  function Answers(beats: seq<Beat>): nat {
    if beats == [] then 0 else Answers(beats[1..]) + if beats[0] == Answer then 1 else 0
  }

  /** At every round, all pings so far were answered and no answer came unasked. */
  ghost predicate AlwaysEven(balance: int, beats: seq<Beat>) {
    forall i :: 0 <= i < |beats| && beats[i] == Round ==>
      balance + Rounds(beats[..i]) - Answers(beats[..i]) == 0
  }

  lemma {:induction false} EvenUnrolls(balance: int, beats: seq<Beat>)
    requires beats != []
    ensures AlwaysEven(balance, beats) <==>
      (beats[0] == Round ==> balance == 0) &&
      AlwaysEven(balance + (if beats[0] == Round then 1 else -1), beats[1..])
  {
    var next := balance + (if beats[0] == Round then 1 else -1);
    var tail := beats[1..];
    assert beats[..0] == [];
    forall i | 0 <= i < |tail|
      ensures next + Rounds(tail[..i]) - Answers(tail[..i]) ==
              balance + Rounds(beats[..i + 1]) - Answers(beats[..i + 1])
    {
      assert beats[..i + 1] == [beats[0]] + tail[..i];
      assert beats[..i + 1][1..] == tail[..i];
    }
    if AlwaysEven(balance, beats) {
      forall i | 0 <= i < |tail| && tail[i] == Round ensures next + Rounds(tail[..i]) - Answers(tail[..i]) == 0 {
        assert beats[i + 1] == Round;
      }
    }
    if (beats[0] == Round ==> balance == 0) && AlwaysEven(next, tail) {
      forall i | 0 <= i < |beats| && beats[i] == Round
        ensures balance + Rounds(beats[..i]) - Answers(beats[..i]) == 0
      {
        if i > 0 {
          assert tail[i - 1] == Round;
          assert beats[..i - 1 + 1] == beats[..i];
        }
      }
    }
  }

  /**
   Without any assumption on the peer: the counter is the difference of rounds and pongs, and the peer keeps
   its socket exactly if at every round that difference was 0.
   */
  lemma {:induction false} KeptExactlyIfEven(p: PeerValue, beats: seq<Beat>)
    ensures Feels(p, beats).pings == p.pings + Rounds(beats) - Answers(beats)
    ensures Feels(p, beats).live <==> p.live && AlwaysEven(p.pings, beats)
    decreases |beats|
  {
    if beats == [] {
    } else {
      KeptExactlyIfEven(Feel(p, beats[0]), beats[1..]);
      EvenUnrolls(p.pings, beats);
    }
  }

  // ---- Peers that send a pong only for a ping, and once ----

  /** No prefix has more answers than pings were sent by then. */
  predicate Polite(p: PeerValue, unanswered: int, beats: seq<Beat>)
    decreases |beats|
  {
    0 <= unanswered &&
    (beats == [] ||
     Polite(Feel(p, beats[0]),
            match beats[0]
              case Round => (if Answering(p) then unanswered + 1 else unanswered)
              case Answer => unanswered - 1,
            beats[1..]))
  }

  /** Whether the last round's ping is still unanswered; before any beat that is what the counter says. */
  predicate Owes(p: PeerValue, beats: seq<Beat>) {
    if beats == [] then p.pings == 1 else beats[|beats| - 1] == Round
  }

  /**
   A polite peer that still has its socket has a counter of 0 or 1, and it is 1 exactly if nothing came back
   since the last round: so the next round drops it exactly if the previous round's ping is unanswered.
   */
  lemma {:induction false} DroppedExactlyIfSilent(p: PeerValue, beats: seq<Beat>)
    requires p.live && 0 <= p.pings <= 1 && Polite(p, p.pings, beats)
    requires Feels(p, beats).live
    ensures 0 <= Feels(p, beats).pings <= 1
    ensures Feels(p, beats).pings == 1 <==> Owes(p, beats)
    ensures !Pinged(Feels(p, beats)).live <==> Owes(p, beats)
    decreases |beats|
  {
    if beats == [] {
    } else {
      var q := Feel(p, beats[0]);
      KeptExactlyIfEven(q, beats[1..]);
      DroppedExactlyIfSilent(q, beats[1..]);
      assert beats[1..] != [] ==> beats[1..][|beats[1..]| - 1] == beats[|beats| - 1];
    }
  }

  /** A pong nobody asked for, which section 5.5.3 of RFC 6455 permits, costs a responsive peer its socket. */
  lemma UnsolicitedPongDrops(name: string)
    ensures !Feels(NewPeer(name), [Answer, Round]).live
    ensures Feels(NewPeer(name), [Round, Answer, Round, Answer]).live
  {
    var p := NewPeer(name);
    assert [Answer, Round][1..] == [Round];
    assert Feels(p, [Answer, Round]) == Feels(Ponged(p), [Round]) == Pinged(Ponged(p));
    assert [Round, Answer, Round, Answer][1..] == [Answer, Round, Answer];
    assert [Answer, Round, Answer][1..] == [Round, Answer];
    assert [Round, Answer][1..] == [Answer];
    var q := Ponged(Pinged(p));
    assert Feels(q, [Round, Answer]) == Ponged(Pinged(q)) by {
      assert Feels(Pinged(q), [Answer]) == Ponged(Pinged(q));
    }
    assert Feels(p, [Round, Answer, Round, Answer]) == Feels(Pinged(p), [Answer, Round, Answer]);
    assert Feels(Pinged(p), [Answer, Round, Answer]) == Feels(q, [Round, Answer]);
  }

  // ---- In a room ----

  /** The beats among a run's events that concern one peer. */
  function BeatsOf(events: seq<Event>, id: int): seq<Beat>
    decreases |events|
  {
    if events == [] then []
    else match events[0]
      case PingRound => [Round] + BeatsOf(events[1..], id)
      case Pong(x) => if x == id then [Answer] + BeatsOf(events[1..], id) else BeatsOf(events[1..], id)
      case _ => BeatsOf(events[1..], id)
  }

  predicate Stays(events: seq<Event>, id: int) {
    forall e :: e in events && e.Disconnect? ==> e.id != id
  }

  lemma StepFeels(s: System, e: Event, id: int)
    requires id in s.room.peers && id < s.nextId && (e.Disconnect? ==> e.id != id)
    ensures
      var s' := Step(s, e);
      var p, p' := s.room.peers[id], if id in s'.room.peers then s'.room.peers[id] else s.room.peers[id];
      var q := match e case PingRound => Pinged(p) case Pong(x) => (if x == id then Ponged(p) else p) case _ => p;
      && id in s'.room.peers && s.nextId <= s'.nextId
      && p'.live == q.live && p'.pings == q.pings
  {
    if e.Incoming? && Enabled(s, e) && e.raw.code == Some(CODE_FILE_SHARE) {
      ShareAllFacts(s.room, e.id, e.raw.files.value);
    }
  }

  lemma {:induction false} FeelsAgrees(p: PeerValue, q: PeerValue, beats: seq<Beat>)
    requires p.live == q.live && p.pings == q.pings
    ensures Feels(p, beats).live == Feels(q, beats).live && Feels(p, beats).pings == Feels(q, beats).pings
    decreases |beats|
  {
    if beats == [] {
    } else {
      FeelsAgrees(Feel(p, beats[0]), Feel(q, beats[0]), beats[1..]);
    }
  }

  /** In any run of a room, a peer's socket and counter depend on the rounds and its own pongs alone. */
  lemma {:induction false} RunFeels(s: System, events: seq<Event>, id: int)
    requires id in s.room.peers && id < s.nextId && Stays(events, id)
    ensures
      var s' := Run(s, events);
      var q := Feels(s.room.peers[id], BeatsOf(events, id));
      id in s'.room.peers && s'.room.peers[id].live == q.live && s'.room.peers[id].pings == q.pings
    decreases |events|
  {
    if events == [] {
    } else {
      var s1 := Step(s, events[0]);
      assert events[0] in events;
      StepFeels(s, events[0], id);
      RunFeels(s1, events[1..], id);
      var p1 := match events[0] case PingRound => Pinged(s.room.peers[id])
                                case Pong(x) => (if x == id then Ponged(s.room.peers[id]) else s.room.peers[id])
                                case _ => s.room.peers[id];
      FeelsAgrees(s1.room.peers[id], p1, BeatsOf(events[1..], id));
      var beats := BeatsOf(events, id);
      assert beats != BeatsOf(events[1..], id) ==> beats[1..] == BeatsOf(events[1..], id);
    }
  }

  lemma StepKeepsSilence(s: System, e: Event, id: int)
    requires id in s.room.peers && id < s.nextId && !s.room.peers[id].live
    ensures
      var s' := Step(s, e);
      && s.nextId <= s'.nextId
      && (id in s'.room.peers ==> !s'.room.peers[id].live && s'.room.peers[id].outbox == s.room.peers[id].outbox)
  {
    if e.Incoming? && Enabled(s, e) && e.raw.code == Some(CODE_FILE_SHARE) {
      ShareAllFacts(s.room, e.id, e.raw.files.value);
    }
  }

  lemma StepKeepsAbsence(s: System, e: Event, id: int)
    requires id !in s.room.peers && id < s.nextId
    ensures id !in Step(s, e).room.peers && s.nextId <= Step(s, e).nextId
  {
    if e.Incoming? && Enabled(s, e) && e.raw.code == Some(CODE_FILE_SHARE) {
      ShareAllFacts(s.room, e.id, e.raw.files.value);
    }
  }

  lemma {:induction false} AbsentStaysAbsent(s: System, events: seq<Event>, id: int)
    requires id !in s.room.peers && id < s.nextId
    ensures id !in Run(s, events).room.peers
    decreases |events|
  {
    if events == [] {
    } else {
      StepKeepsAbsence(s, events[0], id);
      AbsentStaysAbsent(Step(s, events[0]), events[1..], id);
    }
  }

  /** A dropped peer never gets another ping or message, and never gets its socket back. */
  lemma {:induction false} DroppedStaysSilent(s: System, events: seq<Event>, id: int)
    requires id < s.nextId && id in s.room.peers && !s.room.peers[id].live
    ensures
      var s' := Run(s, events);
      id in s'.room.peers ==> !s'.room.peers[id].live && s'.room.peers[id].outbox == s.room.peers[id].outbox
    decreases |events|
  {
    if events == [] {
    } else {
      StepKeepsSilence(s, events[0], id);
      var s1 := Step(s, events[0]);
      if id in s1.room.peers {
        DroppedStaysSilent(s1, events[1..], id);
      } else {
        AbsentStaysAbsent(s1, events[1..], id);
      }
    }
  }
}

/**
 Room membership as a replicated view: one room, its full log, and the browser of every connected peer, which
 consumes its socket's messages in order.
 */
module Membership {
  import opened Basics
  import opened Messages
  import opened Participants
  import opened ClientSpec
  import opened RoomSpec

  /** `consumed` counts the messages of the peer's outbox its browser has handled. */
  datatype Session = Session(client: Client, consumed: nat)

  /** `log` is every message ever offered to the room's history; peer ids from `nextId` on are still unused. */
  datatype System = System(room: RoomValue, log: seq<Entry>, nextId: int, sessions: map<int, Session>)

  function Empty(limit: nat): System {
    System(NewRoom(limit), [], 1, map[])
  }

  datatype Event =
    | Connect(id: int, name: string, order: seq<PeerEntry>)
    | Disconnect(id: int)
    | Incoming(id: int, raw: RawMessage, now: int)
    | PingRound
    | Pong(id: int)
    | Deliver(id: int)
    | FadeOut(id: int, handle: nat)

  predicate Enabled(s: System, e: Event) {
    match e
    case Connect(id, name, order) =>
      s.nextId <= id && UniqueIds(order) && ToMap(order) == Names(s.room.peers)[id := name]
    case Disconnect(id) => id in s.room.peers
    case Incoming(id, raw, now) => CanHandle(s.room, id, raw)
    case PingRound => true
    case Pong(id) => id in s.room.peers
    case Deliver(id) =>
      id in s.room.peers && id in s.sessions && s.sessions[id].consumed < |s.room.peers[id].outbox|
    case FadeOut(id, handle) => id in s.sessions
  }

  /** What a client message adds to the log. */
  function Logged(r: RoomValue, id: int, raw: RawMessage, now: int): seq<Entry>
    requires id in r.peers && Acceptable(raw)
  {
    if raw.code == Some(CODE_PEER_MESSAGE) then [Chat(id, r.peers[id].name, now, raw.text)]
    else if raw.code == Some(CODE_FILE_SHARE) then
      [Files(id, r.peers[id].name, now, ShareAll(r, id, raw.files.value).1)]
    else []
  }

  function Step(s: System, e: Event): System {
    if !Enabled(s, e) then s else
    match e
    case Connect(id, name, order) =>
      System(Join(s.room, id, name, order), s.log + [Joined(id, name)], id + 1,
             s.sessions[id := Session(BLANK, 0)])
    case Disconnect(id) =>
      s.(room := Leave(s.room, id), log := s.log + [Left(id)], sessions := s.sessions - {id})
    case Incoming(id, raw, now) =>
      s.(room := Handle(s.room, id, raw, now), log := s.log + Logged(s.room, id, raw, now))
    case PingRound => s.(room := PingAll(s.room))
    case Pong(id) => s.(room := s.room.(peers := s.room.peers[id := Ponged(s.room.peers[id])]))
    case Deliver(id) =>
      var session := s.sessions[id];
      var m := s.room.peers[id].outbox[session.consumed];
      s.(sessions := s.sessions[id := Session(OnMessage(session.client, m), session.consumed + 1)])
    case FadeOut(id, handle) =>
      var session := s.sessions[id];
      s.(sessions := s.sessions[id := session.(client := FinishRemoval(session.client, handle))])
  }

  function Run(s: System, events: seq<Event>): System
    decreases |events|
  {
    if events == [] then s else Run(Step(s, events[0]), events[1..])
  }

  lemma {:induction false} RunAppend(s: System, events: seq<Event>, e: Event)
    ensures Run(s, events + [e]) == Step(Run(s, events), e)
    decreases |events|
  {
    if events == [] {
      assert events + [e] == [e];
      assert Run(Step(s, e), [e][1..]) == Step(s, e);
    } else {
      assert (events + [e])[1..] == events[1..] + [e];
      RunAppend(Step(s, events[0]), events[1..], e);
    }
  }

  // ---- Replaying entries over a map of members ----

  function ReplayOne(m: map<int, string>, e: Entry): map<int, string> {
    match e
    case Joined(id, name) => m[id := name]
    case Left(id) => m - {id}
    case _ => m
  }

  function Replay(m: map<int, string>, es: seq<Entry>): map<int, string>
    decreases |es|
  {
    if es == [] then m else Replay(ReplayOne(m, es[0]), es[1..])
  }

  lemma {:induction false} ReplayAppend(m: map<int, string>, es: seq<Entry>, fs: seq<Entry>)
    ensures Replay(m, es + fs) == Replay(Replay(m, es), fs)
    decreases |es|
  {
    if es == [] {
      assert es + fs == fs;
    } else {
      assert (es + fs)[1..] == es[1..] + fs;
      ReplayAppend(ReplayOne(m, es[0]), es[1..], fs);
    }
  }

  /** Two maps that agree wherever the entries are silent agree after the replay. */
  ghost predicate AgreeAt(m: map<int, string>, m': map<int, string>, p: int) {
    (p in m <==> p in m') && (p in m ==> m[p] == m'[p])
  }

  predicate Mentions(e: Entry, p: int) {
    (e.Joined? || e.Left?) && e.peerId == p
  }

  lemma {:induction false} ReplayAgrees(m: map<int, string>, m': map<int, string>, es: seq<Entry>, p: int)
    requires AgreeAt(m, m', p) || exists e :: e in es && Mentions(e, p)
    ensures AgreeAt(Replay(m, es), Replay(m', es), p)
    decreases |es|
  {
    if es == [] {
    } else {
      assert es == [es[0]] + es[1..];
      ReplayAgrees(ReplayOne(m, es[0]), ReplayOne(m', es[0]), es[1..], p);
    }
  }

  lemma {:induction false} ReplaySilent(m: map<int, string>, es: seq<Entry>, p: int)
    requires forall e :: e in es ==> !Mentions(e, p)
    ensures AgreeAt(Replay(m, es), m, p)
    decreases |es|
  {
    if es == [] {
    } else {
      assert es[0] in es;
      ReplaySilent(ReplayOne(m, es[0]), es[1..], p);
    }
  }

  /**
   Replaying any suffix of a log over the outcome of the whole log changes nothing, however much of the log
   was cut off: the last word on every peer is either in the suffix or already part of the outcome.
   */
  lemma SuffixReplay(m: map<int, string>, prefix: seq<Entry>, suffix: seq<Entry>)
    ensures Replay(Replay(m, prefix + suffix), suffix) == Replay(m, prefix + suffix)
  {
    ReplayAppend(m, prefix, suffix);
    var before := Replay(m, prefix);
    var after := Replay(before, suffix);
    forall p ensures AgreeAt(Replay(after, suffix), after, p) {
      if exists e :: e in suffix && Mentions(e, p) {
        ReplayAgrees(after, before, suffix, p);
      } else {
        ReplaySilent(before, suffix, p);
        ReplaySilent(after, suffix, p);
      }
    }
    assert forall p :: AgreeAt(Replay(after, suffix), after, p);
    assert Replay(after, suffix).Keys == after.Keys by {
      forall p ensures p in Replay(after, suffix).Keys <==> p in after.Keys {
        assert AgreeAt(Replay(after, suffix), after, p);
      }
    }
    forall p | p in after ensures Replay(after, suffix)[p] == after[p] {
      assert AgreeAt(Replay(after, suffix), after, p);
    }
  }

  // ---- Entries a browser can follow without its panel running into trouble ----

  /**
   Nobody arrives again after leaving, and whoever is announced while already present keeps the name.
   `dead` holds the peers that already left.
   */
  predicate Smooth(m: map<int, string>, dead: set<int>, es: seq<Entry>)
    decreases |es|
  {
    if es == [] then true
    else match es[0]
      case Joined(id, name) =>
        id !in dead && (id in m ==> m[id] == name) && Smooth(m[id := name], dead, es[1..])
      case Left(id) => Smooth(m - {id}, dead + {id}, es[1..])
      case _ => Smooth(m, dead, es[1..])
  }

  function LeftIds(es: seq<Entry>): set<int> {
    set e | e in es && e.Left? :: e.peerId
  }

  lemma {:induction false} SmoothFewerDead(m: map<int, string>, dead: set<int>, fewer: set<int>, es: seq<Entry>)
    requires Smooth(m, dead, es) && fewer <= dead
    ensures Smooth(m, fewer, es)
    decreases |es|
  {
    if es == [] {
    } else {
      match es[0]
      case Joined(id, name) => SmoothFewerDead(m[id := name], dead, fewer, es[1..]);
      case Left(id) => SmoothFewerDead(m - {id}, dead + {id}, fewer + {id}, es[1..]);
      case _ => SmoothFewerDead(m, dead, fewer, es[1..]);
    }
  }

  lemma {:induction false} SmoothAppend(m: map<int, string>, dead: set<int>, es: seq<Entry>, e: Entry)
    requires Smooth(m, dead, es)
    requires e.Joined? ==> e.peerId !in dead && e.peerId !in LeftIds(es) && e.peerId !in Replay(m, es)
    ensures Smooth(m, dead, es + [e])
    decreases |es|
  {
    if es == [] {
      assert es + [e] == [e];
      assert [e][1..] == [];
    } else {
      assert (es + [e])[1..] == es[1..] + [e];
      assert es == [es[0]] + es[1..];
      assert LeftIds(es[1..]) <= LeftIds(es);
      match es[0]
      case Joined(id, name) => SmoothAppend(m[id := name], dead, es[1..], e);
      case Left(id) =>
        assert es[0] in es;
        assert id in LeftIds(es);
        SmoothAppend(m - {id}, dead + {id}, es[1..], e);
      case _ => SmoothAppend(m, dead, es[1..], e);
    }
  }

  // ---- A well-formed log ----

  predicate SamePeer(e: Entry, f: Entry) {
    e.peerId == f.peerId
  }

  /** Per peer at most one arrival and at most one departure, in this order. */
  ghost predicate OnceEach(log: seq<Entry>) {
    && (forall i, j | 0 <= i < |log| && 0 <= j < |log| && SamePeer(log[i], log[j]) ::
        (log[i].Joined? && log[j].Joined?) || (log[i].Left? && log[j].Left?) ==> i == j)
    && (forall i, j | 0 <= i < |log| && 0 <= j < |log| && SamePeer(log[i], log[j]) ::
        log[i].Joined? && log[j].Left? ==> i < j)
  }

  /** Replaying a suffix of a well-formed log from position `i` on, with the departures before `i` dead. */
  lemma {:induction false} SuffixIsSmooth(log: seq<Entry>, start: nat, i: nat, members: map<int, string>,
                       m: map<int, string>, dead: set<int>)
    requires OnceEach(log) && start <= i <= |log|
    requires forall j :: 0 <= j < |log| && log[j].Joined? && log[j].peerId in members ==>
      members[log[j].peerId] == log[j].peerName
    requires forall p | p in m ::
      (p in members && m[p] == members[p]) || exists j :: start <= j < i && log[j].Joined? && log[j].peerId == p
    requires forall p | p in dead :: exists j :: start <= j < i && log[j].Left? && log[j].peerId == p
    ensures Smooth(m, dead, log[i..])
    decreases |log| - i
  {
    if i == |log| {
    } else {
      var e := log[i];
      assert log[i..][0] == e && log[i..][1..] == log[i + 1..];
      match e
      case Joined(id, name) => SuffixIsSmooth(log, start, i + 1, members, m[id := name], dead);
      case Left(id) => SuffixIsSmooth(log, start, i + 1, members, m - {id}, dead + {id});
      case _ => SuffixIsSmooth(log, start, i + 1, members, m, dead);
    }
  }
}

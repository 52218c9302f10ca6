/** Who said what: every client message a room keeps or queues, traced back to the message event it came from. */
module Identity {
  import opened Basics
  import opened Messages
  import opened RoomSpec
  import opened Membership
  import opened MembershipTheorems
  import opened Effects

  /** In state `s`, event `ev` is a message on the socket of the very peer `e` names, and `e` is what it says. */
  predicate Utters(s: System, ev: Event, e: Entry) {
    && ev.Incoming? && Enabled(s, ev)
    && Uttered(s.room, ev.id, ev.raw, ev.now) == Some(e)
    && e.peerId == ev.id && e.peerName == s.room.peers[ev.id].name
  }

  /** The `i`th event of the run says `e`. */
  ghost predicate SaidAt(limit: nat, events: seq<Event>, i: nat, e: Entry) {
    i < |events| && Utters(Run(Empty(limit), events[..i]), events[i], e)
  }

  predicate Carries(m: Message, e: Entry) {
    (m.Broadcast? && m.entry == e) || (m.Info? && e in m.history)
  }

  ghost predicate Queued(peers: map<int, PeerValue>, e: Entry) {
    exists p, m :: p in peers && m in peers[p].outbox && Carries(m, e)
  }

  /** The room has `e` in its log, in a queued message, or in the history of a queued snapshot. */
  ghost predicate Present(s: System, e: Entry) {
    e in s.log || e in s.room.history || Queued(s.room.peers, e)
  }

  /** Queues that grew by at most one message each. */
  lemma QueuedGrows(peers: map<int, PeerValue>, peers': map<int, PeerValue>, m: Message, e: Entry)
    requires forall p :: p in peers' && peers'[p].outbox != [] ==>
      p in peers && (peers'[p].outbox == peers[p].outbox || peers'[p].outbox == peers[p].outbox + [m])
    requires Queued(peers', e) && !Carries(m, e)
    ensures Queued(peers, e)
  {
    var p, x :| p in peers' && x in peers'[p].outbox && Carries(x, e);
    assert x in peers[p].outbox;
  }

  lemma PostQueues(r: RoomValue, mid: RoomValue, f: Entry, e: Entry)
    requires SameButFiles(r, mid) && Queued(Post(mid, f).peers, e) && e != f
    ensures Queued(r.peers, e)
  {
    QueuedGrows(r.peers, Post(mid, f).peers, Broadcast(f), e);
  }

  lemma JoinQueues(s: System, id: int, name: string, order: seq<PeerEntry>, e: Entry)
    requires LogOk(s) && Enabled(s, Connect(id, name, order)) && FromClient(e)
    requires Queued(Join(s.room, id, name, order).peers, e)
    ensures Present(s, e)
  {
    var posted := Post(s.room, Joined(id, name));
    var r := Join(s.room, id, name, order);
    var p, m :| p in r.peers && m in r.peers[p].outbox && Carries(m, e);
    if p == id {
      assert m == Info(id, name, order, posted.history);
      assert e in s.room.history + [Joined(id, name)];
    } else {
      assert m in posted.peers[p].outbox;
      assert SameButFiles(s.room, s.room);
      PostQueues(s.room, s.room, Joined(id, name), e);
    }
  }

  lemma LeaveQueues(r: RoomValue, id: int, e: Entry)
    requires id in r.peers && FromClient(e) && Queued(Leave(r, id).peers, e)
    ensures Queued(r.peers, e)
  {
    QueuedGrows(r.peers, Leave(r, id).peers, Broadcast(Left(id)), e);
  }

  lemma IncomingSays(s: System, ev: Event, e: Entry)
    requires ev.Incoming? && Enabled(s, ev) && Present(Step(s, ev), e) && !Utters(s, ev, e)
    ensures Present(s, e)
  {
    var s' := Step(s, ev);
    HandleSteps(s.room, ev.id, ev.raw, ev.now);
    match Uttered(s.room, ev.id, ev.raw, ev.now)
    case Some(f) =>
      if mid :| SameButFiles(s.room, mid) && s'.room == Post(mid, f) {
        assert e in s'.room.history ==> e in s.room.history + [f];
        if Queued(s'.room.peers, e) {
          PostQueues(s.room, mid, f, e);
        }
      } else if Queued(s'.room.peers, e) {
        QueuedGrows(s.room.peers, s'.room.peers, Broadcast(f), e);
      }
    case None =>
      if text :| s'.room == ApiFailure(s.room, ev.id, text) {
        if Queued(s'.room.peers, e) {
          QueuedGrows(s.room.peers, s'.room.peers, ApiError(text), e);
        }
      }
  }

  /** A client message that is there after a step was there before, or the step is its sender saying it. */
  lemma StepSays(s: System, ev: Event, e: Entry)
    requires LogOk(s) && FromClient(e) && Present(Step(s, ev), e) && !Utters(s, ev, e)
    ensures Present(s, e)
  {
    var s' := Step(s, ev);
    if Enabled(s, ev) {
      match ev
      case Connect(id, name, order) =>
        assert e in s'.room.history ==> e in s.room.history + [Joined(id, name)];
        if Queued(s'.room.peers, e) {
          JoinQueues(s, id, name, order, e);
        }
      case Disconnect(id) =>
        assert e in s'.room.history ==> e in s.room.history + [Left(id)];
        if Queued(s'.room.peers, e) {
          LeaveQueues(s.room, id, e);
        }
      case Incoming(_, _, _) => IncomingSays(s, ev, e);
      case PingRound =>
        if Queued(s'.room.peers, e) {
          QueuedGrows(s.room.peers, s'.room.peers, Ping, e);
        }
      case Pong(_) =>
        if Queued(s'.room.peers, e) {
          QueuedGrows(s.room.peers, s'.room.peers, Ping, e);
        }
      case _ =>
    }
  }

  lemma {:induction false} EverythingIsSaid(limit: nat, events: seq<Event>, e: Entry)
    requires FromClient(e) && Present(Run(Empty(limit), events), e)
    ensures exists i: nat :: SaidAt(limit, events, i, e)
    decreases |events|
  {
    if events == [] {
    } else {
      var n := |events| - 1;
      var init := events[..n];
      var s := Run(Empty(limit), init);
      assert events == init + [events[n]];
      RunAppend(Empty(limit), init, events[n]);
      if Utters(s, events[n], e) {
        assert SaidAt(limit, events, n, e);
      } else {
        RunKeepsLog(Empty(limit), init);
        StepSays(s, events[n], e);
        EverythingIsSaid(limit, init, e);
        var i: nat :| SaidAt(limit, init, i, e);
        assert init[..i] == events[..i];
        assert SaidAt(limit, events, i, e);
      }
    }
  }

  /**
   Whatever identity clients claim: every client message the room has logged, keeps in its history or has
   queued, alone or in a snapshot's history, is what some event of the run said, a message on the socket of just
   the peer it names, under the name that peer had in the table; and the log has at most one arrival and one
   departure per peer, in this order.
   */
  lemma NobodyIsImpersonated(limit: nat, events: seq<Event>)
    ensures
      var s := Run(Empty(limit), events);
      && (forall e :: FromClient(e) && Present(s, e) ==> exists i: nat :: SaidAt(limit, events, i, e))
      && OnceEach(s.log)
      && (forall p :: p in s.room.peers ==> Joined(p, s.room.peers[p].name) in s.log)
  {
    var s := Run(Empty(limit), events);
    RunKeepsLog(Empty(limit), events);
    forall e | FromClient(e) && Present(s, e) ensures exists i: nat :: SaidAt(limit, events, i, e) {
      EverythingIsSaid(limit, events, e);
    }
  }

  /**
   And what is said is heard: in every run, whatever a message event says is queued once, behind everything else,
   for every member with a socket and for nobody without one, and unless it is a typing note it becomes the newest
   entry of log and history.
   */
  lemma SaidIsHeard(limit: nat, events: seq<Event>, ev: Event, e: Entry)
    requires Utters(Run(Empty(limit), events), ev, e)
    ensures
      var s := Run(Empty(limit), events);
      var s' := Step(s, ev);
      && AllGot(s.room, s'.room, Broadcast(e)) && s'.sessions == s.sessions && s'.nextId == s.nextId
      && if e.Typing? then s'.log == s.log && s'.room.history == s.room.history
         else s'.log == s.log + [e] && Newest(s.room, s'.room, e)
  {
    var s := Run(Empty(limit), events);
    HandleFacts(s.room, ev.id, ev.raw, ev.now);
    assert s.log + [] == s.log;
  }
}

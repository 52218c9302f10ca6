/**
 What the browsers make of calls that run one by one: each is told of exactly the peers it is due to be told of,
 and its map and panel show just those.
 */
module RoomCallTheorems {
  import opened Messages
  import opened Participants
  import opened ClientSpec
  import opened RoomSpec
  import opened Membership
  import opened MembershipTheorems
  import opened ViewTheorems
  import opened Learning
  import opened Panel
  import opened Returns
  import opened Following
  import opened RoomCalls

  // ---- Sessions ----

  /** A peer with its browser: `target` is what its messages say, if its socket still gets them. */
  ghost predicate PeerOk(p: PeerValue, x: Session, id: int, onboarded: bool, target: map<int, string>,
                         log: seq<Entry>) {
    && x.consumed <= |p.outbox| && AllSensible(p.outbox, log, id) && (!onboarded ==> NoInfo(p.outbox))
    && (p.live ==> LearntAll(map[], p.outbox) == target)
    && BrowserOk(x.client, p.outbox[..x.consumed], log, id)
  }

  lemma PeerOkLonger(p: PeerValue, x: Session, id: int, onboarded: bool, target: map<int, string>, log: seq<Entry>,
                     log': seq<Entry>)
    requires PeerOk(p, x, id, onboarded, target, log) && forall e :: e in log ==> e in log'
    ensures PeerOk(p, x, id, onboarded, target, log')
  {
    AllSensibleLonger(p.outbox, log, log', id);
    BrowserOkLonger(x.client, p.outbox[..x.consumed], log, log', id);
  }

  /** One more message for the peer, if it still has its socket. */
  lemma SentKeepsPeer(p: PeerValue, x: Session, id: int, onboarded: bool, target: map<int, string>, log: seq<Entry>,
                      m: Message)
    requires PeerOk(p, x, id, onboarded, target, log) && (p.live ==> Sensible(p.outbox, m, log, id))
    requires p.live ==> !m.Info?
    ensures PeerOk(Sent(p, m), x, id, onboarded, Learnt(target, m), log)
  {
    if p.live {
      AllSensibleAppend(p.outbox, m, log, id);
      LearntAppend(map[], p.outbox, m);
      assert (p.outbox + [m])[..x.consumed] == p.outbox[..x.consumed];
    }
  }

  lemma NoteKeepsPeer(p: PeerValue, p': PeerValue, x: Session, id: int, onboarded: bool, target: map<int, string>,
                      log: seq<Entry>, m: Message)
    requires PeerOk(p, x, id, onboarded, target, log) && !m.Info? && (m.Broadcast? ==> FromClient(m.entry))
    requires Grown(p.outbox, p'.outbox, m) && (p'.live ==> p.live)
    ensures PeerOk(p', x, id, onboarded, target, log)
  {
    AllSensibleAppend(p.outbox, m, log, id);
    LearntAppend(map[], p.outbox, m);
    assert p'.outbox[..x.consumed] == p.outbox[..x.consumed];
  }

  lemma DeliveryKeepsPeer(p: PeerValue, x: Session, id: int, onboarded: bool, target: map<int, string>,
                          log: seq<Entry>)
    requires PeerOk(p, x, id, onboarded, target, log) && x.consumed < |p.outbox| && SoundLog(log) && id != 0
    ensures PeerOk(p, Session(OnMessage(x.client, p.outbox[x.consumed]), x.consumed + 1), id, onboarded, target, log)
  {
    assert p.outbox[..x.consumed + 1] == p.outbox[..x.consumed] + [p.outbox[x.consumed]];
    MessageKeepsBrowser(x.client, p.outbox[..x.consumed], p.outbox[x.consumed], log, id);
  }

  ghost predicate SessionHolds(s: State, b: int)
    requires b in s.sys.room.peers
  {
    b in s.sys.sessions &&
    PeerOk(s.sys.room.peers[b], s.sys.sessions[b], b, b in s.onboardings, Target(s, b), s.sys.log)
  }

  ghost predicate SessionsHold(s: State) {
    forall b :: b in s.sys.room.peers ==> SessionHolds(s, b)
  }

  ghost predicate Inv(s: State) {
    TablesOk(s) && HearingOk(s) && SessionsHold(s)
  }

  lemma TablesSound(s: State)
    requires TablesOk(s)
    ensures SoundLog(s.sys.log) && forall b :: b in s.sys.room.peers ==> b in s.welcomes && b != 0
  {
    AnnouncedHas(s);
    forall b | b in s.sys.room.peers ensures b in s.welcomes && b != 0 {
      assert b in Announced(s).Keys && b in Announced(s);
    }
    forall e | e in s.sys.log && e.Joined? ensures e.peerId != 0 {
      var i :| 0 <= i < |s.sys.log| && s.sys.log[i] == e;
    }
  }

  lemma SameTarget(s: State, s': State, b: int)
    requires Announced(s') == Announced(s) && forall a :: a in Announced(s) ==> (Due(s', a, b) <==> Due(s, a, b))
    ensures Target(s', b) == Target(s, b)
  {
  }

  /** A step that broadcasts no arrival and no departure. */
  lemma SessionsStay(s: State, s': State, m: Message)
    requires SessionsHold(s) && Announced(s') == Announced(s) && (forall e :: e in s.sys.log ==> e in s'.sys.log)
    requires s'.welcomes == s.welcomes && s'.onboardings == s.onboardings && s'.sys.room.limit == s.sys.room.limit
    requires !m.Info? && (m.Broadcast? ==> FromClient(m.entry))
    requires forall b :: b in s'.sys.room.peers ==>
      && b in s.sys.room.peers && (s'.sys.room.peers[b].live ==> s.sys.room.peers[b].live)
      && Grown(s.sys.room.peers[b].outbox, s'.sys.room.peers[b].outbox, m)
      && b in s.sys.sessions && b in s'.sys.sessions && s'.sys.sessions[b] == s.sys.sessions[b]
    ensures SessionsHold(s')
  {
    forall b | b in s'.sys.room.peers ensures SessionHolds(s', b) {
      assert SessionHolds(s, b);
      SameTarget(s, s', b);
      PeerOkLonger(s.sys.room.peers[b], s.sys.sessions[b], b, b in s.onboardings, Target(s, b), s.sys.log, s'.sys.log);
      NoteKeepsPeer(s.sys.room.peers[b], s'.sys.room.peers[b], s.sys.sessions[b], b, b in s.onboardings,
                    Target(s, b), s'.sys.log, m);
    }
  }

  lemma TargetIs(s: State, b: int, want: map<int, string>)
    requires forall a :: a in want <==> a in Announced(s) && Due(s, a, b)
    requires forall a :: a in want ==> want[a] == Announced(s)[a]
    ensures Target(s, b) == want
  {
    forall a ensures a in Target(s, b).Keys <==> a in want.Keys {
      assert a in want <==> a in Announced(s) && Due(s, a, b);
    }
    SameMap(Target(s, b), want);
  }

  lemma WelcomeTarget(s: State, s': State, id: int, name: string, b: int)
    requires id !in s.welcomes && Announced(s') == Announced(s)[id := name] && b in s.sys.room.peers
    requires s'.welcomes == s.welcomes[id := Welcoming(|s.sys.log|, s.sys.room.peers.Keys)]
    requires s'.onboardings == s.onboardings && s'.sys.room.limit == s.sys.room.limit
    ensures Target(s', b) == Target(s, b)[id := name]
  {
    assert b in s.sys.room.peers.Keys && Due(s', id, b);
    assert forall a :: a != id ==> (Due(s', a, b) <==> Due(s, a, b));
    TargetIs(s', b, Target(s, b)[id := name]);
  }

  /** An arrival or a departure is broadcast to a peer. */
  lemma NewsKeepsPeer(s: State, s': State, b: int, e: Entry)
    requires b in s.sys.room.peers && SessionHolds(s, b) && b in s'.sys.room.peers
    requires s'.sys.room.peers[b] == Sent(s.sys.room.peers[b], Broadcast(e))
    requires b in s'.sys.sessions && s'.sys.sessions[b] == s.sys.sessions[b] && s'.onboardings == s.onboardings
    requires s'.sys.log == s.sys.log + [e] && Target(s', b) == ReplayOne(Target(s, b), e)
    requires s.sys.room.peers[b].live ==> Sensible(s.sys.room.peers[b].outbox, Broadcast(e), s'.sys.log, b)
    ensures SessionHolds(s', b)
  {
    PeerOkLonger(s.sys.room.peers[b], s.sys.sessions[b], b, b in s.onboardings, Target(s, b), s.sys.log, s'.sys.log);
    SentKeepsPeer(s.sys.room.peers[b], s.sys.sessions[b], b, b in s.onboardings, Target(s, b), s'.sys.log,
                  Broadcast(e));
  }

  lemma WelcomeKeepsSessions(s: State, s': State, id: int, name: string)
    requires TablesOk(s) && HearingOk(s) && SessionsHold(s) && id !in s.welcomes && id != 0
    requires Announced(s') == Announced(s)[id := name] && s'.sys.log == s.sys.log + [Joined(id, name)]
    requires s'.welcomes == s.welcomes[id := Welcoming(|s.sys.log|, s.sys.room.peers.Keys)]
    requires s'.onboardings == s.onboardings && s'.sys.room.limit == s.sys.room.limit
    requires s'.sys.room.peers == SentToAll(s.sys.room.peers, Broadcast(Joined(id, name)))
    requires s'.sys.sessions == s.sys.sessions
    ensures SessionsHold(s')
  {
    var e := Joined(id, name);
    TablesSound(s);
    forall b | b in s'.sys.room.peers ensures SessionHolds(s', b) {
      assert SessionHolds(s, b);
      WelcomeTarget(s, s', id, name, b);
      assert !Due(s, id, b) && e in s'.sys.log;
      NewsKeepsPeer(s, s', b, e);
    }
  }

  lemma GoodbyeTarget(s: State, s': State, id: int, b: int)
    requires Announced(s') == Announced(s) - {id}
    requires s'.welcomes == s.welcomes && s'.onboardings == s.onboardings && s'.sys.room.limit == s.sys.room.limit
    ensures Target(s', b) == Target(s, b) - {id}
  {
    assert forall a :: Due(s', a, b) <==> Due(s, a, b);
    TargetIs(s', b, Target(s, b) - {id});
  }

  lemma GoodbyeKeepsSessions(s: State, s': State, id: int)
    requires TablesOk(s) && SessionsHold(s) && id in s.leaving
    requires Announced(s') == Announced(s) - {id} && s'.sys.log == s.sys.log + [Left(id)]
    requires s'.welcomes == s.welcomes && s'.onboardings == s.onboardings && s'.sys.room.limit == s.sys.room.limit
    requires s'.sys.room.peers == SentToAll(s.sys.room.peers, Broadcast(Left(id)))
    requires s'.sys.sessions == s.sys.sessions
    ensures SessionsHold(s')
  {
    AnnouncedHas(s);
    assert id in Announced(s).Keys && id in Announced(s) && id in s.leaving.Keys;
    forall b | b in s'.sys.room.peers ensures SessionHolds(s', b) {
      assert SessionHolds(s, b) && b in s.sys.room.peers.Keys && Left(id) in s'.sys.log;
      GoodbyeTarget(s, s', id, b);
      NewsKeepsPeer(s, s', b, Left(id));
    }
  }

  lemma AddKeepsSessions(s: State, s': State, id: int)
    requires SessionsHold(s) && OnboardingsOk(s) && WitnessesOk(s) && id in s.arriving && s' == DoAdd(s, id)
    requires Announced(s') == Announced(s)
    ensures SessionsHold(s')
  {
    forall b | b in s'.sys.room.peers ensures SessionHolds(s', b) {
      if b == id {
        assert id !in s.onboardings && s'.sys.sessions[b] == Session(BLANK, 0);
        assert forall a :: a in s.welcomes ==> id !in s.welcomes[a].witnesses;
        TargetIs(s', id, map[]);
        BlankIsOk(s.sys.log, id);
      } else {
        assert SessionHolds(s, b);
        SameTarget(s, s', b);
      }
    }
  }

  /** One browser goes on, everything else stays. */
  lemma OneSessionGoesOn(s: State, s': State, id: int, x: Session)
    requires SessionsHold(s) && s' == s.(sys := s.sys.(sessions := s.sys.sessions[id := x]))
    requires id in s.sys.room.peers ==>
      PeerOk(s.sys.room.peers[id], x, id, id in s.onboardings, Target(s, id), s.sys.log)
    ensures SessionsHold(s')
  {
    forall b | b in s'.sys.room.peers ensures SessionHolds(s', b) {
      assert SessionHolds(s, b);
      SameTarget(s, s', b);
    }
  }

  lemma DeliverKeepsSessionsHold(s: State, s': State, id: int)
    requires TablesOk(s) && SessionsHold(s)
    requires Enabled(s.sys, Deliver(id)) && s' == s.(sys := Step(s.sys, Deliver(id)))
    ensures SessionsHold(s')
  {
    TablesSound(s);
    assert SessionHolds(s, id);
    var p, x := s.sys.room.peers[id], s.sys.sessions[id];
    DeliveryKeepsPeer(p, x, id, id in s.onboardings, Target(s, id), s.sys.log);
    OneSessionGoesOn(s, s', id, Session(OnMessage(x.client, p.outbox[x.consumed]), x.consumed + 1));
  }

  lemma FadeOutKeepsSessionsHold(s: State, s': State, id: int, handle: nat)
    requires SessionsHold(s) && Enabled(s.sys, FadeOut(id, handle)) && s' == s.(sys := Step(s.sys, FadeOut(id, handle)))
    ensures SessionsHold(s')
  {
    var x := s.sys.sessions[id];
    if id in s.sys.room.peers {
      assert SessionHolds(s, id);
      FadeOutKeepsBrowser(x.client, s.sys.room.peers[id].outbox[..x.consumed], s.sys.log, id, handle);
    }
    OneSessionGoesOn(s, s', id, x.(client := FinishRemoval(x.client, handle)));
  }

  // ---- The snapshot ----

  /** Somebody announced who is mentioned is mentioned by its welcome. */
  lemma MentionedMember(s: State, es: seq<Entry>, a: int)
    requires LogOk(Whole(s)) && a in Announced(s) && (forall e :: e in es ==> e in s.sys.log)
    requires exists e :: e in es && Mentions(e, a)
    ensures exists e :: e in es && Announces(e, a)
  {
    var e :| e in es && Mentions(e, a);
    assert a in Whole(s).room.peers;
    assert e in s.sys.log;
    assert Announces(e, a);
  }

  /** What the replayed history makes of a map of announced peers, peer by peer. */
  lemma HistoryReplays(s: State, m: map<int, string>, a: int)
    requires TablesOk(s) && s.sys.room.history != [] && (forall p :: p in s.sys.room.peers ==> p in m)
    requires forall p :: p in m ==> p in Announced(s) && m[p] == Announced(s)[p]
    ensures
      var m' := Replay(m, s.sys.room.history);
      && (a in m' <==> a in Announced(s) && (a in m || |s.sys.log| - s.welcomes[a].place <= s.sys.room.limit))
      && (a in m' ==> m'[a] == Announced(s)[a])
  {
    var start := |s.sys.log| - |s.sys.room.history|;
    var prefix, es := s.sys.log[..start], s.sys.room.history;
    assert s.sys.log == prefix + es;
    WholeNames(s);
    HistoryAnnounces(s, a);
    if exists e :: e in es && Mentions(e, a) {
      SuffixReplay(map[], prefix, es);
      ReplayAgrees(m, Announced(s), es, a);
      assert AgreeAt(Replay(m, es), Announced(s), a);
      if a in Announced(s) {
        MentionedMember(s, es, a);
      }
    } else {
      ReplaySilent(m, es, a);
      assert AgreeAt(Replay(m, es), m, a);
    }
  }

  /** Without a history one's own arrival is replayed, and that is in the snapshot already. */
  lemma OwnArrivalChangesNothing(m: map<int, string>, id: int)
    requires id in m
    ensures Replay(m, [Joined(id, m[id])]) == m
  {
    var es := [Joined(id, m[id])];
    assert es[1..] == [];
    assert m[id := m[id]] == m;
    assert Replay(m, es) == Replay(m[id := m[id]], []);
  }

  /** An empty history means a limit of 0, or an empty log. */
  lemma WithoutHistory(s: State)
    requires TablesOk(s) && s.sys.room.history == []
    ensures forall a :: a in s.welcomes ==> |s.sys.log| - s.welcomes[a].place > s.sys.room.limit
  {
  }

  /** Who is due after the onboarding: those it heard of before, the members, and those in the history. */
  lemma OnboardingIsDue(s: State, s': State, id: int, order: seq<PeerEntry>)
    requires CanOnboard(s, id, order) && s' == DoOnboard(s, id, order)
    ensures forall a :: Due(s', a, id) <==>
      (a in s.welcomes &&
       (Due(s, a, id) || a in s.sys.room.peers || |s.sys.log| - s.welcomes[a].place <= s.sys.room.limit))
  {
    assert forall a :: a in s.sys.room.peers <==> a in s.sys.room.peers.Keys;
  }

  /** The map a browser has when the history is replayed: what it heard before, and the snapshot. */
  function WithSnapshot(s: State, id: int): map<int, string> {
    Target(s, id) + Names(s.sys.room.peers)
  }

  lemma WithSnapshotIs(s: State, id: int, a: int)
    requires WelcomesOk(s) && Apart(s)
    ensures a in WithSnapshot(s, id) <==> a in s.sys.room.peers || (a in Announced(s) && Due(s, a, id))
    ensures a in WithSnapshot(s, id) ==>
      a in Announced(s) && WithSnapshot(s, id)[a] == Announced(s)[a] && a in s.welcomes
  {
    NamesAt(s.sys.room.peers);
    if a in s.sys.room.peers {
      AnnouncedAt(s, a);
    }
  }

  lemma OnboardingTarget(s: State, s': State, id: int, order: seq<PeerEntry>)
    requires TablesOk(s) && CanOnboard(s, id, order) && s' == DoOnboard(s, id, order)
    requires Announced(s') == Announced(s)
    ensures
      var info := Info(id, s.sys.room.peers[id].name, order, s.sys.room.history);
      Replay(WithSnapshot(s, id), Replayed(info)) == Target(s', id)
  {
    var m := WithSnapshot(s, id);
    forall a
      ensures a in m <==> a in s.sys.room.peers || (a in Announced(s) && Due(s, a, id))
      ensures a in m ==> a in Announced(s) && m[a] == Announced(s)[a] && a in s.welcomes
    {
      WithSnapshotIs(s, id, a);
    }
    OnboardingIsDue(s, s', id, order);
    if s.sys.room.history == [] {
      WithoutHistory(s);
      TargetIs(s', id, m);
      AnnouncedAt(s, id);
      OwnArrivalChangesNothing(m, id);
    } else {
      var m' := Replay(m, s.sys.room.history);
      forall a ensures a in m' <==> a in Announced(s') && Due(s', a, id) {
        HistoryReplays(s, m, a);
      }
      forall a | a in m' ensures m'[a] == Announced(s')[a] {
        HistoryReplays(s, m, a);
      }
      TargetIs(s', id, m');
    }
  }

  /** A member arrived under its name, and did not leave. */
  lemma MemberIsLogged(s: State, a: int)
    requires TablesOk(s) && a in s.sys.room.peers
    ensures Joined(a, s.sys.room.peers[a].name) in s.sys.log && Left(a) !in s.sys.log && a != 0
  {
    TablesSound(s);
    AnnouncedAt(s, a);
    assert a in Whole(s).room.peers;
  }

  lemma SentIsLogged(ms: seq<Message>, e: Entry, log: seq<Entry>, self: int)
    requires AllSensible(ms, log, self) && Broadcast(e) in ms && (e.Joined? || e.Left?)
    ensures e in log
  {
    var i :| 0 <= i < |ms| && ms[i] == Broadcast(e);
    assert Sensible(ms[..i], ms[i], log, self);
  }

  lemma HistoryInOrder(s: State, id: int, info: Message)
    requires TablesOk(s) && id in s.sys.room.peers
    requires info.Info? && info.peerId == id && info.peerName == s.sys.room.peers[id].name
    requires info.history == s.sys.room.history && id in IdSet(info.peers)
    ensures InOrder(Replayed(info), s.sys.room.peers[id].outbox + [info], s.sys.log, id)
  {
    var es, ms, log := Replayed(info), s.sys.room.peers[id].outbox + [info], s.sys.log;
    MemberIsLogged(s, id);
    TablesSound(s);
    assert info in ms;
    if s.sys.room.history == [] {
      assert Tells(info, id);
    } else {
      var start := |log| - |s.sys.room.history|;
      assert es == log[start..];
      forall e | e in es ensures e in log && (e.Joined? ==> Tells(info, e.peerId)) && (e.Left? ==> e.peerId != id) {
        assert e.Joined? ==> Announces(e, e.peerId);
        assert e.Left? ==> e == Left(e.peerId);
      }
      forall i, j | 0 <= i < j < |es| && es[i].Left? && es[j].Joined? ensures es[i].peerId != es[j].peerId {
        assert log[start + i] == es[i] && log[start + j] == es[j];
        assert SamePeer(log[start + j], log[start + i]) ==> start + j < start + i;
      }
    }
  }

  /** What the room sends a newcomer is sensible: nobody who left is in the snapshot, and the history is in order. */
  lemma InfoIsSensible(s: State, id: int, order: seq<PeerEntry>)
    requires TablesOk(s) && HearingOk(s) && CanOnboard(s, id, order) && s.sys.room.peers[id].live
    requires NoInfo(s.sys.room.peers[id].outbox) && AllSensible(s.sys.room.peers[id].outbox, s.sys.log, id)
    ensures
      var info := Info(id, s.sys.room.peers[id].name, order, s.sys.room.history);
      Sensible(s.sys.room.peers[id].outbox, info, s.sys.log, id)
  {
    var p := s.sys.room.peers[id];
    var info := Info(id, p.name, order, s.sys.room.history);
    TablesSound(s);
    ToMapKeys(order);
    ToMapHas(order);
    NamesAt(s.sys.room.peers);
    assert !Due(s, id, id);
    forall q | q in order
      ensures Joined(q.id, q.name) in s.sys.log && q.id != 0 && Broadcast(Left(q.id)) !in p.outbox
    {
      MemberIsLogged(s, q.id);
      if Broadcast(Left(q.id)) in p.outbox {
        SentIsLogged(p.outbox, Left(q.id), s.sys.log, id);
      }
    }
    HistoryInOrder(s, id, info);
  }

  /** The peer that is onboarded: its browser will make of the snapshot what it is due. */
  lemma NewcomerIsOk(p: PeerValue, x: Session, id: int, info: Message, target: map<int, string>,
                     target': map<int, string>, log: seq<Entry>)
    requires PeerOk(p, x, id, false, target, log) && info.Info?
    requires p.live ==> Sensible(p.outbox, info, log, id)
    requires p.live ==> Replay(target + ToMap(info.peers), Replayed(info)) == target'
    ensures PeerOk(Sent(p, info), x, id, true, target', log)
  {
    if p.live {
      AllSensibleAppend(p.outbox, info, log, id);
      LearntAppend(map[], p.outbox, info);
      assert (p.outbox + [info])[..x.consumed] == p.outbox[..x.consumed];
    }
  }

  /** A peer and its browser that a step left as they were. */
  lemma SamePeerHolds(s: State, s': State, b: int)
    requires b in s.sys.room.peers && SessionHolds(s, b)
    requires b in s'.sys.room.peers && s'.sys.room.peers[b] == s.sys.room.peers[b]
    requires b in s'.sys.sessions && s'.sys.sessions[b] == s.sys.sessions[b] && s'.sys.log == s.sys.log
    requires b in s'.onboardings <==> b in s.onboardings
    requires Target(s', b) == Target(s, b)
    ensures SessionHolds(s', b)
  {
  }

  lemma OnboardKeepsSessions(s: State, s': State, id: int, p': PeerValue)
    requires SessionsHold(s) && id in s.sys.room.peers && s'.sys.room.peers == s.sys.room.peers[id := p']
    requires id in s.sys.sessions && s'.sys.sessions == s.sys.sessions && s'.sys.log == s.sys.log
    requires PeerOk(p', s.sys.sessions[id], id, true, Target(s', id), s.sys.log)
    requires Announced(s') == Announced(s) && s'.welcomes == s.welcomes && s'.sys.room.limit == s.sys.room.limit
    requires s'.onboardings == s.onboardings[id := Onboarding(s.sys.room.peers.Keys, |s.sys.log|)]
    ensures SessionsHold(s')
  {
    forall b | b in s'.sys.room.peers ensures SessionHolds(s', b) {
      if b == id {
        assert SessionHolds(s', id);
      } else {
        SameTarget(s, s', b);
        SamePeerHolds(s, s', b);
      }
    }
  }

  // ---- Every call, every run ----

  lemma OtherKeepsHold(s: State, s': State, e: Event, m: Message)
    requires TablesOk(s) && SessionsHold(s) && Later(s, e)
    requires s' == s.(sys := Step(s.sys, e)) && Announced(s') == Announced(s) && Passes(s.sys, s'.sys, m)
    ensures SessionsHold(s')
  {
    if e.Deliver? && Enabled(s.sys, e) {
      DeliverKeepsSessionsHold(s, s', e.id);
    } else if e.FadeOut? && Enabled(s.sys, e) {
      FadeOutKeepsSessionsHold(s, s', e.id, e.handle);
    } else {
      if e.Incoming? && Enabled(s.sys, e) {
        IncomingPasses(s.sys, e);
      }
      assert forall b :: b in s.sys.room.peers ==> SessionHolds(s, b);
      SessionsStay(s, s', m);
    }
  }

  lemma PassingIsSilent(s: State, s': State, m: Message)
    requires HearingOk(s) && Passes(s.sys, s'.sys, m) && s'.welcomes == s.welcomes && s'.onboardings == s.onboardings
    ensures HearingOk(s')
  {
    HearingStays(s, s', m);
  }

  lemma OtherKeepsInv(s: State, s': State, e: Event)
    requires Inv(s) && Later(s, e) && s' == s.(sys := Step(s.sys, e))
    ensures Inv(s')
  {
    OtherKeepsTables(s, s', e);
    OtherPasses(s.sys, e);
    var m :| Passes(s.sys, s'.sys, m);
    PassingIsSilent(s, s', m);
    OtherKeepsHold(s, s', e, m);
  }

  lemma WelcomeKeepsInv(s: State, id: int, name: string)
    requires Inv(s) && id !in s.welcomes && id != 0
    ensures Inv(DoWelcome(s, id, name))
  {
    var s' := DoWelcome(s, id, name);
    PostedLogs(s.sys, Joined(id, name));
    WelcomeKeepsTables(s, s', id, name);
    WelcomeIsHeard(s, s', id, name);
    WelcomeKeepsSessions(s, s', id, name);
  }

  lemma AddKeepsInv(s: State, id: int)
    requires Inv(s) && id in s.arriving
    ensures Inv(DoAdd(s, id))
  {
    var s' := DoAdd(s, id);
    AddKeepsTables(s, s', id);
    AdditionIsSilent(s, s', id);
    AddKeepsSessions(s, s', id);
  }

  lemma OnboardKeepsHold(s: State, s': State, id: int, order: seq<PeerEntry>)
    requires TablesOk(s) && HearingOk(s) && SessionsHold(s)
    requires CanOnboard(s, id, order) && s' == DoOnboard(s, id, order) && Announced(s') == Announced(s)
    ensures SessionsHold(s')
  {
    var p := s.sys.room.peers[id];
    var info := Info(id, p.name, order, s.sys.room.history);
    assert SessionHolds(s, id);
    OnboardingTarget(s, s', id, order);
    if p.live {
      InfoIsSensible(s, id, order);
    }
    NewcomerIsOk(p, s.sys.sessions[id], id, info, Target(s, id), Target(s', id), s.sys.log);
    OnboardKeepsSessions(s, s', id, Sent(p, info));
  }

  lemma OnboardingFits(s: State, s': State, id: int, order: seq<PeerEntry>)
    requires TablesOk(s) && CanOnboard(s, id, order) && s' == DoOnboard(s, id, order)
    ensures TablesOk(s') && Announced(s') == Announced(s)
  {
    OnboardNames(s.sys.room, id, order);
    OnboardKeepsTables(s, s', id);
  }

  lemma OnboardKeepsInv(s: State, id: int, order: seq<PeerEntry>)
    requires Inv(s) && CanOnboard(s, id, order)
    ensures Inv(DoOnboard(s, id, order))
  {
    var s' := DoOnboard(s, id, order);
    OnboardingFits(s, s', id, order);
    OnboardingIsHeard(s, s', id, order);
    OnboardKeepsHold(s, s', id, order);
  }

  lemma FewerKeep(s: State, s': State, id: int)
    requires HearingOk(s) && SessionsHold(s) && s'.sys.room.peers == s.sys.room.peers - {id}
    requires s'.sys.sessions == s.sys.sessions - {id} && s'.sys.room.limit == s.sys.room.limit
    requires s'.welcomes == s.welcomes && s'.onboardings == s.onboardings
    requires Announced(s') == Announced(s) && s'.sys.log == s.sys.log
    ensures HearingOk(s') && SessionsHold(s')
  {
    HearingStays(s, s', Ping);
    assert forall b :: b in s.sys.room.peers ==> SessionHolds(s, b);
    SessionsStay(s, s', Ping);
  }

  lemma RemoveKeepsInv(s: State, id: int)
    requires Inv(s) && id in s.sys.room.peers && id in s.onboardings
    ensures Inv(DoRemove(s, id))
  {
    var s' := DoRemove(s, id);
    RemoveKeepsTables(s, s', id);
    FewerKeep(s, s', id);
  }

  lemma GoodbyeKeepsInv(s: State, id: int)
    requires Inv(s) && id in s.leaving
    ensures Inv(DoGoodbye(s, id))
  {
    var s' := DoGoodbye(s, id);
    PostedLogs(s.sys, Left(id));
    AnnouncedHas(s);
    assert id in Announced(s).Keys;
    GoodbyeKeepsTables(s, s', id);
    HearingStays(s, s', Broadcast(Left(id)));
    GoodbyeKeepsSessions(s, s', id);
  }

  lemma CallKeepsInv(s: State, c: Call)
    requires Inv(s)
    ensures Inv(Do(s, c))
  {
    if Can(s, c) {
      match c
      case Welcome(id, name) => WelcomeKeepsInv(s, id, name);
      case AddPeer(id) => AddKeepsInv(s, id);
      case OnboardPeer(id, order) => OnboardKeepsInv(s, id, order);
      case RemovePeerById(id) => RemoveKeepsInv(s, id);
      case Goodbye(id) => GoodbyeKeepsInv(s, id);
      case Other(e) => OtherKeepsInv(s, Do(s, c), e);
    }
  }

  lemma {:induction false} CallsKeepInv(s: State, calls: seq<Call>)
    requires Inv(s)
    ensures Inv(DoAll(s, calls))
    decreases |calls|
  {
    if calls == [] {
    } else {
      CallKeepsInv(s, calls[0]);
      CallsKeepInv(Do(s, calls[0]), calls[1..]);
    }
  }

  // ---- Results ----

  /** A peer's browser once it has handled what is pending. */
  function CaughtUp(y: System, id: int): Client
    requires id in y.room.peers && id in y.sessions && y.sessions[id].consumed <= |y.room.peers[id].outbox|
  {
    OnMessages(y.sessions[id].client, y.room.peers[id].outbox[y.sessions[id].consumed..])
  }

  lemma StartHolds(limit: nat)
    ensures Inv(Start(limit))
  {
    assert Names(Start(limit).sys.room.peers) == map[] && Announced(Start(limit)) == map[];
  }

  lemma {:induction false} PeerCatchesUp(p: PeerValue, x: Session, id: int, onboarded: bool, target: map<int, string>,
                                         log: seq<Entry>)
    requires PeerOk(p, x, id, onboarded, target, log) && SoundLog(log) && id != 0
    ensures BrowserOk(OnMessages(x.client, p.outbox[x.consumed..]), p.outbox, log, id)
    decreases |p.outbox| - x.consumed
  {
    if x.consumed == |p.outbox| {
      assert p.outbox[x.consumed..] == [] && p.outbox[..x.consumed] == p.outbox;
    } else {
      MessagesFrom(x.client, p.outbox, x.consumed);
      DeliveryKeepsPeer(p, x, id, onboarded, target, log);
      PeerCatchesUp(p, Session(OnMessage(x.client, p.outbox[x.consumed]), x.consumed + 1), id, onboarded, target, log);
    }
  }

  /** What holds of a peer and its browser in every reachable state, now and once it has caught up. */
  lemma Reachable(limit: nat, calls: seq<Call>, s: State, b: int)
    requires s == DoAll(Start(limit), calls) && b in s.sys.room.peers
    ensures Inv(s) && SessionHolds(s, b) && SoundLog(s.sys.log) && b != 0
    ensures BrowserOk(CaughtUp(s.sys, b), s.sys.room.peers[b].outbox, s.sys.log, b)
  {
    StartHolds(limit);
    CallsKeepInv(Start(limit), calls);
    TablesSound(s);
    assert SessionHolds(s, b);
    PeerCatchesUp(s.sys.room.peers[b], s.sys.sessions[b], b, b in s.onboardings, Target(s, b), s.sys.log);
  }

  /**
   However the calls of arrivals and departures interleave with each other and with everything else: a peer in
   the table with a socket has been sent word of exactly the peers it is due to be told of, and no browser ever
   has another one in its map, pending messages included, whether it throws or not.
   */
  lemma ToldExactlyIfDue(limit: nat, calls: seq<Call>, s: State, a: int, b: int)
    requires s == DoAll(Start(limit), calls) && b in s.sys.room.peers && s.sys.room.peers[b].live
    ensures Hears(s.sys.room.peers[b].outbox, a) <==> Due(s, a, b)
    ensures b in s.sys.sessions && s.sys.sessions[b].consumed <= |s.sys.room.peers[b].outbox|
    ensures a in IdSet(CaughtUp(s.sys, b).view) ==> Due(s, a, b)
  {
    Reachable(limit, calls, s, b);
  }

  lemma AtRest(s: State, b: int)
    requires s.arriving == map[] && s.leaving == map[]
    ensures Target(s, b) == Names(s.sys.room.peers) <==> forall a :: a in s.sys.room.peers ==> Due(s, a, b)
  {
    NamesAt(s.sys.room.peers);
    assert Announced(s) == Names(s.sys.room.peers);
    if forall a :: a in s.sys.room.peers ==> Due(s, a, b) {
      TargetIs(s, b, Names(s.sys.room.peers));
    }
    forall a | a in s.sys.room.peers && Target(s, b) == Names(s.sys.room.peers) ensures Due(s, a, b) {
      assert a in Names(s.sys.room.peers) && a in Target(s, b);
    }
  }

  /**
   The browser that has handled what is pending has in its map what the messages say, with the history of its
   INFO cut off behind the entry that made it throw, if one did. If none did, those are exactly the peers announced
   that are due, under their names; and once nobody is on the way in or out, they are the members if and only if
   all members are due.
   */
  lemma KnowsExactlyWhoIsDue(limit: nat, calls: seq<Call>, s: State, b: int)
    requires s == DoAll(Start(limit), calls) && b in s.sys.room.peers && s.sys.room.peers[b].live
    ensures b in s.sys.sessions && s.sys.sessions[b].consumed <= |s.sys.room.peers[b].outbox|
    ensures
      var c, ms := CaughtUp(s.sys, b), s.sys.room.peers[b].outbox;
      && (exists n :: ToMap(c.view) == LearntAll(map[], CutAll(ms, n)))
      && (!c.thrown ==>
          && ToMap(c.view) == LearntAll(map[], ms) == Target(s, b)
          && (s.arriving == map[] && s.leaving == map[] ==>
              (ToMap(c.view) == Names(s.sys.room.peers) <==> forall a :: a in s.sys.room.peers ==> Due(s, a, b))))
  {
    Reachable(limit, calls, s, b);
    var c, ms := CaughtUp(s.sys, b), s.sys.room.peers[b].outbox;
    var n :| Follows(c, ms, n);
    CutNothing(ms, 0);
    if s.arriving == map[] && s.leaving == map[] {
      AtRest(s, b);
    }
  }

  /**
   Exactly when a browser throws, in every reachable state: the next message makes it throw if and only if it is
   its INFO and replaying the history comes to the arrival of a peer that is not in the map but still has its element,
   with the element of somebody in the map on the wrong side of it. And then some peer that was said to be gone
   before the INFO is announced again by its history.
   */
  lemma ThrowsExactlyIfOutOfPlace(limit: nat, calls: seq<Call>, s: State, b: int)
    requires s == DoAll(Start(limit), calls) && b in s.sys.room.peers
    ensures b in s.sys.sessions && s.sys.sessions[b].consumed <= |s.sys.room.peers[b].outbox|
    ensures
      var x, ms := s.sys.sessions[b], s.sys.room.peers[b].outbox;
      !x.client.thrown && x.consumed < |ms| ==>
        && (OnMessage(x.client, ms[x.consumed]).thrown <==> OutOfPlace(x.client, ms[x.consumed]))
        && (OutOfPlace(x.client, ms[x.consumed]) ==> exists a :: BringsBack(ms[..x.consumed], ms[x.consumed], a))
  {
    Reachable(limit, calls, s, b);
    var x, ms := s.sys.sessions[b], s.sys.room.peers[b].outbox;
    if !x.client.thrown && x.consumed < |ms| {
      MessageWalks(x.client, ms[..x.consumed], ms[x.consumed], s.sys.log, b);
    }
  }

  /**
   So a browser to which nobody said to be gone before its INFO comes back in its history never throws, and its
   panel shows its map.
   */
  lemma NeverThrowsIfNobodyReturns(limit: nat, calls: seq<Call>, s: State, b: int)
    requires s == DoAll(Start(limit), calls) && b in s.sys.room.peers
    requires !SomebodyReturns(s.sys.room.peers[b].outbox)
    ensures b in s.sys.sessions && s.sys.sessions[b].consumed <= |s.sys.room.peers[b].outbox|
    ensures !s.sys.sessions[b].client.thrown
    ensures
      var c := CaughtUp(s.sys, b);
      Shown(c) && !c.thrown && (!NoInfo(s.sys.room.peers[b].outbox) ==> c.rendered && c.self == b)
  {
    Reachable(limit, calls, s, b);
    if SomebodyReturns(s.sys.room.peers[b].outbox[..s.sys.sessions[b].consumed]) {
      ReturnsLater(s.sys.room.peers[b].outbox, s.sys.sessions[b].consumed);
    }
  }

  // ---- An arrival that overlaps another one ----

  lemma StepStands(s: State, c: Call)
    requires WelcomesOk(s)
    ensures Do(s, c).sys.room.limit == s.sys.room.limit
    ensures forall a :: a in s.welcomes ==> a in Do(s, c).welcomes && Do(s, c).welcomes[a] == s.welcomes[a]
    ensures forall b :: b in s.onboardings ==>
      b in Do(s, c).onboardings && Do(s, c).onboardings[b] == s.onboardings[b]
  {
    if c.Other? && Can(s, c) && c.event.Incoming? && Enabled(s.sys, c.event) {
      HandleSteps(s.sys.room, c.event.id, c.event.raw, c.event.now);
    }
  }

  /** What is on record stays on record. */
  lemma {:induction false} RecordsStand(s: State, calls: seq<Call>)
    requires Inv(s)
    ensures
      var s' := DoAll(s, calls);
      && s'.sys.room.limit == s.sys.room.limit
      && (forall a :: a in s.welcomes ==> a in s'.welcomes && s'.welcomes[a] == s.welcomes[a])
      && (forall b :: b in s.onboardings ==> b in s'.onboardings && s'.onboardings[b] == s.onboardings[b])
    decreases |calls|
  {
    if calls == [] {
    } else {
      var next := Do(s, calls[0]);
      CallKeepsInv(s, calls[0]);
      StepStands(s, calls[0]);
      RecordsStand(next, calls[1..]);
    }
  }

  /** Once a peer is welcomed and another one onboarded, it is settled for good whether that one is told. */
  lemma DueIsForGood(limit: nat, calls: seq<Call>, s: State, later: seq<Call>, a: int, b: int)
    requires s == DoAll(Start(limit), calls) && a in s.welcomes && b in s.onboardings
    ensures Due(DoAll(s, later), a, b) <==> Due(s, a, b)
  {
    StartHolds(limit);
    CallsKeepInv(Start(limit), calls);
    RecordsStand(s, later);
  }

  /**
   One peer is welcomed, another one is added and onboarded after that and before the first is in the table, and
   anything else happens in between: the second is due to be told of the first if and only if what was posted
   from the first one's welcome to the second one's onboarding is no longer than the history.
   */
  lemma BetweenDecides(limit: nat, calls: seq<Call>, s: State, a: int, name: string, between: seq<Call>, b: int,
                       order: seq<PeerEntry>)
    requires s == DoAll(Start(limit), calls) && Can(s, Welcome(a, name)) && b !in s.sys.room.peers
    requires Can(DoAll(Do(s, Welcome(a, name)), between), OnboardPeer(b, order))
    requires a !in DoAll(Do(s, Welcome(a, name)), between).sys.room.peers
    ensures
      var onboarding := DoAll(Do(s, Welcome(a, name)), between);
      Due(Do(onboarding, OnboardPeer(b, order)), a, b) <==>
        |onboarding.sys.log| - |s.sys.log| <= s.sys.room.limit
  {
    StartHolds(limit);
    CallsKeepInv(Start(limit), calls);
    var welcomed := Do(s, Welcome(a, name));
    CallKeepsInv(s, Welcome(a, name));
    RecordsStand(welcomed, between);
    assert b !in welcomed.welcomes[a].witnesses;
  }

  lemma DoFour(s: State, c: Call, d: Call, e: Call, f: Call)
    ensures DoAll(s, [c, d, e, f]) == Do(Do(Do(Do(s, c), d), e), f)
  {
    var s1, s2, s3 := Do(s, c), Do(Do(s, c), d), Do(Do(Do(s, c), d), e);
    assert [c, d, e, f][1..] == [d, e, f] && [d, e, f][1..] == [e, f] && [e, f][1..] == [f] && [f][1..] == [];
    assert DoAll(s3, [f]) == Do(s3, f);
    assert DoAll(s2, [e, f]) == DoAll(s3, [f]);
    assert DoAll(s1, [d, e, f]) == DoAll(s2, [e, f]);
  }

  /** A short run: two arrivals, one within the other, and a history too short for both welcomes. */
  lemma OverlapLosesPeer(first: string, second: string)
    ensures
      var calls := [Welcome(1, first), Welcome(2, second), AddPeer(2), OnboardPeer(2, [PeerEntry(2, second)])];
      var s := DoAll(Start(1), calls);
      2 in s.sys.room.peers && 2 in s.onboardings && 1 in s.arriving && !Due(s, 1, 2)
  {
    var order := [PeerEntry(2, second)];
    assert order[1..] == [];
    var s1 := Do(Start(1), Welcome(1, first));
    var s2 := Do(s1, Welcome(2, second));
    assert s2.arriving == map[1 := first, 2 := second] && s2.sys.room.peers == map[];
    var s3 := Do(s2, AddPeer(2));
    assert s3.sys.room.peers == map[2 := NewPeer(second)] && 1 in s3.arriving && s3.onboardings == map[];
    assert Names(s3.sys.room.peers) == map[2 := second] == ToMap(order);
    assert Can(s3, OnboardPeer(2, order));
    var s4 := Do(s3, OnboardPeer(2, order));
    assert 1 in s4.arriving && s4.welcomes[1] == Welcoming(0, {}) && s4.onboardings[2] == Onboarding({2}, 2);
    DoFour(Start(1), Welcome(1, first), Welcome(2, second), AddPeer(2), OnboardPeer(2, order));
  }
}

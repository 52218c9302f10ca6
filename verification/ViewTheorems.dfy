/**
 The replicated view: after its pending messages, every connected browser holds exactly the room's members,
 and its participants panel never loses its place on the way.
 */
module ViewTheorems {
  import opened Messages
  import opened Participants
  import opened ClientSpec
  import opened RoomSpec
  import opened Membership
  import opened MembershipTheorems

  function Entries(ms: seq<Message>): seq<Entry> {
    if ms == [] then []
    else if ms[0].Broadcast? then [ms[0].entry] + Entries(ms[1..])
    else Entries(ms[1..])
  }

  predicate NoInfo(ms: seq<Message>) {
    forall m :: m in ms ==> !m.Info?
  }

  /** The peers whose elements are still fading out. */
  function Fading(c: Client): set<int> {
    (set e | e in c.children :: e.id) - IdSet(c.view)
  }

  /** From map `m`, the entries still to come are smooth and lead to `members`; ids are below `n`. */
  ghost predicate Leads(m: map<int, string>, dead: set<int>, es: seq<Entry>, members: map<int, string>, n: int) {
    && Smooth(m, dead, es)
    && Replay(m, es) == members
    && (forall d :: d in dead || d in LeftIds(es) ==> d < n)
  }

  /** A browser before its INFO message, or after it. */
  ghost predicate SessionOk(p: PeerValue, s: Session, id: int, members: map<int, string>, n: int) {
    && s.consumed <= |p.outbox|
    && if s.consumed == 0 then
         && s.client == BLANK && p.outbox != [] && p.outbox[0].Info? && p.outbox[0].peerId == id
         && NoInfo(p.outbox[1..]) && UniqueIds(p.outbox[0].peers)
         && Leads(ToMap(p.outbox[0].peers), {}, Replayed(p.outbox[0]) + Entries(p.outbox[1..]), members, n)
       else
         && Shown(s.client) && s.client.rendered && s.client.self == id
         && NoInfo(p.outbox[s.consumed..])
         && Leads(ToMap(s.client.view), Fading(s.client), Entries(p.outbox[s.consumed..]), members, n)
  }

  ghost predicate SessionsOk(s: System) {
    forall id :: id in s.room.peers ==>
      id in s.sessions &&
      (s.room.peers[id].live ==> SessionOk(s.room.peers[id], s.sessions[id], id, Names(s.room.peers), s.nextId))
  }

  lemma {:induction false} EntriesAppend(ms: seq<Message>, m: Message)
    ensures Entries(ms + [m]) == Entries(ms) + (if m.Broadcast? then [m.entry] else [])
  {
    if ms == [] {
      assert ms + [m] == [m];
    } else {
      assert (ms + [m])[1..] == ms[1..] + [m];
      EntriesAppend(ms[1..], m);
    }
  }

  // ---- More to come ----

  lemma LeadsOn(m: map<int, string>, dead: set<int>, es: seq<Entry>, members: map<int, string>, n: int, e: Entry,
                n': int)
    requires Leads(m, dead, es, members, n) && n <= n'
    requires e.Joined? ==> e.peerId >= n && e.peerId !in members
    requires e.Left? ==> e.peerId < n'
    ensures Leads(m, dead, es + [e], ReplayOne(members, e), n')
  {
    if e.Joined? {
      assert e.peerId !in dead && e.peerId !in LeftIds(es);
    }
    SmoothAppend(m, dead, es, e);
    ReplayAppend(m, es, [e]);
    assert [e][1..] == [];
  }

  /** A broadcast entry reaches a live session. */
  lemma BroadcastKeepsSession(p: PeerValue, s: Session, id: int, members: map<int, string>, n: int, e: Entry, n': int)
    requires SessionOk(p, s, id, members, n) && n <= n'
    requires e.Joined? ==> e.peerId >= n && e.peerId !in members
    requires e.Left? ==> e.peerId < n'
    ensures SessionOk(p.(outbox := p.outbox + [Broadcast(e)]), s, id, ReplayOne(members, e), n')
  {
    var m := Broadcast(e);
    var outbox := p.outbox + [m];
    if s.consumed == 0 {
      assert outbox[1..] == p.outbox[1..] + [m];
      EntriesAppend(p.outbox[1..], m);
      var es := Replayed(p.outbox[0]) + Entries(p.outbox[1..]);
      LeadsOn(ToMap(p.outbox[0].peers), {}, es, members, n, e, n');
      assert Replayed(p.outbox[0]) + (Entries(p.outbox[1..]) + [e]) == es + [e];
    } else {
      assert outbox[s.consumed..] == p.outbox[s.consumed..] + [m];
      EntriesAppend(p.outbox[s.consumed..], m);
      LeadsOn(ToMap(s.client.view), Fading(s.client), Entries(p.outbox[s.consumed..]), members, n, e, n');
    }
  }

  /** Any other message but INFO reaches it. */
  lemma NoteKeepsSession(p: PeerValue, s: Session, id: int, members: map<int, string>, n: int, m: Message)
    requires SessionOk(p, s, id, members, n) && !m.Info? && !m.Broadcast?
    ensures SessionOk(p.(outbox := p.outbox + [m]), s, id, members, n)
  {
    var outbox := p.outbox + [m];
    if s.consumed == 0 {
      assert outbox[1..] == p.outbox[1..] + [m];
      EntriesAppend(p.outbox[1..], m);
      assert Entries(outbox[1..]) == Entries(p.outbox[1..]);
    } else {
      assert outbox[s.consumed..] == p.outbox[s.consumed..] + [m];
      EntriesAppend(p.outbox[s.consumed..], m);
      assert Entries(outbox[s.consumed..]) == Entries(p.outbox[s.consumed..]);
    }
  }

  lemma SessionIgnoresRest(p: PeerValue, p': PeerValue, s: Session, id: int, members: map<int, string>, n: int)
    requires SessionOk(p, s, id, members, n) && p'.outbox == p.outbox
    ensures SessionOk(p', s, id, members, n)
  {
  }

  // ---- A newcomer ----

  lemma OwnArrivalLeads(log: seq<Entry>, members: map<int, string>, id: int, name: string, n: int)
    requires log != [] && log[|log| - 1] == Joined(id, name) && members == Replay(map[], log)
    ensures Leads(members, {}, [Joined(id, name)], members, n)
  {
    var init := log[..|log| - 1];
    assert log == init + [Joined(id, name)];
    ReplayLast(init, Joined(id, name));
    assert members[id := name] == members;
    assert [Joined(id, name)][1..] == [];
    assert Replay(members, [Joined(id, name)]) == Replay(members, []);
    assert Smooth(members, {}, [Joined(id, name)]);
  }

  lemma SuffixLeads(log: seq<Entry>, start: nat, members: map<int, string>, n: int)
    requires OnceEach(log) && start <= |log| && members == Replay(map[], log)
    requires forall j :: 0 <= j < |log| && log[j].Joined? && log[j].peerId in members ==>
      members[log[j].peerId] == log[j].peerName
    requires forall e :: e in log ==> e.peerId < n
    ensures Leads(members, {}, log[start..], members, n)
  {
    assert log == log[..start] + log[start..];
    SuffixReplay(map[], log[..start], log[start..]);
    SuffixIsSmooth(log, start, start, members, members, {});
    forall d | d in LeftIds(log[start..]) ensures d < n {
      var e :| e in log[start..] && e.Left? && e.peerId == d;
      assert e in log;
    }
  }

  lemma {:induction false} PutAllAppends(m: PeersMap, peers: seq<PeerEntry>)
    requires IdSet(m) !! IdSet(peers) && UniqueIds(peers)
    ensures PutAll(m, peers) == m + peers
    decreases |peers|
  {
    if peers == [] {
    } else {
      var p := peers[0];
      PutFresh(m, p.id, p.name);
      IdSetAppend(m, p);
      assert m + [p] == m + [PeerEntry(p.id, p.name)];
      PutAllAppends(m + [p], peers[1..]);
      assert m + [p] + peers[1..] == m + peers;
    }
  }

  // ---- The browser catches up ----

  lemma {:induction false} InOldOnes(children: seq<Element>, next: nat)
    ensures forall e :: e in children && e.handle < next ==> e in OldOnes(children, next)
  {
    if children == [] {
    } else {
      assert children == [children[0]] + children[1..];
      InOldOnes(children[1..], next);
    }
  }

  lemma {:induction false} InMark(children: seq<Element>, present: set<int>)
    ensures forall e :: e in Mark(children, present) ==> exists f :: f in children && f.id == e.id
  {
    if children == [] {
    } else {
      assert children[0] in children;
      assert children == [children[0]] + children[1..];
      InMark(children[1..], present);
    }
  }

  /** Only elements that were there before can fade. */
  lemma FadingAfter(c: Client, c': Client)
    requires Shown(c) && Shown(c')
    requires OldOnes(c'.children, c.next) == Mark(c.children, IdSet(c'.view))
    requires NewOnesPresent(c', c.next)
    ensures Fading(c') <= Fading(c) + (IdSet(c.view) - IdSet(c'.view))
  {
    forall d | d in Fading(c') ensures d in Fading(c) + (IdSet(c.view) - IdSet(c'.view)) {
      var e :| e in c'.children && e.id == d;
      InOldOnes(c'.children, c.next);
      InMark(c.children, IdSet(c'.view));
      assert e in Mark(c.children, IdSet(c'.view));
    }
  }

  lemma JoinedLeads(c: Client, id: int, name: string, rest: seq<Entry>, members: map<int, string>, n: int)
    requires Shown(c) && c.rendered && Leads(ToMap(c.view), Fading(c), [Joined(id, name)] + rest, members, n)
    ensures
      var c' := OnEntry(c, Joined(id, name));
      Shown(c') && c'.rendered && c'.self == c.self && Leads(ToMap(c'.view), Fading(c'), rest, members, n)
  {
    var c' := OnEntry(c, Joined(id, name));
    var es := [Joined(id, name)] + rest;
    assert es[1..] == rest;
    assert LeftIds(rest) <= LeftIds(es);
    ToMapKeys(c.view);
    assert id !in Fading(c);
    JoinedShows(c, id, name);
    PutFacts(c.view, id, name);
    FadingAfter(c, c');
    SmoothFewerDead(ToMap(c'.view), Fading(c), Fading(c'), rest);
  }

  lemma LeftLeads(c: Client, id: int, rest: seq<Entry>, members: map<int, string>, n: int)
    requires Shown(c) && c.rendered && Leads(ToMap(c.view), Fading(c), [Left(id)] + rest, members, n)
    ensures
      var c' := OnEntry(c, Left(id));
      Shown(c') && c'.rendered && c'.self == c.self && Leads(ToMap(c'.view), Fading(c'), rest, members, n)
  {
    var c' := OnEntry(c, Left(id));
    var es := [Left(id)] + rest;
    assert es[1..] == rest;
    assert es[0] in es && id in LeftIds(es);
    assert LeftIds(rest) <= LeftIds(es);
    LeftShows(c, id);
    KeepFacts(c.view, IdSet(c.view) - {id});
    ToMapKeys(c.view);
    SameMap(ToMap(c'.view), ToMap(c.view) - {id});
    FadingAfter(c, c');
    SmoothFewerDead(ToMap(c'.view), Fading(c) + {id}, Fading(c'), rest);
  }

  lemma EntryShows(c: Client, e: Entry, rest: seq<Entry>, members: map<int, string>, n: int)
    requires Shown(c) && c.rendered && Leads(ToMap(c.view), Fading(c), [e] + rest, members, n)
    ensures
      var c' := OnEntry(c, e);
      Shown(c') && c'.rendered && c'.self == c.self && Leads(ToMap(c'.view), Fading(c'), rest, members, n)
  {
    match e
    case Joined(id, name) => JoinedLeads(c, id, name, rest, members, n);
    case Left(id) => LeftLeads(c, id, rest, members, n);
    case _ =>
      assert ([e] + rest)[1..] == rest;
      assert LeftIds(rest) <= LeftIds([e] + rest);
  }

  lemma {:induction false} EntriesShow(c: Client, es: seq<Entry>, rest: seq<Entry>, members: map<int, string>, n: int)
    requires Shown(c) && c.rendered && Leads(ToMap(c.view), Fading(c), es + rest, members, n)
    ensures
      var c' := OnEntries(c, es);
      Shown(c') && c'.rendered && c'.self == c.self && Leads(ToMap(c'.view), Fading(c'), rest, members, n)
    decreases |es|
  {
    if es == [] {
      assert es + rest == rest;
    } else {
      assert (es + rest)[1..] == es[1..] + rest;
      assert [es[0]] + (es[1..] + rest) == es + rest;
      EntryShows(c, es[0], es[1..] + rest, members, n);
      EntriesShow(OnEntry(c, es[0]), es[1..], rest, members, n);
    }
  }

  function Snapshot(m: Message): Client
    requires m.Info?
  {
    UpdateParticipants(BLANK.(self := m.peerId, view := m.peers))
  }

  lemma SnapshotShows(m: Message)
    requires m.Info? && UniqueIds(m.peers)
    ensures Shown(Snapshot(m)) && Snapshot(m).rendered && Snapshot(m).self == m.peerId
    ensures Snapshot(m).view == m.peers && Fading(Snapshot(m)) == {}
    ensures OnMessage(BLANK, m) == OnEntries(Snapshot(m), Replayed(m))
  {
    PutAllAppends([], m.peers);
    assert [] + m.peers == m.peers;
    FirstRendering(BLANK, m.peerId, m.peers);
    RenderPresent(m.peers, m.peerId);
    CreatedFacts(Render(m.peers, m.peerId), 0, IdSet(m.peers), 0);
  }

  /** INFO: the full rendering of the snapshot, then the history entry by entry. */
  lemma InfoShows(m: Message, rest: seq<Entry>, members: map<int, string>, n: int)
    requires m.Info? && UniqueIds(m.peers)
    requires Leads(ToMap(m.peers), {}, Replayed(m) + rest, members, n)
    ensures
      var c' := OnMessage(BLANK, m);
      Shown(c') && c'.rendered && c'.self == m.peerId && Leads(ToMap(c'.view), Fading(c'), rest, members, n)
  {
    SnapshotShows(m);
    EntriesShow(Snapshot(m), Replayed(m), rest, members, n);
  }

  lemma DeliveryKeepsSession(p: PeerValue, s: Session, id: int, members: map<int, string>, n: int)
    requires SessionOk(p, s, id, members, n) && s.consumed < |p.outbox|
    ensures SessionOk(p, Session(OnMessage(s.client, p.outbox[s.consumed]), s.consumed + 1), id, members, n)
  {
    var m := p.outbox[s.consumed];
    var rest := p.outbox[s.consumed + 1..];
    if s.consumed == 0 {
      InfoShows(m, Entries(rest), members, n);
    } else {
      var pending := p.outbox[s.consumed..];
      assert pending[0] == m && pending[1..] == rest;
      assert m in pending;
      assert forall x :: x in rest ==> x in pending;
      if m.Broadcast? {
        assert Entries(pending) == [m.entry] + Entries(rest);
        EntryShows(s.client, m.entry, Entries(rest), members, n);
      }
    }
  }

  lemma FadeOutKeepsSession(p: PeerValue, s: Session, id: int, members: map<int, string>, n: int, handle: nat)
    requires SessionOk(p, s, id, members, n)
    ensures SessionOk(p, s.(client := FinishRemoval(s.client, handle)), id, members, n)
  {
    var c, c' := s.client, FinishRemoval(s.client, handle);
    if s.consumed > 0 {
      RemovalKeepsShown(c.children, handle, IdSet(c.view));
      assert Fading(c') <= Fading(c);
      SmoothFewerDead(ToMap(c.view), Fading(c), Fading(c'), Entries(p.outbox[s.consumed..]));
    }
  }

  // ---- Every step, every run ----

  /** Whoever is a member arrived under the name in the table. */
  lemma LogNamesMembers(s: System)
    requires LogOk(s)
    ensures
      var members := Names(s.room.peers);
      forall j | 0 <= j < |s.log| && s.log[j].Joined? && s.log[j].peerId in members ::
        members[s.log[j].peerId] == s.log[j].peerName
  {
    var members := Names(s.room.peers);
    NamesAt(s.room.peers);
    forall j | 0 <= j < |s.log| && s.log[j].Joined? && s.log[j].peerId in members
      ensures members[s.log[j].peerId] == s.log[j].peerName
    {
      var q := s.log[j].peerId;
      var i :| 0 <= i < |s.log| && s.log[i] == Joined(q, s.room.peers[q].name);
      assert SamePeer(s.log[i], s.log[j]);
    }
  }

  lemma HistoryLeads(s: System, id: int, name: string)
    requires LogOk(s) && s.log != [] && s.log[|s.log| - 1] == Joined(id, name)
    ensures
      var history := s.room.history;
      Leads(Names(s.room.peers), {}, if history == [] then [Joined(id, name)] else history,
            Names(s.room.peers), s.nextId)
  {
    LogNamesMembers(s);
    if s.room.history == [] {
      OwnArrivalLeads(s.log, Names(s.room.peers), id, name, s.nextId);
    } else {
      SuffixLeads(s.log, |s.log| - |s.room.history|, Names(s.room.peers), s.nextId);
    }
  }

  lemma NewcomerSession(s: System, x: int, name: string, order: seq<PeerEntry>)
    requires LogOk(s) && Enabled(s, Connect(x, name, order))
    ensures
      var s' := Step(s, Connect(x, name, order));
      && x in s'.room.peers && x in s'.sessions
      && SessionOk(s'.room.peers[x], s'.sessions[x], x, Names(s'.room.peers), s'.nextId)
  {
    var s' := Step(s, Connect(x, name, order));
    StepKeepsLog(s, Connect(x, name, order));
    JoinNames(s.room, x, name, order);
    HistoryLeads(s', x, name);
    var info := Info(x, name, order, s'.room.history);
    assert s'.room.peers[x].outbox == [info];
    assert Entries([info][1..]) == [];
    assert Replayed(info) + [] == Replayed(info);
  }

  lemma ConnectKeepsSessions(s: System, x: int, name: string, order: seq<PeerEntry>)
    requires LogOk(s) && SessionsOk(s) && Enabled(s, Connect(x, name, order))
    ensures SessionsOk(Step(s, Connect(x, name, order)))
  {
    var s' := Step(s, Connect(x, name, order));
    var e := Joined(x, name);
    var members, members' := Names(s.room.peers), Names(s'.room.peers);
    JoinNames(s.room, x, name, order);
    NamesAt(s.room.peers);
    assert x !in s.room.peers;
    forall id | id in s'.room.peers && s'.room.peers[id].live
      ensures id in s'.sessions && SessionOk(s'.room.peers[id], s'.sessions[id], id, members', s'.nextId)
    {
      if id == x {
        NewcomerSession(s, x, name, order);
      } else {
        assert s.room.peers[id].live;
        BroadcastKeepsSession(s.room.peers[id], s.sessions[id], id, members, s.nextId, e, s'.nextId);
        assert s'.room.peers[id].outbox == s.room.peers[id].outbox + [Broadcast(e)];
      }
    }
  }

  lemma DisconnectKeepsSessions(s: System, x: int)
    requires LogOk(s) && SessionsOk(s) && Enabled(s, Disconnect(x))
    ensures SessionsOk(Step(s, Disconnect(x)))
  {
    var s' := Step(s, Disconnect(x));
    JoinNames(s.room, x, "", []);
    forall id | id in s'.room.peers && s'.room.peers[id].live
      ensures id in s'.sessions &&
        SessionOk(s'.room.peers[id], s'.sessions[id], id, Names(s'.room.peers), s'.nextId)
    {
      BroadcastKeepsSession(s.room.peers[id], s.sessions[id], id, Names(s.room.peers), s.nextId, Left(x), s'.nextId);
      assert s'.room.peers[id].outbox == s.room.peers[id].outbox + [Broadcast(Left(x))];
    }
  }

  lemma PostKeepsSessions(s: System, s': System, e: Entry)
    requires SessionsOk(s) && FromClient(e)
    requires s'.sessions == s.sessions && s'.nextId == s.nextId && s'.room.peers.Keys == s.room.peers.Keys
    requires forall p :: p in s.room.peers ==>
      s'.room.peers[p].name == s.room.peers[p].name && s'.room.peers[p].live == s.room.peers[p].live &&
      s'.room.peers[p].outbox == Sent(s.room.peers[p], Broadcast(e)).outbox
    ensures SessionsOk(s')
  {
    NamesSame(s.room.peers, s'.room.peers);
    forall id | id in s'.room.peers && s'.room.peers[id].live
      ensures SessionOk(s'.room.peers[id], s'.sessions[id], id, Names(s'.room.peers), s'.nextId)
    {
      BroadcastKeepsSession(s.room.peers[id], s.sessions[id], id, Names(s.room.peers), s.nextId, e, s'.nextId);
      SessionIgnoresRest(s.room.peers[id].(outbox := s.room.peers[id].outbox + [Broadcast(e)]),
                         s'.room.peers[id], s.sessions[id], id, Names(s.room.peers), s.nextId);
    }
  }

  lemma NotesKeepSessions(s: System, s': System, m: Message)
    requires SessionsOk(s) && !m.Info? && !m.Broadcast?
    requires s'.sessions == s.sessions && s'.nextId == s.nextId && s'.room.peers.Keys == s.room.peers.Keys
    requires forall p :: p in s.room.peers ==>
      s'.room.peers[p].name == s.room.peers[p].name &&
      (s'.room.peers[p].live ==> s.room.peers[p].live) &&
      (s'.room.peers[p].live ==>
        s'.room.peers[p].outbox == s.room.peers[p].outbox ||
        s'.room.peers[p].outbox == s.room.peers[p].outbox + [m])
    ensures SessionsOk(s')
  {
    NamesSame(s.room.peers, s'.room.peers);
    forall id | id in s'.room.peers && s'.room.peers[id].live
      ensures SessionOk(s'.room.peers[id], s'.sessions[id], id, Names(s'.room.peers), s'.nextId)
    {
      var p := s.room.peers[id];
      NoteKeepsSession(p, s.sessions[id], id, Names(s.room.peers), s.nextId, m);
      if s'.room.peers[id].outbox == p.outbox {
        SessionIgnoresRest(p, s'.room.peers[id], s.sessions[id], id, Names(s.room.peers), s.nextId);
      } else {
        SessionIgnoresRest(p.(outbox := p.outbox + [m]), s'.room.peers[id], s.sessions[id], id,
                           Names(s.room.peers), s.nextId);
      }
    }
  }

  lemma PostedKeepsSessions(s: System, s': System, mid: RoomValue, e: Entry)
    requires SessionsOk(s) && SameButFiles(s.room, mid) && FromClient(e) && s'.room == Post(mid, e)
    requires s'.sessions == s.sessions && s'.nextId == s.nextId
    ensures SessionsOk(s')
  {
    PostKeepsSessions(s, s', e);
  }

  lemma IncomingKeepsSessions(s: System, x: int, raw: RawMessage, now: int)
    requires SessionsOk(s) && Enabled(s, Incoming(x, raw, now))
    ensures SessionsOk(Step(s, Incoming(x, raw, now)))
  {
    var s' := Step(s, Incoming(x, raw, now));
    HandleSteps(s.room, x, raw, now);
    match Uttered(s.room, x, raw, now)
    case Some(e) =>
      if mid :| SameButFiles(s.room, mid) && s'.room == Post(mid, e) {
        PostedKeepsSessions(s, s', mid, e);
      } else {
        PostKeepsSessions(s, s', e);
      }
    case None =>
      if text :| s'.room == ApiFailure(s.room, x, text) {
        NotesKeepSessions(s, s', ApiError(text));
      }
  }

  lemma SessionReplaced(s: System, id: int, session: Session)
    requires SessionsOk(s) && id in s.room.peers
    requires s.room.peers[id].live ==> SessionOk(s.room.peers[id], session, id, Names(s.room.peers), s.nextId)
    ensures SessionsOk(s.(sessions := s.sessions[id := session]))
  {
  }

  lemma DeliverKeepsSessions(s: System, id: int)
    requires SessionsOk(s) && Enabled(s, Deliver(id))
    ensures SessionsOk(Step(s, Deliver(id)))
  {
    var p, session := s.room.peers[id], s.sessions[id];
    if p.live {
      DeliveryKeepsSession(p, session, id, Names(s.room.peers), s.nextId);
    }
    SessionReplaced(s, id, Session(OnMessage(session.client, p.outbox[session.consumed]), session.consumed + 1));
  }

  lemma FadeOutKeepsSessions(s: System, id: int, handle: nat)
    requires SessionsOk(s) && Enabled(s, FadeOut(id, handle))
    ensures SessionsOk(Step(s, FadeOut(id, handle)))
  {
    if id in s.room.peers {
      var p, session := s.room.peers[id], s.sessions[id];
      if p.live {
        FadeOutKeepsSession(p, session, id, Names(s.room.peers), s.nextId, handle);
      }
      SessionReplaced(s, id, session.(client := FinishRemoval(session.client, handle)));
    }
  }

  lemma StepKeepsSessions(s: System, e: Event)
    requires LogOk(s) && SessionsOk(s)
    ensures SessionsOk(Step(s, e))
  {
    var s' := Step(s, e);
    if Enabled(s, e) {
      match e {
        case Connect(id, name, order) => ConnectKeepsSessions(s, id, name, order);
        case Disconnect(id) => DisconnectKeepsSessions(s, id);
        case Incoming(id, raw, now) => IncomingKeepsSessions(s, id, raw, now);
        case PingRound => NotesKeepSessions(s, s', Ping);
        case Pong(id) => NotesKeepSessions(s, s', Ping);
        case Deliver(id) => DeliverKeepsSessions(s, id);
        case FadeOut(id, handle) => FadeOutKeepsSessions(s, id, handle);
      }
    }
  }

  lemma {:induction false} RunKeepsSessions(s: System, events: seq<Event>)
    requires LogOk(s) && SessionsOk(s)
    ensures LogOk(Run(s, events)) && SessionsOk(Run(s, events))
    decreases |events|
  {
    if events == [] {
    } else {
      StepKeepsLog(s, events[0]);
      StepKeepsSessions(s, events[0]);
      RunKeepsSessions(Step(s, events[0]), events[1..]);
    }
  }

  lemma MessagesFrom(c: Client, ms: seq<Message>, i: nat)
    requires i < |ms|
    ensures OnMessages(c, ms[i..]) == OnMessages(OnMessage(c, ms[i]), ms[i + 1..])
  {
    assert ms[i..][0] == ms[i] && ms[i..][1..] == ms[i + 1..];
  }

  lemma {:induction false} Drained(p: PeerValue, s: Session, id: int, members: map<int, string>, n: int)
    requires SessionOk(p, s, id, members, n)
    ensures
      var c := OnMessages(s.client, p.outbox[s.consumed..]);
      Shown(c) && c.rendered && c.self == id && ToMap(c.view) == members
    decreases |p.outbox| - s.consumed
  {
    if s.consumed == |p.outbox| {
      assert p.outbox[s.consumed..] == [];
    } else {
      MessagesFrom(s.client, p.outbox, s.consumed);
      DeliveryKeepsSession(p, s, id, members, n);
      Drained(p, Session(OnMessage(s.client, p.outbox[s.consumed]), s.consumed + 1), id, members, n);
    }
  }

  /**
   In every run of joins, departures, client messages, pings and deliveries, for every history limit: a
   connected browser that handles its pending messages ends up with exactly the room's members, ids and
   names, its panel shows them sorted by name without itself, and its handler never throws on the way.
   */
  lemma ViewsConverge(limit: nat, events: seq<Event>, id: int)
    requires id in Run(Empty(limit), events).room.peers
    requires Run(Empty(limit), events).room.peers[id].live
    ensures
      var s := Run(Empty(limit), events);
      && id in s.sessions && s.sessions[id].consumed <= |s.room.peers[id].outbox|
      && !s.sessions[id].client.thrown
      && var c := OnMessages(s.sessions[id].client, s.room.peers[id].outbox[s.sessions[id].consumed..]);
      && !c.thrown && c.self == id
      && ToMap(c.view) == Names(s.room.peers)
      && Ids(Kept(c.children, IdSet(c.view))) == Render(c.view, id)
      && (forall x :: x in Render(c.view, id) <==> x in s.room.peers && x != id)
  {
    var s := Run(Empty(limit), events);
    RunKeepsSessions(Empty(limit), events);
    assert id in s.sessions;
    Drained(s.room.peers[id], s.sessions[id], id, Names(s.room.peers), s.nextId);
    var c := OnMessages(s.sessions[id].client, s.room.peers[id].outbox[s.sessions[id].consumed..]);
    RenderPresent(c.view, id);
    ToMapKeys(c.view);
    NamesAt(s.room.peers);
  }
}

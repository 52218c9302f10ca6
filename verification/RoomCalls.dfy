/**
 A room whose calls run one by one: the welcome, the addition and the onboarding of an arrival and the removal and
 the goodbye of a departure are steps of their own, and anything can happen between them.
 */
module RoomCalls {
  import opened Messages
  import opened Participants
  import opened ClientSpec
  import opened RoomSpec
  import opened Membership
  import opened MembershipTheorems
  import opened Learning

  /** A peer's welcome: where it stands in the log, and who was in the table and got it. */
  datatype Welcoming = Welcoming(place: nat, witnesses: set<int>)

  /** A peer's onboarding: who was in its snapshot, and how long the log was. */
  datatype Onboarding = Onboarding(members: set<int>, posted: nat)

  /**
   `arriving` are welcomed but not in the table yet, `leaving` are out of it but not said goodbye to. The last
   two fields record what happened and influence nothing.
   */
  datatype State = State(
    sys: System, arriving: map<int, string>, leaving: map<int, string>,
    welcomes: map<int, Welcoming>, onboardings: map<int, Onboarding>)

  function Start(limit: nat): State {
    State(Empty(limit), map[], map[], map[], map[])
  }

  datatype Call =
    | Welcome(id: int, name: string)
    | AddPeer(id: int)
    | OnboardPeer(id: int, order: seq<PeerEntry>)
    | RemovePeerById(id: int)
    | Goodbye(id: int)
    | Other(event: Event)

  /** A connection's messages and its end come after its onboarding. */
  predicate Later(s: State, e: Event) {
    match e
    case Connect(_, _, _) => false
    case Disconnect(_) => false
    case Incoming(id, _, _) => id in s.onboardings
    case Pong(id) => id in s.onboardings
    case _ => true
  }

  predicate CanOnboard(s: State, id: int, order: seq<PeerEntry>) {
    id in s.sys.room.peers && id !in s.onboardings && UniqueIds(order) && ToMap(order) == Names(s.sys.room.peers)
  }

  /** Ids are given out once, but need not come in order: another arrival may get its id and overtake. */
  predicate Can(s: State, c: Call) {
    match c
    case Welcome(id, name) => id !in s.welcomes && id != 0
    case AddPeer(id) => id in s.arriving
    case OnboardPeer(id, order) => CanOnboard(s, id, order)
    case RemovePeerById(id) => id in s.sys.room.peers && id in s.onboardings
    case Goodbye(id) => id in s.leaving
    case Other(e) => Later(s, e)
  }

  function Posted(y: System, e: Entry): System {
    y.(room := Post(y.room, e), log := y.log + [e])
  }

  /** A bound above all ids so far. */
  function Past(next: int, id: int): int {
    if id < next then next else id + 1
  }

  function DoWelcome(s: State, id: int, name: string): State {
    s.(sys := Posted(s.sys, Joined(id, name)).(nextId := Past(s.sys.nextId, id)), arriving := s.arriving[id := name],
       welcomes := s.welcomes[id := Welcoming(|s.sys.log|, s.sys.room.peers.Keys)])
  }

  function DoAdd(s: State, id: int): State
    requires id in s.arriving
  {
    s.(sys := s.sys.(room := Add(s.sys.room, id, NewPeer(s.arriving[id])),
                     sessions := s.sys.sessions[id := Session(BLANK, 0)]),
       arriving := s.arriving - {id})
  }

  function DoOnboard(s: State, id: int, order: seq<PeerEntry>): State
    requires id in s.sys.room.peers
  {
    s.(sys := s.sys.(room := Onboard(s.sys.room, id, order)),
       onboardings := s.onboardings[id := Onboarding(s.sys.room.peers.Keys, |s.sys.log|)])
  }

  function DoRemove(s: State, id: int): State
    requires id in s.sys.room.peers
  {
    s.(sys := s.sys.(room := RemovePeer(s.sys.room, id), sessions := s.sys.sessions - {id}),
       leaving := s.leaving[id := s.sys.room.peers[id].name])
  }

  function DoGoodbye(s: State, id: int): State {
    s.(sys := Posted(s.sys, Left(id)), leaving := s.leaving - {id})
  }

  function Do(s: State, c: Call): State {
    if !Can(s, c) then s else
    match c
    case Welcome(id, name) => DoWelcome(s, id, name)
    case AddPeer(id) => DoAdd(s, id)
    case OnboardPeer(id, order) => DoOnboard(s, id, order)
    case RemovePeerById(id) => DoRemove(s, id)
    case Goodbye(id) => DoGoodbye(s, id)
    case Other(e) => s.(sys := Step(s.sys, e))
  }

  function DoAll(s: State, calls: seq<Call>): State
    decreases |calls|
  {
    if calls == [] then s else DoAll(Do(s, calls[0]), calls[1..])
  }

  // ---- Who is told of whom ----

  /**
   Peer `b` is told of peer `a`: it was in the table when `a` was welcomed, or `a` was in the table when `b` was
   onboarded, or what was posted from the welcome of `a` to the onboarding of `b` still fitted in the history.
   */
  predicate Due(s: State, a: int, b: int) {
    a in s.welcomes &&
    (|| b in s.welcomes[a].witnesses
     || (b in s.onboardings &&
         (a in s.onboardings[b].members || s.onboardings[b].posted - s.welcomes[a].place <= s.sys.room.limit)))
  }

  /** Everybody the log says is there: in the table, on the way in, or on the way out. */
  function Announced(s: State): map<int, string> {
    Names(s.sys.room.peers) + s.arriving + s.leaving
  }

  /** What the browser of peer `b` is to show. */
  function Target(s: State, b: int): map<int, string> {
    map a | a in Announced(s) && Due(s, a, b) :: Announced(s)[a]
  }

  // ---- The log ----

  /** The room with everybody announced in its table. */
  function Whole(s: State): System {
    System(RoomValue(s.sys.room.limit, map a | a in Announced(s) :: NewPeer(Announced(s)[a]), s.sys.room.history,
                     map[], 1),
           s.sys.log, s.sys.nextId, map[])
  }

  /** Every welcome is where the records say, and only peers that were in the table witnessed it. */
  ghost predicate WelcomesOk(s: State) {
    && (forall a :: a in s.welcomes ==>
        && a != 0 && a < s.sys.nextId && s.welcomes[a].place < |s.sys.log|
        && Announces(s.sys.log[s.welcomes[a].place], a))
    && (forall i :: 0 <= i < |s.sys.log| ==>
        && s.sys.log[i].peerId in s.welcomes
        && (s.sys.log[i].Joined? ==> s.welcomes[s.sys.log[i].peerId].place == i))
    && (forall a :: a in Announced(s) ==> a in s.welcomes)
  }

  ghost predicate WitnessesOk(s: State) {
    forall a :: a in s.welcomes ==>
      forall b :: b in s.welcomes[a].witnesses ==> b in s.welcomes && b != a && b !in s.arriving
  }

  ghost predicate OnboardingsOk(s: State) {
    forall b :: b in s.onboardings ==> b in s.welcomes && b !in s.arriving && s.onboardings[b].posted <= |s.sys.log|
  }

  ghost predicate RecordsOk(s: State) {
    WelcomesOk(s) && WitnessesOk(s) && OnboardingsOk(s)
  }

  predicate Apart(s: State) {
    s.sys.room.peers.Keys !! s.arriving.Keys && s.sys.room.peers.Keys !! s.leaving.Keys &&
    s.arriving.Keys !! s.leaving.Keys
  }

  ghost predicate TablesOk(s: State) {
    LogOk(Whole(s)) && RecordsOk(s) && Apart(s)
  }

  lemma WholeNames(s: State)
    ensures Names(Whole(s).room.peers) == Announced(s)
  {
    NamesAt(Whole(s).room.peers);
    SameMap(Names(Whole(s).room.peers), Announced(s));
  }

  lemma WholeGrows(s: State, s': State, e: Entry)
    requires LogOk(Whole(s)) && Announced(s') == ReplayOne(Announced(s), e)
    requires s'.sys.log == s.sys.log + [e] && s'.sys.room.limit == s.sys.room.limit
    requires s'.sys.room.history == Remember(s.sys.room.history, s.sys.room.limit, e)
    requires s.sys.nextId <= s'.sys.nextId
    requires e.Joined? ==> e.peerId < s'.sys.nextId && forall f :: f in s.sys.log ==> f.peerId != e.peerId
    requires e.Left? ==> e.peerId in Announced(s)
    requires FromClient(e) ==> e.peerId in Announced(s) && e.peerName == Announced(s)[e.peerId]
    ensures LogOk(Whole(s'))
  {
    WholeNames(s);
    WholeNames(s');
    LogGrows(Whole(s), Whole(s'), e);
  }

  lemma WholeStays(s: State, s': State)
    requires LogOk(Whole(s)) && Announced(s') == Announced(s)
    requires s'.sys.log == s.sys.log && s'.sys.nextId == s.sys.nextId
    requires s'.sys.room.limit == s.sys.room.limit && s'.sys.room.history == s.sys.room.history
    ensures LogOk(Whole(s'))
  {
    WholeNames(s);
    WholeNames(s');
    LogStays(Whole(s), Whole(s'));
  }

  lemma PostNames(r: RoomValue, e: Entry)
    ensures Names(Post(r, e).peers) == Names(r.peers) && Post(r, e).peers.Keys == r.peers.Keys
  {
    NamesSame(r.peers, Post(r, e).peers);
  }

  lemma AnnouncedHas(s: State)
    ensures Announced(s).Keys == s.sys.room.peers.Keys + s.arriving.Keys + s.leaving.Keys
  {
    NamesAt(s.sys.room.peers);
  }

  lemma WelcomeIsRecorded(s: State, s': State, id: int, name: string)
    requires RecordsOk(s) && id !in s.welcomes && id != 0
    requires s'.sys.log == s.sys.log + [Joined(id, name)] && s'.sys.nextId == Past(s.sys.nextId, id)
    requires s'.welcomes == s.welcomes[id := Welcoming(|s.sys.log|, s.sys.room.peers.Keys)]
    requires s'.arriving == s.arriving[id := name] && s'.onboardings == s.onboardings
    requires s.sys.room.peers.Keys <= Announced(s).Keys && s.sys.room.peers.Keys !! s.arriving.Keys
    requires Announced(s') == Announced(s)[id := name]
    ensures RecordsOk(s')
  {
    assert WelcomesOk(s');
    assert OnboardingsOk(s');
    forall b | b in s.sys.room.peers.Keys ensures b in s'.welcomes && b !in s'.arriving {
      assert b in Announced(s).Keys && b in Announced(s);
    }
  }

  /** One more entry in log and history, and the same peers in the table under the same names. */
  ghost predicate Logs(y: System, y': System, e: Entry) {
    && y'.log == y.log + [e] && y'.room.limit == y.room.limit && y.nextId <= y'.nextId
    && y'.room.history == Remember(y.room.history, y.room.limit, e)
    && Names(y'.room.peers) == Names(y.room.peers) && y'.room.peers.Keys == y.room.peers.Keys
  }

  lemma PostedLogs(y: System, e: Entry)
    ensures Logs(y, Posted(y, e), e)
  {
    PostNames(y.room, e);
  }

  lemma MergedPut(x: map<int, string>, y: map<int, string>, z: map<int, string>, id: int, name: string)
    requires id !in z
    ensures x + y[id := name] + z == (x + y + z)[id := name]
  {
  }

  /** A name moves from one of the maps to another. */
  lemma MergedMove(x: map<int, string>, y: map<int, string>, z: map<int, string>, id: int)
    requires id !in z
    ensures id in y ==> x[id := y[id]] + (y - {id}) + z == x + y + z
    ensures id in x && id !in y ==> (x - {id}) + y + z[id := x[id]] == x + y + z
  {
  }

  lemma MergedDrop(x: map<int, string>, y: map<int, string>, z: map<int, string>, id: int)
    requires id !in x && id !in y
    ensures x + y + (z - {id}) == x + y + z - {id}
  {
  }

  lemma WelcomeKeepsTables(s: State, s': State, id: int, name: string)
    requires TablesOk(s) && id !in s.welcomes && id != 0 && s'.sys.nextId == Past(s.sys.nextId, id)
    requires Logs(s.sys, s'.sys, Joined(id, name))
    requires s'.arriving == s.arriving[id := name] && s'.leaving == s.leaving && s'.onboardings == s.onboardings
    requires s'.welcomes == s.welcomes[id := Welcoming(|s.sys.log|, s.sys.room.peers.Keys)]
    ensures TablesOk(s') && Announced(s') == Announced(s)[id := name]
  {
    AnnouncedHas(s);
    assert id !in Announced(s).Keys;
    forall f | f in s.sys.log ensures f.peerId != id {
      var i :| 0 <= i < |s.sys.log| && s.sys.log[i] == f;
    }
    MergedPut(Names(s.sys.room.peers), s.arriving, s.leaving, id, name);
    WholeGrows(s, s', Joined(id, name));
    WelcomeIsRecorded(s, s', id, name);
  }

  /** A step in which nobody is welcomed. */
  lemma RecordsStay(s: State, s': State)
    requires RecordsOk(s) && s'.sys.nextId == s.sys.nextId && s'.welcomes == s.welcomes
    requires s'.arriving.Keys <= s.arriving.Keys && Announced(s').Keys <= Announced(s).Keys
    requires s'.onboardings == s.onboardings || OnboardingsOk(s')
    requires s'.sys.log == s.sys.log ||
      exists e :: s'.sys.log == s.sys.log + [e] && !e.Joined? && e.peerId in s.welcomes
    ensures RecordsOk(s')
  {
    assert WelcomesOk(s');
    assert forall b :: b in s'.arriving ==> b in s'.arriving.Keys && b in s.arriving.Keys;
    assert WitnessesOk(s');
  }

  /** Nothing is posted, and the same peers are announced under the same names. */
  ghost predicate LogsNothing(s: State, s': State) {
    && s'.sys.log == s.sys.log && s'.sys.nextId == s.sys.nextId && s'.welcomes == s.welcomes
    && s'.sys.room.limit == s.sys.room.limit && s'.sys.room.history == s.sys.room.history
    && Announced(s') == Announced(s)
  }

  lemma AddKeepsTables(s: State, s': State, id: int)
    requires TablesOk(s) && id in s.arriving && s' == DoAdd(s, id)
    ensures TablesOk(s') && LogsNothing(s, s')
  {
    NamesAt(s.sys.room.peers);
    NamesAt(s'.sys.room.peers);
    SameMap(Names(s'.sys.room.peers), Names(s.sys.room.peers)[id := s.arriving[id]]);
    MergedMove(Names(s.sys.room.peers), s.arriving, s.leaving, id);
    WholeStays(s, s');
    RecordsStay(s, s');
  }

  lemma OnboardNames(r: RoomValue, id: int, order: seq<PeerEntry>)
    requires id in r.peers
    ensures Names(Onboard(r, id, order).peers) == Names(r.peers)
  {
    NamesSame(r.peers, Onboard(r, id, order).peers);
  }

  lemma OnboardKeepsTables(s: State, s': State, id: int)
    requires TablesOk(s) && id in s.sys.room.peers && id !in s.onboardings
    requires Names(s'.sys.room.peers) == Names(s.sys.room.peers) && s'.sys.room.peers.Keys == s.sys.room.peers.Keys
    requires s'.sys.room.history == s.sys.room.history && s'.sys.room.limit == s.sys.room.limit
    requires s'.sys.log == s.sys.log && s'.sys.nextId == s.sys.nextId
    requires s' == s.(sys := s'.sys,
                      onboardings := s.onboardings[id := Onboarding(s.sys.room.peers.Keys, |s.sys.log|)])
    ensures TablesOk(s') && LogsNothing(s, s')
  {
    AnnouncedHas(s);
    assert id in Announced(s).Keys;
    assert OnboardingsOk(s');
    WholeStays(s, s');
    RecordsStay(s, s');
  }

  lemma RemoveKeepsTables(s: State, s': State, id: int)
    requires TablesOk(s) && id in s.sys.room.peers && id in s.onboardings && s' == DoRemove(s, id)
    ensures TablesOk(s') && LogsNothing(s, s')
  {
    NamesAt(s.sys.room.peers);
    NamesAt(s'.sys.room.peers);
    SameMap(Names(s'.sys.room.peers), Names(s.sys.room.peers) - {id});
    MergedMove(Names(s.sys.room.peers), s.arriving, s.leaving, id);
    WholeStays(s, s');
    RecordsStay(s, s');
  }

  lemma GoodbyeKeepsTables(s: State, s': State, id: int)
    requires TablesOk(s) && id in s.leaving && Logs(s.sys, s'.sys, Left(id)) && s'.sys.nextId == s.sys.nextId
    requires s' == s.(sys := s'.sys, leaving := s.leaving - {id})
    ensures TablesOk(s') && Announced(s') == Announced(s) - {id}
  {
    AnnouncedHas(s);
    MergedDrop(Names(s.sys.room.peers), s.arriving, s.leaving, id);
    WholeGrows(s, s', Left(id));
    RecordsStay(s, s');
  }

  /** Of the other steps a client message can post one entry, and none touches the tables. */
  ghost predicate Passes(y: System, y': System, m: Message) {
    && y'.room.peers.Keys == y.room.peers.Keys && y'.room.limit == y.room.limit && y'.nextId == y.nextId
    && (forall p :: p in y.room.peers ==>
        && y'.room.peers[p].name == y.room.peers[p].name && (y'.room.peers[p].live ==> y.room.peers[p].live)
        && (y'.room.peers[p].outbox == y.room.peers[p].outbox ||
            y'.room.peers[p].outbox == y.room.peers[p].outbox + [m]))
    && !m.Info? && (m.Broadcast? ==> FromClient(m.entry))
  }

  lemma IncomingPasses(y: System, e: Event)
    requires e.Incoming? && Enabled(y, e)
    ensures exists m :: Passes(y, Step(y, e), m)
    ensures
      var y' := Step(y, e);
      || (y'.log == y.log && y'.room.history == y.room.history)
      || exists u :: FromClient(u) && u.peerId == e.id && u.peerName == y.room.peers[e.id].name && Logs(y, y', u)
    ensures Step(y, e).sessions == y.sessions
  {
    var y' := Step(y, e);
    HandleSteps(y.room, e.id, e.raw, e.now);
    match Uttered(y.room, e.id, e.raw, e.now)
    case Some(u) =>
      assert Passes(y, y', Broadcast(u));
      NamesSame(y.room.peers, y'.room.peers);
      if Logged(y.room, e.id, e.raw, e.now) == [u] {
        assert Logs(y, y', u);
      }
    case None =>
      if AnsweredWithError(y.room, e.id, e.raw) {
        var text :| y'.room == ApiFailure(y.room, e.id, text);
        assert Passes(y, y', ApiError(text));
      } else {
        assert Passes(y, y', Ping);
      }
  }

  lemma OtherPasses(y: System, e: Event)
    requires !e.Connect? && !e.Disconnect?
    ensures exists m :: Passes(y, Step(y, e), m)
  {
    if !Enabled(y, e) {
      assert Passes(y, Step(y, e), Ping);
    } else if e.Incoming? {
      IncomingPasses(y, e);
    } else {
      assert Passes(y, Step(y, e), Ping);
    }
  }

  /** A member is announced under its name. */
  lemma AnnouncedAt(s: State, id: int)
    requires id in s.sys.room.peers && Apart(s)
    ensures id in Announced(s) && Announced(s)[id] == s.sys.room.peers[id].name
  {
    NamesAt(s.sys.room.peers);
    assert id in s.sys.room.peers.Keys && id !in s.arriving.Keys && id !in s.leaving.Keys;
  }

  lemma IncomingKeepsTables(s: State, s': State, e: Event)
    requires TablesOk(s) && e.Incoming? && Enabled(s.sys, e) && s' == s.(sys := Step(s.sys, e))
    requires Announced(s') == Announced(s) && s'.sys.nextId == s.sys.nextId && s'.sys.room.limit == s.sys.room.limit
    ensures TablesOk(s')
  {
    IncomingPasses(s.sys, e);
    AnnouncedAt(s, e.id);
    if u :| FromClient(u) && u.peerId == e.id && u.peerName == s.sys.room.peers[e.id].name && Logs(s.sys, s'.sys, u) {
      WholeGrows(s, s', u);
    } else {
      WholeStays(s, s');
    }
    RecordsStay(s, s');
  }

  lemma OtherKeepsTables(s: State, s': State, e: Event)
    requires TablesOk(s) && Later(s, e) && s' == s.(sys := Step(s.sys, e))
    ensures TablesOk(s') && Announced(s') == Announced(s)
  {
    OtherPasses(s.sys, e);
    NamesSame(s.sys.room.peers, s'.sys.room.peers);
    if e.Incoming? && Enabled(s.sys, e) {
      IncomingKeepsTables(s, s', e);
    } else {
      WholeStays(s, s');
      RecordsStay(s, s');
    }
  }

  // ---- What each peer is sent ----

  /** Every connected peer in the table has been told of just those it was due to be told of. */
  ghost predicate HearingOk(s: State) {
    forall b, a :: b in s.sys.room.peers && s.sys.room.peers[b].live ==>
      (Hears(s.sys.room.peers[b].outbox, a) <==> Due(s, a, b))
  }

  predicate Grown(ms: seq<Message>, ms': seq<Message>, m: Message) {
    ms' == ms || ms' == ms + [m]
  }

  /** A step that tells nobody of anybody. */
  lemma HearingStays(s: State, s': State, m: Message)
    requires HearingOk(s) && forall a :: !Tells(m, a)
    requires s'.welcomes == s.welcomes && s'.onboardings == s.onboardings
    requires s'.sys.room.limit == s.sys.room.limit
    requires forall b :: b in s'.sys.room.peers && s'.sys.room.peers[b].live ==>
      && b in s.sys.room.peers && s.sys.room.peers[b].live
      && Grown(s.sys.room.peers[b].outbox, s'.sys.room.peers[b].outbox, m)
    ensures HearingOk(s')
  {
    forall b, a | b in s'.sys.room.peers && s'.sys.room.peers[b].live
      ensures Hears(s'.sys.room.peers[b].outbox, a) <==> Due(s', a, b)
    {
      HearsAppend(s.sys.room.peers[b].outbox, m, a);
      assert Due(s', a, b) <==> Due(s, a, b);
    }
  }

  lemma WelcomeIsHeard(s: State, s': State, id: int, name: string)
    requires HearingOk(s) && id !in s.welcomes
    requires s'.welcomes == s.welcomes[id := Welcoming(|s.sys.log|, s.sys.room.peers.Keys)]
    requires s'.onboardings == s.onboardings && s'.sys.room.limit == s.sys.room.limit
    requires s'.sys.room.peers == SentToAll(s.sys.room.peers, Broadcast(Joined(id, name)))
    ensures HearingOk(s')
  {
    var m := Broadcast(Joined(id, name));
    forall b, a | b in s'.sys.room.peers && s'.sys.room.peers[b].live
      ensures Hears(s'.sys.room.peers[b].outbox, a) <==> Due(s', a, b)
    {
      HearsAppend(s.sys.room.peers[b].outbox, m, a);
      assert b in s.sys.room.peers.Keys;
      assert a != id ==> (Due(s', a, b) <==> Due(s, a, b));
    }
  }

  lemma AdditionIsSilent(s: State, s': State, id: int)
    requires HearingOk(s) && RecordsOk(s) && id in s.arriving && s' == DoAdd(s, id)
    ensures HearingOk(s')
  {
    forall b, a | b in s'.sys.room.peers && s'.sys.room.peers[b].live
      ensures Hears(s'.sys.room.peers[b].outbox, a) <==> Due(s', a, b)
    {
      if b == id {
        assert s'.sys.room.peers[b].outbox == [];
        assert a in s.welcomes ==> id !in s.welcomes[a].witnesses;
        assert id !in s.onboardings;
      } else {
        assert Due(s', a, b) <==> Due(s, a, b);
      }
    }
  }

  lemma HistoryAnnounces(s: State, a: int)
    requires s.sys.room.history == LastN(s.sys.log, s.sys.room.limit) && WelcomesOk(s)
    ensures (exists e :: e in s.sys.room.history && Announces(e, a)) <==>
      a in s.welcomes && |s.sys.log| - s.welcomes[a].place <= s.sys.room.limit
  {
    var h, start := s.sys.room.history, |s.sys.log| - |s.sys.room.history|;
    assert h == s.sys.log[start..];
    if e :| e in h && Announces(e, a) {
      var i :| 0 <= i < |h| && h[i] == e;
      assert s.sys.log[start + i] == e;
    }
    if a in s.welcomes && |s.sys.log| - s.welcomes[a].place <= s.sys.room.limit {
      var e := s.sys.log[s.welcomes[a].place];
      assert h[s.welcomes[a].place - start] == e;
      assert e in h && Announces(e, a);
    }
  }

  /** The newcomer's INFO tells it of the peers in the table and of those whose welcome is in the history. */
  lemma InfoTells(s: State, id: int, order: seq<PeerEntry>, a: int)
    requires TablesOk(s) && CanOnboard(s, id, order)
    ensures
      var info := Info(id, s.sys.room.peers[id].name, order, s.sys.room.history);
      Tells(info, a) <==>
        a in s.welcomes && (a in s.sys.room.peers || |s.sys.log| - s.welcomes[a].place <= s.sys.room.limit)
  {
    var info := Info(id, s.sys.room.peers[id].name, order, s.sys.room.history);
    ToMapKeys(order);
    NamesAt(s.sys.room.peers);
    AnnouncedHas(s);
    assert a in IdSet(order) <==> a in s.sys.room.peers;
    assert a in s.sys.room.peers ==> a in Announced(s).Keys;
    HistoryAnnounces(s, a);
    if s.sys.room.history == [] {
      assert Replayed(info) == [Joined(id, info.peerName)];
    }
  }

  lemma OnboardingIsHeard(s: State, s': State, id: int, order: seq<PeerEntry>)
    requires HearingOk(s) && TablesOk(s) && CanOnboard(s, id, order) && s' == DoOnboard(s, id, order)
    ensures HearingOk(s')
  {
    var info := Info(id, s.sys.room.peers[id].name, order, s.sys.room.history);
    forall b, a | b in s'.sys.room.peers && s'.sys.room.peers[b].live
      ensures Hears(s'.sys.room.peers[b].outbox, a) <==> Due(s', a, b)
    {
      if b == id {
        InfoTells(s, id, order, a);
        HearsAppend(s.sys.room.peers[id].outbox, info, a);
        assert s'.sys.room.peers[id].outbox == s.sys.room.peers[id].outbox + [info];
        assert Hears(s.sys.room.peers[id].outbox, a) <==> Due(s, a, b);
      } else {
        assert Due(s', a, b) <==> Due(s, a, b);
      }
    }
  }
}

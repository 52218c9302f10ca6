/**
 The file index of a room under its two locks.

 `shareFile` takes the file lock, then briefly the peer lock for the host lookup; `removePeerById` takes the
 peer lock, then the file lock. Any number of threads interleave at the granularity of the locked regions'
 single effects; a look-up or an insertion that is the whole critical section of its lock is one step.
 */
module FileIndex {
  import opened Basics

  datatype Pc =
    | Idle
    | ShareWantsFileLock(host: int)
    | ShareLooksUp(host: int)
    | ShareFound(host: int)
    | ShareNumbered(host: int, file: int)
    | ShareAdded(host: int, file: int)
    | ShareIndexed(host: int, file: int)
    | RemoveWantsPeerLock(peer: int)
    | RemoveLooksUp(peer: int)
    | RemoveWantsFileLock(peer: int)
    | Removing(peer: int, rest: seq<int>)
    | RemoveErases(peer: int)
    | RemoveDone(peer: int)

  /** `files` holds the own list of every peer object ever added, also after the peer left. */
  datatype State = State(
    members: set<int>, files: map<int, seq<int>>, index: map<int, int>, counter: int,
    fileLock: Option<nat>, peerLock: Option<nat>, threads: seq<Pc>)

  /** A new room and any number of threads. */
  function Start(n: nat): State {
    State({}, map[], map[], 1, None, None, seq(n, _ => Idle))
  }

  function FilesOf(s: State, p: int): seq<int> {
    if p in s.files then s.files[p] else []
  }

  function Goto(s: State, t: nat, pc: Pc): State
    requires t < |s.threads|
  {
    s.(threads := s.threads[t := pc])
  }

  datatype Event =
    | AddPeer(peer: int)
    | CallShare(thread: nat, host: int)
    | CallRemove(thread: nat, peer: int)
    | Go(thread: nat)

  /** A thread that waits for a lock somebody holds cannot go on. */
  predicate CanGo(s: State, t: nat) {
    t < |s.threads| &&
    match s.threads[t]
    case Idle => false
    case ShareWantsFileLock(_) => s.fileLock.None?
    case ShareLooksUp(_) => s.peerLock.None?
    case RemoveWantsPeerLock(_) => s.peerLock.None?
    case RemoveWantsFileLock(_) => s.fileLock.None?
    case _ => true
  }

  function Go1(s: State, t: nat): State
    requires t < |s.threads|
  {
    match s.threads[t]
    case Idle => s
    case ShareWantsFileLock(h) => Goto(s, t, ShareLooksUp(h)).(fileLock := Some(t))
    case ShareLooksUp(h) =>
      if h in s.members then Goto(s, t, ShareFound(h)) else Goto(s, t, Idle).(fileLock := None)
    case ShareFound(h) => Goto(s, t, ShareNumbered(h, s.counter)).(counter := s.counter + 1)
    case ShareNumbered(h, f) => Goto(s, t, ShareAdded(h, f)).(files := s.files[h := FilesOf(s, h) + [f]])
    case ShareAdded(h, f) => Goto(s, t, ShareIndexed(h, f)).(index := s.index[f := h])
    case ShareIndexed(h, f) => Goto(s, t, Idle).(fileLock := None)
    case RemoveWantsPeerLock(p) => Goto(s, t, RemoveLooksUp(p)).(peerLock := Some(t))
    case RemoveLooksUp(p) =>
      if p in s.members then Goto(s, t, RemoveWantsFileLock(p)) else Goto(s, t, Idle).(peerLock := None)
    case RemoveWantsFileLock(p) => Goto(s, t, Removing(p, FilesOf(s, p))).(fileLock := Some(t))
    case Removing(p, rest) =>
      if rest == [] then Goto(s, t, RemoveErases(p)).(fileLock := None)
      else Goto(s, t, Removing(p, rest[1..])).(index := s.index - {rest[0]})
    case RemoveErases(p) => Goto(s, t, RemoveDone(p)).(members := s.members - {p})
    case RemoveDone(p) => Goto(s, t, Idle).(peerLock := None)
  }

  predicate Enabled(s: State, e: Event) {
    match e
    case AddPeer(p) => p !in s.files && s.peerLock.None?
    case CallShare(t, h) => t < |s.threads| && s.threads[t] == Idle
    case CallRemove(t, p) => t < |s.threads| && s.threads[t] == Idle
    case Go(t) => CanGo(s, t)
  }

  function Step(s: State, e: Event): State {
    if !Enabled(s, e) then s else
    match e
    case AddPeer(p) => s.(members := s.members + {p}, files := s.files[p := []])
    case CallShare(t, h) => Goto(s, t, ShareWantsFileLock(h))
    case CallRemove(t, p) => Goto(s, t, RemoveWantsPeerLock(p))
    case Go(t) => Go1(s, t)
  }

  function Run(s: State, events: seq<Event>): State
    decreases |events|
  {
    if events == [] then s else Run(Step(s, events[0]), events[1..])
  }

  // ---- The invariant ----

  predicate PastLookup(pc: Pc) {
    pc.ShareFound? || pc.ShareNumbered? || pc.ShareAdded? || pc.ShareIndexed?
  }

  predicate HoldsFileLock(pc: Pc) {
    pc.ShareLooksUp? || PastLookup(pc) || pc.Removing?
  }

  predicate PastFiles(pc: Pc) {
    pc.RemoveErases? || pc.RemoveDone?
  }

  predicate HoldsPeerLock(pc: Pc) {
    pc.RemoveLooksUp? || pc.RemoveWantsFileLock? || pc.Removing? || PastFiles(pc)
  }

  ghost predicate LocksOk(s: State) {
    && (forall t :: 0 <= t < |s.threads| ==> (HoldsFileLock(s.threads[t]) <==> s.fileLock == Some(t)))
    && (forall t :: 0 <= t < |s.threads| ==> (HoldsPeerLock(s.threads[t]) <==> s.peerLock == Some(t)))
    && (forall t, u | 0 <= t < |s.threads| && 0 <= u < |s.threads| ::
        !(PastLookup(s.threads[t]) && PastFiles(s.threads[u])))
    && (s.fileLock.Some? ==> s.fileLock.value < |s.threads|)
    && (s.peerLock.Some? ==> s.peerLock.value < |s.threads|)
  }

  predicate Distinct(x: seq<int>) {
    forall i, j :: 0 <= i < j < |x| ==> x[i] != x[j]
  }

  predicate Lists(files: map<int, seq<int>>, p: int, f: int) {
    p in files && f in files[p]
  }

  ghost predicate ListsOk(s: State) {
    && s.members <= s.files.Keys
    && (forall p :: p in s.files ==> Distinct(s.files[p]))
    && (forall p, f :: Lists(s.files, p, f) ==> f < s.counter)
    && (forall p, q, f :: Lists(s.files, p, f) && Lists(s.files, q, f) ==> p == q)
  }

  ghost predicate ThreadOk(s: State, pc: Pc) {
    match pc
    case ShareFound(h) => h in s.members
    case ShareNumbered(h, f) => h in s.members && f == s.counter - 1 && forall p :: !Lists(s.files, p, f)
    case ShareAdded(h, f) => h in s.members && h in s.files && f in s.files[h] && f !in s.index
    case ShareIndexed(h, f) => h in s.members
    case RemoveWantsFileLock(p) => p in s.members
    case Removing(p, rest) =>
      && p in s.members && p in s.files && Distinct(rest)
      && (forall f :: f in rest ==> f in s.files[p])
      && (forall f :: f in s.files[p] ==> (f in s.index <==> f in rest))
    case RemoveErases(p) => p in s.members && p in s.files && forall f :: f in s.files[p] ==> f !in s.index
    case _ => true
  }

  /** A share or a removal in the middle of its work keeps a file of a member out of the index. */
  predicate Unsettles(pc: Pc, p: int, f: int) {
    pc == ShareAdded(p, f) || (pc.Removing? && pc.peer == p && f !in pc.rest) || pc == RemoveErases(p)
  }

  ghost predicate Unsettled(s: State, p: int, f: int) {
    exists t :: 0 <= t < |s.threads| && Unsettles(s.threads[t], p, f)
  }

  ghost predicate IndexOk(s: State) {
    && (forall f :: f in s.index ==>
        s.index[f] in s.members && Lists(s.files, s.index[f], f))
    && (forall p, f :: p in s.members && Lists(s.files, p, f) && f !in s.index ==> Unsettled(s, p, f))
  }

  ghost predicate ThreadsOk(s: State) {
    forall t :: 0 <= t < |s.threads| ==> ThreadOk(s, s.threads[t])
  }

  ghost predicate Inv(s: State) {
    LocksOk(s) && ListsOk(s) && IndexOk(s) && ThreadsOk(s)
  }

  /** One thread moved and the locks followed it. */
  lemma LocksMove(s: State, s': State, t: nat)
    requires LocksOk(s) && t < |s.threads| && |s'.threads| == |s.threads|
    requires s'.threads == s.threads[t := s'.threads[t]]
    requires
      var pc, pc' := s.threads[t], s'.threads[t];
      && s'.fileLock == (if HoldsFileLock(pc') then Some(t) else if HoldsFileLock(pc) then None else s.fileLock)
      && s'.peerLock == (if HoldsPeerLock(pc') then Some(t) else if HoldsPeerLock(pc) then None else s.peerLock)
      && (HoldsFileLock(pc') && !HoldsFileLock(pc) ==> s.fileLock.None?)
      && (HoldsPeerLock(pc') && !HoldsPeerLock(pc) ==> s.peerLock.None?)
      && (PastLookup(pc') ==> PastLookup(pc) || s.peerLock.None?)
      && (PastFiles(pc') ==> PastFiles(pc) || HoldsFileLock(pc))
    ensures LocksOk(s')
  {
    forall u, v | 0 <= u < |s'.threads| && 0 <= v < |s'.threads|
      ensures !(PastLookup(s'.threads[u]) && PastFiles(s'.threads[v]))
    {
      assert !(PastLookup(s.threads[u]) && PastFiles(s.threads[v]));
      assert HoldsFileLock(s.threads[u]) <==> s.fileLock == Some(u);
      assert HoldsPeerLock(s.threads[v]) <==> s.peerLock == Some(v);
    }
  }

  lemma GoKeepsLocks(s: State, t: nat)
    requires Inv(s) && CanGo(s, t)
    ensures LocksOk(Go1(s, t))
  {
    var s' := Go1(s, t);
    var pc, pc' := s.threads[t], s'.threads[t];
    assert s'.fileLock == (if HoldsFileLock(pc') then Some(t) else if HoldsFileLock(pc) then None else s.fileLock);
    assert s'.peerLock == (if HoldsPeerLock(pc') then Some(t) else if HoldsPeerLock(pc) then None else s.peerLock);
    assert HoldsFileLock(pc') && !HoldsFileLock(pc) ==> s.fileLock.None?;
    assert HoldsPeerLock(pc') && !HoldsPeerLock(pc) ==> s.peerLock.None?;
    assert PastLookup(pc') ==> PastLookup(pc) || s.peerLock.None?;
    assert PastFiles(pc') ==> PastFiles(pc) || HoldsFileLock(pc);
    LocksMove(s, s', t);
  }

  lemma GoKeepsLists(s: State, t: nat)
    requires Inv(s) && CanGo(s, t)
    ensures ListsOk(Go1(s, t))
  {
    var s' := Go1(s, t);
    assert ThreadOk(s, s.threads[t]);
    if s.threads[t].ShareNumbered? {
      var h, f := s.threads[t].host, s.threads[t].file;
      assert !Lists(s.files, h, f);
      forall p, g ensures Lists(s'.files, p, g) <==> Lists(s.files, p, g) || (p == h && g == f) {
      }
    }
  }

  lemma GoKeepsThreads(s: State, t: nat)
    requires Inv(s) && CanGo(s, t)
    ensures ThreadsOk(Go1(s, t))
  {
    var s' := Go1(s, t);
    assert ThreadOk(s, s.threads[t]);
    forall u | 0 <= u < |s'.threads| ensures ThreadOk(s', s'.threads[u]) {
      assert ThreadOk(s, s.threads[u]);
      assert HoldsFileLock(s.threads[u]) && HoldsFileLock(s.threads[t]) ==> u == t;
      assert HoldsPeerLock(s.threads[u]) && HoldsPeerLock(s.threads[t]) ==> u == t;
    }
  }

  lemma GoKeepsIndex(s: State, t: nat)
    requires Inv(s) && CanGo(s, t)
    ensures IndexOk(Go1(s, t))
  {
    var s' := Go1(s, t);
    assert ThreadOk(s, s.threads[t]);
    forall p, f | p in s'.members && Lists(s'.files, p, f) && f !in s'.index
      ensures Unsettled(s', p, f)
    {
      assert Unsettles(s'.threads[t], p, f) ==> Unsettled(s', p, f);
      if s.threads[t].Removing? && s.threads[t].rest != [] && f == s.threads[t].rest[0] {
        assert Lists(s.files, s.threads[t].peer, f);
        assert f !in s.threads[t].rest[1..];
      }
      if Unsettled(s, p, f) {
        var u :| 0 <= u < |s.threads| && Unsettles(s.threads[u], p, f);
        assert u != t ==> Unsettles(s'.threads[u], p, f);
      }
    }
  }

  lemma AddKeepsInv(s: State, p: int)
    requires Inv(s) && Enabled(s, AddPeer(p))
    ensures Inv(Step(s, AddPeer(p)))
  {
    var s' := Step(s, AddPeer(p));
    forall q, f ensures Lists(s'.files, q, f) <==> Lists(s.files, q, f) {
    }
    forall u | 0 <= u < |s'.threads| ensures ThreadOk(s', s'.threads[u]) {
      assert ThreadOk(s, s.threads[u]);
    }
    forall q, f | q in s'.members && Lists(s'.files, q, f) && f !in s'.index
      ensures Unsettled(s', q, f)
    {
      assert Unsettled(s, q, f);
    }
  }

  lemma CallKeepsInv(s: State, t: nat, pc: Pc)
    requires Inv(s) && t < |s.threads| && s.threads[t] == Idle
    requires pc.ShareWantsFileLock? || pc.RemoveWantsPeerLock?
    ensures Inv(Goto(s, t, pc))
  {
    var s' := Goto(s, t, pc);
    LocksMove(s, s', t);
    forall u | 0 <= u < |s'.threads| ensures ThreadOk(s', s'.threads[u]) {
      assert ThreadOk(s, s.threads[u]);
    }
    forall q, f | q in s'.members && Lists(s'.files, q, f) && f !in s'.index
      ensures Unsettled(s', q, f)
    {
      var u :| 0 <= u < |s.threads| && Unsettles(s.threads[u], q, f);
      assert Unsettles(s'.threads[u], q, f);
    }
  }

  lemma StepKeepsInv(s: State, e: Event)
    requires Inv(s)
    ensures Inv(Step(s, e)) && |Step(s, e).threads| == |s.threads|
  {
    if Enabled(s, e) {
      match e
      case Go(t) =>
        GoKeepsLocks(s, t);
        GoKeepsLists(s, t);
        GoKeepsThreads(s, t);
        GoKeepsIndex(s, t);
      case AddPeer(p) => AddKeepsInv(s, p);
      case CallShare(t, h) => CallKeepsInv(s, t, ShareWantsFileLock(h));
      case CallRemove(t, p) => CallKeepsInv(s, t, RemoveWantsPeerLock(p));
    }
  }

  lemma {:induction false} RunKeepsInv(s: State, events: seq<Event>)
    requires Inv(s)
    ensures Inv(Run(s, events)) && |Run(s, events).threads| == |s.threads|
    decreases |events|
  {
    if events == [] {
    } else {
      StepKeepsInv(s, events[0]);
      RunKeepsInv(Step(s, events[0]), events[1..]);
    }
  }

  // ---- Results ----

  predicate Busy(pc: Pc) {
    !pc.Idle?
  }

  /** No file of a share or a removal is half way in or out. */
  ghost predicate Settled(s: State) {
    forall t :: 0 <= t < |s.threads| ==>
      !s.threads[t].ShareAdded? && !s.threads[t].Removing? && !s.threads[t].RemoveErases?
  }

  lemma NothingUnsettled(s: State, p: int, f: int)
    requires Settled(s)
    ensures !Unsettled(s, p, f)
  {
  }

  /**
   Under every lock-respecting interleaving: whenever no share or removal is half way, the index is exactly
   the disjoint union of the members' own lists, each file under its one host, with ids below the counter.
   */
  lemma IndexIsUnion(n: nat, events: seq<Event>)
    requires Settled(Run(Start(n), events))
    ensures
      var s := Run(Start(n), events);
      && s.members <= s.files.Keys
      && (forall f, p :: f in s.index && s.index[f] == p <==> p in s.members && Lists(s.files, p, f))
      && (forall p, q, f | Lists(s.files, p, f) && Lists(s.files, q, f) :: p == q)
      && (forall p | p in s.files :: Distinct(s.files[p]))
      && (forall f :: f in s.index ==> f < s.counter)
  {
    RunKeepsInv(Start(n), events);
    var s := Run(Start(n), events);
    forall f, p ensures f in s.index && s.index[f] == p <==> p in s.members && Lists(s.files, p, f) {
      NothingUnsettled(s, p, f);
    }
  }

  /** At every moment, finished or not, an indexed file's host is a member and lists it. */
  lemma IndexedHostIsMember(n: nat, events: seq<Event>, f: int)
    requires f in Run(Start(n), events).index
    ensures
      var s := Run(Start(n), events);
      s.index[f] in s.members && Lists(s.files, s.index[f], f)
  {
    RunKeepsInv(Start(n), events);
  }

  ghost predicate Stuck(s: State) {
    && (exists t :: 0 <= t < |s.threads| && Busy(s.threads[t]))
    && (forall t :: 0 <= t < |s.threads| ==> !CanGo(s, t))
  }

  /** A share between its two locks and a removal waiting for the file lock. */
  ghost predicate LockCycle(s: State) {
    exists t, u :: 0 <= t < |s.threads| && 0 <= u < |s.threads| &&
      s.threads[t].ShareLooksUp? && s.threads[u].RemoveWantsFileLock?
  }

  lemma CycleIsStuck(s: State)
    requires Inv(s) && LockCycle(s)
    ensures Stuck(s)
  {
    var t, u :| 0 <= t < |s.threads| && 0 <= u < |s.threads| &&
      s.threads[t].ShareLooksUp? && s.threads[u].RemoveWantsFileLock?;
    assert s.fileLock == Some(t) && s.peerLock == Some(u);
    assert Busy(s.threads[t]);
    forall v | 0 <= v < |s.threads| ensures !CanGo(s, v) {
      assert HoldsFileLock(s.threads[v]) ==> v == t;
      assert HoldsPeerLock(s.threads[v]) ==> v == u;
    }
  }

  lemma SomebodyCanGo(s: State, t: nat)
    requires Inv(s) && !LockCycle(s) && t < |s.threads| && Busy(s.threads[t])
    ensures exists v :: 0 <= v < |s.threads| && CanGo(s, v)
  {
    if s.fileLock.Some? && s.peerLock.Some? {
      var f, p := s.fileLock.value, s.peerLock.value;
      assert HoldsFileLock(s.threads[f]) && HoldsPeerLock(s.threads[p]);
      assert CanGo(s, f) || CanGo(s, p);
    } else if s.fileLock.Some? {
      assert HoldsFileLock(s.threads[s.fileLock.value]) && CanGo(s, s.fileLock.value);
    } else if s.peerLock.Some? {
      assert HoldsPeerLock(s.threads[s.peerLock.value]) && CanGo(s, s.peerLock.value);
    } else {
      assert CanGo(s, t);
    }
  }

  /** The opposite lock orders deadlock: the calls of the room block each other exactly in a lock cycle. */
  lemma StuckExactlyInLockCycle(n: nat, events: seq<Event>)
    requires exists t :: 0 <= t < n && |Run(Start(n), events).threads| == n && Busy(Run(Start(n), events).threads[t])
    ensures Stuck(Run(Start(n), events)) <==> LockCycle(Run(Start(n), events))
  {
    RunKeepsInv(Start(n), events);
    var s := Run(Start(n), events);
    if LockCycle(s) {
      CycleIsStuck(s);
    } else {
      var t :| 0 <= t < n && Busy(s.threads[t]);
      SomebodyCanGo(s, t);
    }
  }

  lemma RunFirst(s: State, e: Event, rest: seq<Event>)
    ensures Run(s, [e] + rest) == Run(Step(s, e), rest)
  {
    assert ([e] + rest)[1..] == rest;
  }

  predicate Sharing(pc: Pc) {
    pc.ShareWantsFileLock? || pc.ShareLooksUp? || PastLookup(pc)
  }

  predicate RemovalRuns(pc: Pc) {
    pc.RemoveWantsPeerLock? || HoldsPeerLock(pc)
  }

  /** A share and a removal are running at the same time. */
  ghost predicate Overlap(s: State) {
    exists t, u :: 0 <= t < |s.threads| && 0 <= u < |s.threads| && Sharing(s.threads[t]) && RemovalRuns(s.threads[u])
  }

  /** Callers that never let a share overlap a removal are never stuck. */
  lemma NoOverlapNeverStuck(n: nat, events: seq<Event>)
    requires !Overlap(Run(Start(n), events))
    ensures !Stuck(Run(Start(n), events))
  {
    RunKeepsInv(Start(n), events);
    var s := Run(Start(n), events);
    if Stuck(s) {
      var t :| 0 <= t < |s.threads| && Busy(s.threads[t]);
      assert !LockCycle(s);
      SomebodyCanGo(s, t);
    }
  }

  /** And overlap is the risk: whenever both are called while no lock is held, some schedule gets them stuck. */
  lemma OverlapCanStick(s: State, t: nat, u: nat, host: int, peer: int)
    requires Inv(s) && t < |s.threads| && u < |s.threads| && s.fileLock == None && s.peerLock == None
    requires s.threads[t] == ShareWantsFileLock(host) && s.threads[u] == RemoveWantsPeerLock(peer) && peer in s.members
    ensures Stuck(Step(Step(Step(s, Go(t)), Go(u)), Go(u)))
  {
    var s1 := Step(s, Go(t));
    var s2 := Step(s1, Go(u));
    var s3 := Step(s2, Go(u));
    StepKeepsInv(s, Go(t));
    StepKeepsInv(s1, Go(u));
    StepKeepsInv(s2, Go(u));
    assert s3.threads[t].ShareLooksUp? && s3.threads[u].RemoveWantsFileLock?;
    CycleIsStuck(s3);
  }

  /** Thread 0 shares and has the file lock. */
  function ShareUnderWay(): State {
    Step(Step(Step(Step(Start(2), AddPeer(1)), AddPeer(2)), CallShare(0, 1)), Go(0))
  }

  lemma ShareUnderWayHoldsFileLock()
    ensures ShareUnderWay().threads == [ShareLooksUp(1), Idle] && ShareUnderWay().fileLock == Some(0)
    ensures ShareUnderWay().peerLock == None && 2 in ShareUnderWay().members
  {
  }

  /** Thread 1 removes a peer, has the peer lock and wants the file lock. */
  lemma RemovalJoinsCycle(s: State)
    requires s.threads == [ShareLooksUp(1), Idle] && s.fileLock == Some(0) && s.peerLock == None && 2 in s.members
    ensures LockCycle(Step(Step(Step(s, CallRemove(1, 2)), Go(1)), Go(1)))
  {
    var s' := Step(Step(s, CallRemove(1, 2)), Go(1));
    assert s'.threads == [ShareLooksUp(1), RemoveLooksUp(2)];
    assert Step(s', Go(1)).threads == [ShareLooksUp(1), RemoveWantsFileLock(2)];
    assert Step(s', Go(1)).threads[0].ShareLooksUp? && Step(s', Go(1)).threads[1].RemoveWantsFileLock?;
  }

  lemma ShareUnderWayIsReached(rest: seq<Event>)
    ensures Run(Start(2), [AddPeer(1), AddPeer(2), CallShare(0, 1), Go(0)] + rest) == Run(ShareUnderWay(), rest)
  {
    var s1 := Step(Start(2), AddPeer(1));
    var s2 := Step(s1, AddPeer(2));
    var s3 := Step(s2, CallShare(0, 1));
    var r3 := [Go(0)] + rest;
    var r2 := [CallShare(0, 1)] + r3;
    var r1 := [AddPeer(2)] + r2;
    assert [AddPeer(1), AddPeer(2), CallShare(0, 1), Go(0)] + rest == [AddPeer(1)] + r1;
    RunFirst(s3, Go(0), rest);
    RunFirst(s2, CallShare(0, 1), r3);
    RunFirst(s1, AddPeer(2), r2);
    RunFirst(Start(2), AddPeer(1), r1);
  }

  lemma RemovalIsReached(s: State)
    ensures Run(s, [CallRemove(1, 2), Go(1), Go(1)]) == Step(Step(Step(s, CallRemove(1, 2)), Go(1)), Go(1))
  {
    var s1 := Step(s, CallRemove(1, 2));
    var s2 := Step(s1, Go(1));
    assert [CallRemove(1, 2), Go(1), Go(1)] == [CallRemove(1, 2)] + ([Go(1)] + ([Go(1)] + []));
    RunFirst(s2, Go(1), []);
    RunFirst(s1, Go(1), [Go(1)] + []);
    RunFirst(s, CallRemove(1, 2), [Go(1)] + ([Go(1)] + []));
  }

  /** Such a state is reached: a peer's removal and a share by another member of the room. */
  lemma LockCycleIsReachable()
    ensures
      var events := [AddPeer(1), AddPeer(2), CallShare(0, 1), Go(0)] + [CallRemove(1, 2), Go(1), Go(1)];
      LockCycle(Run(Start(2), events))
  {
    ShareUnderWayIsReached([CallRemove(1, 2), Go(1), Go(1)]);
    RemovalIsReached(ShareUnderWay());
    ShareUnderWayHoldsFileLock();
    RemovalJoinsCycle(ShareUnderWay());
  }
}

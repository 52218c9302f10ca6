/**
 The calls on a room's file index take effect one at a time: seen between its steps, every lock-respecting
 interleaving of `addPeer`, `shareFile` and `removePeerById` is a sequence of the room's own operations.
 */
module IndexLinearizes {
  import opened Basics
  import opened RoomSpec
  import RoomIndex
  import F = FileIndex

  datatype Op = Enter(peer: int) | Share(host: int) | Remove(peer: int)

  /** The operations of `RoomSpec`; a share by somebody who is not in the room fails and changes nothing. */
  function Apply(r: RoomValue, op: Op): RoomValue {
    match op
    case Enter(p) => Add(r, p, NewPeer(""))
    case Share(h) => if h in r.peers then RoomSpec.Share(r, h) else r
    case Remove(p) => RemovePeer(r, p)
  }

  function ApplyAll(r: RoomValue, ops: seq<Op>): RoomValue
    decreases |ops|
  {
    if ops == [] then r else ApplyAll(Apply(r, ops[0]), ops[1..])
  }

  /**
   The step with which a call takes effect: a share when the host's list grows, a removal when the peer leaves
   the table, and either when its look-up fails.
   */
  function Commit(s: F.State, e: F.Event): Option<Op> {
    if !F.Enabled(s, e) then None
    else match e
      case AddPeer(p) => Some(Enter(p))
      case Go(t) =>
        (match s.threads[t]
         case ShareLooksUp(h) => if h in s.members then None else Some(Share(h))
         case ShareNumbered(h, _) => Some(Share(h))
         case RemoveLooksUp(p) => if p in s.members then None else Some(Remove(p))
         case RemoveErases(p) => Some(Remove(p))
         case _ => None)
      case _ => None
  }

  function Commits(s: F.State, events: seq<F.Event>): seq<Op>
    decreases |events|
  {
    if events == [] then []
    else
      var c := Commit(s, events[0]);
      (if c.Some? then [c.value] else []) + Commits(F.Step(s, events[0]), events[1..])
  }

  ghost predicate Numbered(s: F.State) {
    exists t :: 0 <= t < |s.threads| && s.threads[t].ShareNumbered?
  }

  /** The room as the completed operations left it; the index alone may still be on its way. */
  ghost predicate Shows(s: F.State, r: RoomValue) {
    && r.peers.Keys == s.members
    && (forall p :: p in r.peers ==> r.peers[p].files == F.FilesOf(s, p))
    && r.fileIdCounter == s.counter - (if Numbered(s) then 1 else 0)
    && RoomIndex.IndexOk(r)
  }

  /** No call is between its first and its last effect. */
  ghost predicate AtRest(s: F.State) {
    F.Settled(s) && !Numbered(s)
  }

  lemma AtRestAgrees(s: F.State, r: RoomValue)
    requires F.Inv(s) && Shows(s, r) && AtRest(s)
    ensures s.index == r.index && r.fileIdCounter == s.counter
  {
    forall f, p ensures f in s.index && s.index[f] == p <==> RoomIndex.Hosts(r.peers, p, f) {
      F.NothingUnsettled(s, p, f);
      assert p in r.peers <==> p in s.members;
      assert F.Lists(s.files, p, f) <==> p in s.files && f in F.FilesOf(s, p);
    }
    forall f | f in s.index ensures f in r.index && r.index[f] == s.index[f] {
      assert RoomIndex.Hosts(r.peers, s.index[f], f);
    }
    forall f | f in r.index ensures f in s.index {
      assert RoomIndex.Hosts(r.peers, r.index[f], f);
    }
  }

  /** One step that leaves lists and members alone, and the pending number too. */
  lemma QuietStep(s: F.State, s': F.State, r: RoomValue)
    requires Shows(s, r) && s'.members == s.members && s'.files == s.files
    requires s'.counter - (if Numbered(s') then 1 else 0) == s.counter - (if Numbered(s) then 1 else 0)
    ensures Shows(s', r)
  {
  }

  lemma NumberedElsewhere(s: F.State, t: nat, pc: F.Pc)
    requires t < |s.threads| && !s.threads[t].ShareNumbered? && !pc.ShareNumbered?
    ensures Numbered(F.Goto(s, t, pc)) <==> Numbered(s)
  {
    var s' := F.Goto(s, t, pc);
    if Numbered(s) {
      var u :| 0 <= u < |s.threads| && s.threads[u].ShareNumbered?;
      assert s'.threads[u].ShareNumbered?;
    }
    if Numbered(s') {
      var u :| 0 <= u < |s'.threads| && s'.threads[u].ShareNumbered?;
      assert s.threads[u].ShareNumbered?;
    }
  }

  /** Only the holder of the file lock can be between number and list. */
  lemma NobodyElseNumbered(s: F.State, t: nat)
    requires F.LocksOk(s) && t < |s.threads| && F.HoldsFileLock(s.threads[t])
    ensures Numbered(s) <==> s.threads[t].ShareNumbered?
  {
  }

  lemma NumberStep(s: F.State, t: nat, r: RoomValue)
    requires F.Inv(s) && Shows(s, r) && F.CanGo(s, t) && s.threads[t].ShareFound?
    ensures Shows(F.Go1(s, t), r)
  {
    NobodyElseNumbered(s, t);
    assert F.Go1(s, t).threads[t].ShareNumbered?;
  }

  lemma ListStep(s: F.State, t: nat, r: RoomValue)
    requires F.Inv(s) && Shows(s, r) && F.CanGo(s, t) && s.threads[t].ShareNumbered?
    ensures Shows(F.Go1(s, t), Apply(r, Share(s.threads[t].host)))
  {
    var s', h := F.Go1(s, t), s.threads[t].host;
    assert F.ThreadOk(s, s.threads[t]);
    NobodyElseNumbered(s, t);
    F.GoKeepsLocks(s, t);
    NobodyElseNumbered(s', t);
    RoomIndex.ShareKeepsIndex(r, h);
  }

  lemma EraseStep(s: F.State, t: nat, r: RoomValue)
    requires F.Inv(s) && Shows(s, r) && F.CanGo(s, t) && s.threads[t].RemoveErases?
    ensures Shows(F.Go1(s, t), Apply(r, Remove(s.threads[t].peer)))
  {
    var p := s.threads[t].peer;
    NumberedElsewhere(s, t, F.RemoveDone(p));
    RoomIndex.RemoveKeepsIndex(r, p);
  }

  lemma EnterStep(s: F.State, p: int, r: RoomValue)
    requires F.Inv(s) && Shows(s, r) && F.Enabled(s, F.AddPeer(p))
    ensures Shows(F.Step(s, F.AddPeer(p)), Apply(r, Enter(p)))
  {
    assert p !in r.peers;
    RoomIndex.AddKeepsIndex(r, p, NewPeer(""));
    assert F.Step(s, F.AddPeer(p)).threads == s.threads;
  }

  lemma GoStep(s: F.State, t: nat, r: RoomValue)
    requires F.Inv(s) && Shows(s, r) && F.CanGo(s, t)
    ensures
      var c := Commit(s, F.Go(t));
      Shows(F.Go1(s, t), if c.Some? then Apply(r, c.value) else r)
  {
    var pc := s.threads[t];
    var s' := F.Go1(s, t);
    if pc.ShareFound? {
      NumberStep(s, t, r);
    } else if pc.ShareNumbered? {
      ListStep(s, t, r);
    } else if pc.RemoveErases? {
      EraseStep(s, t, r);
    } else {
      NumberedElsewhere(s, t, s'.threads[t]);
      assert s'.threads == F.Goto(s, t, s'.threads[t]).threads;
      QuietStep(s, s', r);
    }
  }

  /** Every step of the threads is the operation it commits, or none. */
  lemma StepCommits(s: F.State, e: F.Event, r: RoomValue)
    requires F.Inv(s) && Shows(s, r)
    ensures
      var c := Commit(s, e);
      Shows(F.Step(s, e), if c.Some? then Apply(r, c.value) else r)
  {
    if F.Enabled(s, e) {
      match e
      case Go(t) => GoStep(s, t, r);
      case AddPeer(p) => EnterStep(s, p, r);
      case CallShare(t, h) =>
        NumberedElsewhere(s, t, F.ShareWantsFileLock(h));
        QuietStep(s, F.Step(s, e), r);
      case CallRemove(t, p) =>
        NumberedElsewhere(s, t, F.RemoveWantsPeerLock(p));
        QuietStep(s, F.Step(s, e), r);
    }
  }

  lemma {:induction false} RunCommits(s: F.State, events: seq<F.Event>, r: RoomValue)
    requires F.Inv(s) && Shows(s, r)
    ensures Shows(F.Run(s, events), ApplyAll(r, Commits(s, events)))
    decreases |events|
  {
    if events == [] {
    } else {
      var c := Commit(s, events[0]);
      var rest := Commits(F.Step(s, events[0]), events[1..]);
      StepCommits(s, events[0], r);
      F.StepKeepsInv(s, events[0]);
      RunCommits(F.Step(s, events[0]), events[1..], if c.Some? then Apply(r, c.value) else r);
      if c.Some? {
        assert ([c.value] + rest)[1..] == rest;
      } else {
        assert [] + rest == rest;
      }
    }
  }

  /**
   Linearizability: in every interleaving, members and lists are those the room's own operations produce, one
   after the other in the order of their commits, the counter is theirs or, while a share has its number but is
   on no list yet, one ahead of theirs, and whenever no call is half way the index is theirs as well.
   */
  lemma CallsTakeEffectOneAtATime(limit: nat, n: nat, events: seq<F.Event>)
    ensures
      var s := F.Run(F.Start(n), events);
      var r := ApplyAll(NewRoom(limit), Commits(F.Start(n), events));
      && r.peers.Keys == s.members
      && (forall p :: p in r.peers ==> r.peers[p].files == F.FilesOf(s, p))
      && r.fileIdCounter == s.counter - (if Numbered(s) then 1 else 0)
      && (AtRest(s) ==> s.index == r.index && s.counter == r.fileIdCounter)
  {
    var s := F.Run(F.Start(n), events);
    var r := ApplyAll(NewRoom(limit), Commits(F.Start(n), events));
    RunCommits(F.Start(n), events, NewRoom(limit));
    F.RunKeepsInv(F.Start(n), events);
    if AtRest(s) {
      AtRestAgrees(s, r);
    }
  }

  // ---- One commit per call ----

  /** The call has taken effect and is on its way out. */
  predicate Past(pc: F.Pc) {
    pc.ShareAdded? || pc.ShareIndexed? || pc.RemoveDone?
  }

  predicate Before(pc: F.Pc) {
    F.Busy(pc) && !Past(pc)
  }

  /** A call commits exactly once: on the step that takes it past its commit, and it cannot return before. */
  lemma CallsCommitOnce(s: F.State, t: nat)
    requires F.CanGo(s, t)
    ensures
      var pc, pc' := s.threads[t], F.Go1(s, t).threads[t];
      && (Commit(s, F.Go(t)).Some? <==> Before(pc) && !Before(pc'))
      && (Past(pc) ==> Past(pc') || pc' == F.Idle)
  {
  }
}

/**
 Parking and waking of one waiting reader, in the steps between which the locks are free: the wait coroutine's
 check, the enqueueing on the wait list, `onNewItem`, `provideFileChunk` and `invalidate`. Each step that
 reads or writes the chunk happens under `m_chunkLock` and is atomic; enqueueing and `onNewItem` are apart,
 so several `onNewItem` calls can be outstanding.
 */
module WakeUp {
  import opened Basics
  import opened Chunks

  /** Where the wait coroutine is: not running, about to check, past the check but not yet in the list, in it. */
  datatype Pc = Outside | Checking | Enqueuing | Parked

  datatype Fine = Fine(st: Stream, pc: Pc, listeners: nat)

  const START := Fine(NEW_STREAM, Outside, 0)

  /** `Spurious` wakes a parked reader for no reason. */
  datatype Event = Read(count: nat) | Check | Enqueue | OnNewItem | Provide(data: Bytes) | Revoke | Spurious

  predicate Enabled(f: Fine, e: Event) {
    match e
    case Read(count) => CanRead(f.st, count)
    case Check => f.pc == Checking && f.st.reader.Waiting?
    case Enqueue => f.pc == Enqueuing
    case OnNewItem => 0 < f.listeners
    case Spurious => f.pc == Parked
    case _ => true
  }

  /** Everything in the wait list runs its check again. */
  function Woken(pc: Pc): Pc {
    if pc == Parked then Checking else pc
  }

  function NotifyAll(f: Fine): Fine {
    f.(pc := Woken(f.pc))
  }

  function Step(f: Fine, fileSize: int, e: Event): Fine {
    if !Enabled(f, e) then f else
    match e
    case Read(count) =>
      var st := AfterRead(f.st, fileSize, count);
      f.(st := st, pc := if st.reader.Waiting? then Checking else Outside)
    case Check =>
      if WakeGuard(f.st.sub) then f.(st := AfterWake(f.st), pc := Outside) else f.(pc := Enqueuing)
    case Enqueue => f.(pc := Parked, listeners := f.listeners + 1)
    case OnNewItem =>
      var f' := f.(listeners := f.listeners - 1);
      if WakeGuard(f.st.sub) then NotifyAll(f') else f'
    case Provide(data) =>
      if Collides(f.st.sub) then f
      else NotifyAll(f.(st := f.st.(sub := ProvideChunk(f.st.sub, data))))
    case Revoke => NotifyAll(f.(st := f.st.(sub := Invalidate(f.st.sub))))
    case Spurious => NotifyAll(f)
  }

  function Run(f: Fine, fileSize: int, events: seq<Event>): Fine
    decreases |events|
  {
    if events == [] then f else Run(Step(f, fileSize, events[0]), fileSize, events[1..])
  }

  predicate Inv(f: Fine) {
    && (f.st.reader.Waiting? <==> f.pc != Outside)
    && (f.pc == Parked && WakeGuard(f.st.sub) ==> 0 < f.listeners)
    && (f.st.reader.Retrying? ==> WakeGuard(f.st.sub))
  }

  lemma StepKeepsInv(f: Fine, fileSize: int, e: Event)
    requires Inv(f)
    ensures Inv(Step(f, fileSize, e))
  {
  }

  lemma {:induction false} RunKeepsInv(f: Fine, fileSize: int, events: seq<Event>)
    requires Inv(f)
    ensures Inv(Run(f, fileSize, events))
    decreases |events|
  {
    if events == [] {
    } else {
      StepKeepsInv(f, fileSize, events[0]);
      RunKeepsInv(Step(f, fileSize, events[0]), fileSize, events[1..]);
    }
  }

  /**
   No lost wake-up: under every interleaving, a reader that is parked with all its `onNewItem` checks done
   has no buffered chunk and is still valid.
   */
  lemma NoLostWakeUp(fileSize: int, events: seq<Event>)
    requires Run(START, fileSize, events).pc == Parked && Run(START, fileSize, events).listeners == 0
    ensures Run(START, fileSize, events).st.sub.chunk.None? && Run(START, fileSize, events).st.sub.valid
  {
    RunKeepsInv(START, fileSize, events);
  }

  /** A request is sent only by a read that starts afresh: no wake-up, spurious or not, sends a second one. */
  lemma RequestsOnlyFromIdle(fileSize: int, events: seq<Event>, e: Event)
    ensures
      var f := Run(START, fileSize, events);
      var f' := Step(f, fileSize, e);
      && f.st.requests <= f'.st.requests <= f.st.requests + 1
      && (f'.st.requests != f.st.requests ==>
          f.st.reader == Idle && f.st.sub.chunk.None? && f'.st.reader.Waiting? && e.Read?)
  {
    RunKeepsInv(START, fileSize, events);
  }

  // ---- A reader that can go on does go on ----

  predicate Internal(e: Event) {
    e == Check || e == Enqueue || e == OnNewItem
  }

  function Potential(f: Fine): nat {
    f.listeners + 2 * (match f.pc case Outside => 0 case Checking => 1 case Parked => 2 case Enqueuing => 3)
  }

  function InternalSteps(f: Fine, fileSize: int, events: seq<Event>): nat
    decreases |events|
  {
    if events == [] then 0
    else (if Internal(events[0]) && Enabled(f, events[0]) then 1 else 0) +
         InternalSteps(Step(f, fileSize, events[0]), fileSize, events[1..])
  }

  predicate NoReads(events: seq<Event>) {
    forall e :: e in events ==> !e.Read?
  }

  lemma InternalStepsDescend(f: Fine, fileSize: int, e: Event)
    requires Inv(f) && WakeGuard(f.st.sub) && !e.Read?
    ensures WakeGuard(Step(f, fileSize, e).st.sub)
    ensures Potential(Step(f, fileSize, e)) <= Potential(f)
    ensures Internal(e) && Enabled(f, e) ==> Potential(Step(f, fileSize, e)) < Potential(f)
  {
  }

  /**
   Once a chunk is there or the subscriber was revoked, a waiting reader leaves the wait after at most
   `Potential` steps of the coroutine and the list, and until then one of them can always be taken.
   */
  lemma {:induction false} WaitingEnds(f: Fine, fileSize: int, events: seq<Event>)
    requires Inv(f) && WakeGuard(f.st.sub) && NoReads(events)
    ensures
      var f' := Run(f, fileSize, events);
      && WakeGuard(f'.st.sub)
      && InternalSteps(f, fileSize, events) + Potential(f') <= Potential(f)
      && (f'.st.reader.Waiting? ==> exists e :: Internal(e) && Enabled(f', e))
    decreases |events|
  {
    if events == [] {
      if f.st.reader.Waiting? {
        assert Enabled(f, match f.pc case Checking => Check case Enqueuing => Enqueue case _ => OnNewItem);
      }
    } else {
      assert events[0] in events;
      assert forall e :: e in events[1..] ==> e in events;
      InternalStepsDescend(f, fileSize, events[0]);
      StepKeepsInv(f, fileSize, events[0]);
      WaitingEnds(Step(f, fileSize, events[0]), fileSize, events[1..]);
    }
  }

  // ---- The coarse reader of the streaming model ----

  /** The steps the streaming model knows of one subscriber and its reader. */
  predicate CoarseStep(st: Stream, st': Stream, fileSize: int, e: Event) {
    || (e.Read? && CanRead(st, e.count) && st' == AfterRead(st, fileSize, e.count))
    || (e.Check? && CanWake(st) && st' == AfterWake(st))
    || (e.Provide? && st' == st.(sub := ProvideChunk(st.sub, e.data)))
    || (e.Revoke? && st' == st.(sub := Invalidate(st.sub)))
  }

  predicate AllInternal(events: seq<Event>) {
    forall e :: e in events ==> Internal(e)
  }

  /** Steps of the coroutine and the list alone do nothing to the stream, or exactly the guarded wake-up. */
  lemma {:induction false} InternalStepsWake(f: Fine, fileSize: int, more: seq<Event>)
    requires Inv(f) && AllInternal(more)
    ensures
      var st' := Run(f, fileSize, more).st;
      st' == f.st || (CanWake(f.st) && st' == AfterWake(f.st))
    decreases |more|
  {
    if more == [] {
    } else {
      assert more[0] in more && forall e :: e in more[1..] ==> e in more;
      StepKeepsInv(f, fileSize, more[0]);
      InternalStepsWake(Step(f, fileSize, more[0]), fileSize, more[1..]);
    }
  }

  lemma RunFirst(f: Fine, fileSize: int, e: Event, rest: seq<Event>)
    ensures Run(f, fileSize, [e] + rest) == Run(Step(f, fileSize, e), fileSize, rest)
  {
    assert ([e] + rest)[1..] == rest;
  }

  /** What the coroutine and the list have to do for a waiting reader that may go on, wherever it is. */
  function WayOut(pc: Pc): seq<Event>
    decreases match pc case Checking => 0 case Parked => 1 case _ => 2
  {
    match pc
    case Checking => [Check] + []
    case Parked => [OnNewItem] + WayOut(Checking)
    case _ => [Enqueue] + WayOut(Parked)
  }

  lemma {:induction false} WayOutWakes(f: Fine, fileSize: int)
    requires Inv(f) && CanWake(f.st)
    ensures AllInternal(WayOut(f.pc)) && Run(f, fileSize, WayOut(f.pc)).st == AfterWake(f.st)
    decreases match f.pc case Checking => 0 case Parked => 1 case _ => 2
  {
    if f.pc == Checking {
      RunFirst(f, fileSize, Check, []);
    } else {
      var e := if f.pc == Parked then OnNewItem else Enqueue;
      var f' := Step(f, fileSize, e);
      RunFirst(f, fileSize, e, WayOut(f'.pc));
      WayOutWakes(f', fileSize);
    }
  }

  predicate WakesAfter(f: Fine, fileSize: int, more: seq<Event>) {
    f.st.reader.Waiting? && Run(f, fileSize, more).st == AfterWake(f.st)
  }

  /** The wake-up of the streaming model is within reach of the coroutine and the list. */
  ghost predicate WakesByItself(f: Fine, fileSize: int) {
    exists more :: AllInternal(more) && WakesAfter(f, fileSize, more)
  }

  /**
   The parking protocol refines the single guarded wake-up step of the streaming model: seen through the stream
   alone every fine step is one of its steps or no step at all. And it loses none: from any waiting state the
   coroutine and the list by themselves reach exactly the state of that wake-up if and only if its guard holds.
   */
  lemma FineRefinesCoarse(fileSize: int, events: seq<Event>, e: Event)
    ensures
      var f := Run(START, fileSize, events);
      var f' := Step(f, fileSize, e);
      && (f'.st == f.st || CoarseStep(f.st, f'.st, fileSize, e))
      && (f'.st.reader.Retrying? && f.st.reader.Waiting? ==> CanWake(f.st) && e == Check)
      && (f.st.reader.Waiting? ==> (CanWake(f.st) <==> WakesByItself(f, fileSize)))
  {
    RunKeepsInv(START, fileSize, events);
    var f := Run(START, fileSize, events);
    if CanWake(f.st) {
      WayOutWakes(f, fileSize);
      assert WakesAfter(f, fileSize, WayOut(f.pc));
    }
    if WakesByItself(f, fileSize) {
      var more :| AllInternal(more) && WakesAfter(f, fileSize, more);
      InternalStepsWake(f, fileSize, more);
    }
  }
}

/** The browser client as a function of the messages it receives: `onMessage` and `updateParticipants`. */
module ClientSpec {
  import opened Messages
  import opened Participants

  /**
   `rendered`: the participants list is no longer empty. `thrown`: some handler so far has ended in the TypeError
   that `updateParticipants` raises when it runs off the end of the sorted peers.
   */
  datatype Client = Client(
    self: int, rendered: bool, view: PeersMap, children: seq<Element>, next: nat, thrown: bool)

  const BLANK := Client(0, false, [], [], 0, false)

  /** An update of the panel would throw: the kept elements are not in the order of the sorted peers. */
  predicate Fails(c: Client) {
    c.rendered && !IsSubsequence(Ids(Kept(c.children, IdSet(c.view))), Render(c.view, c.self))
  }

  /** What the update leaves, whether it throws or not. */
  function UpdateParticipants(c: Client): Client {
    var others := Render(c.view, c.self);
    if !c.rendered then c.(rendered := true, children := Created(others, c.next), next := c.next + |others|)
    else
      var children := Merge(c.children, others, IdSet(c.view), c.next);
      MergeGrows(c.children, others, IdSet(c.view), c.next);
      c.(children := children, next := c.next + |children| - |c.children|, thrown := c.thrown || Fails(c))
  }

  function OnEntry(c: Client, e: Entry): Client {
    match e
    case Joined(id, name) => UpdateParticipants(c.(view := Put(c.view, id, name)))
    case Left(id) => UpdateParticipants(c.(view := Remove(c.view, id)))
    case _ => c
  }

  predicate Throws(c: Client, e: Entry) {
    match e
    case Joined(id, name) => Fails(c.(view := Put(c.view, id, name)))
    case Left(id) => Fails(c.(view := Remove(c.view, id)))
    case _ => false
  }

  /** The history is replayed up to the first entry that throws. */
  function OnEntries(c: Client, es: seq<Entry>): Client
    decreases |es|
  {
    if es == [] then c
    else if Throws(c, es[0]) then OnEntry(c, es[0])
    else OnEntries(OnEntry(c, es[0]), es[1..])
  }

  /** An absent or empty history is replaced by one's own arrival. */
  function Replayed(m: Message): seq<Entry>
    requires m.Info?
  {
    if m.history == [] then [Joined(m.peerId, m.peerName)] else m.history
  }

  function AtSnapshot(c: Client, m: Message): Client
    requires m.Info?
  {
    c.(self := m.peerId, view := PutAll(c.view, m.peers))
  }

  function OnMessage(c: Client, m: Message): Client {
    match m
    case Info(_, _, _, _) =>
      var start := AtSnapshot(c, m);
      if Fails(start) then UpdateParticipants(start) else OnEntries(UpdateParticipants(start), Replayed(m))
    case Broadcast(e) => OnEntry(c, e)
    case RequestChunk(_, _, _, _, _) => c
    case ApiError(_) => c
    case Ping => c
  }

  function OnMessages(c: Client, ms: seq<Message>): Client
    decreases |ms|
  {
    if ms == [] then c else OnMessages(OnMessage(c, ms[0]), ms[1..])
  }

  /** `socket.onclose` */
  function OnClose(c: Client): Client {
    UpdateParticipants(c.(view := []))
  }

  function WithoutDying(children: seq<Element>, handle: nat): seq<Element> {
    if children == [] then []
    else if children[0].handle == handle && children[0].dying then children[1..]
    else [children[0]] + WithoutDying(children[1..], handle)
  }

  /** The end of the removal transition of a departed participant's element. */
  function FinishRemoval(c: Client, handle: nat): Client {
    c.(children := WithoutDying(c.children, handle))
  }

  // ---- What the panel shows ----

  /**
   The panel agrees with the map: its live elements show what a rendering from scratch would show, and an
   element is fading out exactly if its peer is gone.
   */
  ghost predicate Shown(c: Client) {
    && !c.thrown
    && UniqueIds(c.view)
    && (forall e :: e in c.children ==> e.handle < c.next)
    && (forall e :: e in c.children ==> (e.dying <==> e.id !in IdSet(c.view)))
    && (c.rendered ==> Ids(Kept(c.children, IdSet(c.view))) == Render(c.view, c.self))
    && (!c.rendered ==> c.children == [])
  }

  lemma RenderPresent(m: PeersMap, self: int)
    requires UniqueIds(m)
    ensures forall x :: x in Render(m, self) <==> x in IdSet(m) && x != self
  {
    SortIds(m);
    OthersIds(StableSort(m), self);
  }

  lemma FirstRendering(c: Client, self: int, m: PeersMap)
    requires Shown(c) && !c.rendered && UniqueIds(m)
    ensures Shown(UpdateParticipants(c.(self := self, view := m)))
    ensures UpdateParticipants(c.(self := self, view := m)).rendered
  {
    RenderPresent(m, self);
    CreatedFacts(Render(m, self), c.next, IdSet(m), c.next);
  }

  predicate NewOnesPresent(c: Client, next: nat) {
    forall e :: e in c.children && next <= e.handle ==> e.id in IdSet(c.view)
  }

  lemma {:induction false} MarkHandles(children: seq<Element>, present: set<int>, floor: nat)
    requires forall e :: e in children ==> e.handle < floor
    ensures forall e :: e in Mark(children, present) ==> e.handle < floor
  {
    if children == [] {
    } else {
      MarkHandles(children[1..], present, floor);
    }
  }

  /** New elements get the handles from `next` on, one each. */
  lemma {:induction false} MergeHandles(
    children: seq<Element>, others: seq<int>, present: set<int>, next: nat, floor: nat)
    requires floor <= next && (forall e :: e in children ==> e.handle < floor)
    ensures |Merge(children, others, present, next)| >= |children|
    ensures forall e :: e in Merge(children, others, present, next) ==>
      e.handle < next + |Merge(children, others, present, next)| - |children|
    decreases |children| + |others|
  {
    MergeGrows(children, others, present, next);
    if children == [] {
      CreatedFacts(others, next, (set x | x in others), next);
    } else if children[0].id !in present {
      MergeHandles(children[1..], others, present, next, floor);
    } else if others == [] {
      MarkHandles(children, present, floor);
    } else if others[0] == children[0].id {
      MergeHandles(children[1..], others[1..], present, next, floor);
    } else {
      MergeHandles(children, others[1..], present, next + 1, floor);
    }
  }

  /**
   The incremental update equals the full re-render: with a compatible new map in which no fading element's
   peer is back, `updateParticipants` succeeds, and apart from elements created just now the list is the old
   one with the departed peers' elements marked.
   */
  lemma UpdateShows(c: Client, m: PeersMap)
    requires Shown(c) && c.rendered && UniqueIds(m) && Compatible(c.view, m)
    requires forall e :: e in c.children && e.id in IdSet(m) ==> e.id in IdSet(c.view)
    ensures
      var c' := UpdateParticipants(c.(view := m));
      && Shown(c') && c'.rendered && c'.view == m && c'.self == c.self
      && Ids(Kept(c'.children, IdSet(m))) == Render(m, c.self)
      && OldOnes(c'.children, c.next) == Mark(c.children, IdSet(m))
      && NewOnesPresent(c', c.next)
  {
    var present := IdSet(m);
    CompatibleMerges(c.children, c.view, m, c.self);
    RenderPresent(m, c.self);
    var others := Render(m, c.self);
    MergeFacts(c.children, others, present, c.next, c.next);
    MergeElements(c.children, others, present, c.next, c.next);
    MergeHandles(c.children, others, present, c.next, c.next);
  }

  /**
   What an update that throws leaves: all old elements in their order, the departed fading, and in front of the one
   it stopped at everybody there is to show, in order, in new elements where there was none.
   */
  lemma ThrowLeaves(c: Client)
    requires Fails(c) && UniqueIds(c.view) && forall e :: e in c.children ==> e.handle < c.next
    ensures
      var c' := UpdateParticipants(c);
      && c'.thrown && c'.view == c.view && OldOnes(c'.children, c.next) == Mark(c.children, IdSet(c.view))
      && exists i: nat, j: nat :: StoppedAt(c.children, Render(c.view, c.self), IdSet(c.view), c'.children, i, j)
  {
    RenderPresent(c.view, c.self);
    MergeKeepsOld(c.children, Render(c.view, c.self), IdSet(c.view), c.next, c.next);
    var i, j := HalfDone(c.children, Render(c.view, c.self), IdSet(c.view), c.next);
  }

  // ---- A closed socket, and the end of a transition ----

  lemma {:induction false} AllMarked(children: seq<Element>, next: nat)
    ensures Kept(children, {}) == []
    ensures |Merge(children, [], {}, next)| == |children|
    ensures forall i :: 0 <= i < |children| ==> Merge(children, [], {}, next)[i] == children[i].(dying := true)
    decreases |children|
  {
    if children == [] {
    } else {
      AllMarked(children[1..], next);
    }
  }

  /** A closed socket: nobody is left in the map, every element is fading in its place, and nothing throws. */
  lemma ClosedIsEmpty(c: Client)
    requires !c.rendered ==> c.children == []
    ensures
      var c' := OnClose(c);
      && c'.view == [] && c'.self == c.self && c'.thrown == c.thrown && c'.rendered
      && |c'.children| == |c.children|
      && forall i :: 0 <= i < |c.children| ==> c'.children[i] == c.children[i].(dying := true)
  {
    assert Render([], c.self) == [];
    AllMarked(c.children, c.next);
  }

  predicate Fading(children: seq<Element>, handle: nat, k: nat)
    requires k < |children|
  {
    children[k].handle == handle && children[k].dying
  }

  /** The end of a transition takes the fading element out and leaves all others where they are. */
  lemma {:induction false} FadedGoes(c: Client, handle: nat, k: nat)
    requires k <= |c.children| && forall i :: 0 <= i < k ==> !Fading(c.children, handle, i)
    requires k < |c.children| ==> Fading(c.children, handle, k)
    ensures FinishRemoval(c, handle) == c.(children :=
      if k < |c.children| then c.children[..k] + c.children[k + 1..] else c.children)
    decreases k
  {
    if k > 0 {
      assert !Fading(c.children, handle, 0);
      var rest := c.children[1..];
      forall i | 0 <= i < k - 1 ensures !Fading(rest, handle, i) {
        assert Fading(rest, handle, i) <==> Fading(c.children, handle, i + 1);
      }
      FadedGoes(c.(children := rest), handle, k - 1);
      if k < |c.children| {
        assert [c.children[0]] + (rest[..k - 1] + rest[k..]) == c.children[..k] + c.children[k + 1..];
      } else {
        assert [c.children[0]] + rest == c.children;
      }
    } else if c.children == [] {
      assert FinishRemoval(c, handle).children == [];
    } else {
      assert c.children[..0] + c.children[1..] == c.children[1..];
    }
  }

  lemma {:induction false} RemovalKeepsShown(children: seq<Element>, handle: nat, present: set<int>)
    requires forall e :: e in children ==> (e.dying <==> e.id !in present)
    ensures Kept(WithoutDying(children, handle), present) == Kept(children, present)
    ensures forall e :: e in WithoutDying(children, handle) ==> e in children
  {
    if children == [] {
    } else {
      assert children[0] in children;
      RemovalKeepsShown(children[1..], handle, present);
    }
  }

  // ---- Runs of single changes ----

  datatype Change = Insert(id: int, name: string) | Again(id: int) | Delete(id: int) | Faded(handle: nat)

  /** A fresh id is one that neither the map nor a fading element carries. */
  predicate Admissible(c: Client, ch: Change) {
    match ch
    case Insert(id, _) => id !in IdSet(c.view) && forall e :: e in c.children ==> e.id != id
    case Again(id) => id in IdSet(c.view)
    case _ => true
  }

  function NameOf(m: PeersMap, id: int): string {
    if id in ToMap(m) then ToMap(m)[id] else ""
  }

  function Apply(c: Client, ch: Change): Client {
    match ch
    case Insert(id, name) => OnEntry(c, Joined(id, name))
    case Again(id) => OnEntry(c, Joined(id, NameOf(c.view, id)))
    case Delete(id) => OnEntry(c, Left(id))
    case Faded(handle) => FinishRemoval(c, handle)
  }

  function ApplyAll(c: Client, changes: seq<Change>): Client
    decreases |changes|
  {
    if changes == [] then c else ApplyAll(Apply(c, changes[0]), changes[1..])
  }

  ghost predicate AllAdmissible(c: Client, changes: seq<Change>)
    decreases |changes|
  {
    changes == [] || (Admissible(c, changes[0]) && AllAdmissible(Apply(c, changes[0]), changes[1..]))
  }

  lemma JoinedShows(c: Client, id: int, name: string)
    requires Shown(c) && c.rendered
    requires id in IdSet(c.view) ==> ToMap(c.view).Keys == IdSet(c.view) && ToMap(c.view)[id] == name
    requires id !in IdSet(c.view) ==> forall e :: e in c.children ==> e.id != id
    ensures
      var c' := OnEntry(c, Joined(id, name));
      && Shown(c') && c'.rendered && c'.self == c.self && c'.view == Put(c.view, id, name)
      && OldOnes(c'.children, c.next) == Mark(c.children, IdSet(c'.view))
      && NewOnesPresent(c', c.next)
  {
    var m := Put(c.view, id, name);
    PutFacts(c.view, id, name);
    if id in IdSet(c.view) {
      PutSame(c.view, id, name);
      CompatibleRefl(c.view);
    } else {
      CompatiblePut(c.view, id, name);
    }
    UpdateShows(c, m);
  }

  lemma LeftShows(c: Client, id: int)
    requires Shown(c) && c.rendered
    ensures
      var c' := OnEntry(c, Left(id));
      && Shown(c') && c'.rendered && c'.self == c.self && c'.view == Remove(c.view, id)
      && IdSet(c'.view) == IdSet(c.view) - {id}
      && OldOnes(c'.children, c.next) == Mark(c.children, IdSet(c'.view))
      && NewOnesPresent(c', c.next)
  {
    KeepFacts(c.view, IdSet(c.view) - {id});
    CompatibleKeep(c.view, IdSet(c.view) - {id});
    UpdateShows(c, Remove(c.view, id));
  }

  lemma ApplyShows(c: Client, ch: Change)
    requires Shown(c) && c.rendered && Admissible(c, ch)
    ensures Shown(Apply(c, ch)) && Apply(c, ch).rendered && Apply(c, ch).self == c.self
  {
    match ch
    case Insert(id, name) => JoinedShows(c, id, name);
    case Again(id) =>
      ToMapKeys(c.view);
      JoinedShows(c, id, NameOf(c.view, id));
    case Delete(id) => LeftShows(c, id);
    case Faded(handle) => RemovalKeepsShown(c.children, handle, IdSet(c.view));
  }

  // ---- Who is there all the time ----

  /** The peer is in the map now and after each of the changes. */
  predicate Remains(c: Client, changes: seq<Change>, id: int)
    decreases |changes|
  {
    id in IdSet(c.view) && (changes == [] || Remains(Apply(c, changes[0]), changes[1..], id))
  }

  lemma {:induction false} MarkKeeps(children: seq<Element>, present: set<int>)
    ensures forall e :: e in children && e.id in present ==> e in Mark(children, present)
  {
    if children == [] {
    } else {
      assert children == [children[0]] + children[1..];
      MarkKeeps(children[1..], present);
    }
  }

  lemma {:induction false} OldOnesStay(children: seq<Element>, next: nat)
    ensures forall e :: e in OldOnes(children, next) ==> e in children
  {
    if children == [] {
    } else {
      assert children == [children[0]] + children[1..];
      OldOnesStay(children[1..], next);
    }
  }

  lemma {:induction false} OnlyDyingGo(children: seq<Element>, handle: nat)
    ensures forall e :: e in children && !e.dying ==> e in WithoutDying(children, handle)
  {
    if children == [] {
    } else {
      assert children == [children[0]] + children[1..];
      OnlyDyingGo(children[1..], handle);
    }
  }

  lemma SurvivesUpdate(c: Client, c': Client, e: Element)
    requires e in c.children && e.id in IdSet(c'.view)
    requires OldOnes(c'.children, c.next) == Mark(c.children, IdSet(c'.view))
    ensures e in c'.children
  {
    MarkKeeps(c.children, IdSet(c'.view));
    OldOnesStay(c'.children, c.next);
  }

  lemma ElementSurvives(c: Client, ch: Change, e: Element)
    requires Shown(c) && c.rendered && Admissible(c, ch)
    requires e in c.children && e.id in IdSet(c.view) && e.id in IdSet(Apply(c, ch).view)
    ensures e in Apply(c, ch).children
  {
    match ch
    case Insert(id, name) =>
      JoinedShows(c, id, name);
      SurvivesUpdate(c, Apply(c, ch), e);
    case Again(id) =>
      ToMapKeys(c.view);
      JoinedShows(c, id, NameOf(c.view, id));
      SurvivesUpdate(c, Apply(c, ch), e);
    case Delete(id) =>
      LeftShows(c, id);
      SurvivesUpdate(c, Apply(c, ch), e);
    case Faded(handle) => OnlyDyingGo(c.children, handle);
  }

  /**
   After any run of fresh inserts, same-name re-sets, deletes and finished fade-outs, the incremental panel
   has never run off the end and shows exactly the stable sort of `peersMap` without oneself, and everybody who
   was there all the time still has the very element they had at the start.
   */
  lemma {:induction false} MergeEqualsRender(c: Client, changes: seq<Change>)
    requires Shown(c) && c.rendered && AllAdmissible(c, changes)
    ensures
      var c' := ApplyAll(c, changes);
      && !c'.thrown
      && Ids(Kept(c'.children, IdSet(c'.view))) == Render(c'.view, c.self)
      && (forall e :: e in c'.children ==> (e.dying <==> e.id !in IdSet(c'.view)))
      && (forall e :: e in c.children && Remains(c, changes, e.id) ==> e in c'.children)
    decreases |changes|
  {
    if changes == [] {
    } else {
      ApplyShows(c, changes[0]);
      forall e | e in c.children && Remains(c, changes, e.id) ensures e in Apply(c, changes[0]).children {
        assert Remains(Apply(c, changes[0]), changes[1..], e.id);
        ElementSurvives(c, changes[0], e);
      }
      MergeEqualsRender(Apply(c, changes[0]), changes[1..]);
    }
  }
}

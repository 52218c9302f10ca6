/**
 The chat page as an object: its globals, and the functions that change them in place. The participants panel
 is the list of child elements of `peers_other`; an element is told apart from others by its handle.
 */
module Browser {
  import opened Basics
  import opened Messages
  import opened Participants
  import opened RoomSpec
  import opened Forwarding
  import opened Effects
  import opened Sharing
  import opened Chunks
  import ClientSpec

  // ---- The panel as a list of elements ----

  ghost predicate Distinct(children: seq<Element>, next: nat) {
    && (forall e :: e in children ==> e.handle < next)
    && (forall i, j :: 0 <= i < j < |children| ==> children[i].handle != children[j].handle)
  }

  /** `list.insertBefore(e, child)`, where `handle` is the child's identity. */
  function InsertedBefore(children: seq<Element>, e: Element, handle: nat): seq<Element> {
    if children == [] then [e]
    else if children[0].handle == handle then [e] + children
    else [children[0]] + InsertedBefore(children[1..], e, handle)
  }

  lemma {:induction false} InsertedInPlace(done: seq<Element>, e: Element, rest: seq<Element>)
    requires rest != [] && forall d :: d in done ==> d.handle != rest[0].handle
    ensures InsertedBefore(done + rest, e, rest[0].handle) == done + [e] + rest
  {
    if done == [] {
      assert done + rest == rest;
      assert done + [e] + rest == [e] + rest;
    } else {
      assert (done + rest)[1..] == done[1..] + rest;
      InsertedInPlace(done[1..], e, rest);
    }
  }

  lemma DistinctParts(done: seq<Element>, rest: seq<Element>, next: nat)
    requires Distinct(done + rest, next) && rest != []
    ensures forall d :: d in done ==> d.handle != rest[0].handle
  {
    forall d | d in done ensures d.handle != rest[0].handle {
      var i :| 0 <= i < |done| && done[i] == d;
      assert (done + rest)[i] == d && (done + rest)[|done|] == rest[0];
    }
  }

  lemma DistinctInsert(done: seq<Element>, e: Element, rest: seq<Element>, next: nat)
    requires Distinct(done + rest, next) && e.handle == next
    ensures Distinct(done + [e] + rest, next + 1)
  {
    var before, all := done + rest, done + [e] + rest;
    forall i | 0 <= i < |before| ensures before[i].handle < next && all[if i < |done| then i else i + 1] == before[i] {
      assert before[i] in before;
    }
    forall i, j | 0 <= i < j < |all| ensures all[i].handle != all[j].handle {
      if i != |done| && j != |done| {
        assert before[if i < |done| then i else i - 1].handle != before[if j < |done| then j else j - 1].handle;
      }
    }
  }

  // ---- How the merge goes on from the middle ----

  /** Elements of departed peers are marked already. */
  ghost predicate Marked(children: seq<Element>, present: set<int>) {
    forall e :: e in children && e.id !in present ==> e.dying
  }

  lemma {:induction false} MarkFacts(children: seq<Element>, present: set<int>, next: nat)
    requires Distinct(children, next)
    ensures Kept(Mark(children, present), present) == Kept(children, present)
    ensures Marked(Mark(children, present), present)
    ensures Distinct(Mark(children, present), next)
    ensures |Mark(children, present)| == |children|
    ensures forall i :: 0 <= i < |children| ==> Mark(children, present)[i].handle == children[i].handle
  {
    if children == [] {
    } else {
      assert children == [children[0]] + children[1..];
      MarkFacts(children[1..], present, next);
    }
  }

  lemma {:induction false} MarkTwice(children: seq<Element>, present: set<int>)
    ensures Mark(Mark(children, present), present) == Mark(children, present)
  {
    if children == [] {
    } else {
      MarkTwice(children[1..], present);
    }
  }

  lemma {:induction false} MergeOfMarked(children: seq<Element>, others: seq<int>, present: set<int>, next: nat)
    ensures Merge(Mark(children, present), others, present, next) == Merge(children, others, present, next)
    decreases |children| + |others|
  {
    if children == [] {
    } else if children[0].id !in present {
      MergeOfMarked(children[1..], others, present, next);
    } else if others == [] {
      MarkTwice(children, present);
    } else if others[0] == children[0].id {
      MergeOfMarked(children[1..], others[1..], present, next);
    } else {
      MergeOfMarked(children, others[1..], present, next + 1);
    }
  }

  lemma {:induction false} MarkOfMarked(rest: seq<Element>, present: set<int>)
    requires Marked(rest, present)
    ensures Mark(rest, present) == rest
  {
    if rest == [] {
    } else {
      assert rest[0] in rest && (rest[0].dying ==> rest[0].(dying := true) == rest[0]);
      MarkOfMarked(rest[1..], present);
    }
  }

  /** Without the kept child's peer all that are left go in front of it. */
  lemma {:induction false} MergeStops(rest: seq<Element>, others: seq<int>, present: set<int>, next: nat)
    requires Marked(rest, present) && rest != [] && rest[0].id in present && rest[0].id !in others
    ensures Merge(rest, others, present, next) == Created(others, next) + rest
    decreases |others|
  {
    if others == [] {
      MarkOfMarked(rest, present);
    } else {
      MergeStops(rest, others[1..], present, next + 1);
    }
  }

  /** The merge leaves the departed in front of the next kept child where they are. */
  lemma {:induction false} SkipDeparted(rest: seq<Element>, others: seq<int>, present: set<int>, next: nat)
    returns (dead: seq<Element>, tail: seq<Element>)
    requires Marked(rest, present) && Kept(rest, present) != []
    ensures rest == dead + tail && tail != [] && tail[0] == Kept(rest, present)[0] && tail[0].id in present
    ensures Kept(tail[1..], present) == Kept(rest, present)[1..] && Marked(tail, present)
    ensures Merge(rest, others, present, next) == dead + Merge(tail, others, present, next)
    decreases |rest|
  {
    if rest[0].id in present {
      dead, tail := [], rest;
    } else {
      assert rest[0] in rest;
      dead, tail := SkipDeparted(rest[1..], others, present, next);
      assert [rest[0]] + (dead + Merge(tail, others, present, next)) ==
             ([rest[0]] + dead) + Merge(tail, others, present, next);
      dead := [rest[0]] + dead;
    }
  }

  lemma {:induction false} MergeTail(rest: seq<Element>, others: seq<int>, present: set<int>, next: nat)
    requires Marked(rest, present) && Kept(rest, present) == []
    ensures Merge(rest, others, present, next) == rest + Created(others, next)
  {
    if rest == [] {
      assert rest + Created(others, next) == Created(others, next);
    } else {
      assert rest[0] in rest && rest[0] == rest[0].(dying := true);
      MergeTail(rest[1..], others, present, next);
      assert [rest[0]] + (rest[1..] + Created(others, next)) == rest + Created(others, next);
    }
  }

  lemma MergeEnd(done: seq<Element>, rest: seq<Element>, others: seq<int>, present: set<int>, next: nat)
    requires Marked(rest, present) && Kept(rest, present) == []
    ensures done + Merge(rest, others, present, next) == (done + rest) + Created(others, next)
  {
    MergeTail(rest, others, present, next);
  }

  lemma OthersFrom(peers: seq<PeerEntry>, i: nat, self: int)
    requires i < |peers|
    ensures peers[i].id == self ==> Others(peers[i..], self) == Others(peers[i + 1..], self)
    ensures peers[i].id != self ==> Others(peers[i..], self) == [peers[i].id] + Others(peers[i + 1..], self)
  {
    assert peers[i..][1..] == peers[i + 1..];
  }

  lemma IdsFrom(s: seq<Element>, i: nat)
    requires i < |s|
    ensures Ids(s[i..]) == [s[i].id] + Ids(s[i + 1..])
  {
    assert s[i..][1..] == s[i + 1..];
  }

  lemma {:induction false} MarkAppend(children: seq<Element>, e: Element, present: set<int>)
    ensures Mark(children + [e], present) == Mark(children, present) + Mark([e], present)
    ensures Kept(children + [e], present) == Kept(children, present) + Kept([e], present)
  {
    if children == [] {
      assert children + [e] == [e];
    } else {
      assert (children + [e])[1..] == children[1..] + [e];
      MarkAppend(children[1..], e, present);
    }
  }

  lemma {:induction false} CreatedAppend(ids: seq<int>, id: int, next: nat)
    ensures Created(ids + [id], next) == Created(ids, next) + [Element(next + |ids|, id, false)]
    decreases |ids|
  {
    if ids == [] {
      assert [id][1..] == [];
    } else {
      assert (ids + [id])[1..] == ids[1..] + [id];
      CreatedAppend(ids[1..], id, next + 1);
    }
  }

  lemma {:induction false} CreatedLength(ids: seq<int>, next: nat)
    ensures |Created(ids, next)| == |ids|
    decreases |ids|
  {
    if ids == [] {
    } else {
      CreatedLength(ids[1..], next + 1);
    }
  }

  /** The merge up to and with the next kept child, whose id comes after the `passed` ones. */
  lemma {:induction false} MergePast(rest: seq<Element>, passed: seq<int>, after: seq<int>, present: set<int>,
                                     next: nat)
    requires rest != [] && rest[0].id in present && rest[0].id !in passed
    ensures Merge(rest, passed + [rest[0].id] + after, present, next) ==
      Created(passed, next) + [rest[0]] + Merge(rest[1..], after, present, next + |passed|)
    decreases |passed|
  {
    var others := passed + [rest[0].id] + after;
    if passed == [] {
      assert others[1..] == after;
    } else {
      assert others[0] == passed[0] && others[1..] == passed[1..] + [rest[0].id] + after;
      MergePast(rest, passed[1..], after, present, next + 1);
    }
  }

  lemma {:induction false} SubsequencePast(x: int, k: seq<int>, passed: seq<int>, after: seq<int>)
    requires x !in passed
    ensures IsSubsequence([x] + k, passed + [x] + after) == IsSubsequence(k, after)
    decreases |passed|
  {
    var others := passed + [x] + after;
    assert ([x] + k)[1..] == k;
    if passed == [] {
      assert others[1..] == after;
    } else {
      assert others[0] == passed[0] && others[1..] == passed[1..] + [x] + after;
      SubsequencePast(x, k, passed[1..], after);
    }
  }

  lemma {:induction false} SubsequenceNeeds(x: int, k: seq<int>, others: seq<int>)
    requires x !in others
    ensures !IsSubsequence([x] + k, others)
    decreases |others|
  {
    if others == [] {
    } else {
      SubsequenceNeeds(x, k, others[1..]);
    }
  }

  lemma StopTurn(done: seq<Element>, dead: seq<Element>, tail: seq<Element>, others: seq<int>, present: set<int>,
                 next: nat)
    requires Marked(tail, present) && tail != [] && tail[0].id in present && tail[0].id !in others
    ensures done + dead + Created(others, next) + tail == done + (dead + Merge(tail, others, present, next))
  {
    MergeStops(tail, others, present, next);
    assert done + (dead + (Created(others, next) + tail)) == (done + dead) + Created(others, next) + tail;
  }

  lemma MergeTurn(done: seq<Element>, dead: seq<Element>, tail: seq<Element>, passed: seq<int>, after: seq<int>,
                  present: set<int>, next: nat)
    requires tail != [] && tail[0].id in present && tail[0].id !in passed
    ensures
      var others := passed + [tail[0].id] + after;
      done + (dead + Merge(tail, others, present, next)) ==
      (done + dead + Created(passed, next) + [tail[0]]) + Merge(tail[1..], after, present, next + |passed|)
  {
    MergePast(tail, passed, after, present, next);
    Regroup(done, dead, Created(passed, next) + [tail[0]], Merge(tail[1..], after, present, next + |passed|));
  }

  lemma Regroup(a: seq<Element>, b: seq<Element>, c: seq<Element>, d: seq<Element>)
    ensures a + (b + (c + d)) == (a + b + c) + d
  {
  }

  /** The list up to the kept child, and the rest. */
  lemma TurnParts(front: seq<Element>, tail: seq<Element>, present: set<int>)
    requires tail != [] && Marked(tail, present)
    ensures front + tail == (front + [tail[0]]) + tail[1..] && Marked(tail[1..], present)
  {
    assert tail == [tail[0]] + tail[1..];
  }

  lemma OnePassed(passed: seq<int>, id: int, after: seq<int>)
    ensures passed + ([id] + after) == passed + [id] + after
  {
  }

  // ---- What the page sends about files ----

  datatype LocalFile = LocalFile(name: string, content: Bytes)

  function ChunkReply(self: int, serverFileId: int, subscriberId: int, data: Bytes): RawMessage {
    RawMessage(Some(CODE_FILE_CHUNK_DATA), Some(self), None, None, None,
               Some([Some(RawFile(None, Some(serverFileId), None, None, Some(subscriberId), Some(data)))]))
  }

  /** The answers to one message: to a request for a known file, the piece of it that was asked for. */
  function Replies(self: int, filesMap: map<int, Bytes>, m: Message): seq<RawMessage> {
    if m.RequestChunk? && m.clientFileId in filesMap then
      [ChunkReply(self, m.serverFileId, m.subscriberId, Piece(filesMap[m.clientFileId], m.position, m.size))]
    else []
  }

  /** File `i` of the list is announced under the id `first + i`, with its name and real size. */
  function Announced(files: seq<LocalFile>, first: int): (list: seq<Option<RawFile>>)
    ensures |list| == |files|
    ensures forall i :: 0 <= i < |files| ==>
      list[i] == Some(RawFile(Some(first + i), None, Some(files[i].name), Some(|files[i].content|), None, None))
  {
    if files == [] then []
    else
      var i := |files| - 1;
      Announced(files[..i], first) +
      [Some(RawFile(Some(first + i), None, Some(files[i].name), Some(|files[i].content|), None, None))]
  }

  function Announcement(files: seq<LocalFile>, first: int): RawMessage {
    RawMessage(Some(CODE_FILE_SHARE), None, None, None, None, Some(Announced(files, first)))
  }

  /**
   The server hands the page's answer to exactly the subscriber that asked, with the bytes of the file it named in
   its own numbering, from the position it asked for, although the answer carries no position; whatever other
   files the page has. And it refuses the answer from any peer but the file's host.
   */
  lemma AnswerGoesBack(self: int, filesMap: map<int, Bytes>, m: Message, index: map<int, int>, sender: int)
    requires m.RequestChunk? && m.serverFileId in index && m.clientFileId in filesMap
    ensures
      var content, replies := filesMap[m.clientFileId], Replies(self, filesMap, m);
      var size := if |content| <= m.position then 0 else Min(m.size, |content| - m.position);
      && |replies| == 1 && replies[0].code == Some(CODE_FILE_CHUNK_DATA) && Acceptable(replies[0])
      && match Verdict(index, sender, replies[0])
         case Forward(file, subscriber, data) =>
           && index[m.serverFileId] == sender && file == m.serverFileId && subscriber == m.subscriberId
           && |data| == size && forall i :: 0 <= i < size ==> data[i] == content[m.position + i]
         case Refused(text) => index[m.serverFileId] != sender && text == "Wrong file host."
         case Ignored => false
  {
    PieceFacts(filesMap[m.clientFileId], m.position, m.size);
  }

  /** A request for a file the page does not have gets no answer, and no other message gets one either. */
  lemma NothingElseIsAnswered(self: int, filesMap: map<int, Bytes>, m: Message)
    requires m.RequestChunk? ==> m.clientFileId !in filesMap
    ensures Replies(self, filesMap, m) == []
  {
  }

  /** What is to be listed of the page's files: consecutive ids, names and real sizes. */
  function ListedLocally(files: seq<LocalFile>, first: int): seq<SharedFile> {
    seq(|files|, i requires 0 <= i < |files| => SharedFile(first + i, Some(files[i].name), |files[i].content|))
  }

  /**
   The page's announcement is accepted by the server as it is: everybody in the room gets the list under the
   page's own identity, each file with its name and real size, and every file is in the index as the page's.
   */
  lemma AnnouncedIsShared(r: RoomValue, host: int, files: seq<LocalFile>, first: int, now: int)
    requires host in r.peers
    ensures Acceptable(Announcement(files, first))
    ensures Validate(Announced(files, first)) == None <==> files != []
    ensures
      var r' := Handle(r, host, Announcement(files, first), now);
      var e := Files(host, r.peers[host].name, now, ListedLocally(files, r.fileIdCounter));
      AllGot(r, r', Broadcast(e)) && Newest(r, r', e) && FilesAdded(r, r', host, |files|)
  {
    var announced := Announced(files, first);
    FilesReachAll(r, host, Announcement(files, first), now);
    assert Listed(announced, r.fileIdCounter) == ListedLocally(files, r.fileIdCounter);
    ValidatorNamesFirstFault(announced);
    assert announced == [] <==> |files| == 0;
  }

  class Page {
    var self: int
    var peersMap: PeersMap
    var rendered: bool
    var children: seq<Element>
    var next: nat
    var thrown: bool
    var filesMap: map<int, Bytes>
    var filesIdCounter: int
    var sent: seq<RawMessage>

    function View(): ClientSpec.Client
      reads this
    {
      ClientSpec.Client(self, rendered, peersMap, children, next, thrown)
    }

    /** No two elements are the same. */
    ghost predicate Valid()
      reads this
    {
      Distinct(children, next)
    }

    constructor ()
      ensures Valid() && View() == ClientSpec.BLANK && filesMap == map[] && filesIdCounter == 1 && sent == []
    {
      self := 0;
      peersMap := [];
      rendered := false;
      children := [];
      next := 0;
      thrown := false;
      filesMap := map[];
      filesIdCounter := 1;
      sent := [];
    }

    method CreateParticipantElement(peerId: int) returns (e: Element)
      modifies this`next
      ensures e == Element(old(next), peerId, false) && next == old(next) + 1
    {
      e := Element(next, peerId, false);
      next := next + 1;
    }

    method AppendOne(peerId: int)
      requires Valid()
      modifies this`children, this`next
      ensures Valid() && children == old(children) + [Element(old(next), peerId, false)] && next == old(next) + 1
    {
      var newChild := CreateParticipantElement(peerId);
      DistinctInsert(children, newChild, [], newChild.handle);
      assert children + [newChild] + [] == children + [newChild] && children + [] == children;
      children := children + [newChild];
    }

    /** One element at the end of the list for every peer from `start` on but oneself. */
    method AppendPeers(peers: seq<PeerEntry>, start: nat)
      requires Valid() && start <= |peers|
      modifies this`children, this`next
      ensures Valid() && children == old(children) + Created(Others(peers[start..], self), old(next))
      ensures next == old(next) + |Others(peers[start..], self)|
    {
      ghost var target := old(children) + Created(Others(peers[start..], self), old(next));
      for index := start to |peers|
        invariant Valid()
        invariant children + Created(Others(peers[index..], self), next) == target
        invariant next + |Others(peers[index..], self)| == old(next) + |Others(peers[start..], self)|
      {
        OthersFrom(peers, index, self);
        var peer := peers[index];
        if peer.id != self {
          ghost var more := Created(Others(peers[index + 1..], self), next + 1);
          ghost var before, e := children, Element(next, peer.id, false);
          AppendOne(peer.id);
          assert before + ([e] + more) == (before + [e]) + more;
        }
      }
    }

    method CreateParticipantsList()
      requires Valid() && children == []
      modifies this`children, this`next, this`rendered
      ensures Valid() && rendered
      ensures children == Created(Render(peersMap, self), old(next)) && next == old(next) + |Render(peersMap, self)|
    {
      var peers := StableSort(peersMap);
      assert peers[0..] == peers;
      AppendPeers(peers, 0);
      rendered := true;
    }

    /** One child's turn: it starts to fade out, or is collected. */
    method RemoveIfDeparted(index: nat) returns (left: seq<Element>)
      requires index < |children|
      modifies this`children
      ensures |children| == |old(children)|
      ensures children[..index] == old(children[..index]) && children[index + 1..] == old(children[index + 1..])
      ensures [children[index]] == Mark([old(children[index])], IdSet(peersMap))
      ensures left == Kept([old(children[index])], IdSet(peersMap))
    {
      var child := children[index];
      left := [];
      if child.id !in IdSet(peersMap) {
        children := children[index := child.(dying := true)];
      } else {
        left := [child];
      }
    }

    /** Departed peers' elements start to fade out, the others are collected. */
    method RemoveDeparted() returns (childrenLeft: seq<Element>)
      requires Valid()
      modifies this`children
      ensures Valid() && children == Mark(old(children), IdSet(peersMap))
      ensures childrenLeft == Kept(old(children), IdSet(peersMap))
    {
      ghost var present := IdSet(peersMap);
      ghost var before := children;
      childrenLeft := [];
      assert before[0..] == before && before[..0] == [];
      for index := 0 to |children|
        invariant |children| == |before| && children[index..] == before[index..]
        invariant children[..index] == Mark(before[..index], present)
        invariant childrenLeft == Kept(before[..index], present)
      {
        MarkAppend(before[..index], before[index], present);
        assert before[..index + 1] == before[..index] + [before[index]];
        assert children[index] == before[index] by {
          assert children[index..][0] == before[index..][0];
        }
        assert children[index + 1..] == before[index + 1..] by {
          assert children[index..][1..] == before[index..][1..];
        }
        var left := RemoveIfDeparted(index);
        childrenLeft := childrenLeft + left;
        assert children[..index + 1] == children[..index] + [children[index]];
      }
      assert before[..|before|] == before && children[..|children|] == children;
      MarkFacts(before, present, next);
    }

    /**
     New elements go in front of `child` until its own peer comes up: one for each of the `passed` peers.
     `done` and `rest` are the list before and from `child` on. Without its peer the walk runs off the end.
     */
    method InsertBefore(
      peers: seq<PeerEntry>, start: nat, child: Element, ghost done: seq<Element>, ghost rest: seq<Element>)
      returns (threw: bool, peerIndex: nat, ghost passed: seq<int>)
      requires Valid() && start <= |peers|
      requires children == done + rest && rest != [] && rest[0] == child
      modifies this`children, this`next
      ensures Valid() && peerIndex <= |peers|
      ensures children == done + Created(passed, old(next)) + rest && next == old(next) + |passed|
      ensures next - |children| == old(next - |children|) && child.id !in passed
      ensures Others(peers[start..], self) ==
        if threw then passed else passed + [child.id] + Others(peers[peerIndex..], self)
    {
      ghost var others := Others(peers[start..], self);
      peerIndex := start;
      passed := [];
      var inserted := true;
      assert done + [] + rest == done + rest && [] + others == others;
      while inserted
        invariant Valid() && peerIndex <= |peers| && child.id !in passed
        invariant children == done + Created(passed, old(next)) + rest && next == old(next) + |passed|
        invariant inserted ==> others == passed + Others(peers[peerIndex..], self)
        invariant !inserted ==> others == passed + [child.id] + Others(peers[peerIndex..], self)
        decreases |peers| - peerIndex
      {
        if peerIndex == |peers| {
          assert others == passed;
          CreatedLength(passed, old(next));
          threw := true;
          return;
        }
        OthersFrom(peers, peerIndex, self);
        var peer := peers[peerIndex];
        OnePassed(passed, peer.id, Others(peers[peerIndex + 1..], self));
        if peer.id != self {
          if peer.id != child.id {
            InsertOne(peer.id, child.handle, done + Created(passed, old(next)), rest);
            CreatedAppend(passed, peer.id, old(next));
            passed := passed + [peer.id];
          } else {
            inserted := false;
          }
        }
        peerIndex := peerIndex + 1;
      }
      CreatedLength(passed, old(next));
      threw := false;
    }

    method InsertOne(peerId: int, handle: nat, ghost done: seq<Element>, ghost rest: seq<Element>)
      requires Valid() && children == done + rest && rest != [] && rest[0].handle == handle
      modifies this`children, this`next
      ensures Valid() && next == old(next) + 1
      ensures children == done + [Element(old(next), peerId, false)] + rest
    {
      var newChild := CreateParticipantElement(peerId);
      DistinctParts(done, rest, newChild.handle);
      InsertedInPlace(done, newChild, rest);
      DistinctInsert(done, newChild, rest, newChild.handle);
      children := InsertedBefore(children, newChild, handle);
    }

    /** One kept child's turn, in terms of what is left of the list to merge. */
    method PlaceChild(
      peers: seq<PeerEntry>, start: nat, child: Element,
      ghost later: seq<int>, ghost done: seq<Element>, ghost rest: seq<Element>)
      returns (threw: bool, peerIndex: nat, ghost done': seq<Element>, ghost rest': seq<Element>)
      requires Valid() && start <= |peers| && children == done + rest
      requires Marked(rest, IdSet(peersMap)) && Kept(rest, IdSet(peersMap)) != []
      requires child == Kept(rest, IdSet(peersMap))[0]
      modifies this`children, this`next
      ensures Valid() && peerIndex <= |peers| && next - |children| == old(next - |children|)
      ensures threw ==> children == done + Merge(rest, Others(peers[start..], self), IdSet(peersMap), old(next))
      ensures !threw ==>
        && children == done' + rest' && Marked(rest', IdSet(peersMap))
        && Kept(rest', IdSet(peersMap)) == Kept(rest, IdSet(peersMap))[1..]
        && done + Merge(rest, Others(peers[start..], self), IdSet(peersMap), old(next)) ==
           done' + Merge(rest', Others(peers[peerIndex..], self), IdSet(peersMap), next)
      ensures IsSubsequence([child.id] + later, Others(peers[start..], self)) <==>
        (!threw && IsSubsequence(later, Others(peers[peerIndex..], self)))
    {
      ghost var others, before := Others(peers[start..], self), next;
      ghost var dead, tail := SkipDeparted(rest, others, IdSet(peersMap), next);
      assert children == (done + dead) + tail;
      ghost var passed;
      threw, peerIndex, passed := InsertBefore(peers, start, child, done + dead, tail);
      done', rest' := done + dead + Created(passed, before) + [child], tail[1..];
      if threw {
        SubsequenceNeeds(child.id, later, others);
        StopTurn(done, dead, tail, others, IdSet(peersMap), before);
      } else {
        ghost var after := Others(peers[peerIndex..], self);
        assert tail[0] == child && others == passed + [child.id] + after;
        TurnParts(done + dead + Created(passed, before), tail, IdSet(peersMap));
        MergeTurn(done, dead, tail, passed, after, IdSet(peersMap), before);
        SubsequencePast(child.id, later, passed, after);
      }
    }

    /** All kept children in turn; throws exactly if they are not in the order of the sorted peers. */
    method InsertMissing(peers: seq<PeerEntry>, childrenLeft: seq<Element>) returns (threw: bool, peerIndex: nat)
      requires Valid() && Marked(children, IdSet(peersMap))
      requires childrenLeft == Kept(children, IdSet(peersMap))
      modifies this`children, this`next
      ensures Valid() && peerIndex <= |peers| && next - |children| == old(next - |children|)
      ensures threw <==> !IsSubsequence(Ids(childrenLeft), Others(peers, self))
      ensures (if threw then children else children + Created(Others(peers[peerIndex..], self), next)) ==
        Merge(old(children), Others(peers, self), IdSet(peersMap), old(next))
    {
      threw, peerIndex := false, 0;
      ghost var target := Merge(children, Others(peers, self), IdSet(peersMap), next);
      ghost var done: seq<Element>, rest := [], children;
      assert peers[0..] == peers && childrenLeft[0..] == childrenLeft && [] + target == target;
      for index := 0 to |childrenLeft|
        invariant Valid() && !threw && peerIndex <= |peers| && next - |children| == old(next - |children|)
        invariant children == done + rest && Marked(rest, IdSet(peersMap))
        invariant Kept(rest, IdSet(peersMap)) == childrenLeft[index..]
        invariant IsSubsequence(Ids(childrenLeft), Others(peers, self)) <==>
          IsSubsequence(Ids(childrenLeft[index..]), Others(peers[peerIndex..], self))
        invariant target == done + Merge(rest, Others(peers[peerIndex..], self), IdSet(peersMap), next)
      {
        IdsFrom(childrenLeft, index);
        threw, peerIndex, done, rest := PlaceChild(
          peers, peerIndex, childrenLeft[index], Ids(childrenLeft[index + 1..]), done, rest);
        if threw {
          return;
        }
      }
      MergeEnd(done, rest, Others(peers[peerIndex..], self), IdSet(peersMap), next);
    }

    /** The incremental update: throws exactly if the kept children are not in the order of the sorted peers. */
    method MergeParticipants() returns (threw: bool)
      requires Valid()
      modifies this`children, this`next
      ensures Valid() && next - |children| == old(next - |children|)
      ensures threw <==> !IsSubsequence(Ids(Kept(old(children), IdSet(peersMap))), Render(peersMap, self))
      ensures children == Merge(old(children), Render(peersMap, self), IdSet(peersMap), old(next))
    {
      var peers := StableSort(peersMap);
      ghost var before, first := children, next;
      MarkFacts(before, IdSet(peersMap), next);
      MergeOfMarked(before, Others(peers, self), IdSet(peersMap), first);
      var childrenLeft := RemoveDeparted();
      var peerIndex;
      threw, peerIndex := InsertMissing(peers, childrenLeft);
      if !threw {
        CreatedLength(Others(peers[peerIndex..], self), next);
        AppendPeers(peers, peerIndex);
      }
    }

    /** The panel's update computes `ClientSpec.UpdateParticipants`, and throws exactly if that fails. */
    method UpdateParticipants() returns (threw: bool)
      requires Valid() && (!rendered ==> children == [])
      modifies this`children, this`next, this`rendered, this`thrown
      ensures Valid() && rendered && threw == ClientSpec.Fails(old(View()))
      ensures View() == ClientSpec.UpdateParticipants(old(View()))
    {
      threw := false;
      if !rendered {
        CreateParticipantsList();
      } else {
        threw := MergeParticipants();
        thrown := thrown || threw;
      }
    }

    method OnEntry(e: Entry) returns (threw: bool)
      requires Valid() && (!rendered ==> children == [])
      modifies this`peersMap, this`rendered, this`children, this`next, this`thrown
      ensures Valid() && (!rendered ==> children == []) && threw == ClientSpec.Throws(old(View()), e)
      ensures View() == ClientSpec.OnEntry(old(View()), e)
    {
      threw := false;
      match e {
        case Joined(id, name) =>
          peersMap := Put(peersMap, id, name);
          threw := UpdateParticipants();
        case Left(id) =>
          peersMap := Remove(peersMap, id);
          threw := UpdateParticipants();
        case _ =>
      }
    }

    /** One's own arrival stands in for an empty history. */
    method OnInfo(m: Message)
      requires m.Info? && Valid() && (!rendered ==> children == [])
      modifies this`self, this`peersMap, this`rendered, this`children, this`next, this`thrown
      ensures Valid() && (!rendered ==> children == []) && View() == ClientSpec.OnMessage(old(View()), m)
    {
      self := m.peerId;
      ghost var start := peersMap;
      assert m.peers[0..] == m.peers;
      for index := 0 to |m.peers|
        invariant Valid() && (!rendered ==> children == [])
        invariant View() == old(View()).(self := m.peerId, view := peersMap)
        invariant PutAll(start, m.peers) == PutAll(peersMap, m.peers[index..])
      {
        assert m.peers[index..][1..] == m.peers[index + 1..];
        peersMap := Put(peersMap, m.peers[index].id, m.peers[index].name);
      }
      var threw := UpdateParticipants();
      if threw {
        return;
      }
      if |m.history| > 0 {
        OnHistory(m.history);
      } else {
        OnHistory([Joined(m.peerId, m.peerName)]);
      }
    }

    /** The history is handled up to the first entry that throws. */
    method OnHistory(history: seq<Entry>)
      requires Valid() && (!rendered ==> children == [])
      modifies this`peersMap, this`rendered, this`children, this`next, this`thrown
      ensures Valid() && (!rendered ==> children == [])
      ensures View() == ClientSpec.OnEntries(old(View()), history)
    {
      ghost var start := View();
      assert history[0..] == history;
      for index := 0 to |history|
        invariant Valid() && (!rendered ==> children == [])
        invariant ClientSpec.OnEntries(start, history) == ClientSpec.OnEntries(View(), history[index..])
      {
        assert history[index..][1..] == history[index + 1..];
        var threw := OnEntry(history[index]);
        if threw {
          return;
        }
      }
    }

    method OnMessage(m: Message)
      requires Valid() && (!rendered ==> children == [])
      modifies this`self, this`peersMap, this`rendered, this`children, this`next, this`thrown
      modifies this`sent
      ensures Valid() && (!rendered ==> children == []) && View() == ClientSpec.OnMessage(old(View()), m)
      ensures sent == old(sent) + Replies(self, filesMap, m)
    {
      assert sent + [] == sent;
      match m {
        case Info(_, _, _, _) => OnInfo(m);
        case Broadcast(e) => var _ := OnEntry(e);
        case RequestChunk(clientFileId, serverFileId, subscriberId, position, size) =>
          SendFileChunks(clientFileId, serverFileId, subscriberId, position, size);
        case _ =>
      }
    }

    method OnClose()
      requires Valid() && (!rendered ==> children == [])
      modifies this`peersMap, this`rendered, this`children, this`next, this`thrown
      ensures Valid() && View() == ClientSpec.OnClose(old(View()))
    {
      peersMap := [];
      var _ := UpdateParticipants();
    }

    // ---- Files ----

    method NextFileId() returns (id: int)
      modifies this`filesIdCounter
      ensures id == old(filesIdCounter) && filesIdCounter == id + 1
    {
      id := filesIdCounter;
      filesIdCounter := filesIdCounter + 1;
    }

    /** A request for one file is answered once, with the piece asked for; an unknown file gets no answer. */
    method SendFileChunks(clientFileId: int, serverFileId: int, subscriberId: int, position: nat, size: nat)
      modifies this`sent
      ensures
        var request := RequestChunk(clientFileId, serverFileId, subscriberId, position, size);
        sent == old(sent) + Replies(self, filesMap, request)
      ensures clientFileId in filesMap ==>
        sent == old(sent) +
          [ChunkReply(self, serverFileId, subscriberId, Piece(filesMap[clientFileId], position, size))]
      ensures clientFileId !in filesMap ==> sent == old(sent)
    {
      assert sent + [] == sent;
      if clientFileId in filesMap {
        var file := filesMap[clientFileId];
        var posEnd := position + size;
        if posEnd > |file| {
          posEnd := |file|;
        }
        var data := if position <= posEnd then file[position..posEnd] else [];
        sent := sent + [ChunkReply(self, serverFileId, subscriberId, data)];
      }
    }

    /** Every chosen file is kept under a new id, and is announced under that id with its real size. */
    method HandleFiles(files: seq<LocalFile>)
      requires forall id :: id in filesMap ==> id < filesIdCounter
      modifies this`filesMap, this`filesIdCounter, this`sent
      ensures forall id :: id in filesMap ==> id < filesIdCounter
      ensures filesIdCounter == old(filesIdCounter) + |files|
      ensures forall id :: id in filesMap ==> id in old(filesMap) || old(filesIdCounter) <= id
      ensures forall id :: id in old(filesMap) ==> id in filesMap && filesMap[id] == old(filesMap)[id]
      ensures sent == old(sent) + [Announcement(files, old(filesIdCounter))]
      ensures forall id :: old(filesIdCounter) <= id < filesIdCounter ==>
        id in filesMap && filesMap[id] == files[id - old(filesIdCounter)].content
    {
      var filesJson: seq<Option<RawFile>> := [];
      for index := 0 to |files|
        invariant forall id :: id in filesMap ==> id < filesIdCounter
        invariant filesIdCounter == old(filesIdCounter) + index && sent == old(sent)
        invariant forall id :: id in old(filesMap) ==> id in filesMap && filesMap[id] == old(filesMap)[id]
        invariant forall id :: id in filesMap ==> id in old(filesMap) || old(filesIdCounter) <= id
        invariant filesJson == Announced(files[..index], old(filesIdCounter))
        invariant forall id :: old(filesIdCounter) <= id < filesIdCounter ==>
          id in filesMap && filesMap[id] == files[id - old(filesIdCounter)].content
      {
        var file := files[index];
        var fileId := NextFileId();
        filesMap := filesMap[fileId := file.content];
        filesJson := filesJson + [Some(RawFile(Some(fileId), None, Some(file.name), Some(|file.content|), None, None))];
        assert files[..index + 1][..index] == files[..index];
      }
      assert files[..|files|] == files;
      sent := sent + [RawMessage(Some(CODE_FILE_SHARE), None, None, None, None, Some(filesJson))];
    }
  }
}

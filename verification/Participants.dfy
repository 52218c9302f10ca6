/**
 The participants panel of the browser client: the ordered `peersMap`, the stable sort by name, and the
 incremental merge of `updateParticipants` against the full rendering of `createParticipantsList`.
 */
module Participants {
  import opened Messages

  // ---- peersMap: a JavaScript Map keeps insertion order, `set` on a present key keeps its place ----

  type PeersMap = seq<PeerEntry>

  function Put(m: PeersMap, id: int, name: string): PeersMap {
    if m == [] then [PeerEntry(id, name)]
    else if m[0].id == id then [PeerEntry(id, name)] + m[1..]
    else [m[0]] + Put(m[1..], id, name)
  }

  function PutAll(m: PeersMap, peers: seq<PeerEntry>): PeersMap
    decreases |peers|
  {
    if peers == [] then m else PutAll(Put(m, peers[0].id, peers[0].name), peers[1..])
  }

  function Keep(s: seq<PeerEntry>, ids: set<int>): seq<PeerEntry> {
    if s == [] then []
    else if s[0].id in ids then [s[0]] + Keep(s[1..], ids)
    else Keep(s[1..], ids)
  }

  function IdSet(s: seq<PeerEntry>): set<int> {
    if s == [] then {} else {s[0].id} + IdSet(s[1..])
  }

  function Remove(m: PeersMap, id: int): PeersMap {
    Keep(m, IdSet(m) - {id})
  }

  function ToMap(m: PeersMap): map<int, string> {
    if m == [] then map[] else ToMap(m[1..])[m[0].id := m[0].name]
  }

  predicate UniqueIds(m: PeersMap) {
    m == [] || (m[0].id !in IdSet(m[1..]) && UniqueIds(m[1..]))
  }

  lemma {:induction false} IdSetHas(s: seq<PeerEntry>)
    ensures forall p :: p in s ==> p.id in IdSet(s)
  {
    if s == [] {
    } else {
      assert s == [s[0]] + s[1..];
      IdSetHas(s[1..]);
    }
  }

  lemma {:induction false} IdSetAppend(s: seq<PeerEntry>, x: PeerEntry)
    ensures IdSet(s + [x]) == IdSet(s) + {x.id}
    ensures UniqueIds(s + [x]) <==> UniqueIds(s) && x.id !in IdSet(s)
  {
    if s == [] {
      assert s + [x] == [x];
    } else {
      assert (s + [x])[1..] == s[1..] + [x];
      IdSetAppend(s[1..], x);
    }
  }

  lemma {:induction false} ToMapKeys(m: PeersMap)
    ensures ToMap(m).Keys == IdSet(m)
  {
    if m == [] {
    } else {
      ToMapKeys(m[1..]);
    }
  }

  lemma {:induction false} PutFacts(m: PeersMap, id: int, name: string)
    requires UniqueIds(m)
    ensures UniqueIds(Put(m, id, name))
    ensures ToMap(Put(m, id, name)) == ToMap(m)[id := name]
    ensures IdSet(Put(m, id, name)) == IdSet(m) + {id}
  {
    if m == [] || m[0].id == id {
    } else {
      PutFacts(m[1..], id, name);
    }
  }

  /** A key that is present keeps its place, whatever name it is set to. */
  lemma {:induction false} PutInPlace(m: PeersMap, i: nat, name: string)
    requires i < |m| && UniqueIds(m)
    ensures Put(m, m[i].id, name) == m[i := PeerEntry(m[i].id, name)]
  {
    if i > 0 {
      IdSetHas(m[1..]);
      assert m[1..][i - 1] in m[1..];
      PutInPlace(m[1..], i - 1, name);
    }
  }

  /** A key that is present with the same name: `set` changes nothing. */
  lemma {:induction false} PutSame(m: PeersMap, id: int, name: string)
    requires UniqueIds(m) && id in ToMap(m) && ToMap(m)[id] == name
    ensures Put(m, id, name) == m
  {
    if m[0].id != id {
      PutSame(m[1..], id, name);
    }
  }

  lemma {:induction false} PutFresh(m: PeersMap, id: int, name: string)
    requires id !in IdSet(m)
    ensures Put(m, id, name) == m + [PeerEntry(id, name)]
  {
    if m == [] {
    } else {
      PutFresh(m[1..], id, name);
    }
  }

  lemma {:induction false} KeepFacts(m: PeersMap, ids: set<int>)
    requires UniqueIds(m)
    ensures UniqueIds(Keep(m, ids))
    ensures IdSet(Keep(m, ids)) == IdSet(m) * ids
    ensures ToMap(Keep(m, ids)) == map p | p in ToMap(m) && p in ids :: ToMap(m)[p]
  {
    if m == [] {
    } else {
      KeepFacts(m[1..], ids);
      ToMapKeys(m[1..]);
    }
  }

  lemma {:induction false} KeepAll(s: seq<PeerEntry>, ids: set<int>)
    requires IdSet(s) <= ids
    ensures Keep(s, ids) == s
  {
    if s == [] {
    } else {
      KeepAll(s[1..], ids);
    }
  }

  lemma {:induction false} KeepAppend(s: seq<PeerEntry>, t: seq<PeerEntry>, ids: set<int>)
    ensures Keep(s + t, ids) == Keep(s, ids) + Keep(t, ids)
  {
    if s == [] {
      assert s + t == t;
    } else {
      assert (s + t)[1..] == s[1..] + t;
      KeepAppend(s[1..], t, ids);
    }
  }

  lemma {:induction false} KeepAgrees(s: seq<PeerEntry>, ids: set<int>, ids': set<int>)
    requires IdSet(s) * ids == IdSet(s) * ids'
    ensures Keep(s, ids) == Keep(s, ids')
  {
    if s == [] {
    } else {
      assert s[0].id in ids <==> s[0].id in IdSet(s) * ids;
      assert IdSet(s[1..]) <= IdSet(s);
      assert IdSet(s[1..]) * ids == IdSet(s[1..]) * (IdSet(s) * ids);
      assert IdSet(s[1..]) * ids' == IdSet(s[1..]) * (IdSet(s) * ids');
      KeepAgrees(s[1..], ids, ids');
    }
  }

  // ---- The sort ----

  /** JavaScript's `a < b` on strings. */
  predicate Before(a: string, b: string) {
    if b == [] then false
    else if a == [] then true
    else a[0] < b[0] || (a[0] == b[0] && Before(a[1..], b[1..]))
  }

  function CmpPeers(a: PeerEntry, b: PeerEntry): int {
    if Before(a.name, b.name) then -1
    else if Before(b.name, a.name) then 1
    else 0
  }

  lemma {:induction false} BeforeIsStrictOrder(a: string, b: string, c: string)
    ensures !(Before(a, b) && Before(b, a))
    ensures !Before(a, b) && !Before(b, a) ==> a == b
    ensures Before(a, b) && Before(b, c) ==> Before(a, c)
    decreases |a| + |b| + |c|
  {
    if a == [] || b == [] {
    } else {
      if c != [] {
        BeforeIsStrictOrder(a[1..], b[1..], c[1..]);
      } else {
        BeforeIsStrictOrder(a[1..], b[1..], c);
      }
      assert a[1..] == b[1..] && a[0] == b[0] ==> a == [a[0]] + a[1..] == b;
    }
  }

  /** `a` is shorter than `b` or has a smaller character where they first differ. */
  predicate DifferAt(a: string, b: string, k: nat) {
    k <= |a| && k < |b| && a[..k] == b[..k] && (k < |a| ==> a[k] < b[k])
  }

  lemma {:induction false} BeforeIsLexicographic(a: string, b: string)
    ensures Before(a, b) <==> exists k: nat :: DifferAt(a, b, k)
  {
    if a == [] || b == [] {
      assert b != [] ==> DifferAt(a, b, 0);
    } else {
      BeforeIsLexicographic(a[1..], b[1..]);
      if a[0] == b[0] {
        forall k: nat ensures DifferAt(a[1..], b[1..], k) <==> DifferAt(a, b, k + 1) {
          if k + 1 <= |a| && k + 1 < |b| {
            assert a[..k + 1] == [a[0]] + a[1..][..k] && b[..k + 1] == [b[0]] + b[1..][..k];
          }
        }
      }
      forall k: nat | DifferAt(a, b, k) ensures if k == 0 then a[0] < b[0] else a[0] == b[0] {
        assert k > 0 ==> a[..k][0] == b[..k][0];
      }
      assert a[0] < b[0] ==> DifferAt(a, b, 0);
      if k: nat :| DifferAt(a, b, k) {
        assert k > 0 ==> DifferAt(a[1..], b[1..], k - 1);
      }
    }
  }

  /** `cmpPeers` compares names, and nothing else. */
  lemma ComparesNames(a: PeerEntry, b: PeerEntry)
    ensures CmpPeers(a, b) < 0 <==> exists k: nat :: DifferAt(a.name, b.name, k)
    ensures CmpPeers(a, b) == 0 <==> a.name == b.name
    ensures CmpPeers(a, b) == -CmpPeers(b, a)
  {
    BeforeIsLexicographic(a.name, b.name);
    BeforeIsStrictOrder(a.name, b.name, a.name);
    BeforeIsStrictOrder(b.name, a.name, b.name);
  }

  /** Insertion after every element that does not compare greater. */
  function InsertSorted(s: seq<PeerEntry>, x: PeerEntry): seq<PeerEntry> {
    if s == [] then [x]
    else if CmpPeers(s[0], x) <= 0 then [s[0]] + InsertSorted(s[1..], x)
    else [x] + s
  }

  /** `Array.prototype.sort`, which is stable, with `cmpPeers`. */
  function StableSort(s: seq<PeerEntry>): seq<PeerEntry> {
    if s == [] then [] else InsertSorted(StableSort(s[..|s| - 1]), s[|s| - 1])
  }

  predicate Sorted(s: seq<PeerEntry>) {
    forall i, j :: 0 <= i < j < |s| ==> CmpPeers(s[i], s[j]) <= 0
  }

  lemma CmpTransitive(a: PeerEntry, b: PeerEntry, c: PeerEntry)
    requires CmpPeers(a, b) <= 0 && CmpPeers(b, c) <= 0
    ensures CmpPeers(a, c) <= 0
  {
    BeforeIsStrictOrder(a.name, b.name, c.name);
    BeforeIsStrictOrder(c.name, a.name, b.name);
  }

  lemma SortedCons(x: PeerEntry, s: seq<PeerEntry>)
    requires Sorted(s) && (s == [] || CmpPeers(x, s[0]) <= 0)
    ensures Sorted([x] + s)
  {
    forall j | 0 <= j < |s| ensures CmpPeers(x, s[j]) <= 0 {
      if j > 0 {
        CmpTransitive(x, s[0], s[j]);
      }
    }
  }

  lemma {:induction false} InsertIsSorted(s: seq<PeerEntry>, x: PeerEntry)
    requires Sorted(s)
    ensures Sorted(InsertSorted(s, x))
  {
    if s == [] {
    } else {
      if CmpPeers(s[0], x) <= 0 {
        InsertIsSorted(s[1..], x);
        SortedCons(s[0], InsertSorted(s[1..], x));
      } else {
        BeforeIsStrictOrder(s[0].name, x.name, s[0].name);
        SortedCons(x, s);
      }
    }
  }

  lemma {:induction false} InsertIsPermutation(s: seq<PeerEntry>, x: PeerEntry)
    ensures multiset(InsertSorted(s, x)) == multiset(s) + multiset{x}
  {
    if s == [] {
    } else {
      assert s == [s[0]] + s[1..];
      InsertIsPermutation(s[1..], x);
    }
  }

  lemma {:induction false} SortIsSorted(s: seq<PeerEntry>)
    ensures Sorted(StableSort(s))
    ensures multiset(StableSort(s)) == multiset(s)
  {
    if s == [] {
    } else {
      SortIsSorted(s[..|s| - 1]);
      InsertIsSorted(StableSort(s[..|s| - 1]), s[|s| - 1]);
      InsertIsPermutation(StableSort(s[..|s| - 1]), s[|s| - 1]);
      assert s == s[..|s| - 1] + [s[|s| - 1]];
    }
  }

  lemma {:induction false} InsertIds(s: seq<PeerEntry>, x: PeerEntry)
    requires UniqueIds(s) && x.id !in IdSet(s)
    ensures UniqueIds(InsertSorted(s, x)) && IdSet(InsertSorted(s, x)) == IdSet(s) + {x.id}
  {
    if s == [] {
    } else {
      assert ([x] + s)[1..] == s;
      InsertIds(s[1..], x);
    }
  }

  lemma {:induction false} SortIds(s: seq<PeerEntry>)
    requires UniqueIds(s)
    ensures UniqueIds(StableSort(s)) && IdSet(StableSort(s)) == IdSet(s)
  {
    if s == [] {
    } else {
      var init, x := s[..|s| - 1], s[|s| - 1];
      assert s == init + [x];
      IdSetAppend(init, x);
      SortIds(init);
      InsertIds(StableSort(init), x);
    }
  }

  lemma {:induction false} KeepSubset(s: seq<PeerEntry>, ids: set<int>)
    ensures forall p :: p in Keep(s, ids) <==> p in s && p.id in ids
  {
    if s == [] {
    } else {
      assert s == [s[0]] + s[1..];
      KeepSubset(s[1..], ids);
    }
  }

  lemma {:induction false} InsertThenKeep(s: seq<PeerEntry>, x: PeerEntry, ids: set<int>)
    requires Sorted(s)
    ensures Keep(InsertSorted(s, x), ids) ==
      if x.id in ids then InsertSorted(Keep(s, ids), x) else Keep(s, ids)
  {
    if s == [] {
    } else {
      InsertThenKeep(s[1..], x, ids);
      if CmpPeers(s[0], x) > 0 && x.id in ids {
        KeepSubset(s, ids);
        var k := Keep(s, ids);
        if k != [] {
          assert k[0] in s;
          var j :| 0 <= j < |s| && s[j] == k[0];
          BeforeIsStrictOrder(x.name, s[0].name, s[j].name);
          BeforeIsStrictOrder(s[j].name, x.name, s[0].name);
          assert CmpPeers(k[0], x) > 0;
        }
        assert InsertSorted(s, x) == [x] + s;
        assert Keep([x] + s, ids) == [x] + Keep(s, ids) by {
          assert ([x] + s)[1..] == s;
        }
      } else if CmpPeers(s[0], x) > 0 {
        assert ([x] + s)[1..] == s;
      }
    }
  }

  /** Sorting commutes with leaving entries out: this is what stability buys. */
  lemma {:induction false} SortThenKeep(s: seq<PeerEntry>, ids: set<int>)
    ensures Keep(StableSort(s), ids) == StableSort(Keep(s, ids))
  {
    if s == [] {
    } else {
      var init, x := s[..|s| - 1], s[|s| - 1];
      assert s == init + [x];
      SortThenKeep(init, ids);
      SortIsSorted(init);
      InsertThenKeep(StableSort(init), x, ids);
      KeepAppend(init, [x], ids);
      if x.id in ids {
        assert Keep(s, ids) == Keep(init, ids) + [x];
        assert (Keep(init, ids) + [x])[..|Keep(init, ids)|] == Keep(init, ids);
      } else {
        assert Keep(s, ids) == Keep(init, ids);
      }
    }
  }

  lemma SortedPair(a: PeerEntry, b: PeerEntry)
    requires a.name == b.name
    ensures StableSort([a, b]) == [a, b]
  {
    BeforeIsStrictOrder(a.name, b.name, a.name);
    assert [a, b][..1] == [a] && [a][..0] == [];
    assert StableSort([a]) == [a];
    assert [a][1..] == [] && InsertSorted([a], b) == [a] + [b];
  }

  lemma {:induction false} KeepNone(s: seq<PeerEntry>, ids: set<int>)
    requires IdSet(s) !! ids
    ensures Keep(s, ids) == []
  {
    if s == [] {
    } else {
      KeepNone(s[1..], ids);
    }
  }

  lemma {:induction false} KeepOne(s: seq<PeerEntry>, j: nat, x: int)
    requires UniqueIds(s) && j < |s| && x !in IdSet(s)
    ensures Keep(s, {x, s[j].id}) == [s[j]]
  {
    IdSetHas(s[1..]);
    if j == 0 {
      KeepNone(s[1..], {x, s[0].id});
    } else {
      assert s[1..][j - 1] == s[j];
      KeepOne(s[1..], j - 1, x);
    }
  }

  lemma {:induction false} KeepPair(s: seq<PeerEntry>, i: nat, j: nat)
    requires UniqueIds(s) && i < j < |s|
    ensures Keep(s, {s[i].id, s[j].id}) == [s[i], s[j]]
  {
    IdSetHas(s[1..]);
    if i == 0 {
      assert s[1..][j - 1] == s[j];
      KeepOne(s[1..], j - 1, s[0].id);
    } else {
      assert s[1..][i - 1] == s[i] && s[1..][j - 1] == s[j];
      KeepPair(s[1..], i - 1, j - 1);
    }
  }

  /** Peers of equal names stay in the order in which they entered the map. */
  lemma SortIsStable(s: seq<PeerEntry>, i: nat, j: nat)
    requires UniqueIds(s) && i < j < |s| && s[i].name == s[j].name
    ensures Keep(StableSort(s), {s[i].id, s[j].id}) == [s[i], s[j]]
  {
    SortThenKeep(s, {s[i].id, s[j].id});
    KeepPair(s, i, j);
    SortedPair(s[i], s[j]);
  }

  // ---- Rendering ----

  function Others(s: seq<PeerEntry>, self: int): seq<int> {
    if s == [] then []
    else if s[0].id == self then Others(s[1..], self)
    else [s[0].id] + Others(s[1..], self)
  }

  /** The ids `createParticipantsList` shows, from scratch: everybody but oneself, sorted by name. */
  function Render(m: PeersMap, self: int): seq<int> {
    Others(StableSort(m), self)
  }

  /** A child of `peers_other`; `handle` is the identity of the DOM element. */
  datatype Element = Element(handle: nat, id: int, dying: bool)

  function Created(ids: seq<int>, next: nat): seq<Element>
    decreases |ids|
  {
    if ids == [] then [] else [Element(next, ids[0], false)] + Created(ids[1..], next + 1)
  }

  function Kept(children: seq<Element>, present: set<int>): seq<Element> {
    if children == [] then []
    else if children[0].id in present then [children[0]] + Kept(children[1..], present)
    else Kept(children[1..], present)
  }

  function Ids(children: seq<Element>): seq<int> {
    if children == [] then [] else [children[0].id] + Ids(children[1..])
  }

  function Mark(children: seq<Element>, present: set<int>): seq<Element> {
    if children == [] then []
    else [if children[0].id in present then children[0] else children[0].(dying := true)] + Mark(children[1..], present)
  }

  predicate IsSubsequence(a: seq<int>, b: seq<int>)
    decreases |b|
  {
    if a == [] then true
    else if b == [] then false
    else if a[0] == b[0] then IsSubsequence(a[1..], b[1..])
    else IsSubsequence(a, b[1..])
  }

  /**
   The list `updateParticipants` leaves: departed children stay, marked for removal, and a new element goes
   right in front of the kept child it precedes, or to the end. If a kept child's peer does not come up among
   the others, all that are left go in front of that child, and the walk runs off the end there.
   */
  function Merge(children: seq<Element>, others: seq<int>, present: set<int>, next: nat): seq<Element>
    decreases |children| + |others|
  {
    if children == [] then Created(others, next)
    else if children[0].id !in present then
      [children[0].(dying := true)] + Merge(children[1..], others, present, next)
    else if others == [] then Mark(children, present)
    else if others[0] == children[0].id then
      [children[0]] + Merge(children[1..], others[1..], present, next)
    else
      [Element(next, others[0], false)] + Merge(children, others[1..], present, next + 1)
  }

  lemma {:induction false} MarkLength(children: seq<Element>, present: set<int>)
    ensures |Mark(children, present)| == |children|
  {
    if children == [] {
    } else {
      MarkLength(children[1..], present);
    }
  }

  lemma {:induction false} MergeGrows(children: seq<Element>, others: seq<int>, present: set<int>, next: nat)
    ensures |Merge(children, others, present, next)| >= |children|
    decreases |children| + |others|
  {
    if children == [] {
    } else if children[0].id !in present {
      MergeGrows(children[1..], others, present, next);
    } else if others == [] {
      MarkLength(children, present);
    } else if others[0] == children[0].id {
      MergeGrows(children[1..], others[1..], present, next);
    } else {
      MergeGrows(children, others[1..], present, next + 1);
    }
  }

  function OldOnes(children: seq<Element>, next: nat): seq<Element> {
    if children == [] then []
    else if children[0].handle < next then [children[0]] + OldOnes(children[1..], next)
    else OldOnes(children[1..], next)
  }

  lemma {:induction false} CreatedFacts(ids: seq<int>, next: nat, present: set<int>, floor: nat)
    requires floor <= next && (forall x :: x in ids ==> x in present)
    ensures Ids(Kept(Created(ids, next), present)) == ids && |Created(ids, next)| == |ids|
    ensures OldOnes(Created(ids, next), floor) == []
    ensures forall e :: e in Created(ids, next) ==> next <= e.handle < next + |ids| && !e.dying && e.id in present
  {
    if ids == [] {
    } else {
      CreatedFacts(ids[1..], next + 1, present, floor);
    }
  }

  /** The incremental merge shows the same ids as the full rendering. */
  lemma {:induction false} MergeIds(children: seq<Element>, others: seq<int>, present: set<int>, next: nat)
    requires IsSubsequence(Ids(Kept(children, present)), others) && forall x :: x in others ==> x in present
    ensures Ids(Kept(Merge(children, others, present, next), present)) == others
    decreases |children| + |others|
  {
    if children == [] {
      CreatedFacts(others, next, present, next);
    } else if children[0].id !in present {
      MergeIds(children[1..], others, present, next);
    } else if others[0] == children[0].id {
      MergeIds(children[1..], others[1..], present, next);
    } else {
      MergeIds(children, others[1..], present, next + 1);
    }
  }

  lemma {:induction false} MarkIsOld(children: seq<Element>, present: set<int>, floor: nat)
    requires forall e :: e in children ==> e.handle < floor
    ensures OldOnes(Mark(children, present), floor) == Mark(children, present)
  {
    if children == [] {
    } else {
      assert children == [children[0]] + children[1..];
      MarkIsOld(children[1..], present, floor);
    }
  }

  /** The old elements are all still there, in their order, whether or not the walk gets to the end. */
  lemma {:induction false} MergeKeepsOld(
    children: seq<Element>, others: seq<int>, present: set<int>, next: nat, floor: nat)
    requires floor <= next && forall e :: e in children ==> e.handle < floor
    ensures OldOnes(Merge(children, others, present, next), floor) == Mark(children, present)
    decreases |children| + |others|
  {
    if children == [] {
      CreatedFacts(others, next, (set x | x in others), floor);
    } else if children[0].id !in present {
      assert children == [children[0]] + children[1..];
      MergeKeepsOld(children[1..], others, present, next, floor);
    } else if others == [] {
      MarkIsOld(children, present, floor);
    } else if others[0] == children[0].id {
      assert children == [children[0]] + children[1..];
      MergeKeepsOld(children[1..], others[1..], present, next, floor);
    } else {
      MergeKeepsOld(children, others[1..], present, next + 1, floor);
    }
  }

  /** Without the new elements it is the old list with the departed marked: survivors keep element and place. */
  lemma MergeFacts(
    children: seq<Element>, others: seq<int>, present: set<int>, next: nat, floor: nat)
    requires IsSubsequence(Ids(Kept(children, present)), others)
    requires floor <= next && (forall e :: e in children ==> e.handle < floor)
    requires forall x :: x in others ==> x in present
    ensures Ids(Kept(Merge(children, others, present, next), present)) == others
    ensures OldOnes(Merge(children, others, present, next), floor) == Mark(children, present)
  {
    MergeIds(children, others, present, next);
    MergeKeepsOld(children, others, present, next, floor);
  }

  /** The walk ended at the `j`th of the old children: all others are shown in front of it, nothing behind it moved. */
  predicate StoppedAt(
    children: seq<Element>, others: seq<int>, present: set<int>, after: seq<Element>, i: nat, j: nat)
  {
    && i <= |after| && j < |children| && children[j].id in present
    && Ids(Kept(after[..i], present)) == others && after[i..] == Mark(children[j..], present)
  }

  lemma OneFurther(children: seq<Element>, others: seq<int>, rest: seq<int>, present: set<int>, after: seq<Element>,
                   i: nat, j: nat)
    requires children != [] && after != [] && after[0].id == children[0].id
    requires others == (if children[0].id in present then [children[0].id] else []) + rest
    requires StoppedAt(children[1..], rest, present, after[1..], i, j)
    ensures StoppedAt(children, others, present, after, i + 1, j + 1)
  {
    assert after[..i + 1] == [after[0]] + after[1..][..i] && after[1..][i..] == after[i + 1..];
    assert children[1..][j..] == children[j + 1..] && [] + rest == rest;
  }

  lemma OneInserted(children: seq<Element>, others: seq<int>, present: set<int>, after: seq<Element>, i: nat, j: nat)
    requires others != [] && after != [] && after[0].id == others[0] && others[0] in present
    requires StoppedAt(children, others[1..], present, after[1..], i, j)
    ensures StoppedAt(children, others, present, after, i + 1, j)
  {
    assert after[..i + 1] == [after[0]] + after[1..][..i] && after[1..][i..] == after[i + 1..];
  }

  /** What is left of the panel when the walk runs off the end of the sorted peers. */
  lemma {:induction false} HalfDone(children: seq<Element>, others: seq<int>, present: set<int>, next: nat)
    returns (i: nat, j: nat)
    requires !IsSubsequence(Ids(Kept(children, present)), others) && forall x :: x in others ==> x in present
    ensures StoppedAt(children, others, present, Merge(children, others, present, next), i, j)
    decreases |children| + |others|
  {
    var after := Merge(children, others, present, next);
    if children[0].id !in present {
      i, j := HalfDone(children[1..], others, present, next);
      OneFurther(children, others, others, present, after, i, j);
      i, j := i + 1, j + 1;
    } else if others == [] {
      i, j := 0, 0;
      assert after[..0] == [] && after[0..] == after && children[0..] == children;
    } else if others[0] == children[0].id {
      i, j := HalfDone(children[1..], others[1..], present, next);
      OneFurther(children, others, others[1..], present, after, i, j);
      i, j := i + 1, j + 1;
    } else {
      i, j := HalfDone(children, others[1..], present, next + 1);
      OneInserted(children, others, present, after, i, j);
      i := i + 1;
    }
  }

  /** Elements whose peer is gone fade out, new ones belong to somebody present, nobody else starts to fade. */
  lemma {:induction false} MergeElements(
    children: seq<Element>, others: seq<int>, present: set<int>, next: nat, floor: nat)
    requires IsSubsequence(Ids(Kept(children, present)), others)
    requires floor <= next && (forall e :: e in children ==> e.handle < floor)
    requires forall x :: x in others ==> x in present
    ensures forall e :: e in Merge(children, others, present, next) ==>
      (e.id !in present ==> e.dying) && (floor <= e.handle ==> e.id in present)
    ensures forall e :: e in Merge(children, others, present, next) && e.dying && e.id in present ==> e in children
    decreases |children| + |others|
  {
    if children == [] {
      CreatedFacts(others, next, present, floor);
    } else if children[0].id !in present {
      assert children == [children[0]] + children[1..];
      MergeElements(children[1..], others, present, next, floor);
    } else if others != [] && others[0] == children[0].id {
      assert children == [children[0]] + children[1..];
      MergeElements(children[1..], others[1..], present, next, floor);
    } else if others != [] {
      MergeElements(children, others[1..], present, next + 1, floor);
    }
  }

  // ---- When the merge succeeds ----

  function KeepIds(s: seq<int>, ids: set<int>): seq<int> {
    if s == [] then []
    else if s[0] in ids then [s[0]] + KeepIds(s[1..], ids)
    else KeepIds(s[1..], ids)
  }

  lemma {:induction false} KeepIdsIn(s: seq<int>, ids: set<int>)
    ensures forall x :: x in KeepIds(s, ids) ==> x in ids
  {
    if s == [] {
    } else {
      KeepIdsIn(s[1..], ids);
    }
  }

  lemma {:induction false} KeepIdsIsSubsequence(s: seq<int>, ids: set<int>)
    ensures IsSubsequence(KeepIds(s, ids), s)
  {
    if s == [] {
    } else {
      KeepIdsIsSubsequence(s[1..], ids);
      if s[0] !in ids && KeepIds(s, ids) != [] {
        KeepIdsIn(s, ids);
        assert KeepIds(s, ids)[0] in KeepIds(s, ids);
      }
    }
  }

  lemma {:induction false} OthersThenKeep(s: seq<PeerEntry>, self: int, ids: set<int>)
    ensures Others(Keep(s, ids), self) == KeepIds(Others(s, self), ids)
  {
    if s == [] {
    } else {
      OthersThenKeep(s[1..], self, ids);
    }
  }

  lemma {:induction false} OthersIds(s: seq<PeerEntry>, self: int)
    ensures forall x :: x in Others(s, self) <==> x in IdSet(s) && x != self
  {
    if s == [] {
    } else {
      OthersIds(s[1..], self);
    }
  }

  lemma {:induction false} KeptIds(children: seq<Element>, present: set<int>, ids: set<int>)
    ensures Ids(Kept(children, present * ids)) == KeepIds(Ids(Kept(children, present)), ids)
  {
    if children == [] {
    } else {
      KeptIds(children[1..], present, ids);
    }
  }

  /** The entries two maps share are the same and in the same order. */
  predicate Compatible(m: PeersMap, m': PeersMap) {
    Keep(m, IdSet(m')) == Keep(m', IdSet(m))
  }

  lemma RenderThenKeep(m: PeersMap, self: int, ids: set<int>)
    ensures Render(Keep(m, ids), self) == KeepIds(Render(m, self), ids)
  {
    SortThenKeep(m, ids);
    OthersThenKeep(StableSort(m), self, ids);
  }

  lemma {:induction false} KeptAgrees(children: seq<Element>, a: set<int>, b: set<int>)
    requires forall e :: e in children ==> (e.id in a <==> e.id in b)
    ensures Kept(children, a) == Kept(children, b)
  {
    if children == [] {
    } else {
      assert children[0] in children;
      KeptAgrees(children[1..], a, b);
    }
  }

  /** If the panel shows one map and no element of a departed peer is back, it can be merged with the other. */
  lemma CompatibleMerges(children: seq<Element>, m: PeersMap, m': PeersMap, self: int)
    requires Compatible(m, m')
    requires Ids(Kept(children, IdSet(m))) == Render(m, self)
    requires forall e :: e in children && e.id in IdSet(m') ==> e.id in IdSet(m)
    ensures IsSubsequence(Ids(Kept(children, IdSet(m'))), Render(m', self))
  {
    KeptAgrees(children, IdSet(m'), IdSet(m) * IdSet(m'));
    KeptIds(children, IdSet(m), IdSet(m'));
    RenderThenKeep(m, self, IdSet(m'));
    RenderThenKeep(m', self, IdSet(m));
    KeepIdsIsSubsequence(Render(m', self), IdSet(m));
  }

  lemma CompatibleRefl(m: PeersMap)
    ensures Compatible(m, m)
  {
  }

  lemma CompatiblePut(m: PeersMap, id: int, name: string)
    requires id !in IdSet(m)
    ensures Compatible(m, Put(m, id, name))
  {
    PutFresh(m, id, name);
    var m' := m + [PeerEntry(id, name)];
    IdSetAppend(m, PeerEntry(id, name));
    KeepAll(m, IdSet(m'));
    KeepAppend(m, [PeerEntry(id, name)], IdSet(m));
    KeepAll(m, IdSet(m));
  }

  lemma CompatibleKeep(m: PeersMap, ids: set<int>)
    requires UniqueIds(m)
    ensures Compatible(m, Keep(m, ids))
  {
    KeepFacts(m, ids);
    var m' := Keep(m, ids);
    KeepAgrees(m, ids, IdSet(m'));
    KeepAll(m', IdSet(m));
  }
}

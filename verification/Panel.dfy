/**
 When the panel's update runs off the end of the sorted peers: a peer comes back while its old element is still
 fading, and that element is out of its place.
 */
module Panel {
  import opened Messages
  import opened Participants
  import opened ClientSpec

  // ---- Subsequences ----

  predicate NoRepeats(s: seq<int>) {
    forall i, j :: 0 <= i < j < |s| ==> s[i] != s[j]
  }

  lemma {:induction false} SubRefl(a: seq<int>)
    ensures IsSubsequence(a, a)
  {
    if a == [] {
    } else {
      SubRefl(a[1..]);
    }
  }

  lemma {:induction false} SubDrop(a: seq<int>, b: seq<int>)
    requires a != [] && IsSubsequence(a, b)
    ensures IsSubsequence(a[1..], b)
    decreases |b|, 1
  {
    if b == [] || a[1..] == [] {
    } else if a[0] == b[0] {
      SubLater(a[1..], b);
    } else {
      SubDrop(a, b[1..]);
      SubLater(a[1..], b);
    }
  }

  lemma {:induction false} SubLater(a: seq<int>, b: seq<int>)
    requires b != [] && IsSubsequence(a, b[1..])
    ensures IsSubsequence(a, b)
    decreases |b|, 0
  {
    if a == [] {
    } else if a[0] == b[0] {
      SubDrop(a, b[1..]);
    }
  }

  lemma {:induction false} SubTrans(a: seq<int>, b: seq<int>, c: seq<int>)
    requires IsSubsequence(a, b) && IsSubsequence(b, c)
    ensures IsSubsequence(a, c)
    decreases |b| + |c|
  {
    if a == [] || c == [] {
    } else if b[0] == c[0] {
      if a[0] == b[0] {
        SubTrans(a[1..], b[1..], c[1..]);
      } else {
        SubTrans(a, b[1..], c[1..]);
        SubLater(a, c);
      }
    } else {
      SubTrans(a, b, c[1..]);
      SubLater(a, c);
    }
  }

  lemma {:induction false} SubKeep(a: seq<int>, b: seq<int>, ids: set<int>)
    requires IsSubsequence(a, b)
    ensures IsSubsequence(KeepIds(a, ids), KeepIds(b, ids))
    decreases |b|
  {
    if a == [] || b == [] {
    } else if a[0] == b[0] {
      SubKeep(a[1..], b[1..], ids);
    } else {
      SubKeep(a, b[1..], ids);
      if b[0] in ids {
        SubLater(KeepIds(a, ids), KeepIds(b, ids));
      }
    }
  }

  lemma {:induction false} SubIn(a: seq<int>, b: seq<int>)
    requires IsSubsequence(a, b)
    ensures forall x :: x in a ==> x in b
    decreases |b|
  {
    if a == [] || b == [] {
    } else if a[0] == b[0] {
      assert a == [a[0]] + a[1..];
      SubIn(a[1..], b[1..]);
    } else {
      SubIn(a, b[1..]);
    }
  }

  lemma {:induction false} KeepIdsAppend(a: seq<int>, b: seq<int>, ids: set<int>)
    ensures KeepIds(a + b, ids) == KeepIds(a, ids) + KeepIds(b, ids)
  {
    if a == [] {
      assert a + b == b;
    } else {
      assert (a + b)[1..] == a[1..] + b;
      KeepIdsAppend(a[1..], b, ids);
    }
  }

  lemma {:induction false} KeepIdsAll(a: seq<int>, ids: set<int>)
    requires forall x :: x in a ==> x in ids
    ensures KeepIds(a, ids) == a
  {
    if a == [] {
    } else {
      var x := a[0];
      assert x in a;
      assert x in ids;
      KeepIdsAll(a[1..], ids);
    }
  }

  lemma {:induction false} KeepIdsNone(a: seq<int>, ids: set<int>)
    requires forall x :: x in a ==> x !in ids
    ensures KeepIds(a, ids) == []
  {
    if a == [] {
    } else {
      var x := a[0];
      assert x in a;
      KeepIdsNone(a[1..], ids);
    }
  }

  function IdsIn(a: seq<int>): set<int> {
    set x | x in a
  }

  lemma Part(a: seq<int>, b: seq<int>, c: seq<int>, d: seq<int>, ids: set<int>)
    requires IsSubsequence(a + b, c + d)
    ensures IsSubsequence(KeepIds(a, ids) + KeepIds(b, ids), KeepIds(c, ids) + KeepIds(d, ids))
  {
    SubKeep(a + b, c + d, ids);
    KeepIdsAppend(a, b, ids);
    KeepIdsAppend(c, d, ids);
  }

  lemma SubSecond(a: seq<int>, b: seq<int>, c: seq<int>, d: seq<int>)
    requires IsSubsequence(a + b, c + d) && forall x :: x in c ==> x !in d
    requires (forall x :: x in a ==> x in c) && (forall x :: x in b ==> x in d)
    ensures IsSubsequence(b, d)
  {
    Part(a, b, c, d, IdsIn(d));
    KeepIdsNone(a, IdsIn(d));
    KeepIdsAll(b, IdsIn(d));
    KeepIdsNone(c, IdsIn(d));
    KeepIdsAll(d, IdsIn(d));
    assert [] + b == b && [] + d == d;
  }

  /** A subsequence of two parts whose own parts have their ids on the right sides. */
  lemma SubSides(a: seq<int>, b: seq<int>, c: seq<int>, d: seq<int>)
    requires IsSubsequence(a + b, c + d) && forall x :: x in c ==> x !in d
    requires (forall x :: x in a ==> x in c) && (forall x :: x in b ==> x in d)
    ensures IsSubsequence(a, c) && IsSubsequence(b, d)
  {
    Part(a, b, c, d, IdsIn(c));
    KeepIdsAll(a, IdsIn(c));
    KeepIdsNone(b, IdsIn(c));
    KeepIdsAll(c, IdsIn(c));
    KeepIdsNone(d, IdsIn(c));
    assert a + [] == a && c + [] == c;
    SubSecond(a, b, c, d);
  }

  /** One more id on both sides, in its place. */
  lemma {:induction false} SubAround(a: seq<int>, b: seq<int>, c: seq<int>, d: seq<int>, x: int)
    requires x !in a && x !in b && x !in c && x !in d
    ensures IsSubsequence(a + [x] + b, c + [x] + d) <==> IsSubsequence(a, c) && IsSubsequence(b, d)
    decreases |c|
  {
    var s, t := a + [x] + b, c + [x] + d;
    if c == [] {
      assert t[0] == x && t[1..] == d;
      if a == [] {
        assert s[0] == x && s[1..] == b;
      } else {
        assert s[0] == a[0] && s[|a|] == x && x in s;
        if IsSubsequence(s, d) {
          SubIn(s, d);
        }
      }
    } else {
      assert t[0] == c[0] && t[1..] == c[1..] + [x] + d;
      if a == [] {
        assert s[0] == x;
        SubAround(a, b, c[1..], d, x);
      } else {
        assert s[0] == a[0] && s[1..] == a[1..] + [x] + b;
        if a[0] == c[0] {
          SubAround(a[1..], b, c[1..], d, x);
        } else {
          SubAround(a, b, c[1..], d, x);
        }
      }
    }
  }

  // ---- Elements ----

  lemma {:induction false} KeptAppend(a: seq<Element>, b: seq<Element>, present: set<int>)
    ensures Ids(Kept(a + b, present)) == Ids(Kept(a, present)) + Ids(Kept(b, present))
  {
    if a == [] {
      assert a + b == b;
    } else {
      assert (a + b)[1..] == a[1..] + b;
      KeptAppend(a[1..], b, present);
    }
  }

  lemma {:induction false} KeptHas(a: seq<Element>, present: set<int>)
    ensures forall x :: x in Ids(Kept(a, present)) <==> x in present && exists e :: e in a && e.id == x
  {
    if a == [] {
    } else {
      assert a == [a[0]] + a[1..];
      KeptHas(a[1..], present);
      var rest := Ids(Kept(a[1..], present));
      forall x ensures x in Ids(Kept(a, present)) <==> x in present && exists e :: e in a && e.id == x {
        assert x in Ids(Kept(a, present)) <==> (a[0].id in present && x == a[0].id) || x in rest;
        assert a[0] in a;
        if e :| e in a && e.id == x {
          assert e == a[0] || e in a[1..];
        }
      }
    }
  }

  /** No two elements are of the same peer. */
  ghost predicate OneEach(children: seq<Element>) {
    forall i, j :: 0 <= i < j < |children| ==> children[i].id != children[j].id
  }

  /**
   The panel can be updated as it is: what it shows of the map is in the order of the sorted peers. Elements may
   be fading or missing.
   */
  ghost predicate Walks(c: Client) {
    && UniqueIds(c.view) && OneEach(c.children)
    && (c.rendered ==> IsSubsequence(Ids(Kept(c.children, IdSet(c.view))), Render(c.view, c.self)))
    && (!c.rendered ==> c.children == [])
  }

  // ---- A peer comes back ----

  function NameIn(m: PeersMap, id: int): string
    requires id in ToMap(m)
  {
    ToMap(m)[id]
  }

  /**
   The `j`th element is of somebody in the map, and on the wrong side of the `i`th for a peer called `name`: behind
   it although that peer's name does not sort after `name`, or in front of it although it does.
   */
  predicate Misplaced(c: Client, name: string, i: nat, j: nat)
    requires i < |c.children| && j < |c.children|
  {
    c.children[j].id in ToMap(c.view) &&
    if i < j then !Before(name, NameIn(c.view, c.children[j].id)) else Before(name, NameIn(c.view, c.children[j].id))
  }

  lemma {:induction false} InsertSplits(s: seq<PeerEntry>, x: PeerEntry) returns (k: nat)
    requires Sorted(s)
    ensures k <= |s| && InsertSorted(s, x) == s[..k] + [x] + s[k..]
    ensures forall p :: p in s[..k] ==> !Before(x.name, p.name)
    ensures forall p :: p in s[k..] ==> Before(x.name, p.name)
  {
    if s == [] {
      k := 0;
    } else if CmpPeers(s[0], x) <= 0 {
      BeforeIsStrictOrder(s[0].name, x.name, s[0].name);
      k := InsertSplits(s[1..], x);
      k := k + 1;
      assert s[..k] == [s[0]] + s[1..][..k - 1] && s[k..] == s[1..][k - 1..];
      assert [s[0]] + (s[1..][..k - 1] + [x] + s[1..][k - 1..]) == s[..k] + [x] + s[k..];
    } else {
      k := 0;
      forall p | p in s ensures Before(x.name, p.name) {
        var j :| 0 <= j < |s| && s[j] == p;
        BeforeIsStrictOrder(x.name, s[0].name, p.name);
        BeforeIsStrictOrder(p.name, x.name, s[0].name);
      }
      assert s[..0] == [] && s[0..] == s;
      assert [] + [x] + s == [x] + s;
    }
  }

  lemma {:induction false} OthersAppend(a: seq<PeerEntry>, b: seq<PeerEntry>, self: int)
    ensures Others(a + b, self) == Others(a, self) + Others(b, self)
  {
    if a == [] {
      assert a + b == b;
    } else {
      assert (a + b)[1..] == a[1..] + b;
      OthersAppend(a[1..], b, self);
    }
  }

  lemma {:induction false} OthersNames(s: seq<PeerEntry>, self: int)
    ensures forall x :: x in Others(s, self) <==> x != self && exists p :: p in s && p.id == x
  {
    if s == [] {
    } else {
      assert s == [s[0]] + s[1..];
      OthersNames(s[1..], self);
      forall x ensures x in Others(s, self) <==> x != self && exists p :: p in s && p.id == x {
        assert x in Others(s, self) <==> (s[0].id != self && x == s[0].id) || x in Others(s[1..], self);
        assert s[0] in s;
        if p :| p in s && p.id == x {
          assert p == s[0] || p in s[1..];
        }
      }
    }
  }

  lemma {:induction false} ToMapHas(m: PeersMap)
    requires UniqueIds(m)
    ensures forall p :: p in m ==> p.id in ToMap(m) && ToMap(m)[p.id] == p.name
    ensures forall x :: x in ToMap(m) ==> PeerEntry(x, ToMap(m)[x]) in m
  {
    if m == [] {
    } else {
      ToMapHas(m[1..]);
      ToMapKeys(m[1..]);
      assert m == [m[0]] + m[1..];
      forall x | x in ToMap(m) ensures PeerEntry(x, ToMap(m)[x]) in m {
        assert x != m[0].id ==> x in ToMap(m[1..]) && PeerEntry(x, ToMap(m[1..])[x]) in m[1..];
        assert x == m[0].id ==> m[0] in m;
      }
      forall p | p in m ensures p.id in ToMap(m) && ToMap(m)[p.id] == p.name {
        if p in m[1..] {
          assert p.id in ToMap(m[1..]);
        }
      }
    }
  }

  lemma NewcomerSides(m: PeersMap, self: int, side: seq<PeerEntry>, name: string, first: bool)
    requires UniqueIds(m) && (forall p :: p in side ==> p in multiset(m))
    requires forall p :: p in side ==> (Before(name, p.name) <==> !first)
    ensures forall x :: x in Others(side, self) ==>
      x in ToMap(m) && x != self && (Before(name, ToMap(m)[x]) <==> !first)
  {
    OthersNames(side, self);
    ToMapHas(m);
    forall x | x in Others(side, self) ensures x in ToMap(m) && x != self && (Before(name, ToMap(m)[x]) <==> !first) {
      var p :| p in side && p.id == x;
      assert p in m;
    }
  }

  lemma SideIsAll(m: PeersMap, self: int, s: seq<PeerEntry>, k: nat, name: string)
    requires UniqueIds(m) && multiset(s) == multiset(m) && k <= |s|
    requires forall p :: p in s[..k] ==> !Before(name, p.name)
    requires forall p :: p in s[k..] ==> Before(name, p.name)
    ensures forall x :: x in ToMap(m) && x != self ==>
      x in if Before(name, ToMap(m)[x]) then Others(s[k..], self) else Others(s[..k], self)
  {
    OthersNames(s[..k], self);
    OthersNames(s[k..], self);
    ToMapHas(m);
    forall x | x in ToMap(m) && x != self
      ensures x in if Before(name, ToMap(m)[x]) then Others(s[k..], self) else Others(s[..k], self)
    {
      var p := PeerEntry(x, ToMap(m)[x]);
      assert p in m && p in multiset(m) && p in s;
      assert s == s[..k] + s[k..];
      assert p in s[..k] || p in s[k..];
    }
  }

  lemma SortWithNewcomer(m: PeersMap, x: PeerEntry)
    requires x.id !in IdSet(m)
    ensures StableSort(Put(m, x.id, x.name)) == InsertSorted(StableSort(m), x)
  {
    PutFresh(m, x.id, x.name);
    assert (m + [x])[..|m|] == m && (m + [x])[|m|] == x;
  }

  lemma OthersAround(a: seq<PeerEntry>, x: PeerEntry, b: seq<PeerEntry>, self: int)
    requires x.id != self
    ensures Others(a + [x] + b, self) == Others(a, self) + [x.id] + Others(b, self)
  {
    OthersAppend(a + [x], b, self);
    OthersAppend(a, [x], self);
    assert Others([x], self) == [x.id] + Others([], self);
  }

  lemma NewcomerSorts(m: PeersMap, x: PeerEntry, s: seq<PeerEntry>, k: nat, self: int)
    requires x.id !in IdSet(m) && x.id != self && s == StableSort(m) && k <= |s|
    requires InsertSorted(s, x) == s[..k] + [x] + s[k..]
    ensures Render(m, self) == Others(s[..k], self) + Others(s[k..], self)
    ensures Render(Put(m, x.id, x.name), self) == Others(s[..k], self) + [x.id] + Others(s[k..], self)
  {
    SortWithNewcomer(m, x);
    assert s == s[..k] + s[k..];
    OthersAppend(s[..k], s[k..], self);
    OthersAround(s[..k], x, s[k..], self);
  }

  /** Where the sort puts a new peer, and who is on which side of it. */
  lemma NewcomerRenders(m: PeersMap, self: int, id: int, name: string) returns (before: seq<int>, behind: seq<int>)
    requires UniqueIds(m) && id !in IdSet(m) && id != self
    ensures Render(m, self) == before + behind && Render(Put(m, id, name), self) == before + [id] + behind
    ensures forall x :: x in before <==> x in ToMap(m) && x != self && !Before(name, ToMap(m)[x])
    ensures forall x :: x in behind <==> x in ToMap(m) && x != self && Before(name, ToMap(m)[x])
  {
    var x, s := PeerEntry(id, name), StableSort(m);
    SortIsSorted(m);
    var k := InsertSplits(s, x);
    before, behind := Others(s[..k], self), Others(s[k..], self);
    NewcomerSorts(m, x, s, k, self);
    forall p | p in s[..k] || p in s[k..] ensures p in multiset(m) {
      assert p in s && p in multiset(s);
    }
    NewcomerSides(m, self, s[..k], name, true);
    NewcomerSides(m, self, s[k..], name, false);
    SideIsAll(m, self, s, k, name);
  }

  lemma KeptAround(a: seq<Element>, e: Element, b: seq<Element>, present: set<int>)
    ensures Ids(Kept(a + [e] + b, present)) ==
      Ids(Kept(a, present)) + (if e.id in present then [e.id] else []) + Ids(Kept(b, present))
  {
    KeptAppend(a + [e], b, present);
    KeptAppend(a, [e], present);
    assert Kept([e], present) == if e.id in present then [e] + Kept([], present) else Kept([], present);
    assert Ids([e]) == [e.id] + Ids([]);
  }

  /** What an update keeps of the panel when the peer of the `i`th element is back. */
  lemma ReturnerKept(children: seq<Element>, i: nat, present: set<int>) returns (before: seq<int>, behind: seq<int>)
    requires i < |children| && OneEach(children) && children[i].id !in present
    ensures before == Ids(Kept(children[..i], present)) && behind == Ids(Kept(children[i + 1..], present))
    ensures Ids(Kept(children, present)) == before + behind
    ensures Ids(Kept(children, present + {children[i].id})) == before + [children[i].id] + behind
  {
    var a, e, b, more := children[..i], children[i], children[i + 1..], present + {children[i].id};
    before, behind := Ids(Kept(a, present)), Ids(Kept(b, present));
    assert children == a + [e] + b;
    KeptAround(a, e, b, present);
    KeptAround(a, e, b, more);
    KeptAgrees(a, present, more);
    KeptAgrees(b, present, more);
    assert before + [] + behind == before + behind;
  }

  /** Some element from place `lo` up to `hi` is of peer `x`. */
  ghost predicate Among(children: seq<Element>, lo: nat, hi: nat, x: int) {
    exists j :: lo <= j < hi <= |children| && children[j].id == x
  }

  lemma KeptAmong(children: seq<Element>, lo: nat, hi: nat, present: set<int>, x: int)
    requires lo <= hi <= |children|
    ensures x in Ids(Kept(children[lo..hi], present)) <==> x in present && Among(children, lo, hi, x)
  {
    KeptHas(children[lo..hi], present);
    if Among(children, lo, hi, x) {
      var j :| lo <= j < hi && children[j].id == x;
      assert children[lo..hi][j - lo] == children[j];
    }
  }

  /** The ids around the place of a peer that comes back are on the right sides of it. */
  ghost predicate InPlace(before: seq<int>, behind: seq<int>, first: seq<int>, second: seq<int>) {
    (forall x :: x in before ==> x in first) && (forall x :: x in behind ==> x in second)
  }

  lemma PlacesDecide(c: Client, name: string, i: nat, before: seq<int>, behind: seq<int>,
                     first: seq<int>, second: seq<int>)
    requires Walks(c) && c.rendered && i < |c.children| && c.children[i].id !in IdSet(c.view)
    requires before == Ids(Kept(c.children[..i], IdSet(c.view)))
    requires behind == Ids(Kept(c.children[i + 1..], IdSet(c.view)))
    requires IsSubsequence(before + behind, Render(c.view, c.self))
    requires forall x :: x in first <==> x in ToMap(c.view) && x != c.self && !Before(name, ToMap(c.view)[x])
    requires forall x :: x in second <==> x in ToMap(c.view) && x != c.self && Before(name, ToMap(c.view)[x])
    ensures !InPlace(before, behind, first, second) <==>
      exists j :: 0 <= j < |c.children| && Misplaced(c, name, i, j)
  {
    var present := IdSet(c.view);
    ToMapKeys(c.view);
    SubIn(before + behind, Render(c.view, c.self));
    RenderPresent(c.view, c.self);
    forall x | x in before || x in behind ensures x in ToMap(c.view) && x != c.self {
      assert x in before + behind;
    }
    assert c.children[0..i] == c.children[..i] && c.children[i + 1..|c.children|] == c.children[i + 1..];
    if j :| 0 <= j < |c.children| && Misplaced(c, name, i, j) {
      var x := c.children[j].id;
      if i < j {
        KeptAmong(c.children, i + 1, |c.children|, present, x);
      } else {
        KeptAmong(c.children, 0, i, present, x);
      }
    }
    if !InPlace(before, behind, first, second) {
      if x :| x in before && x !in first {
        KeptAmong(c.children, 0, i, present, x);
        var j :| 0 <= j < i && c.children[j].id == x;
        assert Misplaced(c, name, i, j);
      } else {
        var x :| x in behind && x !in second;
        KeptAmong(c.children, i + 1, |c.children|, present, x);
        var j :| i < j < |c.children| && c.children[j].id == x;
        assert Misplaced(c, name, i, j);
      }
    }
  }

  lemma PlaceMatters(before: seq<int>, behind: seq<int>, first: seq<int>, second: seq<int>, id: int)
    requires IsSubsequence(before + behind, first + second) && id !in before && id !in behind
    requires id !in first && id !in second && forall x :: x in first ==> x !in second
    ensures IsSubsequence(before + [id] + behind, first + [id] + second) <==> InPlace(before, behind, first, second)
  {
    SubAround(before, behind, first, second, id);
    if InPlace(before, behind, first, second) {
      SubSides(before, behind, first, second);
    }
    if IsSubsequence(before, first) && IsSubsequence(behind, second) {
      SubIn(before, first);
      SubIn(behind, second);
    }
  }

  lemma PutIdSet(m: PeersMap, id: int, name: string)
    requires UniqueIds(m)
    ensures UniqueIds(Put(m, id, name)) && IdSet(Put(m, id, name)) == IdSet(m) + {id}
  {
    PutFacts(m, id, name);
  }

  /**
   Exactly when a return throws: a peer that is not in the map is put into it while its element is still there.
   The update runs off the end if and only if the element of somebody in the map is on the wrong side of it.
   */
  lemma ReturnThrows(c: Client, id: int, name: string, i: nat)
    requires Walks(c) && c.rendered && id !in IdSet(c.view) && id != c.self
    requires i < |c.children| && c.children[i].id == id
    ensures Throws(c, Joined(id, name)) <==> exists j :: 0 <= j < |c.children| && Misplaced(c, name, i, j)
  {
    var present := IdSet(c.view);
    var first, second := NewcomerRenders(c.view, c.self, id, name);
    var before, behind := ReturnerKept(c.children, i, present);
    PutIdSet(c.view, id, name);
    ToMapKeys(c.view);
    RenderPresent(c.view, c.self);
    KeptAmong(c.children, 0, i, present, id);
    KeptAmong(c.children, i + 1, |c.children|, present, id);
    assert c.children[0..i] == c.children[..i] && c.children[i + 1..|c.children|] == c.children[i + 1..];
    PlacesDecide(c, name, i, before, behind, first, second);
    PlaceMatters(before, behind, first, second, id);
  }

  // ---- Updates that do not throw ----

  /** The map changes, what is common stays in order, and no peer that is new in it has an element. */
  predicate Smoothly(c: Client, m: PeersMap) {
    && UniqueIds(m) && Compatible(c.view, m)
    && forall e :: e in c.children && e.id in IdSet(m) ==> e.id in IdSet(c.view)
  }

  lemma SmoothlyWalks(c: Client, m: PeersMap)
    requires Walks(c) && c.rendered && Smoothly(c, m)
    ensures !Fails(c.(view := m))
  {
    var kept := Ids(Kept(c.children, IdSet(c.view)));
    KeptAgrees(c.children, IdSet(m), IdSet(c.view) * IdSet(m));
    KeptIds(c.children, IdSet(c.view), IdSet(m));
    SubKeep(kept, Render(c.view, c.self), IdSet(m));
    RenderThenKeep(c.view, c.self, IdSet(m));
    RenderThenKeep(m, c.self, IdSet(c.view));
    KeepIdsIsSubsequence(Render(m, c.self), IdSet(c.view));
    SubTrans(KeepIds(kept, IdSet(m)), KeepIds(Render(m, c.self), IdSet(c.view)), Render(m, c.self));
  }

  lemma {:induction false} CreatedIds(ids: seq<int>, next: nat)
    ensures |Created(ids, next)| == |ids| && forall i :: 0 <= i < |ids| ==> Created(ids, next)[i].id == ids[i]
    decreases |ids|
  {
    if ids == [] {
    } else {
      CreatedIds(ids[1..], next + 1);
    }
  }

  lemma OneEachCons(e: Element, rest: seq<Element>)
    requires OneEach(rest) && forall d :: d in rest ==> d.id != e.id
    ensures OneEach([e] + rest)
  {
  }

  /** The merge has the elements' peers and the others, each once. */
  lemma {:induction false} MergeOneEach(children: seq<Element>, others: seq<int>, present: set<int>, next: nat)
    requires OneEach(children) && NoRepeats(others) && (forall x :: x in others ==> x in present)
    requires IsSubsequence(Ids(Kept(children, present)), others)
    ensures OneEach(Merge(children, others, present, next))
    ensures forall e :: e in Merge(children, others, present, next) ==>
      e.id in others || (e.id !in present && e.dying && exists d :: d in children && d.id == e.id)
    decreases |children| + |others|
  {
    if children == [] {
      CreatedIds(others, next);
    } else if children[0].id !in present {
      assert children == [children[0]] + children[1..];
      MergeOneEach(children[1..], others, present, next);
      OneEachCons(children[0].(dying := true), Merge(children[1..], others, present, next));
    } else if others[0] == children[0].id {
      assert children == [children[0]] + children[1..];
      MergeOneEach(children[1..], others[1..], present, next);
      OneEachCons(children[0], Merge(children[1..], others[1..], present, next));
    } else {
      MergeOneEach(children, others[1..], present, next + 1);
      OneEachCons(Element(next, others[0], false), Merge(children, others[1..], present, next + 1));
    }
  }

  lemma {:induction false} OthersNoRepeats(s: seq<PeerEntry>, self: int)
    requires UniqueIds(s)
    ensures NoRepeats(Others(s, self))
  {
    if s == [] {
    } else {
      OthersNoRepeats(s[1..], self);
      OthersIds(s[1..], self);
      var rest := Others(s[1..], self);
      forall i | 0 <= i < |rest| ensures rest[i] != s[0].id {
        assert rest[i] in rest;
      }
    }
  }

  lemma RenderNoRepeats(m: PeersMap, self: int)
    requires UniqueIds(m)
    ensures NoRepeats(Render(m, self))
  {
    SortIds(m);
    OthersNoRepeats(StableSort(m), self);
  }

  /** `x` may be shown in front of `y`. */
  predicate MayPrecede(names: map<int, string>, x: int, y: int) {
    x in names && y in names && !Before(names[y], names[x])
  }

  ghost predicate InNameOrder(names: map<int, string>, ids: seq<int>) {
    forall i, j :: 0 <= i < j < |ids| ==> MayPrecede(names, ids[i], ids[j])
  }

  lemma InOrderCons(names: map<int, string>, x: int, rest: seq<int>)
    requires InNameOrder(names, rest) && forall y :: y in rest ==> MayPrecede(names, x, y)
    ensures InNameOrder(names, [x] + rest)
  {
  }

  lemma FirstIsLeast(s: seq<PeerEntry>)
    requires s != [] && Sorted(s)
    ensures Sorted(s[1..]) && forall p :: p in s[1..] ==> !Before(p.name, s[0].name)
  {
    forall p | p in s[1..] ensures !Before(p.name, s[0].name) {
      var k :| 0 <= k < |s[1..]| && s[1..][k] == p;
      assert CmpPeers(s[0], s[k + 1]) <= 0;
      BeforeIsStrictOrder(s[0].name, p.name, s[0].name);
    }
  }

  lemma {:induction false} OthersInOrder(s: seq<PeerEntry>, self: int, names: map<int, string>)
    requires Sorted(s) && forall p :: p in s ==> p.id in names && names[p.id] == p.name
    ensures InNameOrder(names, Others(s, self))
  {
    if s == [] {
    } else {
      FirstIsLeast(s);
      assert s[0] in s && forall p :: p in s[1..] ==> p in s;
      OthersInOrder(s[1..], self, names);
      OthersNames(s[1..], self);
      InOrderCons(names, s[0].id, Others(s[1..], self)) by {
        forall y | y in Others(s[1..], self) ensures MayPrecede(names, s[0].id, y) {
          var p :| p in s[1..] && p.id == y;
        }
      }
    }
  }

  lemma SortedNames(m: PeersMap)
    requires UniqueIds(m)
    ensures forall p :: p in StableSort(m) ==> p.id in ToMap(m) && ToMap(m)[p.id] == p.name
  {
    SortIsSorted(m);
    ToMapHas(m);
    forall p | p in StableSort(m) ensures p in m {
      assert p in multiset(StableSort(m));
    }
  }

  /** What the panel is to show: everybody in the map but oneself, once, in the order of their names. */
  lemma RenderIsInOrder(m: PeersMap, self: int)
    requires UniqueIds(m)
    ensures NoRepeats(Render(m, self)) && InNameOrder(ToMap(m), Render(m, self))
    ensures forall x :: x in Render(m, self) <==> x in ToMap(m) && x != self
  {
    SortIsSorted(m);
    SortedNames(m);
    ToMapKeys(m);
    RenderPresent(m, self);
    RenderNoRepeats(m, self);
    OthersInOrder(StableSort(m), self, ToMap(m));
  }

  /** An update that does not throw shows the whole map in order, and the old elements of peers that are gone. */
  lemma UpdateWalks(c: Client)
    requires UniqueIds(c.view) && OneEach(c.children) && (!c.rendered ==> c.children == []) && !Fails(c)
    ensures
      var c' := UpdateParticipants(c);
      && Walks(c') && c'.rendered && c'.thrown == c.thrown
      && forall e :: e in c'.children ==>
        e.id in IdSet(c.view) || exists d :: d in c.children && d.id == e.id
  {
    var others := Render(c.view, c.self);
    RenderPresent(c.view, c.self);
    RenderNoRepeats(c.view, c.self);
    SubRefl(others);
    if c.rendered {
      MergeIds(c.children, others, IdSet(c.view), c.next);
      MergeOneEach(c.children, others, IdSet(c.view), c.next);
    } else {
      CreatedFacts(others, c.next, IdSet(c.view), c.next);
      CreatedIds(others, c.next);
    }
  }

  lemma {:induction false} GoneOneWalks(children: seq<Element>, handle: nat, present: set<int>)
    ensures IsSubsequence(Ids(Kept(WithoutDying(children, handle), present)), Ids(Kept(children, present)))
    ensures forall e :: e in WithoutDying(children, handle) ==> e in children
    ensures OneEach(children) ==> OneEach(WithoutDying(children, handle))
  {
    if children == [] {
    } else if children[0].handle == handle && children[0].dying {
      var rest := Ids(Kept(children[1..], present));
      SubRefl(rest);
      if children[0].id in present {
        SubLater(rest, Ids(Kept(children, present)));
      }
    } else {
      assert children == [children[0]] + children[1..];
      GoneOneWalks(children[1..], handle, present);
      if OneEach(children) {
        assert OneEach(children[1..]);
        OneEachCons(children[0], WithoutDying(children[1..], handle));
      }
    }
  }

  lemma FadeOutWalks(c: Client, handle: nat)
    requires Walks(c)
    ensures Walks(FinishRemoval(c, handle))
    ensures forall e :: e in FinishRemoval(c, handle).children ==> e in c.children
  {
    GoneOneWalks(c.children, handle, IdSet(c.view));
    if c.rendered {
      SubTrans(Ids(Kept(WithoutDying(c.children, handle), IdSet(c.view))),
               Ids(Kept(c.children, IdSet(c.view))), Render(c.view, c.self));
    }
  }
}

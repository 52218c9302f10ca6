/** What a peer's queue and its browser's session keep, message by message. */
module Following {
  import opened Messages
  import opened Participants
  import opened ClientSpec
  import opened ViewTheorems
  import opened Learning
  import opened Returns

  /** Each message is one the room may send after those before it. */
  ghost predicate AllSensible(ms: seq<Message>, log: seq<Entry>, self: int) {
    forall i :: 0 <= i < |ms| ==> Sensible(ms[..i], ms[i], log, self)
  }

  lemma SensibleLonger(done: seq<Message>, m: Message, log: seq<Entry>, log': seq<Entry>, self: int)
    requires Sensible(done, m, log, self) && forall e :: e in log ==> e in log'
    ensures Sensible(done, m, log', self)
  {
  }

  lemma AllSensibleLonger(ms: seq<Message>, log: seq<Entry>, log': seq<Entry>, self: int)
    requires AllSensible(ms, log, self) && forall e :: e in log ==> e in log'
    ensures AllSensible(ms, log', self)
  {
    forall i | 0 <= i < |ms| ensures Sensible(ms[..i], ms[i], log', self) {
      SensibleLonger(ms[..i], ms[i], log, log', self);
    }
  }

  lemma AllSensibleAppend(ms: seq<Message>, m: Message, log: seq<Entry>, self: int)
    requires AllSensible(ms, log, self) && Sensible(ms, m, log, self)
    ensures AllSensible(ms + [m], log, self)
  {
    var all := ms + [m];
    forall i | 0 <= i < |all| ensures Sensible(all[..i], all[i], log, self) {
      assert all[..i] == if i < |ms| then ms[..i] else ms;
    }
  }

  /** One of the messages is an INFO whose history brings back a peer that was said to be gone before. */
  ghost predicate SomebodyReturns(ms: seq<Message>) {
    exists i, a :: 0 <= i < |ms| && BringsBack(ms[..i], ms[i], a)
  }

  lemma ReturnsAppend(ms: seq<Message>, m: Message)
    ensures SomebodyReturns(ms + [m]) <==> SomebodyReturns(ms) || exists a :: BringsBack(ms, m, a)
  {
    var all := ms + [m];
    forall i, a | 0 <= i < |ms| ensures BringsBack(all[..i], all[i], a) <==> BringsBack(ms[..i], ms[i], a) {
      assert all[..i] == ms[..i];
    }
    assert all[..|ms|] == ms && all[|ms|] == m;
    if a :| BringsBack(ms, m, a) {
      assert BringsBack(all[..|ms|], all[|ms|], a);
    }
    if SomebodyReturns(ms) {
      var i, a :| 0 <= i < |ms| && BringsBack(ms[..i], ms[i], a);
      assert BringsBack(all[..i], all[i], a);
    }
  }

  lemma ReturnsLater(ms: seq<Message>, n: nat)
    requires n <= |ms| && SomebodyReturns(ms[..n])
    ensures SomebodyReturns(ms)
  {
    var i, a :| 0 <= i < n && BringsBack(ms[..n][..i], ms[..n][i], a);
    assert ms[..n][..i] == ms[..i];
    assert BringsBack(ms[..i], ms[i], a);
  }

  /**
   The browser's map after the messages `done`: what they say, with the INFO's history cut off behind the entry
   that threw, if one did.
   */
  ghost predicate Follows(c: Client, done: seq<Message>, n: nat) {
    && UniqueIds(c.view) && ToMap(c.view) == LearntAll(map[], CutAll(done, n))
    && (!c.thrown ==> n == 0)
  }

  ghost predicate BrowserOk(c: Client, done: seq<Message>, log: seq<Entry>, self: int) {
    && (exists n :: Follows(c, done, n))
    && (forall a :: a in IdSet(c.view) ==> Hears(done, a))
    && (c.thrown ==> !NoInfo(done) && SomebodyReturns(done))
    && (!c.thrown ==> PanelOk(c, done, log, self))
    && (!SomebodyReturns(done) ==> Shown(c) && (!NoInfo(done) ==> c.rendered))
  }

  lemma BlankIsOk(log: seq<Entry>, self: int)
    ensures BrowserOk(BLANK, [], log, self)
  {
    assert CutAll([], 0) == [] && LearntAll(map[], []) == map[];
    assert Follows(BLANK, [], 0);
  }

  lemma BrowserOkLonger(c: Client, done: seq<Message>, log: seq<Entry>, log': seq<Entry>, self: int)
    requires BrowserOk(c, done, log, self) && forall e :: e in log ==> e in log'
    ensures BrowserOk(c, done, log', self)
  {
  }

  /** The map after one more message. */
  lemma MapFollows(c: Client, done: seq<Message>, m: Message, log: seq<Entry>, self: int) returns (n: nat)
    requires BrowserOk(c, done, log, self) && Sensible(done, m, log, self) && SoundLog(log)
    ensures Follows(OnMessage(c, m), done + [m], n)
  {
    n :| Follows(c, done, n);
    if m.Info? {
      SnapshotWalks(c, done, m, log, self);
      CutNothing(done, n);
      n := MessageLearns(c, m);
      CutNothing(done, n);
    } else {
      var zero := MessageLearns(c, m);
      if OnMessage(c, m).thrown && !c.thrown {
        assert Cut(m, n) == m;
      }
    }
    CutAppend(done, m, n);
    LearntAppend(map[], CutAll(done, n), Cut(m, n));
  }

  lemma {:induction false} ThrownStaysOver(c: Client, es: seq<Entry>)
    requires c.thrown
    ensures OnEntries(c, es).thrown
    decreases |es|
  {
    if es == [] {
    } else {
      ThrownStaysOver(OnEntry(c, es[0]), es[1..]);
    }
  }

  lemma ThrownStays(c: Client, m: Message)
    requires c.thrown
    ensures OnMessage(c, m).thrown
  {
    if m.Info? {
      ThrownStaysOver(UpdateParticipants(AtSnapshot(c, m)), Replayed(m));
    }
  }

  /**
   One more message: it makes the browser throw exactly if it brings somebody back out of place, and whatever it
   does, the map says what the messages say as far as they were handled.
   */
  lemma MessageKeepsBrowser(c: Client, done: seq<Message>, m: Message, log: seq<Entry>, self: int)
    requires BrowserOk(c, done, log, self) && Sensible(done, m, log, self) && SoundLog(log) && self != 0
    ensures BrowserOk(OnMessage(c, m), done + [m], log, self)
    ensures !c.thrown ==> (OnMessage(c, m).thrown <==> OutOfPlace(c, m))
  {
    var c', done' := OnMessage(c, m), done + [m];
    var n := MapFollows(c, done, m, log, self);
    forall a | a in IdSet(c'.view) ensures Hears(done', a) {
      MessageTeaches(c, m, a);
      HearsAppend(done, m, a);
    }
    ReturnsAppend(done, m);
    assert NoInfo(done') <==> NoInfo(done) && !m.Info? by {
      assert forall x :: x in done' <==> x in done || x == m;
    }
    if !c.thrown {
      MessageWalks(c, done, m, log, self);
      if !SomebodyReturns(done') {
        MessageShown(c, done, m, log, self);
      }
    } else {
      ThrownStays(c, m);
    }
  }

  lemma FadeOutKeepsBrowser(c: Client, done: seq<Message>, log: seq<Entry>, self: int, handle: nat)
    requires BrowserOk(c, done, log, self)
    ensures BrowserOk(FinishRemoval(c, handle), done, log, self)
  {
    var n :| Follows(c, done, n);
    assert Follows(FinishRemoval(c, handle), done, n);
    if !c.thrown {
      FadeOutKeepsPanel(c, done, log, self, handle);
    }
    if !SomebodyReturns(done) {
      RemovalKeepsShown(c.children, handle, IdSet(c.view));
    }
  }
}

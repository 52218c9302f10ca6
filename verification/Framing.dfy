/** `Peer::readMessage`: reassembly of a message from the calls the websocket layer makes for its fragments. */
module Framing {
  import opened Basics

  /** `closed`: an API error was raised, after which the socket's listener gets no further calls. */
  datatype Inbox = Inbox(buffer: Bytes, limit: nat, closed: bool)

  datatype Reading = Nothing | Whole(message: Bytes) | TooLarge

  /** One call: a piece of a message, or no bytes at all for "the message is complete". */
  function Read(b: Inbox, data: Bytes): (Inbox, Reading) {
    if |b.buffer| + |data| > b.limit then (b, TooLarge)
    else if |data| == 0 then (b.(buffer := []), Whole(b.buffer))
    else (b.(buffer := b.buffer + data), Nothing)
  }

  /** An oversized message is answered with an API error, and so is a whole one that the handler refuses. */
  function Answered(b: Inbox, r: Reading, refused: bool): Inbox {
    b.(closed := b.closed || r.TooLarge? || (r.Whole? && refused))
  }

  /**
   The whole messages handed on by a series of calls, and the inbox they leave. `refuses(n, m)` says whether the
   handler refuses message `m` as the `n`th it gets; `n` counts those handed on before.
   */
  function ReadAll(b: Inbox, n: nat, refuses: (nat, Bytes) -> bool, calls: seq<Bytes>): (Inbox, seq<Bytes>)
    decreases |calls|
  {
    if calls == [] || b.closed then (b, [])
    else
      var (b', r) := Read(b, calls[0]);
      if r.Whole? then
        var (last, ms) := ReadAll(Answered(b', r, refuses(n, r.message)), n + 1, refuses, calls[1..]);
        (last, [r.message] + ms)
      else ReadAll(Answered(b', r, false), n, refuses, calls[1..])
  }

  function Concat(fragments: seq<Bytes>): Bytes {
    if fragments == [] then [] else fragments[0] + Concat(fragments[1..])
  }

  predicate NonEmpty(fragments: seq<Bytes>) {
    forall f :: f in fragments ==> f != []
  }

  lemma {:induction false} ReadAppend(b: Inbox, n: nat, refuses: (nat, Bytes) -> bool, xs: seq<Bytes>, ys: seq<Bytes>)
    ensures
      var (mid, before) := ReadAll(b, n, refuses, xs);
      var (last, after) := ReadAll(mid, n + |before|, refuses, ys);
      ReadAll(b, n, refuses, xs + ys) == (last, before + after)
    decreases |xs|
  {
    if xs == [] || b.closed {
      assert xs == [] ==> xs + ys == ys;
      assert [] + ReadAll(b, n, refuses, ys).1 == ReadAll(b, n, refuses, ys).1;
    } else {
      assert (xs + ys)[1..] == xs[1..] + ys;
      var (b', r) := Read(b, xs[0]);
      if r.Whole? {
        var next := Answered(b', r, refuses(n, r.message));
        ReadAppend(next, n + 1, refuses, xs[1..], ys);
        var (mid, before) := ReadAll(next, n + 1, refuses, xs[1..]);
        var after := ReadAll(mid, n + 1 + |before|, refuses, ys).1;
        assert [r.message] + (before + after) == ([r.message] + before) + after;
      } else {
        ReadAppend(Answered(b', r, false), n, refuses, xs[1..], ys);
      }
    }
  }

  lemma {:induction false} FragmentsAdd(b: Inbox, n: nat, refuses: (nat, Bytes) -> bool, fragments: seq<Bytes>)
    requires NonEmpty(fragments) && !b.closed && |b.buffer| <= b.limit
    ensures
      var whole := b.buffer + Concat(fragments);
      ReadAll(b, n, refuses, fragments).1 == [] &&
      if |whole| <= b.limit then ReadAll(b, n, refuses, fragments).0 == b.(buffer := whole)
      else ReadAll(b, n, refuses, fragments).0.closed
    decreases |fragments|
  {
    if fragments == [] {
      assert b.buffer + [] == b.buffer;
    } else {
      assert fragments[0] in fragments;
      var whole := b.buffer + Concat(fragments);
      assert whole == (b.buffer + fragments[0]) + Concat(fragments[1..]);
      var (b', r) := Read(b, fragments[0]);
      if r == Nothing {
        assert forall f :: f in fragments[1..] ==> f in fragments;
        FragmentsAdd(b', n, refuses, fragments[1..]);
      }
    }
  }

  /**
   Fragment independence: however a message is split into non-empty fragments, the handler gets exactly the
   message if it fits the limit, and the inbox is empty for the next one unless the handler refused it;
   otherwise the handler gets nothing and the peer is refused.
   */
  lemma MessageArrivesWhole(limit: nat, n: nat, refuses: (nat, Bytes) -> bool, fragments: seq<Bytes>)
    requires NonEmpty(fragments)
    ensures
      var message := Concat(fragments);
      var (b, ms) := ReadAll(Inbox([], limit, false), n, refuses, fragments + [[]]);
      if |message| <= limit then b == Inbox([], limit, refuses(n, message)) && ms == [message]
      else b.closed && ms == []
  {
    var b := Inbox([], limit, false);
    FragmentsAdd(b, n, refuses, fragments);
    ReadAppend(b, n, refuses, fragments, [[]]);
    var mid := ReadAll(b, n, refuses, fragments).0;
    if !mid.closed {
      assert [] + Concat(fragments) == Concat(fragments);
      assert ReadAll(mid, n, refuses, [[]]).1 == [mid.buffer] + [];
    }
  }

  function Frames(messages: seq<seq<Bytes>>): seq<Bytes> {
    if messages == [] then [] else messages[0] + [[]] + Frames(messages[1..])
  }

  /** The `i`th message of the conversation fits, and the handler accepts it. */
  predicate Fine(limit: nat, n: nat, refuses: (nat, Bytes) -> bool, messages: seq<seq<Bytes>>, i: nat)
    requires i < |messages|
  {
    |Concat(messages[i])| <= limit && !refuses(n + i, Concat(messages[i]))
  }

  ghost predicate AllFine(limit: nat, n: nat, refuses: (nat, Bytes) -> bool, messages: seq<seq<Bytes>>) {
    forall i :: 0 <= i < |messages| ==> Fine(limit, n, refuses, messages, i)
  }

  /** `got` is what the handler sees of the conversation: up to the first oversized or refused message. */
  ghost predicate UpToFirstError(limit: nat, n: nat, refuses: (nat, Bytes) -> bool, messages: seq<seq<Bytes>>,
                                 got: seq<Bytes>) {
    && |got| <= |messages|
    && (forall i :: 0 <= i < |got| ==> got[i] == Concat(messages[i]) && |got[i]| <= limit)
    && (forall i :: 0 <= i < |got| - 1 ==> Fine(limit, n, refuses, messages, i))
    && (|got| < |messages| ==>
        || |Concat(messages[|got|])| > limit
        || (got != [] && !Fine(limit, n, refuses, messages, |got| - 1)))
  }

  lemma OneMoreFine(limit: nat, n: nat, refuses: (nat, Bytes) -> bool, messages: seq<seq<Bytes>>)
    requires messages != [] && Fine(limit, n, refuses, messages, 0)
    ensures AllFine(limit, n, refuses, messages) <==> AllFine(limit, n + 1, refuses, messages[1..])
  {
    var next, rest := n + 1, messages[1..];
    if AllFine(limit, n, refuses, messages) {
      forall i | 0 <= i < |rest| ensures Fine(limit, next, refuses, rest, i) {
        assert Fine(limit, n, refuses, messages, i + 1);
      }
    }
    if AllFine(limit, next, refuses, rest) {
      forall i | 0 <= i < |messages| ensures Fine(limit, n, refuses, messages, i) {
        assert i > 0 ==> Fine(limit, next, refuses, rest, i - 1);
      }
    }
  }

  lemma OneMoreHandled(limit: nat, n: nat, refuses: (nat, Bytes) -> bool, messages: seq<seq<Bytes>>, rest: seq<Bytes>)
    requires messages != [] && Fine(limit, n, refuses, messages, 0)
    requires UpToFirstError(limit, n + 1, refuses, messages[1..], rest)
    ensures UpToFirstError(limit, n, refuses, messages, [Concat(messages[0])] + rest)
  {
    var got := [Concat(messages[0])] + rest;
    forall i | 0 <= i < |got| - 1 ensures Fine(limit, n, refuses, messages, i) {
      if i > 0 {
        assert Fine(limit, n + 1, refuses, messages[1..], i - 1);
      }
    }
    if |got| < |messages| && rest != [] {
      assert Fine(limit, n, refuses, messages, |got| - 1) <==> Fine(limit, n + 1, refuses, messages[1..], |rest| - 1);
    }
  }

  /**
   A whole conversation, whatever the splits: the handler sees the messages in order up to the first one that is
   too large, or up to and including the first one it refuses; and the socket is closed if there is such a one.
   */
  lemma {:induction false} ConversationArrives(limit: nat, n: nat, refuses: (nat, Bytes) -> bool,
                                               messages: seq<seq<Bytes>>)
    requires forall m :: m in messages ==> NonEmpty(m)
    ensures
      var (b, got) := ReadAll(Inbox([], limit, false), n, refuses, Frames(messages));
      && UpToFirstError(limit, n, refuses, messages, got)
      && (b.closed <==> !AllFine(limit, n, refuses, messages))
    decreases |messages|
  {
    if messages == [] {
    } else {
      var b := Inbox([], limit, false);
      assert messages[0] in messages;
      MessageArrivesWhole(limit, n, refuses, messages[0]);
      ReadAppend(b, n, refuses, messages[0] + [[]], Frames(messages[1..]));
      var first := Concat(messages[0]);
      if |first| <= limit && !refuses(n, first) {
        OneMoreFine(limit, n, refuses, messages);
        assert forall m :: m in messages[1..] ==> m in messages;
        ConversationArrives(limit, n + 1, refuses, messages[1..]);
        OneMoreHandled(limit, n, refuses, messages, ReadAll(b, n + 1, refuses, Frames(messages[1..])).1);
      } else {
        assert !Fine(limit, n, refuses, messages, 0);
      }
    }
  }

  /** The buffer never outgrows the limit, whatever calls are made, empty fragments included. */
  lemma {:induction false} BufferIsBounded(b: Inbox, n: nat, refuses: (nat, Bytes) -> bool, calls: seq<Bytes>)
    requires |b.buffer| <= b.limit
    ensures |ReadAll(b, n, refuses, calls).0.buffer| <= b.limit && ReadAll(b, n, refuses, calls).0.limit == b.limit
    ensures forall m :: m in ReadAll(b, n, refuses, calls).1 ==> |m| <= b.limit
    decreases |calls|
  {
    if calls == [] || b.closed {
    } else {
      var (b', r) := Read(b, calls[0]);
      if r.Whole? {
        BufferIsBounded(Answered(b', r, refuses(n, r.message)), n + 1, refuses, calls[1..]);
      } else {
        BufferIsBounded(Answered(b', r, false), n, refuses, calls[1..]);
      }
    }
  }
}

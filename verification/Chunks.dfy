/**
 One `File::Subscriber` together with the HTTP reader that pulls from it, as values.

 `SubscriberState` holds the three fields `readChunk`, `provideFileChunk` and `invalidate` change under
 `m_chunkLock`. `Stream` adds the reader: the phase its coroutine is in, the bytes it was handed so far and
 the number of chunk requests its reads have caused.
 */
module Chunks {
  import opened Basics

  datatype SubscriberState = SubscriberState(valid: bool, progress: nat, chunk: Option<Bytes>)

  const FRESH := SubscriberState(true, 0, None)

  /** What one call of `readChunk` amounts to: two exceptions, bytes, a retry, or the end of the stream. */
  datatype ReadOutcome =
    | NotValid
    | InvalidChunkSize
    | Copied(data: Bytes)
    | Requested(position: nat, size: nat)
    | EndOfStream

  function ReadChunk(s: SubscriberState, fileSize: int, count: nat): (SubscriberState, ReadOutcome) {
    if !s.valid then (s, NotValid)
    else if s.progress < fileSize then
      match s.chunk
      case Some(data) =>
        if |data| > count then (s, InvalidChunkSize)
        else (SubscriberState(s.valid, s.progress + |data|, None), Copied(data))
      case None => (s, Requested(s.progress, count))
    else (s, EndOfStream)
  }

  /** `provideFileChunk` throws "File chunk collision." and changes nothing when a chunk is still buffered. */
  predicate Collides(s: SubscriberState) {
    s.chunk.Some?
  }

  function ProvideChunk(s: SubscriberState, data: Bytes): SubscriberState {
    if Collides(s) then s else s.(chunk := Some(data))
  }

  function Invalidate(s: SubscriberState): SubscriberState {
    s.(valid := false)
  }

  /**
   `Waiting`: `readChunk` returned RETRY_READ and the reader sits in the wait coroutine.
   `Retrying`: the wait coroutine finished, the read is about to be repeated with the same count.
   */
  datatype Reader = Idle | Waiting(count: nat) | Retrying(count: nat) | Ended | Failed | Gone

  datatype Stream = Stream(sub: SubscriberState, reader: Reader, received: Bytes, requests: nat)

  const NEW_STREAM := Stream(FRESH, Idle, [], 0)

  predicate CanRead(st: Stream, count: nat) {
    0 < count && (st.reader == Idle || st.reader == Retrying(count))
  }

  /** A read that returns 0 ends the HTTP body; a read that throws ends it with an error. */
  function AfterRead(st: Stream, fileSize: int, count: nat): Stream {
    var (sub, outcome) := ReadChunk(st.sub, fileSize, count);
    match outcome
    case NotValid => st.(reader := Failed)
    case InvalidChunkSize => st.(reader := Failed)
    case Copied(data) =>
      st.(sub := sub, received := st.received + data, reader := if data == [] then Ended else Idle)
    case Requested(_, _) => st.(reader := Waiting(count), requests := st.requests + 1)
    case EndOfStream => st.(reader := Ended)
  }

  /** The guard under which the wait coroutine and `onNewItem` let a waiting reader go on. */
  predicate WakeGuard(s: SubscriberState) {
    s.chunk.Some? || !s.valid
  }

  predicate CanWake(st: Stream) {
    st.reader.Waiting? && WakeGuard(st.sub)
  }

  function AfterWake(st: Stream): Stream
    requires st.reader.Waiting?
  {
    st.(reader := Retrying(st.reader.count))
  }

  /** The slice of the file that answers a request: `file.slice(position, min(position + size, file.size))`. */
  function Piece(content: Bytes, position: int, size: int): Bytes {
    var posEnd := if position + size > |content| then |content| else position + size;
    if 0 <= position <= posEnd then content[position..posEnd] else []
  }

  // ---- What these come to, whatever the host sends ----

  /**
   Every outcome of a read, with the exact condition for it. Bytes are handed out only where they fit the
   reader's buffer, and only then does the subscriber change.
   */
  lemma ReadFacts(s: SubscriberState, fileSize: int, count: nat)
    ensures
      var (s', outcome) := ReadChunk(s, fileSize, count);
      var unfinished := s.valid && s.progress < fileSize;
      && (outcome.NotValid? <==> !s.valid)
      && (outcome.EndOfStream? <==> s.valid && fileSize <= s.progress)
      && (outcome.Requested? <==> unfinished && s.chunk == None)
      && (outcome.InvalidChunkSize? <==> unfinished && s.chunk.Some? && count < |s.chunk.value|)
      && (outcome.Copied? <==> unfinished && s.chunk.Some? && |s.chunk.value| <= count)
      && (outcome.Copied? ==>
          s.chunk == Some(outcome.data) && |outcome.data| <= count &&
          s' == SubscriberState(true, s.progress + |outcome.data|, None))
      && (!outcome.Copied? ==> s' == s)
      && (outcome.Requested? ==> outcome.position == s.progress && outcome.size == count)
  {
  }

  /**
   What the reader makes of it: bytes are appended and it can read on, no bytes end the body, an exception ends it
   with an error, and a retry counts as one request and parks it.
   */
  lemma ReaderFacts(st: Stream, fileSize: int, count: nat)
    ensures
      var outcome, st' := ReadChunk(st.sub, fileSize, count).1, AfterRead(st, fileSize, count);
      && st'.sub == ReadChunk(st.sub, fileSize, count).0
      && st'.received == st.received + (if outcome.Copied? then outcome.data else [])
      && st'.requests == st.requests + (if outcome.Requested? then 1 else 0)
      && (st'.reader == Failed <==> outcome.NotValid? || outcome.InvalidChunkSize?)
      && (st'.reader == Ended <==> outcome.EndOfStream? || outcome == Copied([]))
      && (st'.reader == Idle <==> outcome.Copied? && outcome.data != [])
      && (st'.reader == Waiting(count) <==> outcome.Requested?)
  {
  }

  /** A chunk is buffered if there is none yet; a revoked subscriber keeps its progress and its chunk. */
  lemma ProvideFacts(s: SubscriberState, data: Bytes)
    ensures ProvideChunk(s, data).chunk == if s.chunk == None then Some(data) else s.chunk
    ensures ProvideChunk(s, data).valid == s.valid && ProvideChunk(s, data).progress == s.progress
    ensures Collides(s) <==> s.chunk != None
    ensures !Invalidate(s).valid && Invalidate(s).progress == s.progress && Invalidate(s).chunk == s.chunk
  {
  }

  /** The bytes from the position on, as many as were asked for and are there. */
  lemma PieceFacts(content: Bytes, position: nat, size: nat)
    ensures |Piece(content, position, size)| ==
      if |content| <= position then 0 else if |content| - position < size then |content| - position else size
    ensures forall i :: 0 <= i < |Piece(content, position, size)| ==>
      Piece(content, position, size)[i] == content[position + i]
  {
  }
}

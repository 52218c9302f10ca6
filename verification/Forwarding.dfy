/** What a client's message means for the subscribers of the room's files. */
module Forwarding {
  import opened Basics
  import opened Messages
  import opened Chunks
  import opened RoomSpec

  /** A subscriber after a chunk message that was judged so. */
  function After(v: ChunkVerdict, file: int, subscriber: int, s: SubscriberState): SubscriberState {
    if v.Forward? && v.file == file && v.subscriber == subscriber then ProvideChunk(s, v.data) else s
  }

  /** A room after a chunk message that was judged so: only the sender hears of it, and only if it was refused. */
  function Answered(r: RoomValue, id: int, v: ChunkVerdict): RoomValue
    requires id in r.peers
  {
    if v.Refused? then ApiFailure(r, id, v.text) else r
  }

  /** Only chunk messages concern subscribers. */
  function Verdict(index: map<int, int>, id: int, raw: RawMessage): ChunkVerdict
    requires Acceptable(raw)
  {
    if raw.code == Some(CODE_FILE_CHUNK_DATA) then CheckChunk(index, id, raw.files) else Ignored
  }

  /** Chunks reach nobody but the subscriber named by a chunk message of the host of its file, if that has room. */
  lemma OnlyHostsFeed(index: map<int, int>, id: int, raw: RawMessage, file: int, subscriber: int, s: SubscriberState)
    requires Acceptable(raw)
    ensures
      var s' := After(Verdict(index, id, raw), file, subscriber, s);
      s' != s ==>
        && raw.code == Some(CODE_FILE_CHUNK_DATA) && file in index && index[file] == id
        && raw.files.Some? && |raw.files.value| == 1 && raw.files.value[0].Some?
        && raw.files.value[0].value.serverFileId == Some(file)
        && raw.files.value[0].value.subscriberId == Some(subscriber)
        && s.chunk == None && s'.chunk == raw.files.value[0].value.data
        && s'.valid == s.valid && s'.progress == s.progress
  {
  }
}

# Verification of Can-Chat

Can-Chat is a chat server with rooms, ping-based liveness and browser-to-browser file sharing: a shared file
stays in its owner's browser, and the server relays it chunk by chunk to any number of HTTP readers. This
project models the server (`server/src`) and the data logic of the chat page (`front/chat/chat.js`) in Dafny
and proves what the two promise together. `dafny verify dfyconfig.toml` checks everything.

There are two layers.

* **State machines on values**, over whose runs the main results are proved. `Streaming` has every packet in
  flight, delivered in any order; `WakeUp` has the finer steps of parking and waking one reader; `Membership`
  has one room with its full log and every member's browser; `FileIndex` has any number of threads under the
  room's two locks; `LobbySpec` has names, room objects and the peers' pointers; `PingPong`, `Framing` and
  `StatisticsSpec` are the smaller machines. An event that is not enabled changes nothing, so a result for all
  event sequences is a result for all interleavings.
* **Classes** (`Server`, `LobbyServer`, `Statistics`, `Browser`) with the source's fields, whose methods change
  them in place with the source's loops. Each method is proved equal to a function of the value layer: the
  room's to those of `RoomSpec`, the subscriber's to those of `Chunks` and `WakeUp`, the page's to those of
  `ClientSpec`. So a wrong branch or a skipped step in a method breaks its contract. What such a
  function does is stated once more in terms of queues, bytes and places: `Effects` does this for the room,
  `Chunks.ReadFacts` and its neighbours for the subscriber, `StatisticsSpec.PushesExactlyIfDue` for the sampling,
  `Participants.MergeFacts` and `ClientSpec.ThrowLeaves` for the panel.

The finer state machines are tied to the same functions. `Membership` runs them as its steps; `RoomIndex` proves
what they keep of the file index; `IndexLinearizes` shows that the calls of `FileIndex`, interleaved as they may
be, amount to them one at a time; `Relay` does the same for the packets of `Streaming`; and `WakeUp` refines the
one wake-up step of `Streaming`.

| files | part of the system |
|---|---|
| `Chunks`, `Streaming`, `StreamTheorems`, `Collisions` | the pull-based file stream: subscriber, reader, host, packets |
| `WakeUp` | the wait coroutine, the wait list and its listener |
| `Messages`, `RoomSpec`, `Effects` | the operations of a room, and what each does to queues, history and tables |
| `Membership`, `MembershipTheorems`, `ViewTheorems` | a room's runs, its history, and the browsers' view of it |
| `RoomCalls`, `RoomCallTheorems`, `Learning` | the calls of arrivals and departures one by one, and who is told of whom |
| `Panel`, `Returns`, `Following`, `ReturnRun` | when a page throws under these calls, and what it knows then |
| `Identity`, `Sharing` | who said what, the file list validator |
| `Participants`, `ClientSpec`, `Browser` | the participants panel, the message handler and the file side of the page |
| `FileIndex`, `RoomIndex`, `IndexLinearizes` | `shareFile` and `removePeerById` under two locks, and as operations of the room |
| `Forwarding`, `Relay` | what a chunk message does to subscribers, and the file stream as part of a room |
| `Seating`, `LobbySpec`, `LobbyTheorems`, `LobbyServer`, `LobbyCalls` | the lobby, and its callbacks step by step |
| `PingPong`, `Framing`, `StatisticsSpec`, `Statistics` | ping and pong, message fragments, the statistics window |
| `Server` | the classes `Subscriber`, `ReadCallback`, `File`, `Peer`, `Room` |
| `Basics`, `Sums` | shared vocabulary, sums over finite maps |

## What is assumed

* An honest host behaves like `chat.js`: the size it declares is the file's real size, it answers a request at
  most once and with the slice that was asked for, and the file does not change. Which peers are honest is a
  parameter of every run; all others may declare any size and inject any reply under their own identity.
* One reader per subscriber, with a positive buffer size that is the same when a read is repeated after a
  request.
* Each request message carries one file, as the server builds it. The page's handler shares two variables
  between the files of one message, so its answers to several files at once would not be independent.
* Messages of one socket arrive in order for the membership results; the streaming results do not need this.
* In `Membership` and `LobbySpec` each lobby callback is one step. The code does not lock across a callback;
  `RoomCalls` drops this assumption and takes `welcomePeer`, `addPeer`, `onboardPeer`, `removePeerById` and
  `goodbyePeer` as steps of their own, with anything in between, and `LobbyCalls` does so for looking a room up,
  joining it, leaving it, finding it empty and deleting it. Each of these calls is still one step.
* A page that throws keeps what it changed up to then and handles the next message, as a browser does.
* After an API error the socket's listener gets no further calls; what the library does about an exception that
  leaves a handler is not modelled.
* A message of a peer whose socket the ping loop has dropped is handled like any other, unless the answer is an
  API error: the error coroutine uses the socket, so those need it.
* Decoding base64 inverts encoding it. Clock readings and the order in which a hash table is walked are
  arbitrary.

## Findings

* Room calls can deadlock: a share takes the file lock and then the peer lock, a removal takes them the other
  way round. `FileIndex.StuckExactlyInLockCycle` says exactly when, `FileIndex.LockCycleIsReachable` gives a run.
  Callers that let no share overlap a removal are safe (`FileIndex.NoOverlapNeverStuck`), and any overlap that
  starts while both locks are free can be scheduled into the deadlock (`FileIndex.OverlapCanStick`).
* Arrivals that overlap can leave one browser without the other peer for good. `RoomCalls.Due` says exactly whom a
  peer is told of, for all interleavings of the calls (`RoomCallTheorems.ToldExactlyIfDue`,
  `RoomCallTheorems.KnowsExactlyWhoIsDue`): those welcomed while it was in the table, those in the table at its
  onboarding, and those whose welcome was still in the history then. So a peer that is added after another
  one's welcome and onboarded before that one's addition misses it if and only if more was posted in between
  than the history keeps (`RoomCallTheorems.BetweenDecides`); `RoomCallTheorems.OverlapLosesPeer` gives a run.
* Such overlaps can also make a page throw, at `peers[peerIndex]` in `front/chat/chat.js:434-436`. A connected page
  throws exactly where its INFO's history puts a peer back whose element is still fading out of its place
  (`RoomCallTheorems.ThrowsExactlyIfOutOfPlace`): somebody in the map other than oneself has an element behind the
  fading one and a name that does not sort after the returning peer's, or one in front of it and a name that does
  (`Panel.ReturnThrows`). That takes a peer whose departure was sent before the INFO; a page to which nobody comes
  back so never throws and shows its map (`RoomCallTheorems.NeverThrowsIfNobodyReturns`). `ReturnRun.ReturnThrowsInARun`
  is a run of eleven calls; the rest of the history is skipped and the departed peer stays in the page's map,
  which was changed before the update.
* A room can be deleted between a newcomer's look-up and its addition, or by a second departure after a new room
  took the name. A peer's name leads to its own room object if and only if the name was not deleted since the
  look-up, and two peers meet if and only if they looked up one name with no deletion in between, for all
  interleavings (`LobbyCalls.LedExactlyIfNotDeleted`); `LobbyCalls.NewcomerIsStranded` gives a run.
* The ping counter does not tell an unsolicited pong from an answer: `PingPong.UnsolicitedPongDrops` shows a
  responsive peer being dropped, `PingPong.KeptExactlyIfEven` says exactly which sequences keep a peer.
* A host that sends a reply too many can make the server throw "File chunk collision."
  (`StreamTheorems.DishonestHostCollides`). A chunk collides if and only if its subscriber accepted one chunk more
  than its reads have copied (`Collisions.CollidesExactlyIfUnread`), and one reply per request is enough to be
  safe, whoever the host is and whatever it sends (`Collisions.OneReplyEachNeverCollides`).
* The file list validator's verdict is thrown away (`server/src/rooms/Peer.cpp:168`). `Sharing.EmptyListIsShared`
  gives the input: an empty list is refused by the validator and broadcast. `Sharing.ValidatorIsIgnored` says it
  for all lists whose client ids and sizes are there: each is posted and none is answered with an error, and what
  is posted is a list of named files if and only if the validator accepts it. A list, an entry, a client id or a
  size that is missing is dereferenced all the same; `RoomSpec.Acceptable` says which messages do not do that,
  and handling is modelled for those.

## Model

| member | source | states |
|---|---|---|
| StreamTheorems.ReassemblyIsExact | server/src/rooms/File.cpp:105-134 | in every run, for any number of files and readers and any delivery order, a reader of an honest host's file got exactly the first `m_progress` bytes of the file shared under that `serverFileId`, and at end of stream the whole file |
| StreamTheorems.OneOutstanding | server/src/rooms/File.cpp:46-134 | a registered subscriber of an honest host has at most one request in flight, reply in flight or buffered chunk, and it is for position `m_progress` |
| StreamTheorems.ErrorsUnreachable | server/src/rooms/File.cpp:46-53 | with an honest host no delivery collides with a buffered chunk and no read finds a chunk larger than its buffer |
| Chunks.ReadFacts | server/src/rooms/File.cpp:105-134 | every outcome of a read with the exact condition for it, for any subscriber and host: bytes are handed out only if they fit the reader's buffer, and only then does the subscriber change |
| Chunks.ReaderFacts | server/src/controller/FileController.hpp:70-76 | bytes are appended, no bytes end the body, an exception ends it with an error, and only a retry counts as a request |
| Chunks.ProvideFacts | server/src/rooms/File.cpp:46-53 | a chunk is buffered exactly if none is, and a revoked subscriber keeps its progress and its chunk |
| StreamTheorems.ReadsFitTheirBuffer | server/src/rooms/File.cpp:115-119 | in every run, honest host or not, no step hands a reader more bytes than the buffer of its read holds; a read that finds a longer chunk ends the download with an error and hands out nothing |
| StreamTheorems.DishonestHostCollides | server/src/rooms/File.cpp:48-50 | a run in which a host's second unrequested reply collides |
| Collisions.CollidesExactlyIfUnread | server/src/rooms/File.cpp:46-53 | in every run, honest host or not, the chunks a subscriber accepted are those copied and the one buffered, and a chunk of the host for a registered subscriber collides if and only if one more was accepted than copied |
| Collisions.OneReplyEachNeverCollides | server/src/rooms/File.cpp:46-134 | a host that at every point has sent at most as many replies for a subscriber as that subscriber sent requests never causes a collision, whatever size it declared and whatever bytes it sends |
| StreamTheorems.HostGoneMeansError | server/src/rooms/Room.cpp:98-118 | after a host's removal every subscriber registered on its files throws on its next read, received nothing more and never sees an end of stream, whatever happens in between |
| StreamTheorems.DepartedStaysDeparted | server/src/rooms/File.cpp:42-44 | a destroyed subscriber is not registered, its id is never reused, and no later event touches it |
| StreamTheorems.StrayChunkIgnored | server/src/rooms/File.cpp:174-183 | a chunk for an unregistered subscriber, or from a peer that is not the file's host, changes no subscriber |
| StreamTheorems.ServedBytesAreProgress | server/src/controller/FileController.hpp:70-76 | FILE_SERVED_BYTES is the sum of `m_progress` over all subscribers ever created, in every run, honest hosts or not |
| StreamTheorems.DownloadTerminates | server/src/rooms/File.cpp:80-134 | in any run in which the host stays, no packet is lost and the reader is not closed, a download takes at most `Measure` own steps, can always take one until it has ended, and has then received the file |
| StreamTheorems.OwnStepAdvances | server/src/rooms/File.cpp:105-134 | every read, wake-up, answer and delivery of a download decreases bytes left and protocol phase, lexicographically |
| StreamTheorems.OtherStepKeepsMeasure | server/src/rooms/File.cpp:162-183 | steps of other readers, files and peers leave that measure alone |
| StreamTheorems.SubscriptionFlows | server/src/rooms/File.cpp:167-172 | a fresh subscription has a new key and is such a download, with its measure bounded by the file size |
| StreamTheorems.RequestsAreCeiling | server/src/rooms/File.cpp:55-78 | with a constant buffer size `c` a completed download sent exactly the ceiling of size over `c` requests |
| Streaming.StepKeepsInv | server/src/rooms/Peer.cpp:197-228 | every step of the relay keeps the invariant tying tables, readers, buffered chunks and packets in flight |
| WakeUp.NoLostWakeUp | server/src/rooms/File.hpp:51-56 | under every interleaving of check, park, `onNewItem`, provide, invalidate and spurious wake-ups, a parked reader whose checks are done has no chunk and is valid |
| WakeUp.RequestsOnlyFromIdle | server/src/rooms/File.cpp:126-128 | only a read that starts afresh sends a request; no wake-up causes a second one, and parked readers may be woken at any time for no reason |
| WakeUp.WaitingEnds | server/src/rooms/File.cpp:91-97 | once a chunk is there or the subscriber is revoked, the reader leaves the wait after boundedly many steps, one of which is always possible |
| WakeUp.FineRefinesCoarse | server/src/rooms/File.cpp:80-103 | seen through the stream every step of parking and notifying is one step of the streaming model or none; and from any waiting state the coroutine and the list by themselves reach exactly the state of its wake-up if and only if the guard holds |
| WakeUp.InternalStepsWake | server/src/rooms/File.cpp:80-103 | any number of coroutine and list steps leave the stream alone or do exactly the one guarded wake-up |
| ViewTheorems.ViewsConverge | front/chat/chat.js:606-669 | in every run, for every history limit, with messages of peers whose socket was dropped included: a connected browser that handles its pending messages holds exactly the room's members with their names, its panel shows them sorted without itself, and its handler never throws |
| ViewTheorems.Drained | front/chat/chat.js:610-650 | from any state of a session, snapshot and replayed history included, the pending messages lead to the member map |
| ViewTheorems.InfoShows | front/chat/chat.js:610-635 | the INFO message, its history replayed over the snapshot, leaves a panel that agrees with the map and a map the remaining messages complete |
| RoomCallTheorems.ToldExactlyIfDue | server/src/rooms/Room.cpp:33-87 | with the calls of all arrivals and departures interleaved in any way: a connected peer was sent word of exactly the peers it is due to be told of (in the table at their welcome, or they in the table at its onboarding, or their welcome in the history then), and its page never has another one in its map, not even after it threw |
| RoomCallTheorems.KnowsExactlyWhoIsDue | front/chat/chat.js:606-669 | the map of the browser that handles what is pending is what the messages say, with the INFO's history cut off behind one entry if its handler threw; if it did not, these are exactly the announced peers that have not left, and with nobody on the way in or out they are the members if and only if all of those were due |
| RoomCallTheorems.ThrowsExactlyIfOutOfPlace | front/chat/chat.js:402-472 | in every run of these calls, a page that has not thrown yet throws on its next message if and only if that is its INFO and some entry of its history puts a peer back that has left the map but whose element is still there and out of its place; such a peer's departure was sent before the INFO |
| RoomCallTheorems.NeverThrowsIfNobodyReturns | front/chat/chat.js:606-669 | a page whose INFO brings back nobody that was said to be gone before it never throws, and its panel shows its map at every moment |
| Panel.ReturnThrows | front/chat/chat.js:430-454 | for any panel that can be updated: putting a peer back whose old element is still fading throws if and only if somebody of the map has an element behind it and a name that does not sort after, or in front of it and a name that does |
| Returns.MessageWalks | front/chat/chat.js:606-669 | one message keeps a panel that can be updated, but for the INFO of that kind, which throws |
| ReturnRun.ReturnThrowsInARun | front/chat/chat.js:434-454 | a run of eleven calls from the empty room, with a limit of 10, after which a connected peer's page throws and keeps a departed peer in its map |
| RoomCallTheorems.DueIsForGood | server/src/rooms/Lobby.cpp:88-90 | once one peer is welcomed and another onboarded, no later event changes whether that one is told |
| RoomCallTheorems.BetweenDecides | server/src/rooms/Lobby.cpp:88-90 | a peer added after another one's welcome and onboarded before its addition is told of it if and only if what was posted from that welcome to the onboarding, by anybody, fits the history limit |
| RoomCallTheorems.OverlapLosesPeer | server/src/rooms/Lobby.cpp:88-90 | a run of four calls in which a peer is not told of another one |
| RoomCallTheorems.CallKeepsInv | server/src/rooms/Lobby.cpp:88-102 | every single call keeps log, records, queues and sessions consistent |
| Identity.NobodyIsImpersonated | server/src/rooms/Peer.cpp:321-325 | in every run, whatever identity clients claim: each client message in the log, the history, a queue or a queued snapshot was said by some event of the run, a message on the socket of just the peer it names and under that peer's name in the table; and the log has at most one arrival and one departure per peer, in this order |
| Identity.StepSays | server/src/rooms/Peer.cpp:230-260 | a client message that is there after a step was there before it, or the step is its sender saying it |
| Identity.SaidIsHeard | server/src/rooms/Peer.cpp:236-248 | in every run, what a client message says is queued once for every member with a socket, the sender included, and for nobody without one; all but typing notes become the newest entry of log and history |
| Sharing.EmptyListIsShared | server/src/rooms/Peer.cpp:143-168 | the input: an empty list fails validation, and the room posts it |
| Sharing.ValidatorNamesFirstFault | server/src/rooms/Peer.cpp:143-163 | the validator accepts exactly the non-empty lists of files that have client id, name and size, and names the first thing missing otherwise |
| Sharing.ValidatorIsIgnored | server/src/rooms/Peer.cpp:165-195 | every list with client ids and sizes is shared, announced to everybody, kept, and answered with no error, whatever the validator says; the announced list is well formed if and only if the validator accepts |
| Membership.SuffixReplay | server/src/rooms/Room.cpp:136-152 | replaying any suffix of a log over the outcome of the whole log changes nothing, however much was truncated |
| Membership.SuffixIsSmooth | server/src/rooms/Room.cpp:38-51 | a suffix of a well-formed log replayed over the members never brings back a peer that left or renames one |
| MembershipTheorems.HistoryIsSuffix | server/src/rooms/Room.cpp:120-134 | the retained history is the last min(limit, total) messages ever added, limit 0 included |
| MembershipTheorems.HandleFacts | server/src/rooms/Peer.cpp:230-260 | every client message is one of these: what its sender uttered under the identity stamped on it, which everybody with a socket gets once and which is kept unless it is a typing note; an error the sender alone gets; or nothing to the room |
| Effects.ChatReachesAll | server/src/rooms/Peer.cpp:238-242 | a chat message is queued once for everybody with a socket, under the sender's name and the server's time, and is the newest of the history; the tables stay as they are |
| Effects.TypingReachesAll | server/src/rooms/Peer.cpp:244-245 | a typing note goes to everybody and is not kept |
| Effects.FilesReachAll | server/src/rooms/Peer.cpp:165-195 | shared files get the next ids in order, are the sender's in index and list, and are announced to everybody in one message with names and sizes, which is kept |
| Effects.WrongCodeIsAnswered | server/src/rooms/Peer.cpp:232-254 | a message without a code or with an unknown one is an error only its sender hears of |
| Effects.ChunkIsJudged | server/src/rooms/Peer.cpp:197-228 | a chunk is forwarded, unchanged and to the subscriber it names, exactly if it is complete and from the host of an indexed file, ignored exactly if it is complete and there is no such file, and otherwise refused for the first thing wrong |
| Effects.ChunkIsAnswered | server/src/rooms/Peer.cpp:197-228 | nobody in the room hears of a chunk message but its sender, and it only of a refusal |
| Effects.ArrivalReachesAll | server/src/rooms/Room.cpp:33-75 | an arrival goes to all who were there and is kept; the newcomer is in the table with a socket, no files, and just the snapshot with the whole history in its queue |
| Effects.DepartureReachesAll | server/src/rooms/Room.cpp:77-118 | a departure goes to all who stay and is kept; exactly the peer's own files leave the index |
| Effects.RoundReachesAll | server/src/rooms/Room.cpp:190-199 | a round pings exactly the members that have a socket and answered all pings; the others lose the socket |
| MembershipTheorems.NewcomerIsTold | server/src/rooms/Room.cpp:53-75 | in every run a newcomer's first message is the snapshot with the last min(limit, total) messages ever added, of every kind, its own arrival the newest |
| Forwarding.OnlyHostsFeed | server/src/rooms/Peer.cpp:216-224 | a subscriber changes only by a chunk message of its file's host that names it, and only if it has no chunk buffered; it then has the bytes of that message |
| MembershipTheorems.StepKeepsLog | server/src/rooms/Room.cpp:77-87 | every step keeps the log well-formed, its replay equal to the member table and the history its suffix |
| Participants.BeforeIsStrictOrder | front/chat/chat.js:360-364 | `cmpPeers` rests on a strict total order of names |
| Participants.ComparesNames | front/chat/chat.js:360-364 | `cmpPeers` is negative exactly if the first name is smaller where the two first differ, or ends there; 0 exactly for equal names; and antisymmetric |
| Participants.PutInPlace | front/chat/chat.js:637-644 | setting a present key keeps its place in the map's order, whatever the name |
| Participants.SortIsSorted | front/chat/chat.js:386-387 | the sort's result is sorted and a permutation of `peersMap` |
| Participants.SortIsStable | front/chat/chat.js:411-412 | peers of equal names stay in the order in which they entered the map |
| Participants.SortThenKeep | front/chat/chat.js:360-364 | sorting commutes with leaving peers out |
| Participants.MergeFacts | front/chat/chat.js:419-463 | the incremental merge shows the ids of a full rendering, and without the new elements it is the old list with the departed marked |
| Participants.MergeElements | front/chat/chat.js:419-463 | after the merge an element whose peer is gone is fading, a new one's peer is present, and no present peer's element starts to fade |
| Participants.CompatibleMerges | front/chat/chat.js:434-454 | between two maps that agree on the order of common peers the merge never runs off the end |
| ClientSpec.FirstRendering | front/chat/chat.js:366-400 | the first update renders the whole map and establishes that panel and map agree |
| ClientSpec.UpdateShows | front/chat/chat.js:402-472 | an update after a compatible change succeeds, shows the new map, and every survivor keeps its element and place |
| ClientSpec.MergeEqualsRender | front/chat/chat.js:402-472 | after any run of fresh inserts, same-name re-sets, deletes and finished fade-outs the panel is the stable sort of the map without oneself, `peerIndex` never ran off the end, and every element whose peer stayed throughout is still in the panel |
| ClientSpec.ThrowLeaves | front/chat/chat.js:430-454 | what a throwing update leaves: all old elements in their order with the departed fading, and everybody there is to show in front of the one it stopped at |
| ClientSpec.ClosedIsEmpty | front/chat/chat.js:593-599 | after a closed socket the map is empty, every element is fading in its place, and nothing is thrown |
| ClientSpec.FadedGoes | front/chat/chat.js:342-354 | the end of a transition takes exactly the fading element out |
| Panel.RenderIsInOrder | front/chat/chat.js:386-396 | what is to be shown is everybody in the map but oneself, once, in the order of the names |
| Browser.Page.RemoveIfDeparted | front/chat/chat.js:421-426 | one child starts to fade exactly if its peer is not in the map, and is collected otherwise |
| Browser.Page.RemoveDeparted | front/chat/chat.js:419-428 | exactly the departed peers' elements start to fade, the others are collected in order |
| Browser.Page.InsertBefore | front/chat/chat.js:434-454 | one kept child's inner loop inserts an element for each other peer sorted before it, right in front of it, and throws exactly if its peer does not come, with all of those inserted |
| Browser.Page.InsertMissing | front/chat/chat.js:430-454 | the outer loop computes the merge up to the last kept child, and throws exactly if the kept ids are not a subsequence of the sorted others; the panel it leaves then is exact too |
| Browser.Page.AppendPeers | front/chat/chat.js:456-464 | one new element at the end per remaining peer but oneself, in order |
| Browser.Page.CreateParticipantsList | front/chat/chat.js:366-400 | the full rendering: everybody but oneself in sorted order, each in a new element |
| Browser.Page.MergeParticipants | front/chat/chat.js:407-463 | the incremental loops in place compute `Participants.Merge`, up to the child they throw at if they do |
| Browser.Page.UpdateParticipants | front/chat/chat.js:402-472 | the method equals the function the panel theorems are about, the half-done panel after a throw included |
| Browser.Page.OnInfo | front/chat/chat.js:610-635 | snapshot into the map, update, then history or one's own arrival, as the specification function has it; a throw ends the handler there |
| Browser.Page.OnHistory | front/chat/chat.js:621-624 | history messages are handled one by one, up to the first that throws |
| Browser.Page.OnEntry | front/chat/chat.js:637-650 | arrivals and departures change the map and the panel, other messages neither |
| Browser.Page.OnMessage | front/chat/chat.js:606-669 | the handler equals its specification on map and panel, and sends exactly the answers to chunk requests |
| Browser.Page.OnClose | front/chat/chat.js:593-599 | a closed socket empties the map and fades everybody out |
| Browser.Page.SendFileChunks | front/chat/chat.js:474-524 | a request for a file the page has under the client id is answered once, with the piece at the asked position clipped to the file; without such a file nothing is sent |
| Browser.Page.HandleFiles | front/chat/chat.js:526-550 | every chosen file is kept under a new id and announced under it with its real size; older files are untouched, and no other id is taken |
| Browser.AnswerGoesBack | server/src/rooms/Peer.cpp:197-228 | whatever else the page has: its answer is a chunk message with the bytes of the file the request names by client id, from the position asked for, which the server forwards to exactly the subscriber that asked if it comes from the host, and refuses otherwise |
| Browser.NothingElseIsAnswered | front/chat/chat.js:480-481 | a request for a file the page does not have, and any other message, gets no answer |
| Browser.AnnouncedIsShared | server/src/rooms/Peer.cpp:165-195 | the server accepts the page's announcement: everybody gets one list with each file under the next id with its name and real size, and every file is in the index as the page's |
| FileIndex.IndexIsUnion | server/src/rooms/Room.cpp:154-172 | under every lock-respecting interleaving, whenever no share or removal is half way, `m_fileById` is exactly the disjoint union of the members' own lists, with ids below the counter |
| FileIndex.IndexedHostIsMember | server/src/rooms/Room.cpp:98-118 | at every moment an indexed file's host is a member and lists the file |
| FileIndex.StuckExactlyInLockCycle | server/src/rooms/Room.cpp:156-158 | the calls of a room are stuck if and only if a share between its locks meets a removal waiting for the file lock |
| FileIndex.LockCycleIsReachable | server/src/rooms/Room.cpp:100-106 | a run of two members that gets stuck |
| FileIndex.NoOverlapNeverStuck | server/src/rooms/Room.cpp:98-172 | a state in which no share runs beside a removal is never stuck |
| FileIndex.OverlapCanStick | server/src/rooms/Room.cpp:98-172 | whenever a share and a removal of a member are called while both locks are free, three steps get them stuck |
| FileIndex.StepKeepsInv | server/src/rooms/Room.cpp:98-172 | every step of every thread keeps locks, lists and index consistent |
| IndexLinearizes.CallsTakeEffectOneAtATime | server/src/rooms/Room.cpp:98-172 | linearizability: in every interleaving members and lists are what the room's own operations produce in the order of the commits, the counter is theirs or one ahead while a share has its number only, and whenever no call is half way the index is theirs too |
| IndexLinearizes.StepCommits | server/src/rooms/Room.cpp:98-172 | every step of a thread is the operation it commits, or none |
| IndexLinearizes.CallsCommitOnce | server/src/rooms/Room.cpp:98-172 | a call commits on exactly one of its steps and cannot return before |
| RoomIndex.RoomIndexIsUnion | server/src/rooms/Room.cpp:154-172 | in every run of arrivals, departures and client messages the room's index is exactly the disjoint union of the members' lists, with ids below the counter |
| RoomIndex.ShareKeepsIndex | server/src/rooms/Room.cpp:154-172 | a share keeps that, under an id that was free, and indexes the file for its host |
| RoomIndex.RemoveKeepsIndex | server/src/rooms/Room.cpp:98-118 | a removal keeps that, and takes exactly the peer's own files out |
| Relay.RelayRunsInARoom | server/src/rooms/Room.cpp:98-172 | every run of the streaming model has the members, counter, index and lists that the room's own operations lead to |
| Relay.DeliveryIsHandled | server/src/rooms/Peer.cpp:197-228 | a delivery of the streaming model is judged, collides and changes every registered subscriber as the server's handler of that chunk message does |
| Relay.DepartureIsRemoval | server/src/rooms/Room.cpp:98-118 | a departure of the streaming model revokes exactly the subscribers registered with the files the room lists for the peer |
| Seating.EnterKeepsInv | server/src/rooms/Lobby.cpp:33-40 | a newcomer in the object behind a name, or in a new one, keeps names, objects and pointers in agreement |
| Seating.ExitKeepsInv | server/src/rooms/Lobby.cpp:105-107 | so does a departure through the peer's own pointer and the deletion of the emptied room by its name |
| LobbySpec.RoomsLiveWithTheirPeers | server/src/rooms/Lobby.cpp:77-109 | between callbacks every room in the table is non-empty, every connected peer is in the one room object it points to and that object is the one its name leads to, and CONNECTED minus DISCONNECTED is the sum of the member counts |
| LobbySpec.ArriveKeepsInv | server/src/rooms/Lobby.cpp:77-92 | an arrival keeps that; the newcomer's id is the counter's, no connected peer has it, and the counter moves past it |
| LobbySpec.DepartKeepsInv | server/src/rooms/Lobby.cpp:94-109 | a departure keeps that |
| LobbyTheorems.RoomsRunAlone | server/src/rooms/Lobby.cpp:33-54 | in every lobby run each room object is in a state a run of one room by itself reaches from empty, so what holds of the room in all its runs holds in the lobby |
| LobbyTheorems.LobbyViewsConverge | front/chat/chat.js:606-669 | in every lobby run, for every room object and connected peer in it, a browser that handles everything the peer was sent shows exactly the members of its room |
| LobbySpec.RoundReachesEverybody | server/src/rooms/Lobby.cpp:68-71 | in every lobby run a round gets to every connected peer of every room, once |
| LobbySpec.ChatStaysInItsRoom | server/src/rooms/Peer.cpp:238-242 | in every lobby run a chat message gets to every connected peer of its sender's room, once, and to nobody of any other room object |
| LobbyServer.Lobby.GetOrCreateRoom | server/src/rooms/Lobby.cpp:33-40 | the object behind the name, or a new empty one, is in the table afterwards |
| LobbyServer.Lobby.OnAfterCreate | server/src/rooms/Lobby.cpp:77-92 | the new peer points to the room object its name leads to, got the next id, and that room changed by exactly welcome, add and onboard; the table stays tidy: no room in it is empty and every member points back to the room its name leads to |
| LobbyServer.Lobby.OnBeforeDestroy | server/src/rooms/Lobby.cpp:94-109 | the peer's own room loses it and says goodbye, its files' downloads are revoked and their readers woken, its socket is gone, and the room leaves the table exactly if it is now empty; the table stays tidy |
| LobbyServer.Lobby.PingRooms | server/src/rooms/Lobby.cpp:68-71 | one round has every room of a tidy table ping all its peers exactly once, whatever order the table is walked in |
| LobbyCalls.LedExactlyIfNotDeleted | server/src/rooms/Lobby.cpp:33-54 | with the steps of both callbacks interleaved in any way: a peer's name leads to the object it points to if and only if the name was not deleted since its look-up, two peers point to one object if and only if they looked up one name with no deletion of it in between, and a seated peer is a member of just that object |
| LobbyCalls.NewcomerIsStranded | server/src/rooms/Lobby.cpp:77-109 | a run in which a room is deleted between a newcomer's look-up and its addition, and the next peer of that name gets another room |
| PingPong.KeptExactlyIfEven | server/src/rooms/Peer.cpp:92-99 | for any peer: the counter is rounds minus pongs, and the socket survives if and only if that difference was 0 at every round |
| PingPong.DroppedExactlyIfSilent | server/src/rooms/Room.cpp:190-199 | a peer that answers only pings, once each (section 5.5.3 of RFC 6455), has a counter of 0 or 1 between rounds and is dropped at a round exactly if the previous ping is unanswered |
| PingPong.UnsolicitedPongDrops | server/src/rooms/Peer.cpp:293-296 | a pong nobody asked for costs a responsive peer its socket at the next round |
| PingPong.RunFeels | server/src/rooms/Peer.cpp:62-101 | in a whole room's runs a peer's socket and counter depend on the rounds and its own pongs alone |
| PingPong.DroppedStaysSilent | server/src/rooms/Peer.cpp:56-58 | a dropped peer never gets another ping or message, nor its socket back |
| Framing.MessageArrivesWhole | server/src/rooms/Peer.cpp:302-333 | however a message is split into non-empty fragments (section 5.4 of RFC 6455), it is handled as their concatenation if it fits the limit, and refused otherwise; the buffer is empty again and the socket open exactly if the handler did not refuse it |
| Framing.ConversationArrives | server/src/rooms/Peer.cpp:302-333 | over a whole conversation, for any verdicts of the handler, exactly the messages up to the first one that is oversized or refused are handled, the refused one included, and the socket is closed if and only if there is such a one |
| Framing.BufferIsBounded | server/src/rooms/Peer.cpp:304-306 | the buffer never exceeds the limit, whatever calls are made |
| StatisticsSpec.RetainedIsWindow | server/src/utils/Statistics.cpp:30-60 | for any clock readings the retained points are the filter of all points ever pushed to those within the period of the newest, and never none |
| StatisticsSpec.RetainedIsBounded | server/src/utils/Statistics.cpp:43-60 | retained points are at least the push interval apart, at most period over interval plus one, and counters never fall along them |
| StatisticsSpec.PushesExactlyIfDue | server/src/utils/Statistics.cpp:41-61 | for any points and clock: a sample pushes a point with its time and counters, and drops just the ones too old in front, exactly if there is no point or the newest is at least the push interval old; a nearer one changes only the newest point's counters |
| StatisticsSpec.EveryPushIsDue | server/src/utils/Statistics.cpp:41-53 | the same of all points ever pushed |
| Statistics.Statistics.Prune | server/src/utils/Statistics.cpp:54-58 | the popping loop drops exactly the points too old, and never the newest |
| Statistics.Statistics.TakeSample | server/src/utils/Statistics.cpp:30-76 | one call equals one step of the sampled window; a point is pushed exactly if there is none or the newest is at least the push interval old, and otherwise only the newest point's counters change |
| Server.Subscriber.ProvideFileChunk | server/src/rooms/File.cpp:46-53 | the chunk is buffered and whoever is parked checks again, or a collision is reported and nothing changes |
| Server.Subscriber.RequestChunk | server/src/rooms/File.cpp:55-78 | a valid subscriber asks its host for the chunk at `m_progress` |
| Server.Subscriber.ReadChunk | server/src/rooms/File.cpp:105-134 | state and outcome are those of the streaming model; no more bytes are handed out than the buffer holds, and a longer chunk is an error that changes nothing; exactly in the retry case a request goes out and the wait coroutine starts |
| Server.Subscriber.Invalidate | server/src/rooms/File.cpp:140-144 | the subscriber is revoked, keeps its progress and chunk, and whoever is parked checks again |
| Server.Subscriber.Act | server/src/rooms/File.cpp:91-97 | the wait ends exactly if a chunk is there or the subscriber is revoked |
| Server.Subscriber.OnNewItem | server/src/rooms/File.hpp:51-56 | a parked reader is woken exactly if its wait is over |
| Server.ReadCallback.Read | server/src/controller/FileController.hpp:70-76 | the byte counter grows by exactly what the progress grows by; otherwise the call is the subscriber's |
| Server.File.Subscribe | server/src/rooms/File.cpp:167-172 | a fresh subscriber under an id not used before |
| Server.File.ProvideFileChunk | server/src/rooms/File.cpp:174-183 | the chunk reaches the named subscriber and no other, and whoever is parked there checks again; an unknown one is ignored |
| Server.File.ClearSubscribers | server/src/rooms/File.cpp:205-211 | every registered subscriber is revoked and woken, and the table is empty |
| Server.Peer.ReadMessage | server/src/rooms/Peer.cpp:302-333 | the piece is buffered or refused as in the framing model; a whole message is parsed, stamped with this peer's identity and handled, a chunk in it reaches the subscriber it names, and the inbox is closed exactly if the message was oversized, did not parse or was refused |
| Server.UnreadIsAnswered | server/src/rooms/Peer.cpp:302-320 | a piece of a message is felt by nobody, one too many or a message that does not parse only by its sender, who gets the error and whose connection ends |
| Server.Peer.SendMessageAsync | server/src/rooms/Peer.cpp:33-60 | the message is queued exactly if the socket is still there |
| Server.Peer.SendPingAsync | server/src/rooms/Peer.cpp:62-101 | a ping goes out exactly if the socket is there and nothing is unanswered; the counter grows in any case |
| Server.Peer.OnApiError | server/src/rooms/Peer.cpp:103-141 | only the offending peer's socket gets the error, and its inbox is closed |
| Server.Peer.ValidateFilesList | server/src/rooms/Peer.cpp:143-163 | the first fault of the list in order, or none |
| Server.Peer.HandleFilesMessage | server/src/rooms/Peer.cpp:165-195 | all files are shared in order under consecutive ids, each as an object of this peer with the client id, name and size of the message, and announced in one message under the sender's identity, whatever the validator said; older files stay, and the room stays consistent |
| Server.Peer.HandleFileChunkMessage | server/src/rooms/Peer.cpp:197-228 | each malformed case gets its error and closes the inbox; a chunk from the host reaches the subscriber it names and no other subscriber of any file |
| Server.Peer.HandleMessage | server/src/rooms/Peer.cpp:230-260 | dispatch by code, every branch and error included, so that the next message can be handled; shared files are kept as objects with the client ids of the message; the inbox is closed exactly if the answer is an error; only a chunk message touches subscribers, wakes the one it names, and is a collision exactly if that one has a chunk buffered |
| Server.Peer.HandleRoomMessage | server/src/rooms/Peer.cpp:230-260 | the same for every code but chunks; a chat message is queued once for everybody with a socket and kept |
| Server.Room.SendMessageAsync | server/src/rooms/Room.cpp:183-188 | every member gets the message once |
| Server.Room.AddHistoryMessage | server/src/rooms/Room.cpp:120-134 | the message is appended and the oldest ones are dropped down to the limit; a limit of 0 keeps nothing |
| Server.Room.AddPeer | server/src/rooms/Room.cpp:33-36 | the peer is in the table under its id |
| Server.Room.WelcomePeer | server/src/rooms/Room.cpp:38-51 | the arrival is remembered and broadcast |
| Server.Room.GoodbyePeer | server/src/rooms/Room.cpp:77-87 | the departure is remembered and broadcast |
| Server.Room.ListPeers | server/src/rooms/Room.cpp:60-70 | the list has every member once, in whatever order the table is walked |
| Server.Room.OnboardPeer | server/src/rooms/Room.cpp:53-75 | the new peer alone gets the snapshot and the retained history |
| Server.Room.GetPeerById | server/src/rooms/Room.cpp:89-96 | the member of that id, or none |
| Server.Room.GetFileById | server/src/rooms/Room.cpp:174-181 | the file of that id, or none |
| Server.Room.ShareFile | server/src/rooms/Room.cpp:154-172 | a new file object under the next id, at the end of the host's list and in the index, and the room stays consistent; without the host nothing changes |
| Server.Room.RemovePeerById | server/src/rooms/Room.cpp:98-118 | the peer and its file objects leave the tables and every subscriber of those files is revoked; the room stays consistent; an unknown id changes nothing |
| Server.Room.PingAllPeers | server/src/rooms/Room.cpp:190-199 | every member is pinged or loses its socket |
| Server.Room.Receive | server/src/rooms/Lobby.cpp:88-90 | welcome, add and onboard, in this order |
| Server.Room.Dismiss | server/src/rooms/Lobby.cpp:101-102 | remove and say goodbye, in this order |

## Left out

- LobbyServer.Lobby.OnAfterCreate: the consistency of a room's file tables is required and given back for the room it touches; for all room objects together it is a statement on values, in `LobbySpec` and `RoomIndex`.
- LobbyServer.Lobby.OnBeforeDestroy: likewise; that the peer's room is in the table under its name is required, and `LobbySpec.RoomsLiveWithTheirPeers` shows it for every run.
- LobbyServer.Lobby.PingRooms: the timed loop around the round is left out.
- Server.Peer.OnApiError: the close frame is left out; that the connection's error leads to its destruction is a separate event at any later time.
- Server.Peer.ReadMessage: parsing is a parameter, for which a message that parses to nothing counts as one that does not parse; the code dereferences it.
- Server.Peer.HandleMessage: of a chat message its text is kept; other fields a client may have filled in go out unread by the page.
- Browser.Page.SendFileChunks: requests for one file only, see the assumptions; the "Sent" label is not modelled.
- StreamTheorems.HostGoneMeansError: a reader that subscribes between the look-up of a file and its host's removal is not covered, because look-up and subscription are one step here.
- PingPong.DroppedStaysSilent: EVENT_PEER_ZOMBIE_DROPPED is not modelled; the code counts a dropped peer again at every round until its socket is destroyed.
- WakeUp.NoLostWakeUp: the coroutine library's wait list is taken as: enqueue, then call `onNewItem`; `notifyAll` wakes everything enqueued.
- Participants.BeforeIsStrictOrder: names are compared by character here, by UTF-16 unit in JavaScript.
- Lifetime of room and file objects and EVENT_ROOM_DELETED: peers and files hold shared pointers to each other, so destruction does not follow room deletion.
- Messages of a peer without a socket that are to be answered with an API error: the code goes on to use the socket it no longer has.
- Parsing and writing JSON, base64, TLS, HTTP routing, the coroutine executor, static pages, redirects, configuration, nicknames' syntax, the timed loops.
- Machine integers: ids, counters, sizes and positions are unbounded here; 64-bit overflow is not modelled.
- Single atomic loads of the statistics counters: a sample reads them all at once here.
- DOM details, animations, the typing indicator, file size formatting, emoji; of the page only the map, the ordered list of elements, the files and the messages sent are kept. The misspelt global `peedId` and a close before INFO have no effect on these.

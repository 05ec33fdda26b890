# Verified model of the game server's core

This project models the parts of the game server whose correctness depends on interleavings,
incremental bookkeeping or exact arithmetic, and proves what they promise for all inputs and all
runs. `dafny verify dfyconfig.toml` checks everything.

**Session slots of the network library** (`SessionSlot`, `SessionInvariant`, `NetworkLib`,
`SessionTheorems`, `SessionCalls`, `SessionEnds`, `SessionSizing`, `SendQueue`, `SessionId`). A slot is shared
by any number of threads. Its state is `mIOcnt` (a 16-bit counter that carries the release flag), `mLive`,
`mSendFlag`, the send queue with its counter, the in-flight messages and the completions still to be picked
up. Every thread inside the library is an `Agent` at a program point; a step is one Interlocked operation or one access to shared
memory; a run is any sequence of steps of any agents on any slots, with slots taken from and returned to
the free stack. The invariant counts references, the send token and the receive chain over all agents.
`SessionSteps` shows that every step keeps it, `SessionTheorems` reads the promises off it. `SessionCalls`
says what the calls bring about, whatever the other threads do: a disconnect cuts for good, a message that is
sent is queued, a parked slot is armed again, a stop is final; `SessionEnds`, that a session that was cut can
always be released.

**Ring buffer and framing** (`RingBuffer`, `SpscRing`, `Message`, `Framing`). The byte ring as a class
proved against the sequence of its unread bytes; the same ring between one producer and one consumer that
work from old copies of each other's pointers, one byte per step; the message buffer; the cutting of the
stream into messages by the server (over the ring, in two segments, completion after completion) and by
the bot (over a flat buffer), both proved equal to one reference parser.

**The field** (`Sectors`, `ClientView`, `Aoi`, `Monsters`, `MonsterCourses`, `MonsterReturns`,
`MonsterStages`, `Players`, `Drift`, `FieldViews`, `FieldFrames`, `FieldDeeds`, `Field`). The state machines
of monsters and players, with everything that updates, hits and messages do to them, and where they lead: a
chaser comes nearer to its target until it attacks, a return ends at home. The field thread as a class with
its players, monsters, items and their sector indexes, and the packets it gives to each session; a frame lets players and monsters move, hit
each other, be heard and be told. What a client knows is the fold of the client's packet handlers over its
packets. The class invariant says that every client's view is exact, that none of its handlers' assertions
has failed, that the accounts of items, deaths, attacks and kills are right; every operation and every frame
keeps it. `Drift` adds the budget of the synchronisation counter over runs of a player; `Players` also has
the ends of the player's message queue over the ring.

**Hand-off and persistence** (`Handoff`, `HandoffRuns`, `HandoffProgress`, `DbPipeline`). The authentication,
field and DB threads as a transition system over their maps and queues; what becomes of saved positions in
every run; that no account is ever locked out; the event protocol that wakes the DB thread.

**Batches and ranking** (`LittleEndian`, `Batch`, `Ranking`). Spawn batches from records to bytes and back;
the tie-break loop of the ranking query.

## Assumptions

- Memory is sequentially consistent. Floats are real numbers; distances are compared squared.
- Issuing AcceptEx and setting `mIOcnt` to 1 is one step; AcceptEx calls of the constructor succeed. The
  code stores the count after issuing the call and relies on nobody seeing the completion first.
- A pending WSARecv or WSASend fails only with the errors that `checkAndHandleIoError` lists. Sends
  complete whole.
- Fewer than 2^14 refused locks arrive between a release and the re-arm, and fewer than 2^14 references
  are held at once (`Interlocked.Room`; `Interlocked.ReleaseBitSurvives` says what happens otherwise).
  A send queue holds fewer than 2^15 messages.
- Callers of `sendPost` hold an ID that `onAccept` gave out and have stamped the message with it.
- Statistics counters are left out or updated together with the callback next to them.
- The position-save result is handled in one step (the code notifies the authentication thread before
  its last use of the player), and a pass of `checkDisConnectedAndLeavePlayer` is not cut short by its
  cap of 1000. There is one field. Queues between threads have room.
- Every login takes a new character ID from `mCharacterID`, so IDs of characters never repeat.

## Findings

- The comment at `FieldServer/FieldServer.cpp:1679-1680` says that a disconnected player has already been
  withdrawn from its neighbours' clients. The code sends no despawn anywhere on that path, so the clients
  around keep showing it. `Field.Field.ViewIsExact` says what a client shows in every run: what is around it,
  and exactly the characters that were removed near it since it entered (`FieldFrames.Haunting`).
- A monster that was knocked over a sector border when it was killed, and spawns in the sector it was filed
  under, is filed one tick late when it returns, because `updateMonsterSectorCheck` keeps the old
  `mDestSector`. `MonsterStages.ReturnIsFiled` gives the condition, in both directions;
  `MonsterStages.ReturnedLate` is an instance; `MonsterStages.FilingIsExact`, which every frame of
  `Field.Field.Tick` promises for every monster, says that nothing else is ever filed wrong at the end of a
  tick. The movement packets stay consistent in spite of it.
- A player that loses its connection in the windup frame of an attack is frozen in it, so the attack lands
  again in every frame until a monster hits the player or its position has been saved
  (`Players.FrozenSwing`, for every run). While a player is connected, landed attacks are at most the accepted
  ones (`Players.SwingsAddUp`), and so are its kills (`Field.Field.KillsAreEarned`).
- The synchronisation budget holds for the truncated charges, not for the distances: a client that stays
  less than one unit beyond the limit is never charged (`Drift.FractionsAreFree`). `Drift.FractionsDecide`
  says for each request whether it can break the budget of distances: exactly if it is a fraction beyond the
  limit and charged at most 300. `Drift.WholeBudget` says exactly when charges and distances agree.
- A `Peek` that asks for more than there is sets the fail bit silently; from then on `Dequeue` returns bytes
  without removing them (`SpscRing.FailedPeekRepeatsBytes`). Callers must check the size first, as the
  header demands; then nothing ever fails, and only then (`SpscRing.FailedIfAskedTooMuch`).
- A payload of more than 6000 bytes makes `PutData` throw in a worker, once it is there as a whole; nothing
  catches it. `Framing.OversizeIsExact` gives the streams, in both directions. On the server that is the case
  for 6001 to 29996 announced bytes, and for each of these it happens (`Framing.OversizeHappens`); a header
  that announces more fills the ring first, which disconnects (`Framing.OversizeFitsRing`,
  `Framing.RoomForMore`).

- `registerSend` reads `mSenqQSize` twice for the size of one batch. If a push takes it from 500 to 501 in
  between, the batch has 501 messages and overruns `mSendMsgs` and `wsabuf`. `SessionSizing.BatchBound` shows
  that this is the only way, in every run; `SessionSizing.BatchOverruns` is a run in which it happens. (In the
  model the arrays grow; whatever the overrun destroys is not part of it.)
- `handleMoveStart` asserts false on every rejection for the distance, before it disconnects; the contract of
  `Players.Player.HandleMoveStart` says exactly when its assertions fail.

## Model

| member | source | states |
|---|---|---|
| Interlocked.ReleaseBitSurvives | _lib/AcceptEx_IOCP_NetworkLib/AcceptEx_IOCP_NetworkLib.cpp:513-519 | refused locks leave the release bit readable while there are fewer than 2^14 of them, and then in every other block of 2^14 |
| SessionSteps.StepKeepsInv | _lib/AcceptEx_IOCP_NetworkLib/AcceptEx_IOCP_NetworkLib.cpp:118-582 | whatever step whatever thread takes next, the slot's whole invariant (reference counts, release, send token, receive chain, queue order, callbacks) survives |
| SessionMessages.StepConserves | _lib/AcceptEx_IOCP_NetworkLib/AcceptEx_IOCP_NetworkLib.cpp:403-447 | every step conserves messages: offered = destroyed + queued + in flight + in a caller's hand |
| NetworkLib.RunKeeps | _lib/AcceptEx_IOCP_NetworkLib/AcceptEx_IOCP_NetworkLib.cpp:118-604 | from any number of slots, every sequence of steps, pops and the stop leads to a library state that satisfies the invariant of all slots, the stack and the counters |
| SessionTheorems.ReleasePostedOnce | _lib/AcceptEx_IOCP_NetworkLib/AcceptEx_IOCP_NetworkLib.cpp:173-181 | a generation posts at most one release, and from winning the compare-exchange to the re-arm nobody holds a reference and nothing is outstanding |
| SessionTheorems.NoReleaseLost | _lib/AcceptEx_IOCP_NetworkLib/AcceptEx_IOCP_NetworkLib.cpp:520-547 | whenever the count is 0 without the release bit, some thread is still about to try the compare-exchange, from whatever generation its decrement was |
| SessionTheorems.LockPinsSession | _lib/AcceptEx_IOCP_NetworkLib/AcceptEx_IOCP_NetworkLib.cpp:510-533 | while a thread holds a lock taken for an ID, the slot has that ID, is in service, and nobody releases or re-arms it |
| SessionTheorems.StaleIdStaysStale | _lib/AcceptEx_IOCP_NetworkLib/AcceptEx_IOCP_NetworkLib.cpp:202-208 | an ID that a slot does not have, or no longer has, it never gets again, in any continuation |
| SessionTheorems.SessionIdsDistinct | _lib/AcceptEx_IOCP_NetworkLib/AcceptEx_IOCP_NetworkLib.cpp:202-208 | two slots never have the same session ID |
| SessionTheorems.SendTokenUnique | _lib/AcceptEx_IOCP_NetworkLib/AcceptEx_IOCP_NetworkLib.cpp:380-448 | at most one thread or completion may use mSendOv, only while mSendFlag is set; queued and in-flight messages are owned by the slot's current ID |
| SessionSizing.BatchBound | _lib/AcceptEx_IOCP_NetworkLib/AcceptEx_IOCP_NetworkLib.cpp:380-398 | in every run: a batch has been larger than the 500 that the arrays hold if and only if a push took mSenqQSize from 500 to 501 between the two reads of one thread, as soon as that has read again; until then the messages in flight are at most 500 |
| SessionSizing.BatchOverruns | _lib/AcceptEx_IOCP_NetworkLib/AcceptEx_IOCP_NetworkLib.cpp:382-397 | it happens: in some run a batch of 501 messages is begun |
| SessionTheorems.PumpNeverStalls | _lib/AcceptEx_IOCP_NetworkLib/AcceptEx_IOCP_NetworkLib.cpp:563-582 | a live session with a queued message never rests: a send is outstanding, or a thread has the token or will still look at the flag or the queue |
| SessionTheorems.AssertionsHold | _lib/AcceptEx_IOCP_NetworkLib/AcceptEx_IOCP_NetworkLib.cpp:409-411 | no assertion of the library fails: the dequeue in registerSend finds a message of this session, the counts are 0 at accept and after the drain |
| SessionTheorems.SentInOrder | _lib/AcceptEx_IOCP_NetworkLib/AcceptEx_IOCP_NetworkLib.cpp:403-432 | what was handed to WSASend, and what was freed, is a prefix of what was pushed, in that order; the rest is in flight or queued |
| SessionTheorems.MessagesConserved | _lib/AcceptEx_IOCP_NetworkLib/AcceptEx_IOCP_NetworkLib.cpp:435-447 | a message is destroyed at most as often as it was given to sendPost, and until then is in exactly one place |
| SessionTheorems.ParkedSlotHoldsNothing | _lib/AcceptEx_IOCP_NetworkLib/AcceptEx_IOCP_NetworkLib.cpp:450-464 | a slot out of service has destroyed everything it was given, apart from messages of callers still being refused |
| SessionTheorems.CallbackGrammar | _lib/AcceptEx_IOCP_NetworkLib/AcceptEx_IOCP_NetworkLib.cpp:248-273 | callbacks follow onAccept, any onRecv, one onRelease, always with the slot's ID |
| SessionTheorems.OneReceiveOutstanding | _lib/AcceptEx_IOCP_NetworkLib/AcceptEx_IOCP_NetworkLib.cpp:275-318 | at most one accept or receive is outstanding or being processed |
| SessionTheorems.CountersAndStack | _lib/AcceptEx_IOCP_NetworkLib/AcceptEx_IOCP_NetworkLib.cpp:491-508 | mSessionCnt and mActiveSlotCnt are the numbers of open sessions and of armed slots; the stack holds exactly the parked slots, each once |
| SessionCalls.LiveIs | _lib/AcceptEx_IOCP_NetworkLib/AcceptEx_IOCP_NetworkLib.cpp:248-318 | mLive is set by an accept that succeeds and by nothing else, every cut clears it, and no thread starts a receive or a send on a session that is not live |
| SessionCalls.CutStays | _lib/AcceptEx_IOCP_NetworkLib/AcceptEx_IOCP_NetworkLib.cpp:586-604 | a session that was cut after its ID had been given out stays cut in every continuation, as long as its slot keeps the ID, and no thread begins to start a receive or a send on it |
| SessionCalls.DisconnectTakesEffect | _lib/AcceptEx_IOCP_NetworkLib/AcceptEx_IOCP_NetworkLib.cpp:586-604 | disconnectSession with the ID of an accepted session: two steps of the caller later, whatever happened in between, the session is not live, or the slot has another ID |
| SessionCalls.FailureTakesEffect | _lib/AcceptEx_IOCP_NetworkLib/AcceptEx_IOCP_NetworkLib.cpp:275-349 | the same for every failure that a worker finds: a closed connection, a bad header, a full ring, a failed WSARecv or WSASend |
| SessionCalls.SendTakesEffect | _lib/AcceptEx_IOCP_NetworkLib/AcceptEx_IOCP_NetworkLib.cpp:563-582 | sendPost to an accepted session that is not being released: two steps of the caller later the message has been pushed, or the slot has another ID |
| SessionCalls.CallsAre | _lib/AcceptEx_IOCP_NetworkLib/AcceptEx_IOCP_NetworkLib.cpp:271-366 | each step makes exactly the callbacks due: onAccept with the accept, onRecv for each message found, onRelease for an accepted session, and no others |
| SessionCalls.PopTakesEffect | _lib/AcceptEx_IOCP_NetworkLib/AcceptEx_IOCP_NetworkLib.cpp:185-208 | in every reachable state a worker that is to pop an index finds one; before the stop its slot leaves the stack and is armed next |
| SessionCalls.RearmTakesEffect | _lib/AcceptEx_IOCP_NetworkLib/AcceptEx_IOCP_NetworkLib.cpp:202-246 | a slot taken from the stack is, two steps of its worker later, in service under an ID that was never given out, with nothing left in it and an accept outstanding, unless AcceptEx fails |
| SessionCalls.AcceptTakesEffect | _lib/AcceptEx_IOCP_NetworkLib/AcceptEx_IOCP_NetworkLib.cpp:118-145 | a client that connects is served: six steps of the worker that picks the accept up later the session is live, its ID given out by onAccept, and a receive outstanding |
| SessionEnds.CutSessionCanEnd | _lib/AcceptEx_IOCP_NetworkLib/AcceptEx_IOCP_NetworkLib.cpp:118-182 | from every reachable state before the stop: a session that was cut can end; its threads can go on so that the slot is released and lies on the stack again |
| SessionCalls.UnusedSlotsWait | _lib/AcceptEx_IOCP_NetworkLib/AcceptEx_IOCP_NetworkLib.cpp:450-464 | before the stop every slot that nobody uses lies on the stack |
| SessionCalls.StopIsFinal | _lib/AcceptEx_IOCP_NetworkLib/AcceptEx_IOCP_NetworkLib.cpp:89-96 | after a stop no slot becomes live and none is taken into service, in any continuation |
| SendQueue.Session.EnQueueMsg | _lib/AcceptEx_IOCP_NetworkLib/Session.cpp:35-40 | the message is last in the queue and counted in a 16-bit counter that wraps; nothing else of the send side changes |
| SendQueue.Session.DeQueueMsgOrNull | _lib/AcceptEx_IOCP_NetworkLib/Session.cpp:41-54 | nothing for an empty queue; otherwise the oldest message is removed and uncounted |
| SendQueue.Session.ReleaseSession | _lib/AcceptEx_IOCP_NetworkLib/Session.cpp:56-78 | queued and in-flight messages are deleted once each, in order; receive buffer, pointer and socket are reset; the assertion tells whether counter and queue agreed modulo 2^16, and then the slot is as constructed |
| SessionId.FieldsReadBack | _lib/AcceptEx_IOCP_NetworkLib/Session.h:16-35 | index and sequence number survive packing exactly when they fit 17 and 47 signed bits |
| SessionId.EqualMeansSameFields | _lib/AcceptEx_IOCP_NetworkLib/Session.h:27-34 | IDs are equal exactly when both fields are; a new sequence number always makes a different ID |
| RingBuffer.SizesAgree | _lib/AcceptEx_IOCP_NetworkLib/utility/MyRingBuffer.cpp:220-271 | used and free sizes add up to capacity; direct sizes are what is reachable without going around |
| RingBuffer.MyRingBuffer.Enqueue | _lib/AcceptEx_IOCP_NetworkLib/utility/MyRingBuffer.cpp:85-127 | appends the given number of bytes, or fails with BufferFull or ArgmentSizeInvalid and changes nothing |
| RingBuffer.MyRingBuffer.Dequeue | _lib/AcceptEx_IOCP_NetworkLib/utility/MyRingBuffer.cpp:129-171 | removes the oldest bytes into the destination or fails; a failed buffer copies without removing |
| RingBuffer.MyRingBuffer.Peek | _lib/AcceptEx_IOCP_NetworkLib/utility/MyRingBuffer.cpp:40-83 | copies the oldest bytes and removes nothing, or sets BufferEmpty |
| RingBuffer.MyRingBuffer.MoveFront | _lib/AcceptEx_IOCP_NetworkLib/utility/MyRingBuffer.cpp:180-200 | drops the oldest bytes, around the end; nothing moves once a call has failed |
| RingBuffer.MyRingBuffer.MoveRear | _lib/AcceptEx_IOCP_NetworkLib/utility/MyRingBuffer.cpp:201-218 | publishes the bytes that already stand behind the rear |
| RingBuffer.MyRingBuffer.ClearBuffer | _lib/AcceptEx_IOCP_NetworkLib/utility/MyRingBuffer.cpp:173-178 | empty, with no fail bit |
| SpscRing.PrefixDequeued | _lib/AcceptEx_IOCP_NetworkLib/utility/MyRingBuffer.cpp:85-171 | for every interleaving without a failed call, dequeued bytes followed by the bytes between the pointers are exactly the enqueued bytes |
| SpscRing.UnreadNeverOverwritten | _lib/AcceptEx_IOCP_NetworkLib/utility/MyRingBuffer.cpp:105-124 | no step of either thread changes a byte that has not been read |
| SpscRing.StaleSizesAreSafe | _lib/AcceptEx_IOCP_NetworkLib/utility/MyRingBuffer.cpp:243-271 | sizes computed from an old copy of the other side's pointer are lower bounds |
| SpscRing.CopiedSoFar | _lib/AcceptEx_IOCP_NetworkLib/utility/MyRingBuffer.cpp:150-169 | what a running Dequeue or Peek has copied is the beginning of the unread bytes |
| SpscRing.FailedIfAskedTooMuch | _lib/AcceptEx_IOCP_NetworkLib/utility/MyRingBuffer.cpp:40-171 | for every interleaving: the buffer has failed if and only if some call asked, when it was made, for more than the size it read, or for less than nothing |
| SpscRing.EnqueueTakesEffect | _lib/AcceptEx_IOCP_NetworkLib/utility/MyRingBuffer.cpp:85-127 | an Enqueue for which there is room has, when it has stored mRear, enqueued its bytes, whatever the consumer did meanwhile |
| SpscRing.TakingTakesEffect | _lib/AcceptEx_IOCP_NetworkLib/utility/MyRingBuffer.cpp:40-171 | a Dequeue or Peek of bytes that are there returns the oldest ones, whatever the producer did meanwhile; after the Dequeue they are gone |
| SpscRing.FailedPeekRepeatsBytes | _lib/AcceptEx_IOCP_NetworkLib/utility/MyRingBuffer.cpp:180-185 | after any Peek that asks for too much, the first unread byte is dequeued twice |
| Message.Message.PutData | _lib/AcceptEx_IOCP_NetworkLib/utility/Message.cpp:74-82 | appends, or throws NotEnoughSpace and changes nothing |
| Message.Message.GetData | _lib/AcceptEx_IOCP_NetworkLib/utility/Message.cpp:84-94 | takes the oldest bytes, or throws HasNotData and changes nothing |
| Message.Message.InitMessage | _lib/AcceptEx_IOCP_NetworkLib/utility/Message.cpp:50-61 | empty, with the new owner and key |
| Message.Message.GetUseSize | _lib/AcceptEx_IOCP_NetworkLib/utility/Message.cpp:184-192 | the number of bytes put in and not taken out |
| Framing.ParseIsExact | _lib/AcceptEx_IOCP_NetworkLib/AcceptEx_IOCP_NetworkLib.cpp:320-378 | the parser loses nothing: the stream is its frames followed by a rest, and the rest says why it stopped |
| Framing.StreamParsesBack | _lib/AcceptEx_IOCP_NetworkLib/AcceptEx_IOCP_NetworkLib.cpp:320-378 | frames sent one after the other are parsed back, whatever incomplete bytes follow |
| Framing.ChunkingIsIrrelevant | _lib/AcceptEx_IOCP_NetworkLib/AcceptEx_IOCP_NetworkLib.cpp:320-378 | for the receiver that parses what it kept and the next chunk: however a stream is cut, the same messages with the same outcome and the same rest |
| Framing.Serve | _lib/AcceptEx_IOCP_NetworkLib/AcceptEx_IOCP_NetworkLib.cpp:275-378 | the server itself, by repeated registerRecv, arrival and completeRecv over one ring: however a stream is cut into completions, its messages and outcome are those of the whole stream; the ring is full at a receive only behind a header that announces more than 29996 bytes |
| Framing.OversizeIsExact | _lib/AcceptEx_IOCP_NetworkLib/AcceptEx_IOCP_NetworkLib.cpp:355-364 | PutData throws if and only if the stream holds, behind messages that fit, a whole message with a payload of more than 6000 bytes |
| Framing.OversizeFitsRing | _lib/AcceptEx_IOCP_NetworkLib/AcceptEx_IOCP_NetworkLib.cpp:275-288 | as long as the ring is not full, that happens only for payloads of at most 29996 bytes |
| Framing.OversizeHappens | _lib/AcceptEx_IOCP_NetworkLib/AcceptEx_IOCP_NetworkLib.cpp:345-364 | it does happen for every length from 6001 to 29996, and not before the last byte is there |
| Framing.RoomForMore | _lib/AcceptEx_IOCP_NetworkLib/AcceptEx_IOCP_NetworkLib.cpp:275-288 | kept bytes can fill the receive buffer exactly when a header announces more than 29996 bytes; with payloads up to 6000 at most 6002 bytes are kept |
| Framing.RegisterRecv | _lib/AcceptEx_IOCP_NetworkLib/AcceptEx_IOCP_NetworkLib.cpp:275-302 | disconnects exactly when the ring is full; otherwise the two segments are disjoint, in bounds, and are all the free room |
| Framing.CompleteRecv | _lib/AcceptEx_IOCP_NetworkLib/AcceptEx_IOCP_NetworkLib.cpp:320-378 | over the ring and its two segments: delivers what the reference parser finds in kept plus new bytes, keeps its rest, in the same buffer |
| Framing.Copy | _lib/AcceptEx_IOCP_NetworkLib/AcceptEx_IOCP_NetworkLib.cpp:345-364 | the payload is the oldest bytes, in one piece or two; refused exactly above 6000 bytes |
| Framing.Bot.RecvPacketProc | ClientBotProject/ClientBot.cpp:610-631 | the memmove framer delivers the same frames and keeps the same rest; its assertion fails exactly for a bad header, one byte earlier than the server looks |
| Sectors.AroundIsNear | FieldServer/FieldServer.cpp:130-160 | the surrounding list holds the grid sectors at most one away, each once |
| Sectors.NearSectorInitialization | FieldServer/FieldServer.cpp:130-160 | the cache holds the surrounding list of every sector of the grid and nothing else |
| Sectors.CalcDespawnAndSpawn | FieldServer/FieldServer.cpp:2289-2352 | after the in-place erasures each list keeps exactly what the other did not have |
| Sectors.SectorHolds | FieldServer/FieldServer.cpp:2231-2241 | the sector of a position is the one in whose area it lies, those at the border reaching beyond the world |
| Monsters.GetDirectionTo | _Shared/AttackConfig.h:70-95 | the first of the eight directions that points best at the target; Down when there is no distance |
| Monsters.DirectionToIsExact | _Shared/AttackConfig.h:70-95 | for every pair of positions there is exactly one such direction |
| Monsters.Monster.Update | FieldServer/Contents/Monster.cpp:41-71 | one step of the state machine; where it leads is said by the rows of `MonsterCourses` and `MonsterReturns`; the assertion on state changes is a precondition that every call meets |
| Monsters.Monster.TakeDamage | FieldServer/Contents/Monster.cpp:244-276 | turns to the attacker; knock-back, health, stun or death; nothing for a dead monster |
| Monsters.Monster.GiveUpChase | FieldServer/Contents/Monster.cpp:131-141 | home beyond the patrol radius, otherwise rest |
| Monsters.MovesOnlyWandering | FieldServer/Contents/Monster.cpp:73-220 | a monster changes its place only while it wanders before and after, or when it respawns; an update never stuns or kills |
| Monsters.DeadUntilRespawn | FieldServer/Contents/Monster.cpp:191-200 | a killed monster is dead for 499 updates and revives at the 500th at its spawn position with full health |
| Monsters.StunnedThenChasing | FieldServer/Contents/Monster.cpp:180-189 | a stunned monster stays put for 50 updates and chases its attacker at the next |
| Monsters.HitHurts | FieldServer/Contents/Monster.cpp:244-276 | a hit on a living monster costs as much health as the damage, turns it to its attacker, pushes it thirty units the way the attacker looks, and kills it exactly when no health is left |
| Monsters.HitsAddUp | FieldServer/Contents/Monster.cpp:244-276 | for every sequence of hits: dead exactly when they add up to its health; with 35 to a hit, at the third |
| Monsters.StrikesAddUp | FieldServer/Contents/Monster.cpp:170-178 | in every run of updates, sightings and hits: attacks begun are exactly those that have struck, those a hit cut short and the one under way |
| Monsters.AttackThenChase | FieldServer/Contents/Monster.cpp:170-178 | an attack that no hit interrupts lasts eighty updates without a move or a turn, and then the monster chases on |
| MonsterCourses.GivesUp | FieldServer/Contents/Monster.cpp:131-141 | a monster that has lost its target goes home exactly if that is more than 150 units away, and rests otherwise |
| MonsterCourses.ChaseHeads | FieldServer/Contents/Monster.cpp:143-168 | on its leash a chaser attacks if and only if its target is within 50 units, then looking at it; otherwise it chases on and turns to where the target is, at the tenth frame at the latest |
| MonsterCourses.ChaseComesNearer | FieldServer/Contents/Monster.cpp:143-168 | in every run towards a target that stands still, a chaser on course comes nearer by at least 2.7 a frame and stays on course |
| MonsterCourses.ChaseEnds | FieldServer/Contents/Monster.cpp:143-168 | so within a time that its distance gives it attacks or reaches the end of its leash |
| MonsterCourses.ChaseAims | FieldServer/Contents/Monster.cpp:143-168 | whatever way it starts off, it is on course after nine frames |
| MonsterCourses.ReturnHeads | FieldServer/Contents/Monster.cpp:202-214 | a returning monster rests if and only if it is within ten units of home; otherwise it goes on and turns to where home is, at the fifteenth frame at the latest |
| MonsterReturns.ReturnEnds | FieldServer/Contents/Monster.cpp:202-214 | from anywhere, on whatever way: after finitely many updates, the same whatever is drawn, a returning monster comes to rest within ten units of home |
| MonsterCourses.RestHeads | FieldServer/Contents/Monster.cpp:73-106 | a resting monster stays where it is; it sets off exactly beyond its patrol radius, and then towards home, or by chance |
| MonsterCourses.PatrolHeads | FieldServer/Contents/Monster.cpp:108-129 | a patrolling monster goes home exactly at its patrol radius, rests only by chance, and otherwise walks on |
| MonsterCourses.PatrolStaysNear | FieldServer/Contents/Monster.cpp:108-129 | a patrolling monster is never farther from home than the radius and one step |
| MonsterStages.StepFromSettled | FieldServer/FieldServer.cpp:750-773 | a monster that is filed where it stands, but for the listed exceptions, changes sector in this tick only if its copies need no start or stop |
| MonsterStages.AnnouncementTells | FieldServer/FieldServer.cpp:857-937 | something is sent about a monster exactly if its state or direction has changed in the tick, one attack exactly if it has begun one; a copy that did and looked as the monster before does and looks as the monster after, with no assertion failing |
| MonsterStages.ReturnDest | FieldServer/FieldServer.cpp:2264-2274 | a monster that returns is to be filed where it spawns if and only if that is another sector than the one it is filed under, or no other one was kept |
| MonsterStages.FilingIsExact | FieldServer/FieldServer.cpp:750-799 | at the end of every tick a living monster is filed where it stands if and only if it has not just returned to the sector it was filed under while it lay in another |
| MonsterStages.ReturnIsFiled | FieldServer/FieldServer.cpp:901-922 | from its death on: the monster is back at the 500th tick, filed where it spawns if and only if it spawns in another sector than it was filed under, or fell in that one |
| MonsterStages.ReturnedLate | FieldServer/FieldServer.cpp:2264-2274 | a monster that spawned at (319, 100) and is killed by a hit to the right is filed one sector too far when it is back |
| Aoi.MoveKeepsExact | FieldServer/FieldServer.cpp:734-742 | one spawn to those who gain sight and one despawn to those who lose it keep an exact view exact |
| Aoi.OwnMoveKeepsExact | FieldServer/FieldServer.cpp:734-742 | for a jump to any sector, announcing the new sectors and withdrawing the old ones makes the mover's own view exact |
| Aoi.EntryIsExact | FieldServer/FieldServer.cpp:967-977 | the three batches give a new client exactly what is around it |
| Aoi.RespawnKeepsExact | FieldServer/FieldServer.cpp:901-922 | despawn around the old sector and spawn around the new keep views exact, also for those near both |
| Aoi.PacketKeepsExact | ClientProject/Scene/FieldScene.cpp:375-400 | monster packets keep the set of moving copies, and the way that copies look, right |
| Aoi.CharacterPacketKeepsExact | ClientProject/Scene/FieldScene.cpp:341-374 | packets about a player that moves, stops or attacks, sent to the others around it, find it in their views |
| FieldViews.OthersSeeMove | FieldServer/FieldServer.cpp:2354-2396 | for all clients at once: the spawn and despawn lists of a move keep every other client's view exact and duplicate no spawn |
| FieldViews.OwnMoveViews | FieldServer/FieldServer.cpp:717-748 | a player's sector change keeps every client's view exact, its own included |
| FieldViews.RespawnViews | FieldServer/FieldServer.cpp:901-922 | a respawn keeps every client's view exact |
| FieldViews.RemovalViews | FieldServer/FieldServer.cpp:1668-1694 | a player that leaves without a packet stays visible exactly to those around it |
| Field.Field.Broadcast | FieldServer/FieldServer.cpp:2354-2396 | exactly the players indexed in the listed sectors, but the excepted one, are sent the packet once |
| Field.Field.SendBatch | FieldServer/FieldServer.cpp:2397-2674 | exactly what is indexed in the listed sectors is announced to, or withdrawn from, the target, and nobody else is sent anything |
| Field.Field.HandleRegisterPlayer | FieldServer/FieldServer.cpp:957-978 | the player is filed, all views stay exact, its own starts exact |
| FieldDeeds.NewcomerStands | FieldServer/FieldServer.cpp:957-978 | a player that enters stands where its login says, idle, with full health, filed there, and has done and carries nothing |
| Field.Field.ChangePlayerSector | FieldServer/FieldServer.cpp:717-748 | the player is refiled, every view including its own stays exact |
| Field.Field.ChangeMonsterSector | FieldServer/FieldServer.cpp:776-799 | the monster is refiled, every view stays exact, copies that appear do and look as is known of the others |
| Field.Field.Respawn | FieldServer/FieldServer.cpp:901-922 | everybody around the old sector is told that the monster is gone and everybody around the new one that it is there; it is refiled and every view stays exact |
| Field.Field.UpdateMonster | FieldServer/FieldServer.cpp:750-773 | the monster takes one step towards its target, if that is in play and alive, and its target sector is set; in the windup frame the closest living player in reach is hit |
| Field.Field.ProcessMonsterAttackHit | FieldServer/FieldServer.cpp:587-622 | of the living players indexed around the monster, one that is closest and in reach is knocked back and hurt, and everybody around it is told; without one nothing happens |
| FieldDeeds.VictimIsExact | FieldServer/FieldServer.cpp:587-612 | a blow finds somebody if and only if a living player indexed around the monster is at most 50 units away, and then one of the nearest |
| FieldDeeds.BlowHurts | FieldServer/FieldServer.cpp:613-621 | it costs that player ten health, turns it to the monster and pushes it, and does nothing to the others |
| FieldDeeds.ChasesTheLiving | FieldServer/FieldServer.cpp:573-586 | a chasing monster goes for its target where that stands while it is in play and alive and the leash holds; else it gives up |
| Field.Field.MonsterProc | FieldServer/FieldServer.cpp:857-937 | everybody around is sent exactly the announced packets (`MonsterStages.AnnouncementTells`), or despawn and spawn for a monster that is back, and nobody else anything; afterwards every copy moves exactly when the monster does and looks the same way; no start reaches a moving copy |
| Field.Field.HitMonster | FieldServer/FieldServer.cpp:1330-1346 | one hit gives the damaged monster, everybody around is sent exactly one damage packet, and every copy stands |
| Field.Field.ProcessPlayerAttackHit | FieldServer/FieldServer.cpp:1277-1354 | invalid targets are erased; exactly the announced monster, if it is in play, neither dead nor going home and at most 160 units away, is hit, and no other changes; if it dies, one kill job is queued for this player and one item dropped |
| FieldFrames.TargetIsExact | FieldServer/FieldServer.cpp:1296-1335 | an attack hits a monster if and only if it is the announced one, in play, neither dead nor on its way home, and at most 160 units away |
| FieldDeeds.AttackHurts | FieldServer/FieldServer.cpp:1336-1346 | the monster hit loses 35 health, remembers the player, is turned and pushed, and nothing else of its record changes |
| FieldDeeds.OneIsListed | FieldServer/FieldServer.cpp:1214-1240 | an attack request that is heard announces the first target it lists, or none |
| Field.Field.HandleAttackReq | FieldServer/FieldServer.cpp:1214-1276 | unknown skills and more than one target disconnect; a player that can attack starts to, its targets are remembered and the others around it told, and exactly if the message holds fewer targets than it announces the handler throws then; any other request changes nothing |
| Field.Field.HandleMoveStart | FieldServer/FieldServer.cpp:1021-1128 | the player's state, position and counter are those of the handler, it is disconnected exactly when it has drifted too far, the others around it are told exactly when it starts, and the assertions fail exactly on a rejection for the distance or another speed |
| Field.Field.HandleMoveStop | FieldServer/FieldServer.cpp:1129-1213 | the same for a stop, with the assertions failing exactly for a position outside the world |
| Field.Field.PlayerProc | FieldServer/FieldServer.cpp:823-856 | every player makes of its messages what its state machine makes of them, one after the other, up to the loss of its connection; nothing else changes but inventories and looted items |
| FieldDeeds.EventsInOrder | FieldServer/FieldServer.cpp:979-1020 | a player's messages mean something to it alone, in their order |
| Field.Field.RollDrop | FieldServer/DropTable.h:17-44 | every roll gives something, with the weights of the table |
| FieldDeeds.DropOdds | FieldServer/DropTable.h:17-44 | of a hundred rolls fifty give one gold, twenty five gold, ten ten gold and twenty a potion |
| Field.Field.DropItem | FieldServer/FieldServer.cpp:1750-1772 | a new item with a new ID lies where the monster died, filed and seen by all around; the others lie as before |
| Field.Field.HandleLootReq | FieldServer/FieldServer.cpp:2675-2720 | an item is looted exactly if it is there and in range, at most once ever, and its whole count goes to the looter |
| FieldDeeds.LootAddsUp | FieldServer/FieldServer.cpp:2700-2718 | looting adds the whole count to what the looter carries of the item and changes nothing else |
| Field.Field.UpdateItem | FieldServer/FieldServer.cpp:802-820 | an item ages, and is removed from both indexes and all views exactly when it is expired |
| Field.Field.RemovePlayer | FieldServer/FieldServer.cpp:1668-1694 | both indexes forget the player; exactly the clients around it keep showing it, and the history records who was around |
| Field.Field.Tick | FieldServer/FieldServer.cpp:702-937 | a whole frame keeps all views, indexes, histories and ledgers: every player is updated, hit and heard in this order and is filed where its own update left it; every monster takes one step after the hits and is filed where it stands, but for the late ones; items age by one; kill jobs are as many as the newly dead and the newly dropped |
| Field.Field.Loop | FieldServer/FieldServer.cpp:640-700 | every sequence of registrations, lost connections, departures and frames with any messages keeps the invariant |
| Field.Field.ViewIsExact | ClientProject/Scene/FieldScene.cpp:231-619 | between frames a client shows exactly the monsters, items and players indexed around it and the characters removed around it since it entered; copies of monsters move exactly when the monsters do, and look the way they do; no assertion of the handlers of `ClientView.Packet` has failed (Actor.cpp:210 for remote players is outside it) |
| FieldFrames.HauntingIsExact | FieldServer/FieldServer.cpp:1668-1694 | a removed character is left over at a client exactly when some removal happened near it after its last entry |
| Field.Field.KillsAreEarned | FieldServer/FieldServer.cpp:1277-1354 | in every run, the kill jobs queued for a player are at most its landed attacks, and while it is connected at most its accepted attack requests |
| Handoff.LoginIsFresh | FieldServer/FieldServer.cpp:408-465 | a login is admitted only when no save of the account is outstanding and the row was read after the last requested save, and it still holds what was read; which save that is says `HandoffRuns.LoginReadsLast` |
| Handoff.OneSavePerAccount | FieldServer/FieldServer.cpp:1623-1634 | at most one save per account is outstanding, none without an entry in the account table |
| Handoff.OnePlace | FieldServer/FieldServer.cpp:519-542 | every Player that exists is in exactly one of authentication thread, register queue, field and notice, once |
| Handoff.AccountTable | FieldServer/FieldServer.cpp:2118-2139 | the account table is one to one with authenticated players that exist, and covers everybody queued for or on the field |
| Handoff.DeletedAfterRelease | FieldServer/FieldServer.cpp:214-226 | a Player is deleted only after its onRelease |
| Handoff.OnlyOwnEntryErased | FieldServer/FieldServer.cpp:2118-2139 | deleting a player never erases the table entry of another login of its account |
| Handoff.AssertionsHold | FieldServer/FieldServer.cpp:957-963 | the hand-off assertions never fail and a save result always finds its player |
| Handoff.NextKeeps | FieldServer/FieldServer.cpp:228-303 | every step of the three threads keeps the ownership invariant |
| HandoffRuns.StoreIsLastSaved | FieldServer/FieldServer.cpp:1511-1525 | in every run the row of an account holds the position of its last successful save |
| HandoffRuns.SavesInOrder | FieldServer/FieldServer.cpp:1498-1525 | in every run, saves executed, at work and queued are together exactly the saves requested, in this order |
| HandoffRuns.SaveIsKept | FieldServer/FieldServer.cpp:1623-1634 | a save request that is heard: once its save has been executed with success, and no later one of the account has, the row holds its position, in every continuation |
| HandoffRuns.LoginReadsLast | FieldServer/FieldServer.cpp:408-465 | an admitted login reads the position of the account's last successful save; if none has failed, the one requested last |
| HandoffProgress.GoesForward | FieldServer/FieldServer.cpp:228-303 | every step of the three threads takes every player forward on its way or leaves it where it is |
| HandoffProgress.NobodyIsLockedOut | FieldServer/FieldServer.cpp:228-303 | from every state that the threads can get into, every account can come into play again: whoever has it can be saved, taken back and deleted, and a new session is then admitted with the stored position and registered on the field |
| DbPipeline.ExactlyOnceInOrder | FieldServer/FieldServer.cpp:1498-1618 | every job is executed and answered once, in the order of the requests |
| DbPipeline.NeverSleepsOnWork | FieldServer/FieldServer.cpp:1482-1486 | the DB thread never waits with a job queued and no event set or about to be set |
| DbPipeline.ExitsWhenDone | FieldServer/FieldServer.cpp:1486-1496 | it exits only when the field thread is done and everything is executed and answered, and then it can always wake up |
| DbPipeline.DequeueFindsAJob | FieldServer/FieldServer.cpp:1498-1503 | the size read after the wait is never more than what is there |
| DbPipeline.NoRequestForgotten | FieldServer/FieldServer.cpp:1484-1618 | from every reachable state, when the due steps are taken one after the other, all requests are executed and answered after a bounded number of them |
| Batch.RecordRoundTrip | ClientProject/Scene/FieldScene.cpp:279-297 | reading a record's fields gives back what was written |
| Batch.BatchSizes | FieldServer/FieldServer.cpp:2420-2424 | records of 47, 27 and 17 bytes; 127, 221 and 352 to a packet |
| Batch.SendSpawnBatch | FieldServer/FieldServer.cpp:2397-2491 | the nested loops send exactly the greedy packets of all records but the target's own, in one pass of the outer loop |
| Batch.PacketsPartition | FieldServer/FieldServer.cpp:2427-2490 | the packets partition the records in order; all but the last are full |
| Batch.PacketFits | FieldServer/FieldServer.cpp:2456-2464 | each packet fits a message, its Len and count are those of its contents, and the framing layer takes it apart as one frame |
| Batch.PacketRead | ClientProject/Scene/FieldScene.cpp:438-475 | the client reads from each packet its kind and exactly the records it was made of, with nothing left |
| Batch.ReadBatch | ClientProject/Scene/FieldScene.cpp:438-475 | for any message: as many records as its count says are read in order, or the read throws exactly when there are not enough bytes |
| Batch.BatchRoundTrip | FieldServer/FieldServer.cpp:2397-2491 | from end to end: all packets for the things around a player, sent one after the other, are parsed and read by the client as exactly those things, in order |
| Drift.Budget | FieldServer/FieldServer.cpp:1093-1116 | up to the first rejection, charges are at most 300 plus 10 per request in sync |
| Drift.HandlersCount | FieldServer/FieldServer.cpp:1093-1116 | what each MOVE_START or MOVE_STOP adds to or takes off the counter, and exactly when it is rejected or accepted; the counter never goes below zero |
| Drift.RunBudget | FieldServer/FieldServer.cpp:1053-1116 | in every run of a player with hits, attacks and frames in between, up to the first rejection, the counter is at most 300 and the charges are within the budget |
| Drift.RealBudget | FieldServer/FieldServer.cpp:1098-1099 | in distances, less than 1 per request out of sync goes by in addition, and nothing without one |
| Drift.WholeBudget | FieldServer/FieldServer.cpp:1098-1099 | charges and distances agree exactly when every excess is a whole number |
| Drift.FractionsDecide | FieldServer/FieldServer.cpp:1096-1104 | for every request: a client whose other requests are charged for what they are keeps the budget of distances in all its runs if and only if this one is whole too, or is always rejected |
| Drift.FractionsAreFree | FieldServer/FieldServer.cpp:1096-1099 | a client half a unit beyond the limit is never charged or rejected |
| Drift.InSyncPaysOff | FieldServer/FieldServer.cpp:1110-1116 | requests in sync pay the counter off, down to 10 |
| Players.Player.Update | FieldServer/Contents/Player.cpp:114-154 | one frame of the player's state machine; a disconnected player is frozen |
| Players.Player.TakeDamage | FieldServer/Contents/Player.cpp:157-187 | turns to the attacker; knock-back, health, stun or death; nothing for a dead player |
| Players.Player.HandleMoveStart | FieldServer/FieldServer.cpp:1041-1122 | which states a start is heard in, the check of its position, the state and counter it leads to, exactly when it is rejected, and exactly when an assertion fails |
| Players.Player.HandleMoveStop | FieldServer/FieldServer.cpp:1151-1207 | the same for a stop |
| Players.Player.StartAttack | FieldServer/FieldServer.cpp:1241-1265 | an attack starts from rest or movement only, and is entered once |
| Players.SwingHitsOnce | FieldServer/FieldServer.cpp:705-713 | an attack of a connected player that nobody interrupts lands in exactly one frame and is over after thirty |
| Players.SwingsAddUp | FieldServer/FieldServer.cpp:705-713 | in every run of frames, hits, movements, requests and a lost connection: accepted attacks are exactly those that landed while connected, those cut short and the one under way |
| Players.FrozenSwing | FieldServer/Contents/Player.cpp:114-122 | in every run after the connection is lost, nothing lands, unless it was lost in the windup frame: then the attack lands in every frame until a monster hits the player |
| Players.StunEnds | FieldServer/Contents/Player.cpp:141-150 | a stun lasts thirty frames |
| Players.DeathIsFinal | FieldServer/Contents/Player.cpp:157-187 | in every run health only falls, and a player is dead exactly from when it has none |
| Players.StartWalks | FieldServer/Contents/Player.cpp:114-154 | a player that is heard to start walks the way it said from where it said, 4.5 units a frame, up to the border of the world |
| Players.StopStands | FieldServer/Contents/Player.cpp:114-154 | a player that is heard to stop stands where it said, and stays there |
| Players.HitHurts | FieldServer/Contents/Player.cpp:157-187 | a hit on a living player costs as much health as the damage, turns it to the monster, pushes it a hundred units the way that looks, and kills it exactly when no health is left |
| Players.HitsAddUp | FieldServer/Contents/Player.cpp:157-187 | for every sequence of hits: dead exactly when they add up to its health; with 10 to a hit, at the tenth |
| Players.MessageQueue.EnQueueMsg | FieldServer/Contents/Player.cpp:65-69 | the pointer is last in the queue that the ring's bytes stand for; exactly when there is no room nothing is enqueued and the ring fails |
| Players.MessageQueue.DeQueueMsgOrNull | FieldServer/Contents/Player.cpp:70-85 | nothing when disconnected or empty; otherwise the oldest pointer, read back whole |
| LittleEndian.NumberOfBytes | _lib/AcceptEx_IOCP_NetworkLib/utility/Message.h:79-136 | a number written byte by byte is read back |
| Ranking.BreakTies | FieldServer/FieldServer.cpp:1561-1593 | for every list in descending order: the same entries, by score and then by time of the last kill |

The program text itself is in the step functions: `SessionSlot` (`StartStep` to `ReleaseStep`), `NetworkLib`
(`SlotEvent`, `PopEvent`), `SpscRing.Next`, `Handoff` (`AcceptStep` to `AnswerStep`), `DbPipeline.Next`,
`Monsters.Updated` and `Monsters.Damaged`, `Players.After`, and the packet handlers in `ClientView.Apply`.

## Left out

- Handoff.LoginIsFresh: whether the UPDATE succeeded is left open, so a failed save loses the position, as in
  the code.
- SessionEnds.CutSessionCanEnd: says that the threads can go on so, not that they are scheduled so; with at most
  8000 calls in progress on the slot.
- HandoffProgress.NobodyIsLockedOut: says that the threads can go on so, not that they are scheduled so.
- DbPipeline.NoRequestForgotten: the same; the due steps are the DB thread's, and the event that is to be set.
- MonsterReturns.ReturnEnds: the number of updates is not given in closed form; from a turn on it is at most
  15 for each walk (`MonsterReturns.ComesHome`).
- SessionTheorems.SendTokenUnique: does not bound the messages in flight, because the code does not;
  `SessionSizing.BatchBound` says when they are at most 500.
- Field.Field.ViewIsExact: is stated for what is indexed, not for positions; `MonsterStages.FilingIsExact` and
  the frame's contract relate the two.
- Batch.SendSpawnBatch: is stated for fewer than 2^15 records, because the count is an int16_t.
- Field.Field.ProcessPlayerAttackHit: the sort by distance is left out, because at most one target passes
  handleAttackReq.
- After a failed assertion or a throw in a handler, runs of `Field` may go on, which allows more than the code.
- Messages too short for their fixed fields: reading them throws before anything has changed. Directions in
  messages are the eight of the table.
- `Players.MessageQueue` is proved on its own; in `Field` the messages of a frame come as a sequence.
- Whether copies of remote players move: an attack while moving is not preceded by a stop, so no consistency of
  these copies can be claimed, and the assertion of Actor::MoveStart is claimed for monsters only.
- Sockets, completion ports, partial sends, unlisted errors, and the shutdown of the network library.
- MySQL and Redis: an abstract store of positions, a descending list and a map of times stand for them.
- The move between fields: there is one field.
- Packet fields that only concern drawing (positions, names, the directions of players and items) are bytes in
  `Batch` and absent from `ClientView`; the directions of monsters are in both. LOOT_RES and the ranking
  packets are absent.
- Rendering, user interface, bot decisions, timers, heart beats, profiling, logging and crash dumps.

/** The 16-bit Interlocked counter that a session slot keeps in mIOcnt. */
module Interlocked {
  const RELEASE_IOCOUNT: int := 0x4000

  /** The value a 16-bit signed variable holds after an update computed as v. */
  function Wrap16(v: int): int {
    var m := v % 0x10000;
    if m < 0x8000 then m else m - 0x10000
  }

  /** The test (v & RELEASE_IOCOUNT) != 0. */
  predicate ReleaseBit(v: int) {
    (v / RELEASE_IOCOUNT) % 2 == 1
  }

  /** One more increment neither sets nor clears bit 14. */
  predicate Room(v: int) {
    v % RELEASE_IOCOUNT != RELEASE_IOCOUNT - 1
  }

  /** A released slot whose count absorbed `failed` refused locks reads as released in every other block of
      2^14 of them: while there were fewer than 2^14, no longer up to 2^15, then again, and so on. */
  lemma ReleaseBitSurvives(failed: nat)
    ensures ReleaseBit(Wrap16(RELEASE_IOCOUNT + failed)) <==> (failed / RELEASE_IOCOUNT) % 2 == 0
    ensures failed < 2 * RELEASE_IOCOUNT ==>
              (ReleaseBit(Wrap16(RELEASE_IOCOUNT + failed)) <==> failed < RELEASE_IOCOUNT)
  {
    hide Wrap16, ReleaseBit;
    var q, r := failed / RELEASE_IOCOUNT, failed % RELEASE_IOCOUNT;
    var turns, u := (q + 1) / 4, (q + 1) % 4;
    Turns(turns, u, r);
    assert failed == RELEASE_IOCOUNT * q + r && q + 1 == 4 * turns + u;
    assert RELEASE_IOCOUNT + failed == 0x10000 * turns + RELEASE_IOCOUNT * u + r;
    assert q == 2 * (2 * turns) + (u - 1);
    assert u % 2 == 1 <==> q % 2 == 0 by {
      match u
      case 0 => assert q == 2 * (2 * turns - 1) + 1;
      case 1 => assert q == 2 * (2 * turns);
      case 2 => assert q == 2 * (2 * turns) + 1;
      case 3 => assert q == 2 * (2 * turns + 1);
    }
  }

  lemma Turns(turns: nat, u: nat, r: nat)
    requires u < 4 && r < RELEASE_IOCOUNT
    ensures Wrap16(0x10000 * turns + RELEASE_IOCOUNT * u + r) == RELEASE_IOCOUNT * (if u < 2 then u else u - 4) + r
    ensures ReleaseBit(Wrap16(0x10000 * turns + RELEASE_IOCOUNT * u + r)) <==> u % 2 == 1
  {
    var v := 0x10000 * turns + RELEASE_IOCOUNT * u + r;
    assert v % 0x10000 == RELEASE_IOCOUNT * u + r;
  }
}

/** One session slot of the network library, shared by any number of threads.

    An `Agent` is one call in progress on the slot: a worker handling one completion, or a thread
    inside sendPost or disconnectSession. Its constructor is the program point it has reached. One
    step is one Interlocked operation or one access to shared memory. */
module SessionSlot {
  import opened Interlocked

  const SEND_MAX: int := 500

  datatype Msg = Msg(owner: int, serial: int)

  /** What a thread wants the lock for. */
  datatype Want = Nothing | Send(msg: Msg) | Cut

  /** sessionLock, disconnectSession, sessionUnLock and the end of the worker loop. */
  datatype LockPc =
    | LockId(id: int, want: Want)
    | LockUndo(want: Want)
    | MismatchCas(want: Want)
    | Posting(want: Want)
    | Cutting(id: int)
    | Unlock(id: int)
    | ZeroCas
    | WorkerDec

  /** sendPost, between sessionLock and sessionUnLock. */
  datatype PostPc =
    | Pushing(id: int, msg: Msg)
    | Counting(id: int)
    | SendCas(id: int)
    | SendInc(id: int)
    | SendPqcs(id: int)

  /** completeAcceptEx, registerRecv, completeRecv and the error handler. */
  datatype RecvPc =
    | Accepting | AcceptCall
    | RecvArm | RecvInc | RecvIssue | RecvCall | RecvFin
    | SelfLock | SelfCut | SelfUnlock
    | IoLive(forRecv: bool) | IoDec

  /** completeSend, and registerSend until it knows that there is something to send. */
  datatype PumpPc =
    | BatchFree | BatchSize | BatchAgain
    | FlagDrop | Recheck | RecheckAgain | FlagRetake | RetakeInc | RetakePqcs

  /** The rest of registerSend. */
  datatype IssuePc = Take(n: int) | TakeCount(n: int) | SendLive | SendIoInc | SendIssue

  /** completeRelease, ReleaseSession and registerAcceptEx. */
  datatype RelPc =
    | RelCall | RelActive | RelDrain | RelDrainCount | RelBatch | RelReset | RelPush
    | ArmId | ArmIo

  datatype Agent =
    | Idle
    | Locking(lock: LockPc)
    | InPost(post: PostPc)
    | InRecv(recv: RecvPc)
    | InPump(pump: PumpPc)
    | InIssue(issue: IssuePc)
    | InRelease(rel: RelPc)

  datatype Phase = InUse | InStack | Arming | Lost

  datatype Callback = OnAccept(id: int) | OnRecv(id: int) | OnRelease(id: int)

  /** mIOcnt, mLive and the operations whose completion is still to be picked up. */
  datatype Io = Io(count: int, live: bool, acceptPending: bool, recvPending: bool, sendPending: bool,
                   releasePosted: bool)

  /** mSendFlag, mSendQ, mSenqQSize, the filled part of mSendOv->mSendMsgs, and mMsgCnt. */
  datatype Out = Out(flag: bool, queue: seq<Msg>, size: int, inflight: seq<Msg>, cnt: int)

  /** How registerSend reads mSenqQSize twice for one batch. between: a thread has found it to be at most
      SEND_MAX and will read it again. crossed: a push ever took it beyond SEND_MAX in between. overrun: a
      batch ever was larger than SEND_MAX, so that the code wrote behind its arrays. */
  datatype Sizing = Sizing(between: bool, crossed: bool, overrun: bool)

  /** History, used only to state properties.
      log, freed, wire: messages of this generation in the order they were pushed, destroyed by a
      send completion, handed to WSASend. offered, destroyed: every message ever given to sendPost
      for this slot, and every one deleted since. asserted: some RT_ASSERT has failed.
      posts: releases posted in this generation. armed: counted in mActiveSlotCnt. */
  datatype Past = Past(
    phase: Phase, armed: bool, posts: int, published: set<int>, calls: seq<Callback>,
    log: seq<Msg>, freed: seq<Msg>, wire: seq<Msg>,
    offered: multiset<Msg>, destroyed: multiset<Msg>, asserted: bool, sizing: Sizing)

  /** The shared variables of a slot. */
  datatype Slot = Slot(id: int, accepted: bool, io: Io, out: Out, past: Past)

  /** A slot and the calls in progress on it. */
  datatype State = State(slot: Slot, agents: seq<Agent>)

  /** The choices a step leaves open: calls from outside, which completion is picked up, and the
      outcome of a system call (`Alt`, `Bad`). */
  datatype Act =
    | CallSend(id: int, msg: Msg)
    | CallDisconnect(id: int)
    | TakeAccept | TakeRecv(fin: bool) | TakeSend | TakeRelease
    | Arm(newId: int)
    | Go | Alt | Bad

  /** A step may have to wait; otherwise it leaves a slot and takes its agent to a program point. */
  datatype Outcome = Blocked | Moved(slot: Slot, next: Agent)

  /** The lock was refused: sendPost destroys its message. */
  function Refuse(p: Past, w: Want): Past {
    if w.Send? then p.(destroyed := p.destroyed + multiset{w.msg}) else p
  }

  function Inc(io: Io): Io {
    io.(count := Wrap16(io.count + 1))
  }

  function Dec(io: Io): Io {
    io.(count := Wrap16(io.count - 1))
  }

  /** First half of sessionLock: count, then look at the release bit of the returned value. */
  function LockInc(s: Slot, id: int, w: Want): Outcome {
    var io := Inc(s.io);
    if ReleaseBit(io.count) then Moved(s.(io := io, past := Refuse(s.past, w)), Idle)
    else Moved(s.(io := io), Locking(LockId(id, w)))
  }

  /** InterlockedCompareExchange16(&mIOcnt, RELEASE_IOCOUNT, 0), by a thread that then refuses w. */
  function ReleaseCas(s: Slot, w: Want): Outcome {
    if s.io.count == 0 then Moved(s.(io := s.io.(count := RELEASE_IOCOUNT)), Locking(Posting(w)))
    else Moved(s.(past := Refuse(s.past, w)), Idle)
  }

  /** A decrement whose result decides whether the thread goes on to the compare-exchange. */
  function DecAndTest(s: Slot, otherwise: Agent): Outcome {
    var io := Dec(s.io);
    Moved(s.(io := io), if io.count == 0 then Locking(ZeroCas) else otherwise)
  }

  /** A thread that has nothing in progress on the slot starts something. A caller of sendPost
      holds an ID that onAccept gave out, and stamps the message with it. */
  function StartStep(s: Slot, a: Act): Outcome {
    match a
    case CallSend(id, msg) =>
      if Room(s.io.count) && id in s.past.published && msg.owner == id
      then LockInc(s.(past := s.past.(offered := s.past.offered + multiset{msg})), id, Send(msg))
      else Blocked
    case CallDisconnect(id) =>
      if Room(s.io.count) then LockInc(s, id, Cut) else Blocked
    case TakeAccept =>
      if s.io.acceptPending then Moved(s.(io := s.io.(acceptPending := false)), InRecv(Accepting)) else Blocked
    case TakeRecv(fin) =>
      if s.io.recvPending
      then Moved(s.(io := s.io.(recvPending := false)), InRecv(if fin then RecvFin else RecvCall)) else Blocked
    case TakeSend =>
      if s.io.sendPending then Moved(s.(io := s.io.(sendPending := false)), InPump(BatchFree)) else Blocked
    case TakeRelease =>
      if s.io.releasePosted then Moved(s.(io := s.io.(releasePosted := false)), InRelease(RelCall)) else Blocked
    case _ => Blocked
  }

  function LockStep(s: Slot, pc: LockPc): Outcome {
    match pc
    case LockId(id, w) =>
      Moved(s, if s.id != id then Locking(LockUndo(w))
               else if w.Send? then InPost(Pushing(id, w.msg)) else Locking(Cutting(id)))
    case LockUndo(w) => Moved(s.(io := Dec(s.io)), Locking(MismatchCas(w)))
    case MismatchCas(w) => ReleaseCas(s, w)
    case Posting(w) =>
      Moved(s.(io := s.io.(releasePosted := true), past := Refuse(s.past, w).(posts := s.past.posts + 1)), Idle)
    case Cutting(id) => Moved(s.(io := s.io.(live := false)), Locking(Unlock(id)))
    case Unlock(_) => DecAndTest(s, Idle)
    case ZeroCas => ReleaseCas(s, Nothing)
    case WorkerDec => DecAndTest(s, Idle)
  }

  /** A push has increased mSenqQSize. */
  function Crossing(r: Sizing, size: int): Sizing {
    r.(crossed := r.crossed || (r.between && size == SEND_MAX))
  }

  /** The second read has found n messages. */
  function ReadAgain(r: Sizing, n: int): Sizing {
    r.(between := false, overrun := r.overrun || SEND_MAX < n)
  }

  function PostStep(s: Slot, pc: PostPc): Outcome {
    match pc
    case Pushing(id, m) =>
      Moved(s.(out := s.out.(queue := s.out.queue + [m]), past := s.past.(log := s.past.log + [m])),
            InPost(Counting(id)))
    case Counting(id) =>
      if s.out.size < 0x7FFF
      then Moved(s.(out := s.out.(size := s.out.size + 1),
                    past := s.past.(sizing := Crossing(s.past.sizing, s.out.size))),
                 InPost(SendCas(id)))
      else Blocked
    case SendCas(id) =>
      if s.out.flag then Moved(s, Locking(Unlock(id))) else Moved(s.(out := s.out.(flag := true)), InPost(SendInc(id)))
    case SendInc(id) => if Room(s.io.count) then Moved(s.(io := Inc(s.io)), InPost(SendPqcs(id))) else Blocked
    case SendPqcs(id) => Moved(s.(io := s.io.(sendPending := true)), Locking(Unlock(id)))
  }

  function RecvStep(s: Slot, pc: RecvPc, a: Act): Outcome {
    match pc
    case Accepting =>
      if a == Go then Moved(s.(io := s.io.(live := true)), InRecv(AcceptCall)) else Moved(s, Locking(WorkerDec))
    case AcceptCall =>
      Moved(s.(accepted := true,
               past := s.past.(asserted := s.past.asserted || s.out.cnt != 0, published := s.past.published + {s.id},
                               calls := s.past.calls + [OnAccept(s.id)])), InRecv(RecvArm))
    case RecvArm =>
      Moved(s, if a == Alt then InRecv(SelfLock) else if s.io.live then InRecv(RecvInc) else Locking(WorkerDec))
    case RecvInc => if Room(s.io.count) then Moved(s.(io := Inc(s.io)), InRecv(RecvIssue)) else Blocked
    case RecvIssue =>
      if a == Alt then Moved(s, InRecv(IoLive(true)))
           else Moved(s.(io := s.io.(recvPending := true)), Locking(WorkerDec))
    case RecvCall =>
      if a == Go then Moved(s.(past := s.past.(calls := s.past.calls + [OnRecv(s.id)])), InRecv(RecvCall))
      else Moved(s, InRecv(if a == Bad then SelfLock else RecvArm))
    case RecvFin => Moved(s.(io := s.io.(live := false)), Locking(WorkerDec))
    case SelfLock =>
      if Room(s.io.count)
      then Moved(s.(io := Inc(s.io)), if ReleaseBit(Inc(s.io).count) then Locking(WorkerDec) else InRecv(SelfCut))
      else Blocked
    case SelfCut => Moved(s.(io := s.io.(live := false)), InRecv(SelfUnlock))
    case SelfUnlock => DecAndTest(s, Locking(WorkerDec))
    case IoLive(_) => Moved(s.(io := s.io.(live := false)), InRecv(IoDec))
    case IoDec => Moved(s.(io := Dec(s.io)), Locking(WorkerDec))
  }

  /** mSendMsgs[0 .. mMsgCnt), the messages that a completion or a release destroys. */
  function Batch(o: Out): seq<Msg> {
    if 0 <= o.cnt <= |o.inflight| then o.inflight[..o.cnt] else []
  }

  function PumpStep(s: Slot, pc: PumpPc): Outcome {
    match pc
    case BatchFree =>
      Moved(s.(out := s.out.(inflight := [], cnt := 0),
               past := s.past.(destroyed := s.past.destroyed + multiset(Batch(s.out)),
                               freed := s.past.freed + Batch(s.out))), InPump(BatchSize))
    case BatchSize =>
      if SEND_MAX < s.out.size then Moved(s.(out := s.out.(cnt := SEND_MAX)), InIssue(Take(SEND_MAX)))
      else Moved(s.(past := s.past.(sizing := s.past.sizing.(between := true))), InPump(BatchAgain))
    case BatchAgain =>
      var n := s.out.size;
      var r := s.(past := s.past.(sizing := ReadAgain(s.past.sizing, n)));
      if n == 0 then Moved(r, InPump(FlagDrop)) else Moved(r.(out := s.out.(cnt := n)), InIssue(Take(n)))
    case FlagDrop =>
      if s.out.flag then Moved(s.(out := s.out.(flag := false)), InPump(Recheck)) else Moved(s, Locking(WorkerDec))
    case Recheck => Moved(s, if SEND_MAX < s.out.size then InPump(FlagRetake) else InPump(RecheckAgain))
    case RecheckAgain => Moved(s, if s.out.size != 0 then InPump(FlagRetake) else Locking(WorkerDec))
    case FlagRetake =>
      if s.out.flag then Moved(s, Locking(WorkerDec)) else Moved(s.(out := s.out.(flag := true)), InPump(RetakeInc))
    case RetakeInc => if Room(s.io.count) then Moved(s.(io := Inc(s.io)), InPump(RetakePqcs)) else Blocked
    case RetakePqcs => Moved(s.(io := s.io.(sendPending := true)), Locking(WorkerDec))
  }

  function IssueStep(s: Slot, pc: IssuePc, a: Act): Outcome {
    match pc
    case Take(n) =>
      if s.out.queue == [] then Moved(s.(past := s.past.(asserted := true)), Locking(WorkerDec))
      else
        var m := s.out.queue[0];
        Moved(s.(out := s.out.(queue := s.out.queue[1..], inflight := s.out.inflight + [m]),
                 past := s.past.(asserted := s.past.asserted || m.owner != s.id)), InIssue(TakeCount(n)))
    case TakeCount(n) =>
      Moved(s.(out := s.out.(size := s.out.size - 1)), InIssue(if |s.out.inflight| < n then Take(n) else SendLive))
    case SendLive => Moved(s, if s.io.live then InIssue(SendIoInc) else Locking(WorkerDec))
    case SendIoInc => if Room(s.io.count) then Moved(s.(io := Inc(s.io)), InIssue(SendIssue)) else Blocked
    case SendIssue =>
      var r := s.(past := s.past.(wire := s.past.wire + s.out.inflight));
      if a == Alt then Moved(r, InRecv(IoLive(false)))
           else Moved(r.(io := s.io.(sendPending := true)), Locking(WorkerDec))
  }

  function ReleaseStep(s: Slot, pc: RelPc, a: Act): Outcome {
    match pc
    case RelCall =>
      Moved(if s.accepted then s.(past := s.past.(calls := s.past.calls + [OnRelease(s.id)])) else s,
            InRelease(RelActive))
    case RelActive => Moved(s.(past := s.past.(armed := false)), InRelease(RelDrain))
    case RelDrain =>
      if s.out.queue == []
      then Moved(s.(past := s.past.(asserted := s.past.asserted || s.out.size != 0)), InRelease(RelBatch))
      else Moved(s.(out := s.out.(queue := s.out.queue[1..]),
                    past := s.past.(destroyed := s.past.destroyed + multiset{s.out.queue[0]})),
              InRelease(RelDrainCount))
    case RelDrainCount => Moved(s.(out := s.out.(size := s.out.size - 1)), InRelease(RelDrain))
    case RelBatch =>
      Moved(s.(out := s.out.(inflight := [], cnt := 0),
               past := s.past.(destroyed := s.past.destroyed + multiset(Batch(s.out)))), InRelease(RelReset))
    case RelReset => Moved(s.(accepted := false, out := s.out.(flag := false)), InRelease(RelPush))
    case RelPush => Moved(s.(past := s.past.(phase := InStack)), Idle)
    case ArmId =>
      if a.Arm? && a.newId !in s.past.published then Moved(s.(id := a.newId), InRelease(ArmIo)) else Blocked
    case ArmIo =>
      if a == Alt then Moved(s.(past := s.past.(phase := InStack)), Idle)
      else Moved(s.(io := s.io.(count := 1, acceptPending := true),
                    past := s.past.(phase := InUse, armed := true, posts := 0, log := [], freed := [],
                                    wire := [])), Idle)
  }

  /** What an agent at program point g does to the slot. */
  function StepOf(s: Slot, g: Agent, a: Act): Outcome {
    match g
    case Idle => StartStep(s, a)
    case Locking(pc) => LockStep(s, pc)
    case InPost(pc) => PostStep(s, pc)
    case InRecv(pc) => RecvStep(s, pc, a)
    case InPump(pc) => PumpStep(s, pc)
    case InIssue(pc) => IssueStep(s, pc, a)
    case InRelease(pc) => ReleaseStep(s, pc, a)
  }

  /** One step of agent i; a blocked agent leaves everything as it is. */
  function Step(x: State, i: nat, a: Act): State
    requires i < |x.agents|
  {
    match StepOf(x.slot, x.agents[i], a)
    case Blocked => x
    case Moved(s, g) => State(s, x.agents[i := g])
  }
}

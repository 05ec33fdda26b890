/** What the calls of the library bring about, whatever else happens: a disconnect cuts the session for
    good, a message that is sent is queued, a popped slot is armed again, a stop is final. */
module SessionCalls {
  import opened Interlocked
  import opened SessionSlot
  import opened SessionTally
  import opened SessionInvariant
  import opened SessionRules
  import opened SessionSteps
  import opened SessionMessages
  import opened NetworkLib
  import opened SessionTheorems

  // ---- what single steps do -----------------------------------------------------------------------------

  /** Program points that clear mLive. */
  predicate Cuts(g: Agent) {
    || (g.Locking? && g.lock.Cutting?)
    || (g.InRecv? && (g.recv.RecvFin? || g.recv.SelfCut? || g.recv.IoLive?))
  }

  /** About to count a receive or a send that it will issue. */
  predicate StartsIo(g: Agent) {
    g == InRecv(RecvInc) || g == InIssue(SendIoInc)
  }

  /** mLive is set by an accept that succeeds, and by nothing else; a cut clears it; and nobody starts a
      receive or a send on a session that is not live. */
  lemma LiveIs(s: Slot, g: Agent, a: Act)
    requires StepOf(s, g, a).Moved?
    ensures var r := StepOf(s, g, a);
      && (r.slot.io.live <==> !Cuts(g) && (s.io.live || (g == InRecv(Accepting) && a == Go)))
      && (StartsIo(r.next) ==> s.io.live)
  {
    hide StartStep, LockStep, PostStep, RecvStep, PumpStep, IssueStep, ReleaseStep;
    match g
    case Idle => StartLive(s, a);
    case Locking(pc) => LockLive(s, pc);
    case InRecv(pc) => RecvLive(s, pc, a);
    case InRelease(pc) => ReleaseLive(s, pc, a);
    case _ => SendLive(s, g, a);
  }

  lemma LockLive(s: Slot, pc: LockPc)
    ensures var r := LockStep(s, pc);
      r.Moved? && (r.slot.io.live <==> !pc.Cutting? && s.io.live) && !StartsIo(r.next)
  {
    hide ReleaseBit, Wrap16, Room;
  }

  lemma RecvLive(s: Slot, pc: RecvPc, a: Act)
    requires RecvStep(s, pc, a).Moved?
    ensures var r := RecvStep(s, pc, a);
      && (r.slot.io.live <==> !Cuts(InRecv(pc)) && (s.io.live || (pc.Accepting? && a == Go)))
      && (StartsIo(r.next) ==> s.io.live)
  {
    hide ReleaseBit, Wrap16, Room;
  }

  lemma SendLive(s: Slot, g: Agent, a: Act)
    requires (g.InPost? || g.InPump? || g.InIssue?) && StepOf(s, g, a).Moved?
    ensures var r := StepOf(s, g, a); r.slot.io.live == s.io.live && (StartsIo(r.next) ==> s.io.live)
  {
    hide Wrap16, Room, Batch, PumpStep;
    match g
    case InPump(pc) => PumpLive(s, pc);
    case _ =>
  }

  lemma PumpLive(s: Slot, pc: PumpPc)
    requires PumpStep(s, pc).Moved?
    ensures PumpStep(s, pc).slot.io.live == s.io.live && !StartsIo(PumpStep(s, pc).next)
  {
    hide Wrap16, Room, Batch;
  }

  lemma StartLive(s: Slot, a: Act)
    requires StartStep(s, a).Moved?
    ensures StartStep(s, a).slot.io.live == s.io.live && !StartsIo(StartStep(s, a).next)
  {
    hide ReleaseBit, Wrap16, Room;
  }

  lemma ReleaseLive(s: Slot, pc: RelPc, a: Act)
    requires ReleaseStep(s, pc, a).Moved?
    ensures ReleaseStep(s, pc, a).slot.io.live == s.io.live && !StartsIo(ReleaseStep(s, pc, a).next)
  {
    hide Batch;
  }

  /** The callbacks: onAccept once the session is accepted, onRecv for every message that the receive loop
      finds, onRelease of an accepted session; and no others. */
  lemma CallsAre(s: Slot, g: Agent, a: Act)
    requires StepOf(s, g, a).Moved?
    ensures StepOf(s, g, a).slot.past.calls ==
              s.past.calls + (if g == InRecv(AcceptCall) then [OnAccept(s.id)]
                              else if g == InRecv(RecvCall) && a == Go then [OnRecv(s.id)]
                              else if g == InRelease(RelCall) && s.accepted then [OnRelease(s.id)] else [])
  {
    assert s.past.calls + [] == s.past.calls;
    hide StartStep, LockStep, PostStep, RecvStep, PumpStep, IssueStep, ReleaseStep;
    match g
    case InRecv(pc) => RecvCalls(s, pc, a);
    case InRelease(pc) => ReleaseCalls(s, pc, a);
    case _ => QuietPast(s, g, a);
  }

  lemma RecvCalls(s: Slot, pc: RecvPc, a: Act)
    requires RecvStep(s, pc, a).Moved?
    ensures var r := RecvStep(s, pc, a).slot.past;
      && r.log == s.past.log
      && r.calls == s.past.calls + (if pc.AcceptCall? then [OnAccept(s.id)]
                                    else if pc.RecvCall? && a == Go then [OnRecv(s.id)] else [])
  {
    hide ReleaseBit, Wrap16, Room;
    assert s.past.calls + [] == s.past.calls;
  }

  lemma ReleaseCalls(s: Slot, pc: RelPc, a: Act)
    requires ReleaseStep(s, pc, a).Moved?
    ensures var r := ReleaseStep(s, pc, a).slot.past;
      && (r.log == s.past.log || pc.ArmIo?)
      && r.calls == s.past.calls + (if pc.RelCall? && s.accepted then [OnRelease(s.id)] else [])
  {
    hide Batch;
    assert s.past.calls + [] == s.past.calls;
  }

  /** The other steps make no callback; of them, only a push adds to the log. */
  lemma QuietPast(s: Slot, g: Agent, a: Act)
    requires StepOf(s, g, a).Moved? && !g.InRecv? && !g.InRelease?
    ensures var r := StepOf(s, g, a).slot.past;
      && r.calls == s.past.calls
      && r.log == if g.InPost? && g.post.Pushing? then s.past.log + [g.post.msg] else s.past.log
  {
    hide ReleaseBit, Wrap16, Room, Batch, StartStep, PumpStep, LockStep;
    match g
    case Idle => StartPast(s, a);
    case Locking(pc) => LockPast(s, pc);
    case InPump(pc) => PumpPast(s, pc);
    case _ =>
  }

  lemma LockPast(s: Slot, pc: LockPc)
    ensures LockStep(s, pc).Moved?
    ensures LockStep(s, pc).slot.past.calls == s.past.calls && LockStep(s, pc).slot.past.log == s.past.log
  {
    hide ReleaseBit, Wrap16, Room;
  }

  /** The messages of a generation: only a push adds one, and only a re-arm forgets them. */
  lemma LogIs(s: Slot, g: Agent, a: Act)
    requires StepOf(s, g, a).Moved?
    ensures var log := StepOf(s, g, a).slot.past.log;
      if g.InPost? && g.post.Pushing? then log == s.past.log + [g.post.msg]
      else log == s.past.log || g == InRelease(ArmIo)
  {
    hide StartStep, LockStep, PostStep, RecvStep, PumpStep, IssueStep, ReleaseStep;
    match g
    case InRecv(pc) => RecvCalls(s, pc, a);
    case InRelease(pc) => ReleaseCalls(s, pc, a);
    case _ => QuietPast(s, g, a);
  }

  lemma StartPast(s: Slot, a: Act)
    requires StartStep(s, a).Moved?
    ensures StartStep(s, a).slot.past.calls == s.past.calls && StartStep(s, a).slot.past.log == s.past.log
  {
    hide ReleaseBit, Wrap16, Room;
  }

  lemma PumpPast(s: Slot, pc: PumpPc)
    requires PumpStep(s, pc).Moved?
    ensures PumpStep(s, pc).slot.past.calls == s.past.calls && PumpStep(s, pc).slot.past.log == s.past.log
  {
    hide Wrap16, Room, Batch;
  }

  // ---- one session, whatever the others do ----------------------------------------------------------------

  /** Once its ID was given out, a session is not accepted a second time. */
  lemma AcceptedOnce(x: State, i: nat)
    requires Inv(x) && i < |x.agents| && x.slot.id in x.slot.past.published
    ensures x.agents[i] != InRecv(Accepting) && x.agents[i] != InRelease(ArmIo)
  {
    hide Total, Of, AgentOk;
    TotalsNatural(x.agents);
    TotalBounds(x.agents, i);
    Fresh(x.slot, x.agents[i], Total(x.agents));
  }

  lemma Fresh(s: Slot, g: Agent, t: Tally)
    requires Shared(s, t) && t.Natural() && t.Minus(Of(g)).Natural() && AgentOk(s, g)
    requires s.id in s.past.published
    ensures g != InRecv(Accepting) && g != InRelease(ArmIo)
  {
    hide PumpInv, FifoInv, TraceInv;
  }

  /** What an event makes of slot k: nothing, a step of one of its agents, or a pop. */
  datatype Change = Same | Stepped(i: nat, a: Act) | Popped(i: nat)

  function ChangeOf(l: Lib, k: nat, e: Event): Change
    requires k < |l.slots|
  {
    match e
    case OnSlot(h, i, a) =>
      if h == k && i < |l.slots[k].agents|
         && StepOf(l.slots[k].slot, l.slots[k].agents[i], Resolve(l, l.slots[k].agents[i], a)).Moved?
      then Stepped(i, Resolve(l, l.slots[k].agents[i], a)) else Same
    case Pop(i) =>
      if Next(l, e).slots != l.slots && l.stack != [] && l.stack[|l.stack| - 1] == k then Popped(i) else Same
    case Stop => Same
  }

  /** What such a change makes of the slot. */
  ghost predicate ChangedBy(l: Lib, k: nat, e: Event, y: State)
    requires k < |l.slots|
  {
    var x := l.slots[k];
    match ChangeOf(l, k, e)
    case Same => y == x
    case Stepped(i, a) =>
      && e.OnSlot? && e.k == k && e.i == i < |x.agents| && a == Resolve(l, x.agents[i], e.a)
      && StepOf(x.slot, x.agents[i], a).Moved? && y == Step(x, i, a)
      && Effects(x.slot, x.agents[i], a, y.slot)
    case Popped(i) =>
      && x.slot.past.phase == InStack
      && if l.on then i < |x.agents| && x.agents[i] == Idle
           && y == State(SetPhase(x.slot, Arming), x.agents[i := InRelease(ArmId)])
         else y == State(SetPhase(x.slot, Lost), x.agents)
  }

  /** What is known of slot k after an event. */
  lemma ChangeIs(l: Lib, k: nat, e: Event)
    requires LibInv(l) && k < |l.slots|
    ensures var m := Next(l, e);
      && |m.slots| == |l.slots| && l.seqId <= m.seqId && LibInv(m) && |m.slots[k].agents| == |l.slots[k].agents|
      && ChangedBy(l, k, e, m.slots[k])
  {
    NextKeeps(l, e);
    match e
    case OnSlot(h, i, a) => StepChanges(l, k, h, i, a);
    case Pop(i) => PopChanges(l, k, i);
    case Stop =>
    hide LibInv;
  }

  lemma StepChanges(l: Lib, k: nat, h: nat, i: nat, a: Act)
    requires LibInv(l) && k < |l.slots|
    ensures var m := Next(l, OnSlot(h, i, a));
      && |m.slots| == |l.slots| && l.seqId <= m.seqId && |m.slots[k].agents| == |l.slots[k].agents|
      && ChangedBy(l, k, OnSlot(h, i, a), m.slots[k])
  {
    hide Inv, Conserved, OpenSession, Armed, Count, StepOf, Effects, StackOk;
    if h < |l.slots| && i < |l.slots[h].agents| {
      var b := Resolve(l, l.slots[h].agents[i], a);
      if StepOf(l.slots[h].slot, l.slots[h].agents[i], b).Moved? {
        SlotStepFacts(l, h, i, b);
      }
    }
  }

  lemma PopChanges(l: Lib, k: nat, i: nat)
    requires LibInv(l) && k < |l.slots|
    ensures var m := Next(l, Pop(i));
      && |m.slots| == |l.slots| && l.seqId <= m.seqId && |m.slots[k].agents| == |l.slots[k].agents|
      && ChangedBy(l, k, Pop(i), m.slots[k])
  {
    hide Inv, Conserved, OpenSession, Armed, Count, StepOf, Effects;
  }

  // ---- a disconnect cuts --------------------------------------------------------------------------------

  /** Session id is not live any more, if it is still that of the slot. */
  predicate IsCut(s: Slot, id: int) {
    s.id == id ==> id in s.past.published && !s.io.live
  }

  /** Nobody has begun to start a receive or a send. */
  ghost predicate NoNewIo(x: State, y: State) {
    && |x.agents| == |y.agents|
    && forall i :: 0 <= i < |y.agents| && StartsIo(y.agents[i]) ==> y.agents[i] == x.agents[i]
  }

  lemma CutStep(l: Lib, k: nat, id: int, e: Event)
    requires LibInv(l) && k < |l.slots| && id <= l.seqId && IsCut(l.slots[k].slot, id)
    ensures var m := Next(l, e);
      && LibInv(m) && |m.slots| == |l.slots| && id <= m.seqId && IsCut(m.slots[k].slot, id)
      && (m.slots[k].slot.id == id ==> l.slots[k].slot.id == id && NoNewIo(l.slots[k], m.slots[k]))
  {
    hide Inv, Conserved, StackOk, Next, OpenSession, Armed, StepOf, Count, Cuts, StartsIo;
    ChangeIs(l, k, e);
    var x := l.slots[k];
    match ChangeOf(l, k, e) {
      case Stepped(i, a) =>
        LiveIs(x.slot, x.agents[i], a);
        if x.slot.id == id { AcceptedOnce(x, i); }
      case Popped(i) => NoIoInRelease();
      case Same =>
    }
  }

  lemma NoIoInRelease()
    ensures !StartsIo(InRelease(ArmId))
  {
  }

  /** A session that was cut after its ID had been given out stays cut, whatever happens, as long as the slot
      keeps that ID; and no thread begins to start a receive or a send on it. */
  lemma {:induction false} CutStays(l: Lib, k: nat, id: int, es: seq<Event>)
    requires Reachable(l) && k < |l.slots|
    requires l.slots[k].slot.id == id && id in l.slots[k].slot.past.published && !l.slots[k].slot.io.live
    ensures var m := Run(l, es);
      && |m.slots| == |l.slots| && LibInv(m) && id <= m.seqId && IsCut(m.slots[k].slot, id)
      && (m.slots[k].slot.id == id ==> !m.slots[k].slot.io.live && NoNewIo(l.slots[k], m.slots[k]))
  {
    hide Inv, Conserved, StackOk, Reachable, Next;
    ReachableInv(l);
    if es != [] {
      CutStays(l, k, id, es[..|es| - 1]);
      CutStep(Run(l, es[..|es| - 1]), k, id, es[|es| - 1]);
    }
  }

  /** How many of the events are steps of agent i of slot k. */
  function Own(es: seq<Event>, k: nat, i: nat): nat {
    if es == [] then 0
    else Own(es[..|es| - 1], k, i) + (if IsOwn(es[|es| - 1], k, i) then 1 else 0)
  }

  predicate IsOwn(e: Event, k: nat, i: nat) {
    e.OnSlot? && e.k == k && e.i == i
  }

  /** After n steps of its own, a thread that disconnects session id. */
  predicate Disconnecting(x: State, i: nat, id: int, n: nat) {
    x.slot.id == id ==>
      && id in x.slot.past.published && i < |x.agents|
      && (|| !x.slot.io.live
          || (n == 0 && x.agents[i] == Locking(LockId(id, Cut)))
          || (n == 1 && x.agents[i] == Locking(Cutting(id))))
  }

  lemma DisconnectStep(l: Lib, k: nat, i: nat, id: int, n: nat, e: Event)
    requires LibInv(l) && k < |l.slots| && id <= l.seqId && Disconnecting(l.slots[k], i, id, n)
    ensures var m := Next(l, e);
      && LibInv(m) && |m.slots| == |l.slots| && id <= m.seqId
      && Disconnecting(m.slots[k], i, id, if IsOwn(e, k, i) then n + 1 else n)
  {
    hide Inv, Conserved, StackOk, Next, OpenSession, Armed, StepOf, Count, Cuts, StartsIo;
    ChangeIs(l, k, e);
    var x := l.slots[k];
    if x.slot.id == id && !x.slot.io.live {
      CutStep(l, k, id, e);
    } else if x.slot.id == id {
      Unblocked(x.slot, id);
      match ChangeOf(l, k, e) {
        case Stepped(j, a) =>
        case Popped(j) =>
        case Same =>
      }
    }
  }

  /** The two steps of a disconnect that has the count: the IDs agree, so the session is cut. */
  lemma Unblocked(s: Slot, id: int)
    requires s.id == id
    ensures forall a :: StepOf(s, Locking(LockId(id, Cut)), a) == Moved(s, Locking(Cutting(id)))
    ensures forall a :: StepOf(s, Locking(Cutting(id)), a) == Moved(s.(io := s.io.(live := false)), Locking(Unlock(id)))
    ensures forall a, m :: StepOf(s, Locking(LockId(id, Send(m))), a) == Moved(s, InPost(Pushing(id, m)))
  {
  }

  lemma {:induction false} DisconnectRun(l: Lib, k: nat, i: nat, id: int, es: seq<Event>)
    requires LibInv(l) && k < |l.slots| && id <= l.seqId && Disconnecting(l.slots[k], i, id, 0)
    ensures var m := Run(l, es);
      LibInv(m) && |m.slots| == |l.slots| && id <= m.seqId && Disconnecting(m.slots[k], i, id, Own(es, k, i))
  {
    hide Inv, Conserved, StackOk, Next, Disconnecting;
    if es != [] {
      DisconnectRun(l, k, i, id, es[..|es| - 1]);
      DisconnectStep(Run(l, es[..|es| - 1]), k, i, id, Own(es[..|es| - 1], k, i), es[|es| - 1]);
    }
  }

  /** disconnectSession with the ID of an accepted session takes effect: when the calling thread has taken two
      more steps, whatever the others did in between, the session is not live, unless the slot has passed to
      another ID; and so it stays. (If the lock is refused, the session is being released already.) */
  lemma DisconnectTakesEffect(l: Lib, k: nat, i: nat, id: int, es: seq<Event>)
    requires Reachable(l) && k < |l.slots| && i < |l.slots[k].agents| && l.slots[k].agents[i] == Idle
    requires l.slots[k].slot.id == id && id in l.slots[k].slot.past.published && Room(l.slots[k].slot.io.count)
    requires 2 <= Own(es, k, i)
    ensures var m := Run(Next(l, OnSlot(k, i, CallDisconnect(id))), es);
      |m.slots| == |l.slots| && (m.slots[k].slot.id == id ==> !m.slots[k].slot.io.live)
  {
    hide Inv, Conserved, StackOk, Reachable, Wrap16, ReleaseBit;
    ReachableInv(l);
    var e := OnSlot(k, i, CallDisconnect(id));
    NextKeeps(l, e);
    Refused(l.slots[k], i, Cut, id);
    assert Disconnecting(Next(l, e).slots[k], i, id, 0);
    DisconnectRun(Next(l, e), k, i, id, es);
  }

  /** A lock is refused only while the session is being released; then it is not live. */
  lemma Refused(x: State, i: nat, w: Want, id: int)
    requires Inv(x) && i < |x.agents| && x.agents[i] == Idle && Room(x.slot.io.count)
    ensures var r := LockInc(x.slot, id, w);
      if Released(x.slot.io) then !x.slot.io.live && r.next == Idle
      else r.slot == x.slot.(io := Inc(x.slot.io)) && r.next == Locking(LockId(id, w))
  {
    hide Total, AgentOk, Room, PumpInv, BoxInv, FifoInv, TraceInv;
    TotalsNatural(x.agents);
    LockIncBit(x.slot, Total(x.agents));
  }

  /** The client has closed; a frame cannot be read; the receive ring is full; WSARecv or WSASend fails. */
  predicate Fails(s: Slot, g: Agent, a: Act) {
    || (g == Idle && a == TakeRecv(true) && s.io.recvPending)
    || (g == InRecv(RecvCall) && a == Bad) || (g == InRecv(RecvArm) && a == Alt)
    || (g == InRecv(RecvIssue) && a == Alt) || (g == InIssue(SendIssue) && a == Alt)
  }

  /** After n steps that it could take, a thread that has found session id to have failed. */
  predicate Failing(x: State, i: nat, id: int, n: nat) {
    x.slot.id == id ==>
      && id in x.slot.past.published && i < |x.agents|
      && (!x.slot.io.live || (n == 0 && x.agents[i] == InRecv(SelfLock)) || (n <= 1 && Cuts(x.agents[i])))
  }

  lemma FailStarts(x: State, i: nat, a: Act)
    requires i < |x.agents| && Fails(x.slot, x.agents[i], a) && x.slot.id in x.slot.past.published
    ensures StepOf(x.slot, x.agents[i], a).Moved? && Failing(Step(x, i, a), i, x.slot.id, 0)
  {
  }

  lemma SelfLocked(x: State, i: nat, a: Act)
    requires Inv(x) && i < |x.agents| && x.agents[i] == InRecv(SelfLock) && StepOf(x.slot, x.agents[i], a).Moved?
    ensures StepOf(x.slot, x.agents[i], a).next == InRecv(SelfCut)
  {
    hide Total, PumpInv, BoxInv, FifoInv, TraceInv, AgentOk, Room, Wrap16, ReleaseBit;
    TotalsNatural(x.agents);
    TotalBounds(x.agents, i);
    CountsHolder(x.slot, Total(x.agents));
    LockIncBit(x.slot, Total(x.agents));
  }

  lemma FailStep(l: Lib, k: nat, i: nat, id: int, n: nat, e: Event)
    requires LibInv(l) && k < |l.slots| && id <= l.seqId && Failing(l.slots[k], i, id, n)
    ensures var m := Next(l, e);
      && LibInv(m) && |m.slots| == |l.slots| && id <= m.seqId
      && Failing(m.slots[k], i, id, if Takes(l, k, i, e) then n + 1 else n)
  {
    hide Inv, Conserved, StackOk, Next, OpenSession, Armed, StepOf, Count, StartsIo;
    ChangeIs(l, k, e);
    var x := l.slots[k];
    if x.slot.id == id && !x.slot.io.live {
      CutStep(l, k, id, e);
    } else if x.slot.id == id {
      match ChangeOf(l, k, e) {
        case Stepped(j, a) =>
          LiveIs(x.slot, x.agents[j], a);
          if x.agents[j] == InRecv(SelfLock) { SelfLocked(x, j, a); }
        case Popped(j) =>
        case Same =>
      }
    }
  }

  /** The event is a step that agent i of slot k could take. */
  predicate Takes(l: Lib, k: nat, i: nat, e: Event) {
    k < |l.slots| && ChangeOf(l, k, e).Stepped? && ChangeOf(l, k, e).i == i
  }

  /** How many of the events are such steps. */
  function Taken(l: Lib, es: seq<Event>, k: nat, i: nat): nat {
    if es == [] then 0
    else
      Taken(l, es[..|es| - 1], k, i)
        + if Takes(Run(l, es[..|es| - 1]), k, i, es[|es| - 1]) then 1 else 0
  }

  lemma {:induction false} FailRun(l: Lib, k: nat, i: nat, id: int, es: seq<Event>)
    requires LibInv(l) && k < |l.slots| && id <= l.seqId && Failing(l.slots[k], i, id, 0)
    ensures var m := Run(l, es);
      LibInv(m) && |m.slots| == |l.slots| && id <= m.seqId && Failing(m.slots[k], i, id, Taken(l, es, k, i))
  {
    hide Inv, Conserved, StackOk, Next, Failing, Takes;
    if es != [] {
      FailRun(l, k, i, id, es[..|es| - 1]);
      FailStep(Run(l, es[..|es| - 1]), k, i, id, Taken(l, es[..|es| - 1], k, i), es[|es| - 1]);
    }
  }

  /** Every failure cuts the session: two steps of the thread that finds it later the session is not live,
      unless the slot has passed to another ID. */
  lemma FailureTakesEffect(l: Lib, k: nat, i: nat, a: Act, es: seq<Event>)
    requires Reachable(l) && k < |l.slots| && i < |l.slots[k].agents| && Fails(l.slots[k].slot, l.slots[k].agents[i], a)
    requires l.slots[k].slot.id in l.slots[k].slot.past.published
    requires var n := Next(l, OnSlot(k, i, a)); 2 <= Taken(n, es, k, i)
    ensures var m := Run(Next(l, OnSlot(k, i, a)), es);
      |m.slots| == |l.slots| && (m.slots[k].slot.id == l.slots[k].slot.id ==> !m.slots[k].slot.io.live)
  {
    hide LibInv, Reachable, Next, Fails, Failing, Taken;
    ReachableInv(l);
    var id, n := l.slots[k].slot.id, Next(l, OnSlot(k, i, a));
    FailHappens(l, k, i, a);
    FailRun(n, k, i, id, es);
    assert 2 <= Taken(n, es, k, i) && Failing(Run(n, es).slots[k], i, id, Taken(n, es, k, i));
    FailEnds(Run(n, es).slots[k], i, id, Taken(n, es, k, i));
  }

  lemma FailEnds(x: State, i: nat, id: int, n: nat)
    requires Failing(x, i, id, n) && 2 <= n
    ensures x.slot.id == id ==> !x.slot.io.live
  {
  }

  lemma FailHappens(l: Lib, k: nat, i: nat, a: Act)
    requires LibInv(l) && k < |l.slots| && i < |l.slots[k].agents| && Fails(l.slots[k].slot, l.slots[k].agents[i], a)
    requires l.slots[k].slot.id in l.slots[k].slot.past.published
    ensures var m := Next(l, OnSlot(k, i, a));
      && LibInv(m) && |m.slots| == |l.slots| && l.slots[k].slot.id <= m.seqId
      && Failing(m.slots[k], i, l.slots[k].slot.id, 0)
  {
    hide Inv, Conserved, StackOk, Step, StepOf, Failing, OpenSession, Armed, Count;
    ChangeIs(l, k, OnSlot(k, i, a));
    FailStarts(l.slots[k], i, a);
  }

  // ---- what is sent is queued -----------------------------------------------------------------------------

  function Copies(s: Slot, m: Msg): nat {
    multiset(s.past.log)[m]
  }

  /** After n steps of its own, a thread that sends msg to session id; at the call, c copies of it had been
      pushed in this generation. */
  predicate Sending(x: State, i: nat, id: int, msg: Msg, c: nat, n: nat) {
    x.slot.id == id ==>
      && id in x.slot.past.published && i < |x.agents| && c <= Copies(x.slot, msg)
      && (|| c < Copies(x.slot, msg)
          || (n == 0 && x.agents[i] == Locking(LockId(id, Send(msg))))
          || (n == 1 && x.agents[i] == InPost(Pushing(id, msg))))
  }

  lemma SendStep(l: Lib, k: nat, i: nat, id: int, msg: Msg, c: nat, n: nat, e: Event)
    requires LibInv(l) && k < |l.slots| && id <= l.seqId && Sending(l.slots[k], i, id, msg, c, n)
    ensures var m := Next(l, e);
      && LibInv(m) && |m.slots| == |l.slots| && id <= m.seqId
      && Sending(m.slots[k], i, id, msg, c, if IsOwn(e, k, i) then n + 1 else n)
  {
    hide Inv, Conserved, StackOk, Next, OpenSession, Armed, StepOf, Count;
    ChangeIs(l, k, e);
    var x := l.slots[k];
    if x.slot.id == id {
      Unblocked(x.slot, id);
      PushIs(x.slot, id, msg);
      match ChangeOf(l, k, e) {
        case Stepped(j, a) =>
          AcceptedOnce(x, j);
          LogIs(x.slot, x.agents[j], a);
        case Popped(j) =>
        case Same =>
      }
    }
  }

  lemma PushIs(s: Slot, id: int, msg: Msg)
    ensures forall a :: StepOf(s, InPost(Pushing(id, msg)), a).Moved?
    ensures forall a :: StepOf(s, InPost(Pushing(id, msg)), a).slot.out.queue == s.out.queue + [msg]
  {
  }

  lemma {:induction false} SendRun(l: Lib, k: nat, i: nat, id: int, msg: Msg, c: nat, es: seq<Event>)
    requires LibInv(l) && k < |l.slots| && id <= l.seqId && Sending(l.slots[k], i, id, msg, c, 0)
    ensures var m := Run(l, es);
      LibInv(m) && |m.slots| == |l.slots| && id <= m.seqId && Sending(m.slots[k], i, id, msg, c, Own(es, k, i))
  {
    hide Inv, Conserved, StackOk, Next, Sending;
    if es != [] {
      SendRun(l, k, i, id, msg, c, es[..|es| - 1]);
      SendStep(Run(l, es[..|es| - 1]), k, i, id, msg, c, Own(es[..|es| - 1], k, i), es[|es| - 1]);
    }
  }

  /** sendPost to an accepted session that is not being released takes effect: when the calling thread has taken
      two more steps, the message has been pushed, unless the slot has passed to another ID; so it has been
      freed, or is in flight or queued (and a live session will send it: PumpNeverStalls). */
  lemma SendTakesEffect(l: Lib, k: nat, i: nat, id: int, msg: Msg, es: seq<Event>)
    requires Reachable(l) && k < |l.slots| && i < |l.slots[k].agents| && l.slots[k].agents[i] == Idle
    requires l.slots[k].slot.id == id && id in l.slots[k].slot.past.published && msg.owner == id
    requires Room(l.slots[k].slot.io.count) && !Released(l.slots[k].slot.io) && 2 <= Own(es, k, i)
    ensures var m := Run(Next(l, OnSlot(k, i, CallSend(id, msg))), es);
      && |m.slots| == |l.slots|
      && (m.slots[k].slot.id == id ==> Copies(l.slots[k].slot, msg) < Copies(m.slots[k].slot, msg))
  {
    hide Inv, Conserved, StackOk, Reachable, Wrap16, ReleaseBit, LockInc;
    ReachableInv(l);
    var e := OnSlot(k, i, CallSend(id, msg));
    NextKeeps(l, e);
    var x := l.slots[k];
    CallIs(x, i, id, msg);
    assert Sending(Next(l, e).slots[k], i, id, msg, Copies(x.slot, msg), 0);
    SendRun(Next(l, e), k, i, id, msg, Copies(x.slot, msg), es);
  }

  lemma CallIs(x: State, i: nat, id: int, msg: Msg)
    requires Inv(x) && i < |x.agents| && x.agents[i] == Idle && Room(x.slot.io.count) && !Released(x.slot.io)
    requires id in x.slot.past.published && msg.owner == id
    ensures var r := StepOf(x.slot, Idle, CallSend(id, msg));
      && r.Moved? && r.next == Locking(LockId(id, Send(msg)))
      && r.slot.past.log == x.slot.past.log && r.slot.id == x.slot.id && r.slot.past.published == x.slot.past.published
  {
    hide Total, AgentOk, Room, PumpInv, BoxInv, FifoInv, TraceInv;
    TotalsNatural(x.agents);
    LockIncBit(x.slot, Total(x.agents));
  }

  // ---- slots go round, until the stop -----------------------------------------------------------------------

  /** Whoever is to pop an index finds one; and before the stop no index is dropped. */
  ghost predicate Stocked(l: Lib) {
    && l.popping <= |l.stack|
    && (l.on ==> forall k :: 0 <= k < |l.slots| ==> l.slots[k].slot.past.phase != Lost)
  }

  lemma StockedNext(l: Lib, e: Event)
    requires LibInv(l) && Stocked(l)
    ensures Stocked(Next(l, e))
  {
    hide Inv, Conserved, OpenSession, Armed, Count, StepOf, Effects, Step;
    var m := Next(l, e);
    assert m.popping <= |m.stack|;
    forall k | 0 <= k < |l.slots| && m.on
      ensures |m.slots| == |l.slots| && m.slots[k].slot.past.phase != Lost
    {
      ChangeIs(l, k, e);
      if ChangeOf(l, k, e).Stepped? {
        PhaseIs(l.slots[k].slot, l.slots[k].agents[e.i], ChangeOf(l, k, e).a, m.slots[k].slot);
      }
    }
    ChangeLength(l, e);
  }

  lemma ChangeLength(l: Lib, e: Event)
    ensures |Next(l, e).slots| == |l.slots| && (Next(l, e).on ==> l.on)
  {
    hide StepOf, Step;
  }

  lemma PhaseIs(s: Slot, g: Agent, a: Act, r: Slot)
    requires Effects(s, g, a, r)
    ensures r.past.phase == s.past.phase || r.past.phase == InStack || r.past.phase == InUse
    ensures s.past.phase == InStack ==> r.past.phase == InStack
    ensures g != InRelease(RelPush) && g != InRelease(ArmIo) ==> r.past.phase == s.past.phase
  {
  }

  lemma {:induction false} RunStocked(n: nat, m: nat, es: seq<Event>)
    ensures Stocked(Run(Init(n, m), es))
  {
    hide LibInv, Next, Init;
    if es == [] {
      InitStocked(n, m);
    } else {
      RunStocked(n, m, es[..|es| - 1]);
      RunKeeps(n, m, es[..|es| - 1]);
      hide Stocked;
      StockedNext(Run(Init(n, m), es[..|es| - 1]), es[|es| - 1]);
    }
  }

  lemma InitStocked(n: nat, m: nat)
    ensures Stocked(Init(n, m))
  {
  }

  lemma ReachableStocked(l: Lib)
    requires Reachable(l)
    ensures Stocked(l)
  {
    hide Stocked;
    var n: nat, m: nat, es: seq<Event> :| l == Run(Init(n, m), es);
    RunStocked(n, m, es);
  }

  /** A worker in registerAcceptEx always finds an index. While the server is on it takes that slot into
      service: the slot leaves the stack and the worker goes on to give it an ID. */
  lemma PopTakesEffect(l: Lib, i: nat)
    requires Reachable(l) && 0 < l.popping
    ensures l.stack != [] && l.stack[|l.stack| - 1] < |l.slots|
    ensures var k := l.stack[|l.stack| - 1]; var m := Next(l, Pop(i));
      l.on && i < |l.slots[k].agents| && l.slots[k].agents[i] == Idle ==>
        && m.popping == l.popping - 1 && m.stack == l.stack[..|l.stack| - 1] && |m.slots| == |l.slots|
        && m.slots[k].slot.past.phase == Arming && m.slots[k].agents == l.slots[k].agents[i := InRelease(ArmId)]
  {
    hide Inv, Conserved, OpenSession, Armed, Count, Reachable;
    ReachableInv(l);
    ReachableStocked(l);
  }

  /** Before the stop a slot that nobody uses lies on the stack, to be taken again. */
  lemma UnusedSlotsWait(l: Lib, k: nat)
    requires Reachable(l) && l.on && k < |l.slots|
    requires forall i :: 0 <= i < |l.slots[k].agents| ==> l.slots[k].agents[i] == Idle
    requires PendingRefs(l.slots[k].slot.io) == 0 && !l.slots[k].slot.io.releasePosted
    ensures k in l.stack
  {
    hide Conserved, Reachable, Total, AgentOk, RecvInv, PumpInv, BoxInv, FifoInv, TraceInv, OpenSession, Armed, Count;
    ReachableInv(l);
    ReachableStocked(l);
    var x := l.slots[k];
    AllIdle(x.agents);
    TotalsNatural(x.agents);
    assert x.slot.past.phase != Lost;
  }

  /** After n steps of its own, a worker that takes a slot into service; at the pop, the last ID was seqId. */
  predicate Rearming(x: State, i: nat, seqId: int, n: nat) {
    && i < |x.agents|
    && (|| (n == 0 && x.agents[i] == InRelease(ArmId))
        || (n == 1 && x.agents[i] == InRelease(ArmIo) && seqId < x.slot.id))
  }

  lemma OnlyOneArms(x: State, i: nat, j: nat)
    requires Inv(x) && i < |x.agents| && j < |x.agents| && i != j
    requires x.agents[i] == InRelease(ArmId) || x.agents[i] == InRelease(ArmIo)
    ensures x.slot.past.phase == Arming && x.agents[j] != InRelease(ArmId)
  {
    hide Total, PumpInv, FifoInv, TraceInv, BoxInv, RecvInv;
    TotalBoundsPair(x.agents, i, j);
    assert AgentOk(x.slot, x.agents[i]);
  }

  lemma RearmStep(l: Lib, k: nat, i: nat, seqId: int, n: nat, e: Event)
    requires LibInv(l) && k < |l.slots| && seqId <= l.seqId && Rearming(l.slots[k], i, seqId, n)
    requires n == 1 ==> !IsOwn(e, k, i)
    ensures var m := Next(l, e);
      && LibInv(m) && |m.slots| == |l.slots| && seqId <= m.seqId
      && Rearming(m.slots[k], i, seqId, if IsOwn(e, k, i) then n + 1 else n)
  {
    hide Conserved, StackOk, Next, OpenSession, Armed, StepOf, Count, Total, Of, Shared;
    ChangeIs(l, k, e);
    var x := l.slots[k];
    assert AgentOk(x.slot, x.agents[i]);
    if n == 0 { GivesId(x, l.seqId + 1); }
    match ChangeOf(l, k, e) {
      case Stepped(j, a) => if j != i { OnlyOneArms(x, i, j); }
      case Popped(j) =>
      case Same => if IsOwn(e, k, i) { FreshId(l, k); }
    }
  }

  lemma GivesId(x: State, id: int)
    ensures id !in x.slot.past.published ==>
              StepOf(x.slot, InRelease(ArmId), Arm(id)) == Moved(x.slot.(id := id), InRelease(ArmIo))
  {
  }

  lemma FreshId(l: Lib, k: nat)
    requires LibInv(l) && k < |l.slots|
    ensures l.seqId + 1 !in l.slots[k].slot.past.published
  {
    hide Inv, Conserved, StackOk, OpenSession, Armed, Count;
    assert IdsOk(l, l.slots[k]);
  }

  lemma {:induction false} RearmRun(l: Lib, k: nat, i: nat, es: seq<Event>)
    requires LibInv(l) && k < |l.slots| && i < |l.slots[k].agents| && l.slots[k].agents[i] == InRelease(ArmId)
    requires Own(es, k, i) <= 1
    ensures var m := Run(l, es);
      && LibInv(m) && |m.slots| == |l.slots| && l.seqId <= m.seqId
      && Rearming(m.slots[k], i, l.seqId, Own(es, k, i))
  {
    hide Inv, Conserved, StackOk, Next;
    if es != [] {
      RearmRun(l, k, i, es[..|es| - 1]);
      hide Rearming;
      RearmStep(Run(l, es[..|es| - 1]), k, i, l.seqId, Own(es[..|es| - 1], k, i), es[|es| - 1]);
    }
  }

  /** The re-arm takes effect: with the worker's second step, whatever the others did in between, and unless
      AcceptEx fails, the slot is in service under an ID that was never given out before, with nothing left in
      it and an accept outstanding. */
  lemma RearmTakesEffect(l: Lib, k: nat, i: nat, es: seq<Event>, a: Act)
    requires Reachable(l) && k < |l.slots| && i < |l.slots[k].agents| && l.slots[k].agents[i] == InRelease(ArmId)
    requires Own(es, k, i) == 1 && a != Alt
    ensures var m := Run(l, es + [OnSlot(k, i, a)]);
      && |m.slots| == |l.slots|
      && var s := m.slots[k].slot;
         && s.past.phase == InUse && s.past.armed && s.past.posts == 0
         && s.io.count == 1 && s.io.acceptPending && !s.io.live && !s.accepted
         && l.seqId < s.id && s.id !in s.past.published && s.out.queue == [] && s.out.inflight == [] && !s.out.flag
  {
    hide Inv, Conserved, StackOk, Reachable, Next;
    ReachableInv(l);
    RearmRun(l, k, i, es);
    var m := Run(l, es);
    assert (es + [OnSlot(k, i, a)])[..|es|] == es;
    ArmedAgain(m, k, i, a);
  }

  lemma ArmedAgain(l: Lib, k: nat, i: nat, a: Act)
    requires LibInv(l) && k < |l.slots| && i < |l.slots[k].agents| && l.slots[k].agents[i] == InRelease(ArmIo)
    requires a != Alt
    ensures var m := Next(l, OnSlot(k, i, a)); var r, s := l.slots[k].slot, m.slots[k].slot;
      && |m.slots| == |l.slots|
      && s.past.phase == InUse && s.past.armed && s.past.posts == 0
      && s.io.count == 1 && s.io.acceptPending && !s.io.live && !s.accepted && s.id == r.id
      && s.id !in s.past.published && s.out.queue == [] && s.out.inflight == [] && !s.out.flag
  {
    hide Conserved, StackOk, OpenSession, Armed, Count, Total, Of;
    var x := l.slots[k];
    assert AgentOk(x.slot, x.agents[i]);
    TotalsNatural(x.agents);
    OutOfService(x.slot, Total(x.agents));
  }

  lemma OutOfService(s: Slot, t: Tally)
    requires Shared(s, t) && t.Natural() && s.past.phase == Arming
    ensures !s.accepted && Clean(s) && !s.io.live
  {
    hide PumpInv, FifoInv, TraceInv;
  }

  /** One more step of the worker that does not wait, with mBOn set. */
  function Goes(x: State, i: nat): (y: State)
    requires i < |x.agents|
    ensures |y.agents| == |x.agents|
  {
    Step(x, i, Go)
  }

  /** A client that connects is served: in six steps of the worker that picks up the accept the session is live,
      its ID is given out in onAccept, and a receive is outstanding. */
  lemma AcceptTakesEffect(x: State, i: nat)
    requires i < |x.agents| && x.agents[i] == Idle && x.slot.io.acceptPending && Room(x.slot.io.count)
    ensures var y := Goes(Goes(Goes(Goes(Goes(Step(x, i, TakeAccept), i), i), i), i), i);
      && y.slot.io.live && y.slot.accepted && y.slot.io.recvPending && !y.slot.io.acceptPending
      && y.slot.id == x.slot.id && x.slot.id in y.slot.past.published
      && y.slot.past.calls == x.slot.past.calls + [OnAccept(x.slot.id)] && y.slot.io.count == Inc(x.slot.io).count
      && y.agents == x.agents[i := Locking(WorkerDec)]
  {
    hide Room, Wrap16;
    var x3 := Goes(Goes(Step(x, i, TakeAccept), i), i);
    assert x3.slot.past.calls == x.slot.past.calls + [OnAccept(x.slot.id)];
    assert x3.agents == x.agents[i := InRecv(RecvArm)];
    assert Goes(Goes(Goes(x3, i), i), i).agents == x.agents[i := Locking(WorkerDec)];
  }

  /** A stop is final: afterwards no slot that is not live becomes live, and no slot that is out of service
      is taken into service. */
  lemma {:induction false} StopIsFinal(l: Lib, k: nat, es: seq<Event>)
    requires Reachable(l) && k < |l.slots|
    ensures var m := Run(Next(l, Stop), es); var x := l.slots[k];
      && !m.on && |m.slots| == |l.slots| && LibInv(m)
      && (m.slots[k].slot.io.live ==> x.slot.io.live)
      && (x.slot.past.phase == InStack || x.slot.past.phase == Lost ==>
            m.slots[k].slot.past.phase == InStack || m.slots[k].slot.past.phase == Lost)
  {
    hide Inv, Conserved, StackOk, Reachable;
    ReachableInv(l);
    if es == [] {
      StopKeeps(l);
    } else {
      StopIsFinal(l, k, es[..|es| - 1]);
      hide Next;
      StoppedStep(Run(Next(l, Stop), es[..|es| - 1]), k, es[|es| - 1]);
    }
  }

  lemma LostStays(x: State, i: nat)
    requires Inv(x) && i < |x.agents| && x.slot.past.phase == Lost
    ensures x.agents[i] != InRelease(RelPush) && x.agents[i] != InRelease(ArmIo)
  {
    hide Shared, Total;
    assert AgentOk(x.slot, x.agents[i]);
  }

  lemma StoppedStep(l: Lib, k: nat, e: Event)
    requires LibInv(l) && !l.on && k < |l.slots|
    ensures var m := Next(l, e); var x := l.slots[k];
      && !m.on && |m.slots| == |l.slots| && LibInv(m)
      && (m.slots[k].slot.io.live ==> x.slot.io.live)
      && (x.slot.past.phase == InStack || x.slot.past.phase == Lost ==>
            m.slots[k].slot.past.phase == InStack || m.slots[k].slot.past.phase == Lost)
  {
    hide Inv, Conserved, StackOk, Next, OpenSession, Armed, StepOf, Count, Effects;
    ChangeIs(l, k, e);
    ChangeLength(l, e);
    var x := l.slots[k];
    match ChangeOf(l, k, e) {
      case Stepped(i, a) =>
        LiveIs(x.slot, x.agents[i], a);
        PhaseIs(x.slot, x.agents[i], a, Next(l, e).slots[k].slot);
        if x.slot.past.phase == Lost { LostStays(x, i); }
      case Popped(i) =>
      case Same =>
    }
  }
}

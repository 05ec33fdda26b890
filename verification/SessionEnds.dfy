/** A session that was cut can always end: whatever the threads are doing on its slot, they can go on so that the
    slot is released and lies on the stack again. */
module SessionEnds {
  import opened Interlocked
  import opened SessionSlot
  import opened SessionTally
  import opened SessionInvariant
  import opened SessionRules
  import opened SessionSteps
  import opened SessionMessages
  import opened NetworkLib
  import opened SessionTheorems
  import opened SessionCalls

  // ---- how much is left to do -------------------------------------------------------------------------------

  function LeftInLock(pc: LockPc): nat {
    match pc
    case LockId(_, w) => if w.Send? then 36 else 12
    case LockUndo(_) => 10
    case MismatchCas(_) => 9
    case Posting(_) => 8
    case Cutting(_) => 11
    case Unlock(_) => 10
    case ZeroCas => 9
    case WorkerDec => 10
  }

  function LeftInPost(pc: PostPc): nat {
    match pc
    case Pushing(_, _) => 35
    case Counting(_) => 31
    case SendCas(_) => 30
    case SendInc(_) => 29
    case SendPqcs(_) => 28
  }

  function LeftInRecv(pc: RecvPc): nat {
    match pc
    case Accepting => 0
    case AcceptCall => 12
    case RecvArm => 11
    case RecvInc => 14
    case RecvIssue => 13
    case RecvCall => 12
    case RecvFin => 11
    case SelfLock => 13
    case SelfCut => 12
    case SelfUnlock => 11
    case IoLive(_) => 12
    case IoDec => 11
  }

  /** A pump that has dropped the flag is done, unless there is something to send again. */
  function LeftInPump(pc: PumpPc, empty: bool): nat {
    match pc
    case BatchFree => 16
    case BatchSize => 15
    case BatchAgain => 14
    case FlagDrop => if empty then 13 else 33
    case Recheck => if empty then 12 else 32
    case RecheckAgain => if empty then 11 else 31
    case FlagRetake => 30
    case RetakeInc => 29
    case RetakePqcs => 28
  }

  function LeftInIssue(pc: IssuePc): nat {
    match pc
    case Take(_) => 12
    case TakeCount(_) => 13
    case SendLive => 11
    case SendIoInc => 14
    case SendIssue => 13
  }

  function LeftInRelease(pc: RelPc): nat {
    match pc
    case RelCall => 6
    case RelActive => 5
    case RelDrain => 4
    case RelDrainCount => 5
    case RelBatch => 3
    case RelReset => 2
    case RelPush => 1
    case ArmId => 0
    case ArmIo => 0
  }

  /** How many steps a thread has to go, at most, on a session that is not live. empty: mSenqQSize is 0. */
  function Left(g: Agent, empty: bool): nat {
    match g
    case Idle => 0
    case Locking(pc) => LeftInLock(pc)
    case InPost(pc) => LeftInPost(pc)
    case InRecv(pc) => LeftInRecv(pc)
    case InPump(pc) => LeftInPump(pc, empty)
    case InIssue(pc) => LeftInIssue(pc)
    case InRelease(pc) => LeftInRelease(pc)
  }

  /** What is still to be picked up, taken out of the queue and released. */
  function Waiting(s: Slot): nat {
    3 * |s.out.queue| + (if s.io.recvPending then 12 else 0) + (if s.io.sendPending then 17 else 0)
      + if s.io.releasePosted then 7 else 0
  }

  /** A thread that will still count a message in mSenqQSize. */
  function WillCount(g: Agent): nat {
    match g
    case Locking(LockId(_, w)) => if w.Send? then 1 else 0
    case InPost(Pushing(_, _)) => 1
    case InPost(Counting(_)) => 1
    case _ => 0
  }

  function Sum(agents: seq<Agent>, f: Agent -> nat): nat {
    if agents == [] then 0 else f(agents[0]) + Sum(agents[1..], f)
  }

  lemma {:induction false} SumUpdate(agents: seq<Agent>, f: Agent -> nat, i: nat, g: Agent)
    requires i < |agents|
    ensures Sum(agents[i := g], f) == Sum(agents, f) - f(agents[i]) + f(g)
  {
    if i == 0 {
      assert agents[i := g][1..] == agents[1..];
    } else {
      SumUpdate(agents[1..], f, i - 1, g);
      assert agents[i := g][1..] == agents[1..][i - 1 := g];
    }
  }

  lemma {:induction false} SumLess(agents: seq<Agent>, f: Agent -> nat, h: Agent -> nat)
    requires forall g :: f(g) <= h(g)
    ensures Sum(agents, f) <= Sum(agents, h)
  {
    if agents != [] {
      SumLess(agents[1..], f, h);
    }
  }

  function Pushes(x: State): nat {
    Sum(x.agents, WillCount)
  }

  function LeftIf(empty: bool): Agent -> nat {
    g => Left(g, empty)
  }

  function Work(x: State): nat {
    Waiting(x.slot) + Sum(x.agents, LeftIf(x.slot.out.size == 0))
  }

  // ---- every step is one less -----------------------------------------------------------------------------

  /** What the thread at g chooses where it has a choice: it finds nothing more to read, and calls fail. */
  function Choice(g: Agent): Act {
    if g == InRecv(RecvCall) || g == InRecv(RecvIssue) || g == InIssue(SendIssue) then Alt else Go
  }

  predicate Ending(g: Agent) {
    g != Idle && g != InRecv(Accepting) && g != InRelease(ArmId) && g != InRelease(ArmIo)
  }

  predicate Counts(g: Agent) {
    || g == InRecv(RecvInc) || g == InRecv(SelfLock) || g == InPump(RetakeInc) || g == InIssue(SendIoInc)
    || (g.InPost? && g.post.SendInc?)
  }

  /** The counters are far enough from their limits for the step. */
  predicate Roomy(s: Slot, g: Agent) {
    (Counts(g) ==> Room(s.io.count)) && (g.InPost? && g.post.Counting? ==> s.out.size < 0x7FFF)
  }

  /** The step counts a message, or leaves less to do. */
  predicate Shorter(s: Slot, g: Agent, r: Outcome) {
    && r.Moved?
    && (|| (WillCount(r.next) < WillCount(g) && r.slot.out.size <= s.out.size + 1)
        || (&& WillCount(r.next) <= WillCount(g) && r.slot.out.size <= s.out.size
            && Waiting(r.slot) + Left(r.next, r.slot.out.size == 0) < Waiting(s) + Left(g, s.out.size == 0)))
  }

  lemma LockShorter(s: Slot, pc: LockPc)
    ensures Shorter(s, Locking(pc), LockStep(s, pc))
  {
    hide Wrap16, ReleaseBit;
  }

  lemma PostShorter(s: Slot, pc: PostPc)
    requires Roomy(s, InPost(pc))
    ensures Shorter(s, InPost(pc), PostStep(s, pc))
  {
    hide Wrap16, Room;
  }

  lemma RecvShorter(s: Slot, pc: RecvPc)
    requires Roomy(s, InRecv(pc)) && !s.io.live && Ending(InRecv(pc))
    ensures Shorter(s, InRecv(pc), RecvStep(s, pc, Choice(InRecv(pc))))
  {
    hide Wrap16, Room, ReleaseBit;
  }

  lemma PumpShorter(s: Slot, pc: PumpPc)
    requires Roomy(s, InPump(pc))
    ensures Shorter(s, InPump(pc), PumpStep(s, pc))
  {
    hide Wrap16, Room, Batch;
  }

  lemma IssueShorter(s: Slot, pc: IssuePc)
    requires Roomy(s, InIssue(pc)) && !s.io.live && (pc.TakeCount? ==> 0 < s.out.size)
    ensures Shorter(s, InIssue(pc), IssueStep(s, pc, Choice(InIssue(pc))))
  {
    hide Wrap16, Room;
  }

  lemma ReleaseShorter(s: Slot, pc: RelPc)
    requires Ending(InRelease(pc)) && (pc.RelDrainCount? ==> 0 < s.out.size)
    ensures Shorter(s, InRelease(pc), ReleaseStep(s, pc, Go))
  {
    hide Batch;
  }

  lemma StepShorter(s: Slot, g: Agent)
    requires Roomy(s, g) && !s.io.live && Ending(g)
    requires g.InIssue? && g.issue.TakeCount? ==> 0 < s.out.size
    requires g == InRelease(RelDrainCount) ==> 0 < s.out.size
    ensures Shorter(s, g, StepOf(s, g, Choice(g)))
  {
    hide Shorter, Roomy, LockStep, PostStep, RecvStep, PumpStep, IssueStep, ReleaseStep;
    match g
    case Locking(pc) => LockShorter(s, pc);
    case InPost(pc) => PostShorter(s, pc);
    case InRecv(pc) => RecvShorter(s, pc);
    case InPump(pc) => PumpShorter(s, pc);
    case InIssue(pc) => IssueShorter(s, pc);
    case InRelease(pc) => ReleaseShorter(s, pc);
    case Idle =>
  }

  /** What an idle thread may pick up. */
  function PickUp(s: Slot): Act {
    if s.io.recvPending then TakeRecv(true) else if s.io.sendPending then TakeSend else TakeRelease
  }

  predicate SomethingPending(s: Slot) {
    s.io.recvPending || s.io.sendPending || s.io.releasePosted
  }

  lemma PickUpShorter(s: Slot)
    requires SomethingPending(s)
    ensures Shorter(s, Idle, StartStep(s, PickUp(s)))
  {
    hide Room, Wrap16, ReleaseBit;
  }

  // ---- a slot whose session is to end -----------------------------------------------------------------------

  ghost predicate Dying(x: State) {
    && Inv(x) && x.slot.id in x.slot.past.published && !x.slot.io.live
    && (x.slot.past.phase == InUse || x.slot.past.phase == InStack)
    && 1 <= |x.agents| <= 8000 && x.slot.out.size + Pushes(x) <= 0x7FFF
  }

  lemma {:induction false} RefsBound(agents: seq<Agent>)
    ensures Total(agents).refs <= 2 * |agents|
  {
    if agents != [] {
      assert Tallies(agents)[1..] == Tallies(agents[1..]);
      RefsBound(agents[1..]);
      TwoAtMost(agents[0]);
      hide Of;
    }
  }

  lemma TwoAtMost(g: Agent)
    ensures Of(g).refs <= 2 && (Counts(g) ==> 0 < Of(g).refs)
  {
  }

  lemma NotArming(x: State, i: nat)
    requires Dying(x) && i < |x.agents| && x.agents[i] != Idle
    ensures Ending(x.agents[i])
  {
    hide Total, Of, Pushes;
    AcceptedOnce(x, i);
    assert AgentOk(x.slot, x.agents[i]);
  }

  lemma RoomHere(x: State, i: nat)
    requires Dying(x) && i < |x.agents|
    ensures Roomy(x.slot, x.agents[i])
  {
    hide Total, Of, AgentOk, RecvInv, PumpInv, BoxInv, FifoInv, TraceInv, Pushes;
    TwoAtMost(x.agents[i]);
    TotalsNatural(x.agents);
    TotalBounds(x.agents, i);
    RefsBound(x.agents);
    if Counts(x.agents[i]) { CountsHolder(x.slot, Total(x.agents)); }
    if x.agents[i].InPost? && x.agents[i].post.Counting? { OneWillCount(x, i); }
  }

  lemma OneWillCount(x: State, i: nat)
    requires i < |x.agents|
    ensures WillCount(x.agents[i]) <= Pushes(x)
  {
    SumUpdate(x.agents, WillCount, i, Idle);
  }

  /** An agent that is busy, if there is one. */
  lemma {:induction false} Busy(agents: seq<Agent>) returns (i: nat)
    ensures i < |agents| ==> agents[i] != Idle
    ensures i >= |agents| ==> forall j :: 0 <= j < |agents| ==> agents[j] == Idle
  {
    if agents == [] {
      i := 0;
    } else if agents[0] != Idle {
      i := 0;
    } else {
      i := Busy(agents[1..]);
      i := i + 1;
      assert forall j :: 1 <= j < |agents| ==> agents[j] == agents[1..][j - 1];
    }
  }

  lemma WorkAfter(x: State, i: nat, r: Outcome)
    requires i < |x.agents| && Shorter(x.slot, x.agents[i], r) && 0 <= r.slot.out.size && 0 <= x.slot.out.size
    ensures var y := State(r.slot, x.agents[i := r.next]);
      && (Pushes(y) < Pushes(x) || (Pushes(y) == Pushes(x) && Work(y) < Work(x)))
      && y.slot.out.size + Pushes(y) <= x.slot.out.size + Pushes(x)
  {
    var y := State(r.slot, x.agents[i := r.next]);
    SumUpdate(x.agents, WillCount, i, r.next);
    if WillCount(r.next) == WillCount(x.agents[i]) {
      var was, now := x.slot.out.size == 0, r.slot.out.size == 0;
      SumUpdate(x.agents, LeftIf(now), i, r.next);
      forall g
        ensures LeftIf(now)(g) <= LeftIf(was)(g)
      {
        EmptyIsLess(g, was, now);
      }
      OthersLess(x.agents, i, LeftIf(was), LeftIf(now));
    }
  }

  /** Without agent i. */
  lemma OthersLess(agents: seq<Agent>, i: nat, f: Agent -> nat, h: Agent -> nat)
    requires i < |agents| && f(Idle) == h(Idle) && forall g :: h(g) <= f(g)
    ensures Sum(agents, h) - h(agents[i]) <= Sum(agents, f) - f(agents[i])
  {
    SumUpdate(agents, f, i, Idle);
    SumUpdate(agents, h, i, Idle);
    SumLess(agents[i := Idle], h, f);
  }

  lemma EmptyIsLess(g: Agent, was: bool, now: bool)
    requires was ==> now
    ensures Left(g, now) <= Left(g, was)
  {
  }

  // ---- step by step to the end --------------------------------------------------------------------------------

  /** The step that is taken next: of a busy thread if there is one, else an idle one picks something up. */
  ghost predicate IsNext(x: State, i: nat, a: Act) {
    && i < |x.agents|
    && if x.agents[i] != Idle then a == Choice(x.agents[i])
       else SomethingPending(x.slot) && a == PickUp(x.slot)
  }

  lemma NextIsShorter(x: State, i: nat, a: Act)
    requires Dying(x) && IsNext(x, i, a)
    ensures Shorter(x.slot, x.agents[i], StepOf(x.slot, x.agents[i], a)) && Inv(Step(x, i, a))
    ensures 0 <= StepOf(x.slot, x.agents[i], a).slot.out.size && 0 <= x.slot.out.size
  {
    hide Pushes, Shorter, Roomy, Choice, PickUp, Ending;
    var g := x.agents[i];
    StepKeepsInv(x, i, a);
    SizeIsNatural(x);
    SizeIsNatural(Step(x, i, a));
    if g == Idle {
      PickUpShorter(x.slot);
    } else {
      NotArming(x, i);
      RoomHere(x, i);
      Takes(x.slot, g, a);
      hide StepOf, Inv;
      StepShorter(x.slot, g);
    }
    MovesOn(x.slot, g, StepOf(x.slot, g, a));
  }

  lemma MovesOn(s: Slot, g: Agent, r: Outcome)
    requires Shorter(s, g, r)
    ensures r.Moved?
  {
  }

  lemma SizeIsNatural(x: State)
    requires Inv(x)
    ensures 0 <= x.slot.out.size
  {
    hide Total, AgentOk;
  }

  lemma Takes(s: Slot, g: Agent, a: Act)
    requires 0 <= s.out.size
    requires StepOf(s, g, a).Moved? ==> 0 <= StepOf(s, g, a).slot.out.size
    ensures g.InIssue? && g.issue.TakeCount? ==> 0 < s.out.size
    ensures g == InRelease(RelDrainCount) ==> 0 < s.out.size
  {
  }

  lemma DyingOn(l: Lib, k: nat, i: nat, a: Act)
    requires LibInv(l) && l.on && k < |l.slots| && Dying(l.slots[k]) && IsNext(l.slots[k], i, a)
    ensures var m := Next(l, OnSlot(k, i, a)); var x := l.slots[k];
      && LibInv(m) && m.on && |m.slots| == |l.slots| && Dying(m.slots[k])
      && (Pushes(m.slots[k]) < Pushes(x) || (Pushes(m.slots[k]) == Pushes(x) && Work(m.slots[k]) < Work(x)))
  {
    hide Conserved, OpenSession, Armed, Count, Shorter, StackOk, Pushes, Work, Inv;
    var x := l.slots[k];
    var g, r := x.agents[i], StepOf(x.slot, x.agents[i], a);
    NextIsShorter(x, i, a);
    MovesOn(x.slot, g, r);
    WorkAfter(x, i, r);
    Unresolved(l, k, i, a);
    ChangeIs(l, k, OnSlot(k, i, a));
    LiveIs(x.slot, g, a);
    StillOn(l, k, i, a);
    hide StepOf, Next;
  }

  lemma Unresolved(l: Lib, k: nat, i: nat, a: Act)
    requires k < |l.slots| && Dying(l.slots[k]) && IsNext(l.slots[k], i, a)
    ensures var g := l.slots[k].agents[i];
      Resolve(l, g, a) == a && g != InRecv(Accepting) && g != InRelease(ArmId) && g != InRelease(ArmIo)
  {
    if l.slots[k].agents[i] != Idle { NotArming(l.slots[k], i); }
    hide Dying;
  }

  lemma StillOn(l: Lib, k: nat, i: nat, a: Act)
    ensures Next(l, OnSlot(k, i, a)).on == l.on
  {
    hide StepOf, Step;
  }

  lemma {:induction false} Ends(l: Lib, k: nat) returns (es: seq<Event>)
    requires LibInv(l) && l.on && k < |l.slots| && Dying(l.slots[k])
    ensures var m := Run(l, es);
      && LibInv(m) && m.on && |m.slots| == |l.slots| && Dying(m.slots[k])
      && !SomethingPending(m.slots[k].slot) && forall j :: 0 <= j < |m.slots[k].agents| ==> m.slots[k].agents[j] == Idle
    decreases Pushes(l.slots[k]), Work(l.slots[k])
  {
    hide LibInv, Pushes, Work, Next, SomethingPending, Choice, PickUp, Inv;
    var x := l.slots[k];
    var i := Busy(x.agents);
    if i >= |x.agents| && !SomethingPending(x.slot) {
      es := [];
    } else {
      var h: nat := if i < |x.agents| then i else 0;
      var a := if i < |x.agents| then Choice(x.agents[i]) else PickUp(x.slot);
      DyingOn(l, k, h, a);
      hide Dying;
      var e := OnSlot(k, h, a);
      var rest := Ends(Next(l, e), k);
      es := [e] + rest;
      RunAppend(l, [e], rest);
      assert [e][..0] == [];
    }
  }

  lemma NothingPending(x: State)
    requires Dying(x) && !SomethingPending(x.slot)
    ensures PendingRefs(x.slot.io) == 0 && !x.slot.io.releasePosted
  {
    hide AgentOk, Total, PumpInv, FifoInv, TraceInv, Pushes;
    TotalsNatural(x.agents);
  }

  /** Before the stop, a session that was cut after its ID had been given out can always end: whatever its threads
      are doing, they can go on so that its slot lies on the stack again. (With at most 8000 threads on the slot,
      and a send queue that stays within its counter.) */
  lemma CutSessionCanEnd(l: Lib, k: nat)
    requires Reachable(l) && l.on && k < |l.slots|
    requires var x := l.slots[k];
      && x.slot.id in x.slot.past.published && !x.slot.io.live && x.slot.past.phase == InUse
      && 1 <= |x.agents| <= 8000 && x.slot.out.size + Pushes(x) <= 0x7FFF
    ensures exists es :: k in Run(l, es).stack
  {
    hide LibInv, Pushes, Run, SomethingPending, Inv, Reachable;
    ReachableInv(l);
    InvAt(l, k);
    var es := Ends(l, k);
    RunReachable(l, es);
    NothingPending(Run(l, es).slots[k]);
    UnusedSlotsWait(Run(l, es), k);
  }
}

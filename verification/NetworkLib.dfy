/** Messages given to sendPost are destroyed exactly once. */
module SessionMessages {
  import opened Interlocked
  import opened SessionSlot
  import opened SessionTally
  import opened SessionInvariant
  import opened SessionRules
  import opened SessionSteps

  /** How often a thread carries m: given to sendPost, neither queued nor destroyed yet. */
  function Carried(g: Agent, m: Msg): nat {
    match g
    case Locking(LockId(_, w)) => if w == Send(m) then 1 else 0
    case Locking(LockUndo(w)) => if w == Send(m) then 1 else 0
    case Locking(MismatchCas(w)) => if w == Send(m) then 1 else 0
    case Locking(Posting(w)) => if w == Send(m) then 1 else 0
    case InPost(Pushing(_, n)) => if n == m then 1 else 0
    case _ => 0
  }

  function InHand(agents: seq<Agent>, m: Msg): nat {
    if agents == [] then 0 else Carried(agents[0], m) + InHand(agents[1..], m)
  }

  lemma {:induction false} InHandUpdate(agents: seq<Agent>, i: nat, g: Agent, m: Msg)
    requires i < |agents|
    ensures InHand(agents[i := g], m) == InHand(agents, m) - Carried(agents[i], m) + Carried(g, m)
  {
    hide Carried;
    if i == 0 {
      assert agents[i := g][1..] == agents[1..];
    } else {
      InHandUpdate(agents[1..], i - 1, g, m);
      assert agents[i := g][1..] == agents[1..][i - 1 := g];
    }
  }

  lemma {:induction false} NothingInHand(agents: seq<Agent>, m: Msg)
    requires forall i :: 0 <= i < |agents| ==> Carried(agents[i], m) == 0
    ensures InHand(agents, m) == 0
  {
    hide Carried;
    if agents != [] {
      NothingInHand(agents[1..], m);
    }
  }

  /** How often the slot itself holds m. */
  function Held(o: Out, m: Msg): nat {
    multiset(o.queue)[m] + multiset(o.inflight)[m]
  }

  /** Every message ever offered is destroyed, queued, in flight or in a caller's hand. */
  ghost predicate Conserved(x: State) {
    forall m :: x.slot.past.offered[m] == x.slot.past.destroyed[m] + Held(x.slot.out, m) + InHand(x.agents, m)
  }

  /** What a step of an agent from g to h adds to one side it adds to the other. */
  ghost predicate Balanced(s: Slot, g: Agent, r: Outcome, m: Msg)
    requires r.Moved?
  {
    r.slot.past.offered[m] + s.past.destroyed[m] + Held(s.out, m) + Carried(g, m)
    == s.past.offered[m] + r.slot.past.destroyed[m] + Held(r.slot.out, m) + Carried(r.next, m)
  }

  lemma BatchIsInflight(s: Slot, g: Agent, t: Tally)
    requires Ready(s, g, t)
    requires g == InPump(BatchFree) || g == InRelease(RelBatch)
    ensures Batch(s.out) == s.out.inflight
  {
    if g.InRelease? { CountsInRelease(s, t); } else { TokenHolder(s, t); }
  }

  lemma StartBalances(s: Slot, a: Act, m: Msg)
    requires StartStep(s, a).Moved?
    ensures Balanced(s, Idle, StartStep(s, a), m)
  {
    hide Held, ReleaseBit, Wrap16, Room;
  }

  lemma LockBalances(s: Slot, pc: LockPc, m: Msg)
    ensures Balanced(s, Locking(pc), LockStep(s, pc), m)
  {
    hide Held, ReleaseBit, Wrap16, Room;
  }

  lemma PostBalances(s: Slot, pc: PostPc, m: Msg)
    requires PostStep(s, pc).Moved?
    ensures Balanced(s, InPost(pc), PostStep(s, pc), m)
  {
  }

  lemma PumpBalances(s: Slot, pc: PumpPc, m: Msg)
    requires PumpStep(s, pc).Moved? && (pc.BatchFree? ==> Batch(s.out) == s.out.inflight)
    ensures Balanced(s, InPump(pc), PumpStep(s, pc), m)
  {
    hide Batch, Wrap16, Room, Held, PumpStep;
    if pc.BatchFree? { FreedBalances(s, m); } else { SameSends(s, pc, m); }
  }

  lemma FreedBalances(s: Slot, m: Msg)
    requires Batch(s.out) == s.out.inflight
    ensures Balanced(s, InPump(BatchFree), PumpStep(s, BatchFree), m)
  {
    hide Batch;
  }

  lemma SameSends(s: Slot, pc: PumpPc, m: Msg)
    requires PumpStep(s, pc).Moved? && !pc.BatchFree?
    ensures var r := PumpStep(s, pc);
      && Held(r.slot.out, m) == Held(s.out, m) && Carried(r.next, m) == 0
      && r.slot.past.offered == s.past.offered && r.slot.past.destroyed == s.past.destroyed
  {
    hide Wrap16, Room;
  }

  lemma IssueBalances(s: Slot, pc: IssuePc, a: Act, m: Msg)
    requires IssueStep(s, pc, a).Moved?
    ensures Balanced(s, InIssue(pc), IssueStep(s, pc, a), m)
  {
    if s.out.queue != [] {
      assert s.out.queue == [s.out.queue[0]] + s.out.queue[1..];
    }
  }

  lemma ReleaseBalances(s: Slot, pc: RelPc, a: Act, m: Msg)
    requires ReleaseStep(s, pc, a).Moved? && (pc.RelBatch? ==> Batch(s.out) == s.out.inflight)
    ensures Balanced(s, InRelease(pc), ReleaseStep(s, pc, a), m)
  {
    hide Batch;
    if pc.RelDrain? { DrainBalances(s, a, m); }
    hide Held;
    if !pc.RelDrain? && !pc.RelBatch? && !pc.RelReset? {
      assert ReleaseStep(s, pc, a).slot.out.queue == s.out.queue && ReleaseStep(s, pc, a).slot.out.inflight ==
               s.out.inflight;
    }
  }

  lemma DrainBalances(s: Slot, a: Act, m: Msg)
    requires ReleaseStep(s, RelDrain, a).Moved?
    ensures Balanced(s, InRelease(RelDrain), ReleaseStep(s, RelDrain, a), m)
  {
    if s.out.queue != [] {
      assert s.out.queue == [s.out.queue[0]] + s.out.queue[1..];
    }
  }

  lemma StepBalances(s: Slot, g: Agent, a: Act, t: Tally, m: Msg)
    requires Ready(s, g, t) && StepOf(s, g, a).Moved?
    ensures Balanced(s, g, StepOf(s, g, a), m)
  {
    if g == InPump(BatchFree) || g == InRelease(RelBatch) { BatchIsInflight(s, g, t); }
    hide Ready, Batch, Balanced, PostStep, PumpStep, IssueStep, ReleaseStep, StartStep, LockStep;
    match g {
      case Idle => StartBalances(s, a, m);
      case Locking(pc) => LockBalances(s, pc, m);
      case InPost(pc) => PostBalances(s, pc, m);
      case InRecv(pc) => RecvBalances(s, pc, a, m);
      case InPump(pc) => PumpBalances(s, pc, m);
      case InIssue(pc) => IssueBalances(s, pc, a, m);
      case InRelease(pc) => ReleaseBalances(s, pc, a, m);
    }
  }

  lemma RecvBalances(s: Slot, pc: RecvPc, a: Act, m: Msg)
    requires RecvStep(s, pc, a).Moved?
    ensures Balanced(s, InRecv(pc), RecvStep(s, pc, a), m)
  {
    hide ReleaseBit, Wrap16, Room;
  }

  lemma StepConserves(x: State, i: nat, a: Act)
    requires i < |x.agents| && Inv(x) && Conserved(x)
    ensures Conserved(Step(x, i, a))
  {
    hide Shared, AgentOk, StepOf, Total, Of, Held, Carried;
    var s, g := x.slot, x.agents[i];
    if StepOf(s, g, a).Moved? {
      TotalsNatural(x.agents);
      TotalBounds(x.agents, i);
      assert Ready(s, g, Total(x.agents));
      forall m
        ensures var y := Step(x, i, a);
          y.slot.past.offered[m] == y.slot.past.destroyed[m] + Held(y.slot.out, m) + InHand(y.agents, m)
      {
        StepBalances(s, g, a, Total(x.agents), m);
        InHandUpdate(x.agents, i, StepOf(s, g, a).next, m);
      }
    }
  }
}

/** The network library: all slots, the stack of free indices, the ID sequence and the counters. */
module NetworkLib {
  import opened Interlocked
  import opened SessionSlot
  import opened SessionTally
  import opened SessionInvariant
  import opened SessionRules
  import opened SessionSteps
  import opened SessionMessages

  /** popping: workers in registerAcceptEx that have not popped an index yet. A session ID is
      represented by its sequence number, which is never given out twice. */
  datatype Lib = Lib(slots: seq<State>, stack: seq<nat>, popping: nat, on: bool,
                     seqId: int, sessionCnt: int, activeCnt: int)

  datatype Event =
    | OnSlot(k: nat, i: nat, a: Act)   // agent i of slot k takes a step
    | Pop(i: nat)                      // a worker takes the top index and becomes agent i of that slot
    | Stop

  /** What is left to chance on a slot, given mBOn and mSeqID. */
  function Resolve(l: Lib, g: Agent, a: Act): Act {
    if g == InRecv(Accepting) then (if l.on then Go else Alt)
    else if g == InRelease(ArmId) then Arm(l.seqId + 1)
    else a
  }

  function SlotEvent(l: Lib, k: nat, i: nat, a: Act): Lib
    requires k < |l.slots| && i < |l.slots[k].agents|
  {
    var x, g := l.slots[k], l.slots[k].agents[i];
    var b := Resolve(l, g, a);
    var m := l.(slots := l.slots[k := Step(x, i, b)]);
    if StepOf(x.slot, g, b).Blocked? then l
    else if g == InRecv(AcceptCall) then m.(sessionCnt := l.sessionCnt + 1)
    else if g == InRelease(RelCall) then (if x.slot.accepted then m.(sessionCnt := l.sessionCnt - 1) else m)
    else if g == InRelease(RelActive) then m.(activeCnt := l.activeCnt - 1)
    else if g == InRelease(RelPush) then m.(stack := l.stack + [k], popping := l.popping + 1)
    else if g == InRelease(ArmId) then m.(seqId := l.seqId + 1)
    else if g == InRelease(ArmIo) then
      (if b == Alt then m.(stack := l.stack + [k]) else m.(activeCnt := l.activeCnt + 1))
    else m
  }

  function SetPhase(s: Slot, p: Phase): Slot {
    s.(past := s.past.(phase := p))
  }

  /** registerAcceptEx up to the point where the popped slot gets its new ID. */
  function PopEvent(l: Lib, i: nat): Lib {
    if l.popping == 0 then l
    else if l.stack == [] then l.(popping := l.popping - 1)
    else
      var k := l.stack[|l.stack| - 1];
      var m := l.(stack := l.stack[..|l.stack| - 1], popping := l.popping - 1);
      if k >= |l.slots| then m
      else if !l.on then m.(slots := l.slots[k := State(SetPhase(l.slots[k].slot, Lost), l.slots[k].agents)])
      else if i < |l.slots[k].agents| && l.slots[k].agents[i] == Idle
      then m.(slots := l.slots[k := State(SetPhase(l.slots[k].slot, Arming), l.slots[k].agents[i := InRelease(ArmId)])])
      else l
  }

  function Next(l: Lib, e: Event): Lib {
    match e
    case OnSlot(k, i, a) => if k < |l.slots| && i < |l.slots[k].agents| then SlotEvent(l, k, i, a) else l
    case Pop(i) => PopEvent(l, i)
    case Stop => l.(on := false)
  }

  function Run(l: Lib, es: seq<Event>): Lib {
    if es == [] then l else Next(Run(l, es[..|es| - 1]), es[|es| - 1])
  }

  function InitSlot(k: nat, m: nat): State {
    State(Slot(k, false, Io(1, false, true, false, false, false), Out(false, [], 0, [], 0),
               Past(InUse, true, 0, {}, [], [], [], [], multiset{}, multiset{}, false, Sizing(false, false, false))),
          seq(m, _ => Idle))
  }

  /** After the constructor: n slots, each with an AcceptEx outstanding; m calls at a time per slot. */
  function Init(n: nat, m: nat): Lib {
    Lib(seq(n, k requires 0 <= k < n => InitSlot(k, m)), [], 0, true, n - 1, 0, n)
  }

  ghost predicate Reachable(l: Lib) {
    exists n: nat, m: nat, es: seq<Event> :: l == Run(Init(n, m), es)
  }

  // ---- the invariant of the library -----------------------------------------------------------

  function OpenSession(x: State): int {
    B(Parse(x.slot.past.calls).Open?)
  }

  function Armed(x: State): int {
    B(x.slot.past.armed)
  }

  function Count(xs: seq<State>, f: State -> int): int {
    if xs == [] then 0 else f(xs[0]) + Count(xs[1..], f)
  }

  lemma {:induction false} CountUpdate(xs: seq<State>, k: nat, x: State, f: State -> int)
    requires k < |xs|
    ensures Count(xs[k := x], f) == Count(xs, f) - f(xs[k]) + f(x)
  {
    if k == 0 {
      assert xs[k := x][1..] == xs[1..];
    } else {
      CountUpdate(xs[1..], k - 1, x, f);
      assert xs[k := x][1..] == xs[1..][k - 1 := x];
    }
  }

  lemma {:induction false} CountAll(xs: seq<State>, f: State -> int, c: int)
    requires forall k :: 0 <= k < |xs| ==> f(xs[k]) == c
    ensures Count(xs, f) == |xs| * c
  {
    if xs != [] {
      CountAll(xs[1..], f, c);
    }
  }

  ghost predicate IdsOk(l: Lib, x: State) {
    x.slot.id <= l.seqId && forall id :: id in x.slot.past.published ==> id <= l.seqId
  }

  ghost predicate StackOk(l: Lib) {
    && (forall j :: 0 <= j < |l.stack| ==> l.stack[j] < |l.slots| && l.slots[l.stack[j]].slot.past.phase == InStack)
    && (forall j, h :: 0 <= j < h < |l.stack| ==> l.stack[j] != l.stack[h])
    && (forall k :: 0 <= k < |l.slots| && l.slots[k].slot.past.phase == InStack ==> k in l.stack)
  }

  ghost predicate LibInv(l: Lib) {
    && (forall k :: 0 <= k < |l.slots| ==> Inv(l.slots[k]) && Conserved(l.slots[k]) && IdsOk(l, l.slots[k]))
    && (forall j, k :: 0 <= j < k < |l.slots| ==> l.slots[j].slot.id != l.slots[k].slot.id)
    && StackOk(l)
    && l.sessionCnt == Count(l.slots, OpenSession)
    && l.activeCnt == Count(l.slots, Armed)
  }

  /** How a step of an agent at g changes what the library keeps track of. */
  predicate Effects(s: Slot, g: Agent, a: Act, r: Slot) {
    && r.past.phase == (if g == InRelease(RelPush) then InStack
                        else if g == InRelease(ArmIo) then (if a == Alt then InStack else InUse) else s.past.phase)
    && (g == InRelease(RelPush) || g == InRelease(ArmIo) ==> s.past.phase != InStack)
    && r.id == (if g == InRelease(ArmId) && a.Arm? then a.newId else s.id)
    && r.past.published == (if g == InRecv(AcceptCall) then s.past.published + {s.id} else s.past.published)
    && B(r.past.armed) == B(s.past.armed)
         + (if g == InRelease(RelActive) then -1 else if g == InRelease(ArmIo) && a != Alt then 1 else 0)
  }

  lemma LockEffects(s: Slot, g: Agent, a: Act)
    requires StepOf(s, g, a).Moved? && (g.Idle? || g.Locking?)
    ensures Effects(s, g, a, StepOf(s, g, a).slot)
  {
    hide ReleaseBit, Wrap16, Room, Effects;
    match g
    case Idle => StartEffects(s, a);
    case Locking(pc) => LockingEffects(s, pc, a);
    case _ => assert false;
  }

  lemma StartEffects(s: Slot, a: Act)
    requires StartStep(s, a).Moved?
    ensures Effects(s, Idle, a, StartStep(s, a).slot)
  {
    hide ReleaseBit, Wrap16, Room;
  }

  lemma LockingEffects(s: Slot, pc: LockPc, a: Act)
    ensures LockStep(s, pc).Moved? && Effects(s, Locking(pc), a, LockStep(s, pc).slot)
  {
    hide ReleaseBit, Wrap16, Room;
  }

  lemma SendEffects(s: Slot, g: Agent, a: Act)
    requires StepOf(s, g, a).Moved? && (g.InPost? || g.InPump? || g.InIssue?)
    ensures Effects(s, g, a, StepOf(s, g, a).slot)
  {
    hide ReleaseBit, Wrap16, Room, Batch;
  }

  lemma RecvEffects(s: Slot, pc: RecvPc, a: Act)
    requires RecvStep(s, pc, a).Moved?
    ensures Effects(s, InRecv(pc), a, RecvStep(s, pc, a).slot)
  {
    hide ReleaseBit, Wrap16, Room;
  }

  lemma ReleaseEffects(s: Slot, pc: RelPc, a: Act, t: Tally)
    requires ReleaseStep(s, pc, a).Moved? && RelOk(s, pc) && BoxInv(s, t)
    ensures Effects(s, InRelease(pc), a, ReleaseStep(s, pc, a).slot)
  {
  }

  lemma StepEffects(s: Slot, g: Agent, a: Act, t: Tally)
    requires Ready(s, g, t) && StepOf(s, g, a).Moved?
    ensures Effects(s, g, a, StepOf(s, g, a).slot)
  {
    hide Effects, RecvInv, PumpInv, FifoInv, TraceInv, CountInv, BoxInv;
    match g
    case InRecv(pc) => RecvEffects(s, pc, a);
    case InRelease(pc) => ReleaseEffects(s, pc, a, t);
    case _ => if g.Idle? || g.Locking? { LockEffects(s, g, a); } else { SendEffects(s, g, a); }
  }

  lemma StepSession(s: Slot, g: Agent, a: Act, t: Tally)
    requires Ready(s, g, t) && StepOf(s, g, a).Moved?
    ensures var r := StepOf(s, g, a).slot;
      B(Parse(r.past.calls).Open?) == B(Parse(s.past.calls).Open?)
        + (if g == InRecv(AcceptCall) then 1 else if g == InRelease(RelCall) && s.accepted then -1 else 0)
  {
    hide RecvInv, PumpInv, FifoInv, CountInv, BoxInv, ReleaseBit, Wrap16, Room, Parse;
    StepShared(s, g, a, t);
    ParseAppend(s.past.calls, OnAccept(s.id));
    ParseAppend(s.past.calls, OnRecv(s.id));
    ParseAppend(s.past.calls, OnRelease(s.id));
  }

  // ---- every event keeps the invariant ---------------------------------------------------------

  /** Slot k may be replaced by y. */
  lemma ReplaceSlot(l: Lib, k: nat, y: State)
    requires k < |l.slots|
    ensures Count(l.slots[k := y], OpenSession) == Count(l.slots, OpenSession) - OpenSession(l.slots[k]) +
              OpenSession(y)
    ensures Count(l.slots[k := y], Armed) == Count(l.slots, Armed) - Armed(l.slots[k]) + Armed(y)
  {
    CountUpdate(l.slots, k, y, OpenSession);
    CountUpdate(l.slots, k, y, Armed);
  }

  /** The facts about one step that the library-level argument uses. */
  lemma SlotStepFacts(l: Lib, k: nat, i: nat, a: Act)
    requires LibInv(l) && k < |l.slots| && i < |l.slots[k].agents|
    requires StepOf(l.slots[k].slot, l.slots[k].agents[i], a).Moved?
    ensures var x := l.slots[k]; var g := x.agents[i]; var y := Step(x, i, a);
      && Inv(y) && Conserved(y)
      && Effects(x.slot, g, a, y.slot)
      && OpenSession(y) == OpenSession(x)
           + (if g == InRecv(AcceptCall) then 1 else if g == InRelease(RelCall) && x.slot.accepted then -1 else 0)
  {
    hide Inv, Conserved, StepOf, Total, Of, StackOk, Effects;
    var x := l.slots[k];
    StepKeepsInv(x, i, a);
    StepConserves(x, i, a);
    ReadyAt(x, i);
    StepEffects(x.slot, x.agents[i], a, Total(x.agents));
    StepSession(x.slot, x.agents[i], a, Total(x.agents));
  }

  lemma ReadyAt(x: State, i: nat)
    requires Inv(x) && i < |x.agents|
    ensures Ready(x.slot, x.agents[i], Total(x.agents))
  {
    hide Shared, AgentOk, Total, Of;
    TotalsNatural(x.agents);
    TotalBounds(x.agents, i);
  }

  lemma StackAfter(l: Lib, k: nat, y: State, m: Lib)
    requires StackOk(l) && k < |l.slots| && m.slots == l.slots[k := y]
    requires if l.slots[k].slot.past.phase != InStack && y.slot.past.phase == InStack then m.stack == l.stack + [k]
             else m.stack == l.stack && (y.slot.past.phase == InStack <==> l.slots[k].slot.past.phase == InStack)
    ensures StackOk(m)
  {
    if m.stack != l.stack {
      assert k !in l.stack;
      assert m.stack[|l.stack|] == k;
      forall h | 0 <= h < |m.slots| && m.slots[h].slot.past.phase == InStack
        ensures h in m.stack
      {
        assert h == k || h in l.stack;
      }
    }
  }

  lemma SlotEventKeeps(l: Lib, k: nat, i: nat, a: Act)
    requires LibInv(l) && k < |l.slots| && i < |l.slots[k].agents|
    ensures LibInv(SlotEvent(l, k, i, a))
  {
    hide Inv, Conserved, StepOf, StackOk, OpenSession, Armed;
    var x, g := l.slots[k], l.slots[k].agents[i];
    var b := Resolve(l, g, a);
    var m := SlotEvent(l, k, i, a);
    if StepOf(x.slot, g, b).Moved? {
      var y := Step(x, i, b);
      SlotStepFacts(l, k, i, b);
      ReplaceSlot(l, k, y);
      StackAfter(l, k, y, m);
      ArmedIs(x);
      ArmedIs(y);
    }
  }

  lemma ArmedIs(x: State)
    ensures Armed(x) == B(x.slot.past.armed)
  {
  }

  /** A parked slot has no call in progress that depends on its phase. */
  lemma ParkedAgents(x: State)
    requires Inv(x) && x.slot.past.phase == InStack
    ensures Released(x.slot.io) && Total(x.agents).rel == 0 && Total(x.agents).arm == 0
    ensures forall j {:trigger x.agents[j]} :: 0 <= j < |x.agents| ==>
              Of(x.agents[j]).refs == 0 && Of(x.agents[j]).rel == 0
  {
    hide Total, Of, AgentOk;
    TotalsNatural(x.agents);
    forall j {:trigger x.agents[j]} | 0 <= j < |x.agents|
      ensures Of(x.agents[j]).refs == 0 && Of(x.agents[j]).rel == 0
    {
      TotalBounds(x.agents, j);
      Others(x.agents[j]);
    }
  }

  lemma Others(g: Agent)
    ensures Of(g).Natural()
  {
  }

  /** registerAcceptEx finds mBOn cleared: the index is dropped. */
  lemma LostKeeps(x: State)
    requires Inv(x) && x.slot.past.phase == InStack
    ensures Inv(State(SetPhase(x.slot, Lost), x.agents))
  {
    hide Total, Of, AgentOk;
    ParkedAgents(x);
    var r := SetPhase(x.slot, Lost);
    forall j | 0 <= j < |x.agents|
      ensures AgentOk(r, x.agents[j])
    {
      LeavesKeeps(x.slot, r, x.agents[j]);
    }
  }

  /** registerAcceptEx takes the slot out of the stack. */
  lemma ArmingKeeps(x: State, i: nat)
    requires Inv(x) && x.slot.past.phase == InStack && i < |x.agents| && x.agents[i] == Idle
    ensures Inv(State(SetPhase(x.slot, Arming), x.agents[i := InRelease(ArmId)]))
  {
    assert Of(InRelease(ArmId)) == ZERO.(rel := 1, arm := 1) && Of(Idle) == ZERO;
    hide Total, Of, AgentOk;
    ParkedAgents(x);
    TotalUpdate(x.agents, i, InRelease(ArmId));
    var r := SetPhase(x.slot, Arming);
    var gs := x.agents[i := InRelease(ArmId)];
    forall j | 0 <= j < |gs|
      ensures AgentOk(r, gs[j])
    {
      if j == i { ArmIdOk(r); } else { LeavesKeeps(x.slot, r, x.agents[j]); }
    }
  }

  lemma ArmIdOk(s: Slot)
    requires s.past.phase == Arming
    ensures AgentOk(s, InRelease(ArmId))
  {
  }

  lemma RephaseConserves(x: State, p: Phase, i: nat)
    requires Conserved(x)
    ensures Conserved(State(SetPhase(x.slot, p), x.agents))
    ensures i < |x.agents| && x.agents[i] == Idle ==>
              Conserved(State(SetPhase(x.slot, p), x.agents[i := InRelease(ArmId)]))
  {
    if i < |x.agents| && x.agents[i] == Idle {
      forall m
        ensures InHand(x.agents[i := InRelease(ArmId)], m) == InHand(x.agents, m)
      {
        InHandUpdate(x.agents, i, InRelease(ArmId), m);
      }
    }
  }

  lemma PopStack(l: Lib, k: nat, y: State, m: Lib)
    requires StackOk(l) && l.stack != [] && k == l.stack[|l.stack| - 1]
    requires m.slots == l.slots[k := y] && m.stack == l.stack[..|l.stack| - 1] && y.slot.past.phase != InStack
    ensures StackOk(m)
  {
    forall h | 0 <= h < |m.slots| && m.slots[h].slot.past.phase == InStack
      ensures h in m.stack
    {
      assert h in l.stack && h != k;
      var j :| 0 <= j < |l.stack| && l.stack[j] == h;
      assert m.stack[j] == h;
    }
  }

  lemma PopEventKeeps(l: Lib, i: nat)
    requires LibInv(l)
    ensures LibInv(PopEvent(l, i))
  {
    hide Inv, Conserved, OpenSession, Armed, Count;
    var m := PopEvent(l, i);
    if l.popping > 0 && l.stack != [] && m != l {
      var k := l.stack[|l.stack| - 1];
      var x := l.slots[k];
      var y := m.slots[k];
      if !l.on { LostKeeps(x); RephaseConserves(x, Lost, i); }
      else { ArmingKeeps(x, i); RephaseConserves(x, Arming, i); }
      SameMarks(x, y);
      ReplaceSlot(l, k, y);
      PopStack(l, k, y, m);
      hide StackOk, PopEvent;
    }
  }

  lemma SameMarks(x: State, y: State)
    requires x.slot.past.calls == y.slot.past.calls && x.slot.past.armed == y.slot.past.armed
    ensures OpenSession(x) == OpenSession(y) && Armed(x) == Armed(y)
  {
  }

  lemma NextKeeps(l: Lib, e: Event)
    requires LibInv(l)
    ensures LibInv(Next(l, e))
  {
    hide Inv, Conserved, OpenSession, Armed, StackOk, Count, SlotEvent, PopEvent;
    match e
    case OnSlot(k, i, a) => if k < |l.slots| && i < |l.slots[k].agents| { SlotEventKeeps(l, k, i, a); }
    case Pop(i) => PopEventKeeps(l, i);
    case Stop => StopKeeps(l);
  }

  lemma StopKeeps(l: Lib)
    requires LibInv(l)
    ensures LibInv(l.(on := false))
  {
    hide Inv, Conserved, OpenSession, Armed;
  }

  lemma InitSlotInv(k: nat, m: nat)
    ensures Inv(InitSlot(k, m)) && Conserved(InitSlot(k, m))
    ensures OpenSession(InitSlot(k, m)) == 0 && Armed(InitSlot(k, m)) == 1
  {
    var x := InitSlot(k, m);
    AllIdle(x.agents);
    TotalsNatural(x.agents);
    forall msg
      ensures InHand(x.agents, msg) == 0
    {
      NothingInHand(x.agents, msg);
    }
    hide Total;
  }

  lemma InitKeeps(n: nat, m: nat)
    ensures LibInv(Init(n, m))
  {
    hide Inv, Conserved, OpenSession, Armed;
    var l := Init(n, m);
    forall k | 0 <= k < n
      ensures Inv(l.slots[k]) && Conserved(l.slots[k]) && OpenSession(l.slots[k]) == 0 && Armed(l.slots[k]) == 1
    {
      InitSlotInv(k, m);
    }
    CountAll(l.slots, OpenSession, 0);
    CountAll(l.slots, Armed, 1);
  }

  /** The invariant holds after every run. */
  lemma {:induction false} RunKeeps(n: nat, m: nat, es: seq<Event>)
    ensures LibInv(Run(Init(n, m), es))
  {
    hide LibInv, Next, Init;
    if es == [] {
      InitKeeps(n, m);
    } else {
      RunKeeps(n, m, es[..|es| - 1]);
      NextKeeps(Run(Init(n, m), es[..|es| - 1]), es[|es| - 1]);
    }
  }

  lemma ReachableInv(l: Lib)
    requires Reachable(l)
    ensures LibInv(l)
  {
    var n: nat, m: nat, es: seq<Event> :| l == Run(Init(n, m), es);
    RunKeeps(n, m, es);
  }
}

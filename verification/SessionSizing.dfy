/** registerSend reads mSenqQSize twice for the size of one batch: what that means for the bound of
    SEND_MAX messages, which is all that mSendMsgs and wsabuf hold. */
module SessionSizing {
  import opened Interlocked
  import opened SessionSlot
  import opened SessionTally
  import opened SessionInvariant
  import opened SessionRules
  import opened SessionSteps
  import opened SessionMessages
  import opened NetworkLib

  /** About to read mSenqQSize again. */
  predicate ReadsAgain(g: Agent) {
    g == InPump(BatchAgain)
  }

  ghost predicate SizedSlot(s: Slot) {
    var z := s.past.sizing;
    && (z.overrun ==> z.crossed)
    && (z.crossed ==> z.overrun || (z.between && SEND_MAX < s.out.size))
    && (z.between && SEND_MAX < s.out.size ==> z.crossed)
    && (!z.overrun ==> s.out.cnt <= SEND_MAX && |s.out.inflight| <= SEND_MAX)
  }

  ghost predicate Sized(x: State) {
    && SizedSlot(x.slot)
    && (x.slot.past.sizing.between <==> exists i :: 0 <= i < |x.agents| && ReadsAgain(x.agents[i]))
  }

  /** The steps that take mSenqQSize down. */
  predicate Shrinks(g: Agent) {
    match g
    case InIssue(TakeCount(_)) => true
    case InRelease(RelDrainCount) => true
    case _ => false
  }

  /** What a step of an agent at g does to the history of the sizes. */
  ghost predicate Sizes(s: Slot, g: Agent, r: Outcome)
    requires r.Moved?
  {
    && SizedSlot(r.slot)
    && r.slot.past.sizing.between == (if g == InPump(BatchSize) then ReadsAgain(r.next)
                                      else s.past.sizing.between && !ReadsAgain(g))
    && (ReadsAgain(r.next) ==> g == InPump(BatchSize))
  }

  /** Where a step of an agent at g can start from. */
  ghost predicate Fits(s: Slot, g: Agent) {
    && (Shrinks(g) ==> !s.past.sizing.between)
    && (g == InPump(BatchSize) ==> !s.past.sizing.between)
    && (ReadsAgain(g) ==> s.past.sizing.between)
  }

  lemma PostSizes(s: Slot, pc: PostPc)
    requires SizedSlot(s) && PostStep(s, pc).Moved?
    ensures Sizes(s, InPost(pc), PostStep(s, pc))
  {
    hide Wrap16, ReleaseBit, Room;
  }

  lemma PumpSizes(s: Slot, pc: PumpPc)
    requires SizedSlot(s) && Fits(s, InPump(pc)) && PumpStep(s, pc).Moved?
    ensures Sizes(s, InPump(pc), PumpStep(s, pc))
  {
    hide Wrap16, ReleaseBit, Room, Batch;
    if pc.BatchAgain? {
      assert ReadsAgain(InPump(pc));
    }
  }

  lemma IssueSizes(s: Slot, pc: IssuePc, a: Act)
    requires SizedSlot(s) && IssueOk(s, pc) && Fits(s, InIssue(pc)) && IssueStep(s, pc, a).Moved?
    ensures Sizes(s, InIssue(pc), IssueStep(s, pc, a))
  {
    hide Wrap16, ReleaseBit, Room;
  }

  lemma ReleaseSizes(s: Slot, pc: RelPc, a: Act)
    requires SizedSlot(s) && Fits(s, InRelease(pc)) && ReleaseStep(s, pc, a).Moved?
    ensures Sizes(s, InRelease(pc), ReleaseStep(s, pc, a))
  {
    hide Batch;
  }

  lemma RecvSizes(s: Slot, pc: RecvPc, a: Act)
    requires SizedSlot(s) && RecvStep(s, pc, a).Moved?
    ensures Sizes(s, InRecv(pc), RecvStep(s, pc, a))
  {
    hide Wrap16, ReleaseBit, Room;
  }

  lemma LockSizes(s: Slot, g: Agent, a: Act)
    requires SizedSlot(s) && StepOf(s, g, a).Moved? && (g.Idle? || g.Locking?)
    ensures Sizes(s, g, StepOf(s, g, a))
  {
    hide Wrap16, ReleaseBit, Room;
  }

  lemma IssueOkOf(s: Slot, pc: IssuePc)
    requires AgentOk(s, InIssue(pc))
    ensures IssueOk(s, pc)
  {
  }

  lemma StepSizes(s: Slot, g: Agent, a: Act)
    requires SizedSlot(s) && AgentOk(s, g) && Fits(s, g) && StepOf(s, g, a).Moved?
    ensures Sizes(s, g, StepOf(s, g, a))
  {
    hide SizedSlot, AgentOk, Fits, Sizes;
    match g
    case InRecv(pc) => RecvSizes(s, pc, a);
    case InRelease(pc) => ReleaseSizes(s, pc, a);
    case InPost(pc) => PostSizes(s, pc);
    case InPump(pc) => PumpSizes(s, pc);
    case InIssue(pc) => IssueOkOf(s, pc); IssueSizes(s, pc, a);
    case _ => LockSizes(s, g, a);
  }

  /** Between the two reads, the thread holds the send token and a reference. */
  lemma ReaderExcludes(x: State, i: nat, j: nat)
    requires Inv(x) && i < |x.agents| && j < |x.agents| && i != j && ReadsAgain(x.agents[j])
    ensures !Shrinks(x.agents[i]) && x.agents[i] != InPump(BatchSize) && !ReadsAgain(x.agents[i])
  {
    hide Total, RecvInv, BoxInv, FifoInv, TraceInv, AgentOk;
    var t := Total(x.agents);
    TotalsNatural(x.agents);
    TotalBoundsPair(x.agents, i, j);
    CountsHolder(x.slot, t);
    TokenHolder(x.slot, t);
  }

  lemma StepKeepsSized(x: State, i: nat, a: Act)
    requires Inv(x) && Sized(x) && i < |x.agents|
    ensures Sized(Step(x, i, a))
  {
    hide Inv, SizedSlot, AgentOk, StepOf, Shrinks;
    var g := x.agents[i];
    if StepOf(x.slot, g, a).Moved? {
      forall j | 0 <= j < |x.agents| && j != i && ReadsAgain(x.agents[j])
        ensures !Shrinks(g) && g != InPump(BatchSize) && !ReadsAgain(g)
      {
        ReaderExcludes(x, i, j);
      }
      NotShrinking();
      AgentAt(x, i);
      StepSizes(x.slot, g, a);
      OthersRead(x, i, StepOf(x.slot, g, a));
    }
  }

  lemma NotShrinking()
    ensures !Shrinks(InPump(BatchAgain))
  {
  }

  lemma AgentAt(x: State, i: nat)
    requires Inv(x) && i < |x.agents|
    ensures AgentOk(x.slot, x.agents[i])
  {
    hide AgentOk;
  }

  lemma OthersRead(x: State, i: nat, r: Outcome)
    requires Sized(x) && i < |x.agents| && r.Moved? && Sizes(x.slot, x.agents[i], r)
    requires forall j :: 0 <= j < |x.agents| && j != i && ReadsAgain(x.agents[j]) ==>
               x.agents[i] != InPump(BatchSize) && !ReadsAgain(x.agents[i])
    ensures Sized(State(r.slot, x.agents[i := r.next]))
  {
    hide SizedSlot;
    var g, gs := x.agents[i], x.agents[i := r.next];
    if j :| 0 <= j < |gs| && ReadsAgain(gs[j]) {
      assert j != i ==> ReadsAgain(x.agents[j]);
    }
    if r.slot.past.sizing.between {
      if g == InPump(BatchSize) {
        assert ReadsAgain(gs[i]);
      } else {
        var j :| 0 <= j < |x.agents| && ReadsAgain(x.agents[j]);
        assert ReadsAgain(gs[j]);
      }
    }
  }

  // ---- every run ------------------------------------------------------------------------------------------

  ghost predicate AllSized(l: Lib) {
    forall k :: 0 <= k < |l.slots| ==> Sized(l.slots[k])
  }

  lemma SlotEventSized(l: Lib, k: nat, i: nat, a: Act)
    requires LibInv(l) && AllSized(l) && k < |l.slots| && i < |l.slots[k].agents|
    ensures AllSized(SlotEvent(l, k, i, a))
  {
    hide Inv, Sized, StepOf, Conserved, StackOk;
    StepKeepsSized(l.slots[k], i, Resolve(l, l.slots[k].agents[i], a));
  }

  lemma Rephased(x: State, p: Phase, i: nat)
    requires Sized(x)
    ensures Sized(State(SetPhase(x.slot, p), x.agents))
    ensures i < |x.agents| && x.agents[i] == Idle ==> Sized(State(SetPhase(x.slot, p), x.agents[i := InRelease(ArmId)]))
  {
    if i < |x.agents| && x.agents[i] == Idle {
      var gs := x.agents[i := InRelease(ArmId)];
      assert forall j :: 0 <= j < |gs| ==> (ReadsAgain(gs[j]) <==> ReadsAgain(x.agents[j]));
    }
  }

  lemma PopEventSized(l: Lib, i: nat)
    requires AllSized(l)
    ensures AllSized(PopEvent(l, i))
  {
    hide Sized;
    if l.popping > 0 && l.stack != [] {
      var k := l.stack[|l.stack| - 1];
      if k < |l.slots| {
        Rephased(l.slots[k], Lost, i);
        Rephased(l.slots[k], Arming, i);
      }
    }
  }

  lemma {:induction false} RunSized(n: nat, m: nat, es: seq<Event>)
    ensures AllSized(Run(Init(n, m), es))
  {
    hide LibInv, SlotEvent, PopEvent, Sized;
    if es == [] {
      forall k | 0 <= k < n
        ensures Sized(InitSlot(k, m))
      {
        InitSized(k, m);
      }
    } else {
      var l := Run(Init(n, m), es[..|es| - 1]);
      RunSized(n, m, es[..|es| - 1]);
      RunKeeps(n, m, es[..|es| - 1]);
      match es[|es| - 1]
      case OnSlot(k, i, a) => if k < |l.slots| && i < |l.slots[k].agents| { SlotEventSized(l, k, i, a); }
      case Pop(i) => PopEventSized(l, i);
      case Stop =>
    }
  }

  lemma InitSized(k: nat, m: nat)
    ensures Sized(InitSlot(k, m))
  {
  }

  /** The bound on a batch, in every reachable state: it has been exceeded exactly if a push took
      mSenqQSize from SEND_MAX to SEND_MAX + 1 between the two reads of a thread, as soon as that thread has
      read again; until it has been, mMsgCnt and the messages in flight are at most SEND_MAX. */
  lemma BatchBound(l: Lib, k: nat)
    requires Reachable(l) && k < |l.slots|
    ensures var x := l.slots[k]; var z := x.slot.past.sizing;
      && (z.between <==> exists i :: 0 <= i < |x.agents| && ReadsAgain(x.agents[i]))
      && (z.overrun ==> z.crossed)
      && (z.crossed && !z.between ==> z.overrun)
      && (z.crossed && z.between ==> z.overrun || SEND_MAX < x.slot.out.size)
      && (!z.overrun ==> x.slot.out.cnt <= SEND_MAX && |x.slot.out.inflight| <= SEND_MAX)
  {
    hide Run, Init;
    var n: nat, m: nat, es: seq<Event> :| l == Run(Init(n, m), es);
    RunSized(n, m, es);
    assert Sized(l.slots[k]);
  }

  // ---- it happens -----------------------------------------------------------------------------------------

  const MSG := Msg(0, 0)

  function Copies(n: nat): seq<Msg> {
    seq(n, _ => MSG)
  }

  /** An open session with n queued messages, whose completion of the first sendPost is outstanding. */
  function Loaded(n: nat): Slot {
    Slot(0, true, Io(2, true, false, true, true, false), Out(true, Copies(n), n, [], 0),
         Past(InUse, true, 0, {0}, [OnAccept(0)], Copies(n), [], [], multiset(Copies(n)), multiset{}, false,
              Sizing(false, false, false)))
  }

  /** The one slot of a library in this state. */
  ghost predicate Seen(x: State) {
    exists l :: Reachable(l) && l.on && |l.slots| == 1 && l.slots[0] == x
  }

  lemma SeenStep(x: State, i: nat, a: Act)
    requires Seen(x) && i < |x.agents| && (x.agents[i].InRelease? ==> !x.agents[i].rel.ArmId?)
    requires x.agents[i] == InRecv(Accepting) ==> a == Go
    ensures Seen(Step(x, i, a))
  {
    hide Step, StepOf, Reachable;
    var l :| Reachable(l) && l.on && |l.slots| == 1 && l.slots[0] == x;
    ReachableNext(l, OnSlot(0, i, a));
    var m := Next(l, OnSlot(0, i, a));
    BlockedStays(x, i, a);
    assert m.slots[0] == Step(x, i, a);
  }

  lemma BlockedStays(x: State, i: nat, a: Act)
    requires i < |x.agents|
    ensures StepOf(x.slot, x.agents[i], a).Blocked? ==> Step(x, i, a) == x
  {
  }

  lemma ReachableNext(l: Lib, e: Event)
    requires Reachable(l)
    ensures Reachable(Next(l, e))
  {
    hide Next, Init;
    var n: nat, m: nat, es: seq<Event> :| l == Run(Init(n, m), es);
    assert (es + [e])[..|es + [e]| - 1] == es;
    assert Next(l, e) == Run(Init(n, m), es + [e]);
  }

  /** The first of two agents takes a step from g to h, and the slot changes from s to r. */
  lemma First(s: Slot, g: Agent, other: Agent, a: Act, r: Slot, h: Agent)
    requires Seen(State(s, [g, other])) && StepOf(s, g, a) == Moved(r, h) && !g.InRelease?
    requires g == InRecv(Accepting) ==> a == Go
    ensures Seen(State(r, [h, other]))
  {
    hide StepOf, Seen;
    SeenStep(State(s, [g, other]), 0, a);
    assert [g, other][0 := h] == [h, other];
  }

  /** The same for the second. */
  lemma Second(s: Slot, other: Agent, g: Agent, a: Act, r: Slot, h: Agent)
    requires Seen(State(s, [other, g])) && StepOf(s, g, a) == Moved(r, h) && !g.InRelease?
    requires g == InRecv(Accepting) ==> a == Go
    ensures Seen(State(r, [other, h]))
  {
    hide StepOf, Seen;
    SeenStep(State(s, [other, g]), 1, a);
    assert [other, g][1 := h] == [other, h];
  }

  lemma Counted(v: int)
    requires 0 <= v < 1000
    ensures Wrap16(v + 1) == v + 1 && Wrap16(v) == v && !ReleaseBit(v + 1) && Room(v)
  {
  }

  /** A call of sendPost up to and including the push, in the lock of an open session. */
  lemma Pushes(s: Slot, g: Agent) returns (r: Slot)
    requires Seen(State(s, [Idle, g])) && s.id == 0 && 0 in s.past.published && 0 < s.io.count < 900
    ensures Seen(State(r, [InPost(Counting(0)), g]))
    ensures r == s.(io := s.io.(count := s.io.count + 1), out := s.out.(queue := s.out.queue + [MSG]),
                    past := s.past.(offered := s.past.offered + multiset{MSG}, log := s.past.log + [MSG]))
  {
    hide Seen, Wrap16, ReleaseBit, Room;
    Counted(s.io.count);
    var r1 := s.(io := s.io.(count := s.io.count + 1),
                 past := s.past.(offered := s.past.offered + multiset{MSG}));
    First(s, Idle, g, CallSend(0, MSG), r1, Locking(LockId(0, Send(MSG))));
    First(r1, Locking(LockId(0, Send(MSG))), g, Go, r1, InPost(Pushing(0, MSG)));
    r := r1.(out := r1.out.(queue := r1.out.queue + [MSG]), past := r1.past.(log := r1.past.log + [MSG]));
    First(r1, InPost(Pushing(0, MSG)), g, Go, r, InPost(Counting(0)));
  }

  /** The counting step. */
  lemma Counts(s: Slot, g: Agent) returns (r: Slot)
    requires Seen(State(s, [InPost(Counting(0)), g])) && s.out.size < 0x7FFF
    ensures Seen(State(r, [InPost(SendCas(0)), g]))
    ensures r == s.(out := s.out.(size := s.out.size + 1),
                    past := s.past.(sizing := Crossing(s.past.sizing, s.out.size)))
  {
    hide Seen;
    r := s.(out := s.out.(size := s.out.size + 1), past := s.past.(sizing := Crossing(s.past.sizing, s.out.size)));
    First(s, InPost(Counting(0)), g, Go, r, InPost(SendCas(0)));
  }

  /** sessionUnLock by agent 0. */
  lemma Unlocks(s: Slot, g: Agent) returns (r: Slot)
    requires Seen(State(s, [Locking(Unlock(0)), g])) && 1 < s.io.count < 1000
    ensures Seen(State(r, [Idle, g])) && r == s.(io := s.io.(count := s.io.count - 1))
  {
    hide Seen, Wrap16;
    Counted(s.io.count - 1);
    r := s.(io := s.io.(count := s.io.count - 1));
    First(s, Locking(Unlock(0)), g, Go, r, Idle);
  }

  lemma OneMore(n: nat)
    ensures Copies(n) + [MSG] == Copies(n + 1) && multiset(Copies(n)) + multiset{MSG} == multiset(Copies(n + 1))
  {
    assert Copies(n + 1) == Copies(n) + [MSG];
  }

  /** One more message, while the first completion is outstanding. */
  lemma PushOne(n: nat)
    requires Seen(State(Loaded(n), [Idle, Idle])) && 0 < n < 0x7FFF
    ensures Seen(State(Loaded(n + 1), [Idle, Idle]))
  {
    hide Seen, Copies;
    OneMore(n);
    var r := Pushes(Loaded(n), Idle);
    r := Counts(r, Idle);
    First(r, InPost(SendCas(0)), Idle, Go, r, Locking(Unlock(0)));
    r := Unlocks(r, Idle);
  }

  lemma {:induction false} PushMany(n: nat)
    requires Seen(State(Loaded(1), [Idle, Idle])) && 0 < n <= 0x7FFF
    ensures Seen(State(Loaded(n), [Idle, Idle]))
  {
    hide Seen, Loaded;
    if n > 1 {
      PushMany(n - 1);
      PushOne(n - 1);
    }
  }

  /** An accepted connection, with its receive outstanding. */
  function Accepted(): Slot {
    Slot(0, true, Io(1, true, false, true, false, false), Out(false, [], 0, [], 0),
         Past(InUse, true, 0, {0}, [OnAccept(0)], [], [], [], multiset{}, multiset{}, false,
              Sizing(false, false, false)))
  }

  lemma Accepts()
    ensures Seen(State(Accepted(), [Idle, Idle]))
  {
    hide Seen, Wrap16, ReleaseBit, Room;
    InitSeen();
    var r := Greets(InitSlot(0, 2).slot);
    Counted(1);
    var r1 := r.(io := r.io.(count := 2));
    First(r, InRecv(RecvInc), Idle, Go, r1, InRecv(RecvIssue));
    var r2 := r1.(io := r1.io.(recvPending := true));
    First(r1, InRecv(RecvIssue), Idle, Go, r2, Locking(WorkerDec));
    First(r2, Locking(WorkerDec), Idle, Go, Accepted(), Idle);
  }

  /** completeAcceptEx, up to the first receive. */
  lemma Greets(s: Slot) returns (r: Slot)
    requires Seen(State(s, [Idle, Idle])) && s.io.acceptPending && s.id == 0
    requires s.past.published == {} && s.past.calls == [] && s.out.cnt == 0 && !s.past.asserted
    ensures Seen(State(r, [InRecv(RecvInc), Idle]))
    ensures r == s.(accepted := true, io := s.io.(acceptPending := false, live := true),
                    past := s.past.(published := {0}, calls := [OnAccept(0)]))
  {
    hide Seen;
    var r1 := s.(io := s.io.(acceptPending := false));
    First(s, Idle, Idle, TakeAccept, r1, InRecv(Accepting));
    var r2 := r1.(io := r1.io.(live := true));
    First(r1, InRecv(Accepting), Idle, Go, r2, InRecv(AcceptCall));
    r := r2.(accepted := true, past := r2.past.(published := {0}, calls := [OnAccept(0)]));
    First(r2, InRecv(AcceptCall), Idle, Go, r, InRecv(RecvArm));
    First(r, InRecv(RecvArm), Idle, Go, r, InRecv(RecvInc));
  }

  lemma InitSeen()
    ensures Seen(State(InitSlot(0, 2).slot, [Idle, Idle]))
  {
    var l := Init(1, 2);
    assert l == Run(Init(1, 2), []) && Reachable(l);
    assert l.slots[0].agents == [Idle, Idle];
    assert l.slots[0] == State(InitSlot(0, 2).slot, [Idle, Idle]);
  }

  /** The first sendPost takes the flag and posts a completion. */
  lemma FirstPush()
    ensures Seen(State(Loaded(1), [Idle, Idle]))
  {
    hide Seen, Wrap16, ReleaseBit, Room, Copies;
    Accepts();
    NoCopies();
    OneMore(0);
    var r := Pushes(Accepted(), Idle);
    r := Counts(r, Idle);
    var r1 := r.(out := r.out.(flag := true));
    First(r, InPost(SendCas(0)), Idle, Go, r1, InPost(SendInc(0)));
    Counted(2);
    var r2 := r1.(io := r1.io.(count := 3));
    First(r1, InPost(SendInc(0)), Idle, Go, r2, InPost(SendPqcs(0)));
    var r3 := r2.(io := r2.io.(sendPending := true));
    First(r2, InPost(SendPqcs(0)), Idle, Go, r3, Locking(Unlock(0)));
    r := Unlocks(r3, Idle);
  }

  lemma NoCopies()
    ensures Copies(0) == []
  {
  }

  /** The bound is exceeded in some run: 500 messages are queued, a worker finds 500, another thread
      pushes one more, and the worker, reading again, takes 501. */
  lemma BatchOverruns()
    ensures exists l :: Reachable(l) && |l.slots| == 1 && l.slots[0].slot.past.sizing.overrun
                        && l.slots[0].slot.out.cnt == SEND_MAX + 1
  {
    hide Wrap16, ReleaseBit, Room, Copies;
    FirstPush();
    PushMany(SEND_MAX);
    var y := LastPush();
    var l :| Reachable(l) && l.on && |l.slots| == 1 && l.slots[0] == y;
  }

  lemma LastPush() returns (y: State)
    requires Seen(State(Loaded(SEND_MAX), [Idle, Idle]))
    ensures Seen(y) && y.slot.past.sizing.overrun && y.slot.out.cnt == SEND_MAX + 1
  {
    hide Seen, Wrap16, ReleaseBit, Room, Copies;
    var s := Loaded(SEND_MAX);
    var r1 := s.(io := s.io.(sendPending := false));
    Second(s, Idle, Idle, TakeSend, r1, InPump(BatchFree));
    Second(r1, Idle, InPump(BatchFree), Go, r1, InPump(BatchSize));
    var r2 := r1.(past := r1.past.(sizing := Sizing(true, false, false)));
    Second(r1, Idle, InPump(BatchSize), Go, r2, InPump(BatchAgain));
    var r3 := Pushes(r2, InPump(BatchAgain));
    r3 := Counts(r3, InPump(BatchAgain));
    var r4 := r3.(out := r3.out.(cnt := SEND_MAX + 1), past := r3.past.(sizing := Sizing(false, true, true)));
    Second(r3, InPost(SendCas(0)), InPump(BatchAgain), Go, r4, InIssue(Take(SEND_MAX + 1)));
    y := State(r4, [InPost(SendCas(0)), InIssue(Take(SEND_MAX + 1))]);
  }
}

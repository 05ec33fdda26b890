/** What every agent holds, added up over a slot. */
module SessionTally {
  import opened SessionSlot

  /** refs: references counted in mIOcnt. token: the right to use mSendOv. chain: the receive chain
      accept -> recv -> recv -> ..., until mLive is cleared. watch: about to try the release
      compare-exchange. rel: the release in progress; post: ... not yet posted; arm: ... re-arming;
      closed: ... after onRelease. pushGap, popGap: mSendQ changed, mSenqQSize not yet.
      taking: filling mSendMsgs. wake: will still look at mSendFlag or mSenqQSize. */
  datatype Tally = Tally(refs: int, token: int, chain: int, watch: int, rel: int, post: int, arm: int,
                         closed: int, pushGap: int, popGap: int, taking: int, wake: int)
  {
    function Plus(o: Tally): Tally {
      Tally(refs + o.refs, token + o.token, chain + o.chain, watch + o.watch, rel + o.rel, post + o.post,
            arm + o.arm, closed + o.closed, pushGap + o.pushGap, popGap + o.popGap, taking + o.taking, wake + o.wake)
    }

    function Minus(o: Tally): Tally {
      Tally(refs - o.refs, token - o.token, chain - o.chain, watch - o.watch, rel - o.rel, post - o.post,
            arm - o.arm, closed - o.closed, pushGap - o.pushGap, popGap - o.popGap, taking - o.taking, wake - o.wake)
    }

    predicate Nothing() {
      && refs <= 0 && token <= 0 && chain <= 0 && watch <= 0 && rel <= 0 && post <= 0
      && arm <= 0 && closed <= 0 && pushGap <= 0 && popGap <= 0 && taking <= 0 && wake <= 0
    }

    /** No part is negative, and whoever holds a role also holds what the role requires. */
    predicate Natural() {
      && 0 <= token && 0 <= chain && 0 <= watch && 0 <= post && 0 <= arm && 0 <= closed
      && 0 <= pushGap && 0 <= popGap && 0 <= taking && 0 <= wake
      && token + chain + wake <= refs && pushGap <= wake && taking <= token
      && popGap <= taking + closed && post + arm + closed <= rel
    }
  }

  const ZERO := Tally(0, 0, 0, 0, 0, 0, 0, 0, 0, 0, 0, 0)
  const REF := ZERO.(refs := 1)

  function OfLock(pc: LockPc): Tally {
    match pc
    case LockId(_, _) | LockUndo(_) | Cutting(_) | Unlock(_) | WorkerDec => REF
    case MismatchCas(_) | ZeroCas => ZERO.(watch := 1)
    case Posting(_) => ZERO.(rel := 1, post := 1)
  }

  function OfPost(pc: PostPc): Tally {
    match pc
    case Pushing(_, _) => REF
    case Counting(_) => REF.(pushGap := 1, wake := 1)
    case SendCas(_) => REF.(wake := 1)
    case SendInc(_) => REF.(token := 1)
    case SendPqcs(_) => REF.(refs := 2, token := 1)
  }

  function OfRecv(pc: RecvPc): Tally {
    match pc
    case Accepting | AcceptCall | RecvArm | RecvInc | RecvCall | RecvFin | SelfLock => REF.(chain := 1)
    case RecvIssue | SelfCut => REF.(refs := 2, chain := 1)
    case IoLive(forRecv) => if forRecv then REF.(refs := 2, chain := 1) else REF.(refs := 2, token := 1)
    case SelfUnlock | IoDec => REF.(refs := 2)
  }

  function OfPump(pc: PumpPc): Tally {
    match pc
    case BatchFree | BatchSize | BatchAgain | FlagDrop | RetakeInc => REF.(token := 1)
    case Recheck | RecheckAgain | FlagRetake => REF.(wake := 1)
    case RetakePqcs => REF.(refs := 2, token := 1)
  }

  function OfIssue(pc: IssuePc): Tally {
    match pc
    case SendLive | SendIoInc => REF.(token := 1)
    case SendIssue => REF.(refs := 2, token := 1)
    case Take(_) => REF.(token := 1, taking := 1)
    case TakeCount(_) => REF.(token := 1, taking := 1, popGap := 1)
  }

  function OfRel(pc: RelPc): Tally {
    match pc
    case RelCall => ZERO.(rel := 1)
    case RelActive | RelDrain | RelBatch | RelReset => ZERO.(rel := 1, closed := 1)
    case RelDrainCount => ZERO.(rel := 1, closed := 1, popGap := 1)
    case RelPush => ZERO.(rel := 1)
    case ArmId | ArmIo => ZERO.(rel := 1, arm := 1)
  }

  function Of(a: Agent): (t: Tally)
    ensures t.Natural()
  {
    match a
    case Idle => ZERO
    case Locking(pc) => OfLock(pc)
    case InPost(pc) => OfPost(pc)
    case InRecv(pc) => OfRecv(pc)
    case InPump(pc) => OfPump(pc)
    case InIssue(pc) => OfIssue(pc)
    case InRelease(pc) => OfRel(pc)
  }

  function Tallies(agents: seq<Agent>): seq<Tally> {
    seq(|agents|, i requires 0 <= i < |agents| => Of(agents[i]))
  }

  function Sum(ts: seq<Tally>): Tally {
    if ts == [] then ZERO else ts[0].Plus(Sum(ts[1..]))
  }

  function Total(agents: seq<Agent>): Tally {
    Sum(Tallies(agents))
  }

  lemma {:induction false} SumUpdate(ts: seq<Tally>, i: nat, t: Tally)
    requires i < |ts|
    ensures Sum(ts[i := t]) == Sum(ts).Minus(ts[i]).Plus(t)
  {
    if i == 0 {
      assert ts[i := t][1..] == ts[1..];
    } else {
      SumUpdate(ts[1..], i - 1, t);
      assert ts[i := t][1..] == ts[1..][i - 1 := t];
    }
  }

  lemma {:induction false} SumNatural(ts: seq<Tally>)
    requires forall i :: 0 <= i < |ts| ==> ts[i].Natural()
    ensures Sum(ts).Natural()
  {
    if ts != [] {
      SumNatural(ts[1..]);
    }
  }

  /** When agent i moves on, the totals change by what it gained and gave up. */
  lemma TotalUpdate(agents: seq<Agent>, i: nat, a: Agent)
    requires i < |agents|
    ensures Total(agents[i := a]) == Total(agents).Minus(Of(agents[i])).Plus(Of(a))
  {
    hide Of;
    SumUpdate(Tallies(agents), i, Of(a));
    assert Tallies(agents[i := a]) == Tallies(agents)[i := Of(a)];
  }

  /** No two agents together hold more than the total. */
  lemma TotalBoundsPair(agents: seq<Agent>, i: nat, j: nat)
    requires i < |agents| && j < |agents| && i != j
    ensures Total(agents).Minus(Of(agents[i])).Minus(Of(agents[j])).Natural()
  {
    hide Of;
    var ts := Tallies(agents);
    SumUpdate(ts, i, ZERO);
    SumUpdate(ts[i := ZERO], j, ZERO);
    SumNatural(ts[i := ZERO][j := ZERO]);
  }

  lemma TotalsNatural(agents: seq<Agent>)
    ensures Total(agents).Natural()
  {
    hide Of;
    SumNatural(Tallies(agents));
  }

  lemma TotalBounds(agents: seq<Agent>, i: nat)
    requires i < |agents|
    ensures Total(agents).Minus(Of(agents[i])).Natural()
  {
    hide Of;
    var ts := Tallies(agents)[i := ZERO];
    SumUpdate(Tallies(agents), i, ZERO);
    assert forall k :: 0 <= k < |ts| && k != i ==> ts[k] == Of(agents[k]);
    SumNatural(ts);
  }

  /** A positive total has a holder. */
  lemma {:induction false} WatcherExists(agents: seq<Agent>) returns (i: nat)
    requires Total(agents).watch > 0
    ensures i < |agents| && Of(agents[i]).watch > 0
  {
    hide Of;
    assert Tallies(agents[1..]) == Tallies(agents)[1..];
    if Of(agents[0]).watch > 0 {
      i := 0;
    } else {
      i := WatcherExists(agents[1..]);
      i := i + 1;
    }
  }

  lemma {:induction false} WakerExists(agents: seq<Agent>) returns (i: nat)
    requires Total(agents).wake > 0
    ensures i < |agents| && Of(agents[i]).wake > 0
  {
    hide Of;
    assert Tallies(agents[1..]) == Tallies(agents)[1..];
    if Of(agents[0]).wake > 0 {
      i := 0;
    } else {
      i := WakerExists(agents[1..]);
      i := i + 1;
    }
  }

  lemma {:induction false} NoPopGap(agents: seq<Agent>)
    requires forall i {:trigger agents[i]} :: 0 <= i < |agents| ==> Of(agents[i]).popGap == 0
    ensures Total(agents).popGap == 0
  {
    hide Of;
    if agents != [] {
      assert Tallies(agents[1..]) == Tallies(agents)[1..];
      NoPopGap(agents[1..]);
    }
  }

  lemma {:induction false} SumNothing(ts: seq<Tally>)
    requires forall i :: 0 <= i < |ts| ==> ts[i].Nothing()
    ensures Sum(ts).Nothing()
  {
    if ts != [] {
      SumNothing(ts[1..]);
    }
  }

  lemma AllIdle(agents: seq<Agent>)
    requires forall i :: 0 <= i < |agents| ==> agents[i] == Idle
    ensures Total(agents).Nothing()
  {
    SumNothing(Tallies(agents));
  }
}

/** The invariant of one slot. */
module SessionInvariant {
  import opened Interlocked
  import opened SessionSlot
  import opened SessionTally

  function B(b: bool): int {
    if b then 1 else 0
  }

  /** References held by operations whose completion has not been picked up. */
  function PendingRefs(io: Io): int {
    B(io.acceptPending) + B(io.recvPending) + B(io.sendPending)
  }

  /** Bit 14 of mIOcnt is set (see Bit16). */
  predicate Released(io: Io) {
    io.count >= RELEASE_IOCOUNT
  }

  /** mIOcnt counts exactly the references, or the slot is released and nobody holds one. */
  ghost predicate CountInv(s: Slot, t: Tally) {
    var refs := t.refs + PendingRefs(s.io);
    var rel := t.rel + B(s.io.releasePosted);
    && 0 <= s.io.count < 2 * RELEASE_IOCOUNT
    && (!Released(s.io) ==> && s.io.count == refs
                            && s.past.phase == InUse
                            && s.past.armed
                            && rel == 0
                            && s.past.posts == 0
                            && (s.io.count == 0 ==> t.watch > 0))
    && (Released(s.io) ==> && refs == 0
                           && rel == B(s.past.phase == InUse || s.past.phase == Arming)
                           && s.past.posts == 1 - t.post
                           && (t.post > 0 || s.io.releasePosted ==> s.past.armed))
    && t.arm == B(s.past.phase == Arming)
  }

  /** The receive chain has one link at most, and the session is live only while it has one. */
  ghost predicate RecvInv(s: Slot, t: Tally) {
    var chain := t.chain + B(s.io.acceptPending) + B(s.io.recvPending);
    && chain <= 1
    && (chain == 0 ==> !s.io.live)
    && (Released(s.io) ==> chain == 0)
    && (s.io.acceptPending ==> !s.io.live && !s.accepted)
    && (s.io.recvPending ==> s.accepted)
  }

  /** The send token is unique, and a live session with something to send has someone to send it. */
  ghost predicate PumpInv(s: Slot, t: Tally) {
    var token := t.token + B(s.io.sendPending);
    && token <= B(s.out.flag)
    && (s.out.flag && token == 0 ==> !s.io.live)
    && (s.io.live && s.out.queue != [] && token == 0 ==> t.wake > 0)
  }

  /** Nothing of a previous session is left in the slot. */
  predicate Clean(s: Slot) {
    !s.out.flag && s.out.queue == [] && s.out.inflight == [] && s.out.cnt == 0
  }

  ghost predicate BoxInv(s: Slot, t: Tally) {
    && (!s.accepted ==> Clean(s))
    && (!s.out.flag ==> s.out.inflight == [] && s.out.cnt == 0)
    && (t.taking == 0 ==> s.out.cnt == |s.out.inflight|)
    && 0 <= s.out.size == |s.out.queue| - t.pushGap + t.popGap
    && (!Released(s.io) ==> (s.accepted <==> s.id in s.past.published))
    && (s.past.phase != InUse ==> !s.accepted && !s.past.armed)
    && !s.past.asserted
    && (forall m :: m in s.out.queue ==> m.owner == s.id)
    && (forall m :: m in s.out.inflight ==> m.owner == s.id)
  }

  /** Messages leave in the order they were pushed. */
  ghost predicate FifoInv(s: Slot) {
    !Released(s.io) ==>
      && s.past.log == s.past.freed + s.out.inflight + s.out.queue
      && s.past.wire <= s.past.freed + s.out.inflight
      && (!s.out.flag ==> s.past.wire == s.past.freed)
      && (s.io.sendPending ==> s.past.wire == s.past.freed + s.out.inflight)
  }

  /** The grammar of the callbacks of a slot: onAccept, any number of onRecv, onRelease, and again. */
  datatype Trace = Closed | Open(id: int) | Broken

  function Extend(t: Trace, c: Callback): Trace {
    match c
    case OnAccept(id) => if t == Closed then Open(id) else Broken
    case OnRecv(id) => if t == Open(id) then t else Broken
    case OnRelease(id) => if t == Open(id) then Closed else Broken
  }

  function Parse(calls: seq<Callback>): Trace {
    if calls == [] then Closed else Extend(Parse(calls[..|calls| - 1]), calls[|calls| - 1])
  }

  lemma ParseAppend(calls: seq<Callback>, c: Callback)
    ensures Parse(calls + [c]) == Extend(Parse(calls), c)
  {
    assert (calls + [c])[..|calls|] == calls;
  }

  ghost predicate TraceInv(s: Slot, t: Tally) {
    Parse(s.past.calls) == if s.accepted && t.closed == 0 then Open(s.id) else Closed
  }

  ghost predicate Shared(s: Slot, t: Tally) {
    CountInv(s, t) && RecvInv(s, t) && PumpInv(s, t) && BoxInv(s, t) && FifoInv(s) && TraceInv(s, t)
  }

  // ---- what each program point may rely on ----------------------------------------------------

  /** mSendOv is idle and everything that left the queue has gone to WSASend. */
  ghost predicate Rested(s: Slot) {
    s.out.flag && s.out.inflight == [] && s.out.cnt == 0 && s.past.wire == s.past.freed
  }

  ghost predicate LockOk(s: Slot, pc: LockPc) {
    match pc
    case LockId(id, w) => w.Send? ==> w.msg.owner == id && id in s.past.published
    case Cutting(id) => id == s.id
    case Unlock(id) => id == s.id
    case _ => true
  }

  ghost predicate PostOk(s: Slot, pc: PostPc) {
    && s.accepted
    && match pc
       case Pushing(id, m) => id == s.id && m.owner == id
       case Counting(id) => id == s.id
       case SendCas(id) => id == s.id
       case SendInc(id) => id == s.id && Rested(s)
       case SendPqcs(id) => id == s.id && Rested(s)
  }

  ghost predicate RecvOk(s: Slot, pc: RecvPc) {
    match pc
    case Accepting => !s.accepted && !s.io.live
    case AcceptCall => !s.accepted
    case RecvArm | RecvInc | RecvIssue | RecvCall | RecvFin | SelfLock | SelfCut => s.accepted
    case SelfUnlock | IoLive(_) | IoDec => true
  }

  /** Take(n) and TakeCount(n): n messages are wanted and the missing ones are in the queue;
      gap messages have left the queue but not mSenqQSize. */
  ghost predicate Filling(s: Slot, n: int, gap: int) {
    && |s.out.inflight| <= n == s.out.cnt
    && n - |s.out.inflight| <= |s.out.queue|
    && n - |s.out.inflight| + gap <= s.out.size
    && s.past.wire == s.past.freed
  }

  ghost predicate PumpOk(s: Slot, pc: PumpPc) {
    && s.accepted
    && match pc
       case BatchFree => s.past.wire == s.past.freed + s.out.inflight
       case BatchSize | BatchAgain | FlagDrop | RetakeInc | RetakePqcs => Rested(s)
       case Recheck | RecheckAgain | FlagRetake => true
  }

  ghost predicate IssueOk(s: Slot, pc: IssuePc) {
    && s.accepted
    && match pc
       case Take(n) => Filling(s, n, 0) && |s.out.inflight| < n
       case TakeCount(n) => Filling(s, n, 1)
       case SendLive | SendIoInc | SendIssue => s.past.wire == s.past.freed
  }

  ghost predicate RelOk(s: Slot, pc: RelPc) {
    match pc
    case RelCall | RelActive => s.past.phase == InUse && s.past.armed
    case RelDrain | RelDrainCount => s.past.phase == InUse && !s.past.armed
    case RelBatch => s.past.phase == InUse && !s.past.armed && s.out.queue == []
    case RelReset =>
      s.past.phase == InUse && !s.past.armed && s.out.queue == [] && s.out.inflight == [] && s.out.cnt == 0
    case RelPush => s.past.phase == InUse && !s.past.armed && !s.accepted
    case ArmId => s.past.phase == Arming
    case ArmIo => s.past.phase == Arming && s.id !in s.past.published
  }

  ghost predicate AgentOk(s: Slot, g: Agent) {
    match g
    case Idle => true
    case Locking(pc) => LockOk(s, pc)
    case InPost(pc) => PostOk(s, pc)
    case InRecv(pc) => RecvOk(s, pc)
    case InPump(pc) => PumpOk(s, pc)
    case InIssue(pc) => IssueOk(s, pc)
    case InRelease(pc) => RelOk(s, pc)
  }

  ghost predicate Inv(x: State) {
    && Shared(x.slot, Total(x.agents))
    && forall i :: 0 <= i < |x.agents| ==> AgentOk(x.slot, x.agents[i])
  }

  /** The totals once an agent has gone from g to h. */
  function After(t: Tally, g: Agent, h: Agent): Tally {
    t.Minus(Of(g)).Plus(Of(h))
  }

  /** An agent at g in a slot whose totals are t. */
  ghost predicate Ready(s: Slot, g: Agent, t: Tally) {
    Shared(s, t) && AgentOk(s, g) && t.Natural() && t.Minus(Of(g)).Natural()
  }
}

/** Rules for keeping each part of the invariant, in terms of what a step changed. */
module SessionRules {
  import opened Interlocked
  import opened SessionSlot
  import opened SessionTally
  import opened SessionInvariant

  /** The counter arithmetic, for values that keep bit 15 clear. */
  lemma Inc16(v: int)
    requires 0 <= v < 0x8000 && Room(v)
    ensures Wrap16(v + 1) == v + 1 < 0x8000
    ensures ReleaseBit(v + 1) <==> v >= RELEASE_IOCOUNT
    ensures v + 1 >= RELEASE_IOCOUNT <==> v >= RELEASE_IOCOUNT
  {
    assert v != 0x3FFF && v != 0x7FFF;
  }

  lemma Dec16(v: int)
    requires 0 < v < 0x8000
    ensures Wrap16(v - 1) == v - 1
  {
  }

  /** The past fields that CountInv reads are the same. */
  predicate SameEpoch(p: Past, q: Past) {
    p.phase == q.phase && p.armed == q.armed && p.posts == q.posts
  }

  // ---- CountInv ---------------------------------------------------------------------------

  /** References and the release change hands, the counter stays. */
  lemma CountsHandOver(s: Slot, t: Tally, r: Slot, u: Tally)
    requires CountInv(s, t) && SameEpoch(s.past, r.past)
    requires r.io.count == s.io.count
    requires u.refs + PendingRefs(r.io) == t.refs + PendingRefs(s.io)
    requires u.rel + B(r.io.releasePosted) == t.rel + B(s.io.releasePosted)
    requires r.io.releasePosted ==> s.io.releasePosted
    requires u.watch >= t.watch && u.post == t.post && u.arm == t.arm
    ensures CountInv(r, u)
  {
  }

  /** A reference is taken while the release bit is clear. */
  lemma CountsInc(s: Slot, t: Tally, r: Slot, u: Tally)
    requires CountInv(s, t) && t.Natural() && !Released(s.io) && Room(s.io.count)
    requires SameEpoch(s.past, r.past) && r.io == Inc(s.io)
    requires u.refs == t.refs + 1 && u.rel == t.rel && u.watch == t.watch && u.post == t.post && u.arm == t.arm
    ensures CountInv(r, u) && !Released(r.io)
  {
    hide Wrap16, ReleaseBit, Room;
    Inc16(s.io.count);
  }

  /** A lock is refused: the count of a released slot goes up and nobody holds the reference. */
  lemma CountsRefused(s: Slot, t: Tally, r: Slot, u: Tally)
    requires CountInv(s, t) && Released(s.io) && Room(s.io.count)
    requires SameEpoch(s.past, r.past) && r.io == Inc(s.io) && u == t
    ensures CountInv(r, u) && Released(r.io)
  {
    hide Wrap16, ReleaseBit, Room;
    Inc16(s.io.count);
  }

  /** A thread that holds two references drops one. */
  lemma CountsDecKept(s: Slot, t: Tally, r: Slot, u: Tally)
    requires CountInv(s, t) && t.Natural() && t.refs > 1 && r.past == s.past
    requires Dec(s.io).count != 0 ==> r.io == Dec(s.io) && u.refs == t.refs - 1 && u.rel == t.rel && u.post == t.post
                                      && u.arm == t.arm && u.watch >= t.watch
    ensures CountInv(r, u) && !Released(r.io) && Dec(s.io).count > 0
  {
    hide Wrap16;
    Dec16(s.io.count);
  }

  lemma CountsHolder(s: Slot, t: Tally)
    requires CountInv(s, t) && t.Natural() && t.refs > 0
    ensures !Released(s.io) && t.rel == 0 && s.past.phase == InUse && s.io.count == t.refs + PendingRefs(s.io)
  {
  }

  /** A reference is dropped; whoever brings the count to zero goes on to the compare-exchange. */
  lemma CountsDec(s: Slot, t: Tally, r: Slot, u: Tally)
    requires CountInv(s, t) && t.Natural() && t.refs > 0
    requires r.past == s.past && r.io == Dec(s.io)
    requires u.refs == t.refs - 1 && u.rel == t.rel && u.post == t.post && u.arm == t.arm
    requires u.watch >= t.watch && (r.io.count == 0 ==> u.watch > 0)
    ensures CountInv(r, u) && !Released(r.io) && !Released(s.io) && r.io.count == s.io.count - 1
  {
    hide Wrap16;
    Dec16(s.io.count);
  }

  /** The compare-exchange succeeds: the winner owes one post. */
  lemma CountsRelease(s: Slot, t: Tally, r: Slot, u: Tally)
    requires CountInv(s, t) && t.Natural() && s.io.count == 0
    requires SameEpoch(s.past, r.past) && r.io == s.io.(count := RELEASE_IOCOUNT)
    requires u.refs == t.refs && u.rel == t.rel + 1 && u.post == t.post + 1 && u.arm == t.arm
    ensures CountInv(r, u) && t.refs + PendingRefs(s.io) == 0 && !Released(s.io)
  {
  }

  lemma CountsGiveUp(s: Slot, t: Tally, r: Slot, u: Tally)
    requires CountInv(s, t) && s.io.count != 0
    requires SameEpoch(s.past, r.past) && r.io == s.io
    requires u.refs == t.refs && u.rel == t.rel && u.post == t.post && u.arm == t.arm
    ensures CountInv(r, u)
  {
  }

  lemma CountsPost(s: Slot, t: Tally, r: Slot, u: Tally)
    requires CountInv(s, t) && t.Natural() && t.post > 0
    requires r.past.phase == s.past.phase && r.past.armed == s.past.armed && r.past.posts == s.past.posts + 1
    requires r.io == s.io.(releasePosted := true)
    requires u.refs == t.refs && u.rel == t.rel - 1 && u.post == t.post - 1 && u.arm == t.arm
    ensures CountInv(r, u) && Released(s.io)
  {
  }

  /** Somebody is in the middle of a release. */
  lemma CountsInRelease(s: Slot, t: Tally)
    requires CountInv(s, t) && t.Natural() && t.rel > 0
    ensures Released(s.io) && t.refs == 0 && PendingRefs(s.io) == 0 && !s.io.releasePosted && t.rel == 1
    ensures s.past.phase == InUse || s.past.phase == Arming
  {
  }

  /** The release goes on without touching what CountInv reads, except mActiveSlotCnt. */
  lemma CountsWork(s: Slot, t: Tally, r: Slot, u: Tally)
    requires CountInv(s, t) && t.Natural() && t.rel > 0 && t.post == 0
    requires r.io == s.io && r.past.phase == s.past.phase && r.past.posts == s.past.posts
    requires u.refs == t.refs && u.rel == t.rel && u.post == t.post && u.arm == t.arm
    ensures CountInv(r, u)
  {
  }

  /** The slot leaves service. */
  lemma CountsPark(s: Slot, t: Tally, r: Slot, u: Tally)
    requires CountInv(s, t) && t.Natural() && t.rel > 0 && t.post == 0
    requires r.io == s.io && r.past.phase == InStack && r.past.posts == s.past.posts
    requires u.refs == t.refs && u.rel == t.rel - 1 && u.post == t.post && u.arm == 0
    ensures CountInv(r, u)
  {
  }

  /** The slot is armed again: AcceptEx is outstanding and mIOcnt is 1. */
  lemma CountsArm(s: Slot, t: Tally, r: Slot, u: Tally)
    requires CountInv(s, t) && t.Natural() && t.arm > 0
    requires r.io == s.io.(count := 1, acceptPending := true)
    requires r.past.phase == InUse && r.past.posts == 0 && r.past.armed
    requires u.refs == t.refs && u.rel == t.rel - 1 && u.post == t.post && u.arm == t.arm - 1
    ensures CountInv(r, u)
  {
  }

  // ---- the other parts ----------------------------------------------------------------------

  function Chain(io: Io, t: Tally): int {
    t.chain + B(io.acceptPending) + B(io.recvPending)
  }

  function Token(io: Io, t: Tally): int {
    t.token + B(io.sendPending)
  }

  /** The receive chain passes on, or ends once mLive is clear. */
  lemma RecvKeeps(s: Slot, t: Tally, r: Slot, u: Tally)
    requires RecvInv(s, t) && u.Natural()
    requires Chain(r.io, u) <= Chain(s.io, t)
    requires Chain(r.io, u) < Chain(s.io, t) ==> !r.io.live
    requires r.io.live ==> s.io.live
    requires Released(r.io) ==> Released(s.io) || Chain(s.io, t) == 0
    requires r.io.acceptPending ==> s.io.acceptPending && r.accepted == s.accepted
    requires r.io.recvPending ==> (s.io.recvPending && r.accepted == s.accepted) || r.accepted
    ensures RecvInv(r, u)
  {
  }

  lemma ChainHolder(s: Slot, t: Tally)
    requires RecvInv(s, t)
    ensures t.chain > 0 ==> !s.io.acceptPending && !s.io.recvPending && t.chain == 1
  {
  }

  lemma TokenHolder(s: Slot, t: Tally)
    requires PumpInv(s, t) && t.Natural()
    ensures t.token > 0 ==> s.out.flag && !s.io.sendPending && t.token == 1
  {
  }

  lemma PumpKeeps(s: Slot, t: Tally, r: Slot, u: Tally)
    requires PumpInv(s, t)
    requires r.out.flag == s.out.flag && r.out.queue == s.out.queue
    requires Token(r.io, u) == Token(s.io, t)
    requires r.io.live ==> s.io.live && u.wake >= t.wake
    ensures PumpInv(r, u)
  {
  }

  predicate SameGaps(t: Tally, u: Tally) {
    t.taking == u.taking && t.pushGap == u.pushGap && t.popGap == u.popGap
  }

  lemma BoxKeeps(s: Slot, t: Tally, r: Slot, u: Tally)
    requires BoxInv(s, t) && SameGaps(t, u)
    requires r.out == s.out && r.id == s.id && r.accepted == s.accepted
    requires r.past.published == s.past.published && r.past.asserted == s.past.asserted
               && r.past.phase == s.past.phase && r.past.armed == s.past.armed
    requires !Released(r.io) ==> !Released(s.io)
    ensures BoxInv(r, u)
  {
  }

  lemma FifoKeeps(s: Slot, r: Slot)
    requires FifoInv(s)
    requires !Released(r.io) ==> !Released(s.io)
    requires r.out.flag == s.out.flag && r.out.queue == s.out.queue && r.out.inflight == s.out.inflight
    requires r.past.log == s.past.log && r.past.freed == s.past.freed && r.past.wire == s.past.wire
    requires r.io.sendPending ==> s.io.sendPending || s.past.wire == s.past.freed + s.out.inflight
    ensures FifoInv(r)
  {
  }

  lemma TraceKeeps(s: Slot, t: Tally, r: Slot, u: Tally)
    requires TraceInv(s, t) && r.past.calls == s.past.calls && r.accepted == s.accepted && r.id == s.id
    requires u.closed == t.closed
    ensures TraceInv(r, u)
  {
  }

  /** A step that touches neither the send side nor the history that goes with it. */
  predicate Aside(s: Slot, t: Tally, r: Slot, u: Tally) {
    && r.out == s.out && r.id == s.id && r.accepted == s.accepted
    && r.past.published == s.past.published && r.past.asserted == s.past.asserted && r.past.phase == s.past.phase
         && r.past.armed == s.past.armed
    && r.past.log == s.past.log && r.past.freed == s.past.freed && r.past.wire == s.past.wire
    && r.past.calls == s.past.calls
    && SameGaps(t, u) && u.closed == t.closed
    && (!Released(r.io) ==> !Released(s.io))
    && Token(r.io, u) == Token(s.io, t)
    && (r.io.live ==> s.io.live && u.wake >= t.wake)
    && (r.io.sendPending ==> s.io.sendPending || s.past.wire == s.past.freed + s.out.inflight)
  }

  lemma AsideKeeps(s: Slot, t: Tally, r: Slot, u: Tally)
    requires PumpInv(s, t) && BoxInv(s, t) && FifoInv(s) && TraceInv(s, t) && Aside(s, t, r, u)
    ensures PumpInv(r, u) && BoxInv(r, u) && FifoInv(r) && TraceInv(r, u)
  {
    PumpKeeps(s, t, r, u);
    BoxKeeps(s, t, r, u);
    FifoKeeps(s, r);
    TraceKeeps(s, t, r, u);
  }
}

/** Every step keeps the invariant. */
module SessionSteps {
  import opened Interlocked
  import opened SessionSlot
  import opened SessionTally
  import opened SessionInvariant
  import opened SessionRules

  // ---- sessionLock, sessionUnLock, end of the worker loop -------------------------------------

  lemma LockStepCounts(s: Slot, pc: LockPc, t: Tally)
    requires Ready(s, Locking(pc), t)
    ensures var r := LockStep(s, pc); var u := After(t, Locking(pc), r.next);
      && CountInv(r.slot, u)
      && (!Released(r.slot.io) ==> !Released(s.io))
      && (Released(r.slot.io) ==> Released(s.io) || Chain(s.io, t) == 0)
  {
    hide Wrap16, ReleaseBit, CountInv, RecvInv, PumpInv, BoxInv, FifoInv, TraceInv, AgentOk;
    var r := LockStep(s, pc);
    var u := After(t, Locking(pc), r.next);
    if pc.MismatchCas? || pc.ZeroCas? {
      CasCounts(s, pc, t);
    } else if pc.LockUndo? || pc.Unlock? || pc.WorkerDec? {
      CountsDec(s, t, r.slot, u);
    } else if pc.Posting? {
      CountsPost(s, t, r.slot, u);
    } else {
      CountsHandOver(s, t, r.slot, u);
    }
  }

  lemma CasCounts(s: Slot, pc: LockPc, t: Tally)
    requires Ready(s, Locking(pc), t) && (pc.MismatchCas? || pc.ZeroCas?)
    ensures var r := LockStep(s, pc); var u := After(t, Locking(pc), r.next);
      && CountInv(r.slot, u)
      && (!Released(r.slot.io) ==> !Released(s.io))
      && (Released(r.slot.io) ==> Released(s.io) || Chain(s.io, t) == 0)
  {
    hide Wrap16, ReleaseBit, CountInv, RecvInv, PumpInv, BoxInv, FifoInv, TraceInv, AgentOk;
    var r := LockStep(s, pc);
    var u := After(t, Locking(pc), r.next);
    if s.io.count == 0 { CountsRelease(s, t, r.slot, u); } else { CountsGiveUp(s, t, r.slot, u); }
  }

  lemma LockStepRecv(s: Slot, pc: LockPc, t: Tally)
    requires Ready(s, Locking(pc), t)
    ensures var r := LockStep(s, pc); RecvInv(r.slot, After(t, Locking(pc), r.next))
  {
    hide Wrap16, ReleaseBit, CountInv, RecvInv, PumpInv, BoxInv, FifoInv, TraceInv, AgentOk;
    var r := LockStep(s, pc);
    LockStepCounts(s, pc, t);
    RecvKeeps(s, t, r.slot, After(t, Locking(pc), r.next));
  }

  lemma LockStepAside(s: Slot, pc: LockPc, t: Tally)
    requires Ready(s, Locking(pc), t)
    ensures var r := LockStep(s, pc); var u := After(t, Locking(pc), r.next);
      PumpInv(r.slot, u) && BoxInv(r.slot, u) && FifoInv(r.slot) && TraceInv(r.slot, u)
  {
    hide Wrap16, ReleaseBit, CountInv, RecvInv, PumpInv, BoxInv, FifoInv, TraceInv, AgentOk, Aside, After;
    var r := LockStep(s, pc);
    LockStepCounts(s, pc, t);
    LockIsAside(s, pc, t);
    hide LockStep;
    AsideKeeps(s, t, r.slot, After(t, Locking(pc), r.next));
  }

  lemma LockIsAside(s: Slot, pc: LockPc, t: Tally)
    requires !Released(LockStep(s, pc).slot.io) ==> !Released(s.io)
    ensures var r := LockStep(s, pc); Aside(s, t, r.slot, After(t, Locking(pc), r.next))
  {
    hide Wrap16, ReleaseBit, Released, Aside, After;
    if pc.MismatchCas? || pc.Posting? || pc.ZeroCas? { ReleasingIsAside(s, pc, t); } else { LockingIsAside(s, pc, t); }
  }

  lemma ReleasingIsAside(s: Slot, pc: LockPc, t: Tally)
    requires pc.MismatchCas? || pc.Posting? || pc.ZeroCas?
    requires !Released(LockStep(s, pc).slot.io) ==> !Released(s.io)
    ensures var r := LockStep(s, pc); Aside(s, t, r.slot, After(t, Locking(pc), r.next))
  {
    hide Wrap16, ReleaseBit, Released;
  }

  lemma LockingIsAside(s: Slot, pc: LockPc, t: Tally)
    requires !(pc.MismatchCas? || pc.Posting? || pc.ZeroCas?)
    requires !Released(LockStep(s, pc).slot.io) ==> !Released(s.io)
    ensures var r := LockStep(s, pc); Aside(s, t, r.slot, After(t, Locking(pc), r.next))
  {
    hide Wrap16, ReleaseBit, Released;
  }

  lemma LockStepMover(s: Slot, pc: LockPc, t: Tally)
    requires Ready(s, Locking(pc), t)
    ensures var r := LockStep(s, pc); AgentOk(r.slot, r.next)
  {
    hide Wrap16, ReleaseBit, CountInv, RecvInv, PumpInv, FifoInv, TraceInv;
    if pc.LockId? { CountsHolder(s, t); }
  }

  // ---- sendPost ------------------------------------------------------------------------------

  lemma PostStepCounts(s: Slot, pc: PostPc, t: Tally)
    requires Ready(s, InPost(pc), t) && PostStep(s, pc).Moved?
    ensures var r := PostStep(s, pc); var u := After(t, InPost(pc), r.next);
      && CountInv(r.slot, u) && RecvInv(r.slot, u) && TraceInv(r.slot, u)
      && !Released(r.slot.io) && !Released(s.io)
  {
    hide Wrap16, ReleaseBit, CountInv, RecvInv, BoxInv, FifoInv, TraceInv, AgentOk;
    if pc.SendInc? { PostIncCounts(s, pc, t); } else { PostHandsOver(s, pc, t); }
    PostStepTrace(s, pc, t);
  }

  lemma PostIncCounts(s: Slot, pc: PostPc, t: Tally)
    requires Ready(s, InPost(pc), t) && PostStep(s, pc).Moved? && pc.SendInc?
    ensures var r := PostStep(s, pc); var u := After(t, InPost(pc), r.next);
      CountInv(r.slot, u) && RecvInv(r.slot, u) && !Released(r.slot.io) && !Released(s.io)
  {
    hide Wrap16, ReleaseBit, Room, CountInv, RecvInv, PumpInv, BoxInv, FifoInv, TraceInv, AgentOk;
    var r := PostStep(s, pc);
    var u := After(t, InPost(pc), r.next);
    CountsHolder(s, t);
    CountsInc(s, t, r.slot, u);
    RecvKeeps(s, t, r.slot, u);
  }

  lemma PostHandsOver(s: Slot, pc: PostPc, t: Tally)
    requires Ready(s, InPost(pc), t) && PostStep(s, pc).Moved? && !pc.SendInc?
    ensures var r := PostStep(s, pc); var u := After(t, InPost(pc), r.next);
      CountInv(r.slot, u) && RecvInv(r.slot, u) && !Released(r.slot.io) && !Released(s.io)
  {
    hide Wrap16, ReleaseBit, Room, Inc, CountInv, RecvInv, BoxInv, FifoInv, TraceInv, AgentOk;
    var r := PostStep(s, pc);
    var u := After(t, InPost(pc), r.next);
    CountsHolder(s, t);
    CountsHandOver(s, t, r.slot, u);
    RecvKeeps(s, t, r.slot, u);
  }

  lemma PostStepTrace(s: Slot, pc: PostPc, t: Tally)
    requires Ready(s, InPost(pc), t) && PostStep(s, pc).Moved?
    ensures var r := PostStep(s, pc); TraceInv(r.slot, After(t, InPost(pc), r.next))
  {
    hide Wrap16, ReleaseBit, Room, Inc, CountInv, RecvInv, PumpInv, BoxInv, FifoInv, TraceInv, AgentOk;
    var r := PostStep(s, pc);
    TraceKeeps(s, t, r.slot, After(t, InPost(pc), r.next));
  }

  lemma PostStepPump(s: Slot, pc: PostPc, t: Tally)
    requires Ready(s, InPost(pc), t) && PostStep(s, pc).Moved?
    ensures var r := PostStep(s, pc); PumpInv(r.slot, After(t, InPost(pc), r.next))
  {
    hide Wrap16, ReleaseBit, CountInv, RecvInv, BoxInv, FifoInv, TraceInv, AgentOk;
  }

  lemma PostStepBox(s: Slot, pc: PostPc, t: Tally)
    requires Ready(s, InPost(pc), t) && PostStep(s, pc).Moved?
    ensures var r := PostStep(s, pc); BoxInv(r.slot, After(t, InPost(pc), r.next)) && FifoInv(r.slot)
  {
    hide Wrap16, ReleaseBit, CountInv, RecvInv, PumpInv, TraceInv;
    PostStepCounts(s, pc, t);
  }

  lemma PostStepMover(s: Slot, pc: PostPc, t: Tally)
    requires Ready(s, InPost(pc), t) && PostStep(s, pc).Moved?
    ensures var r := PostStep(s, pc); AgentOk(r.slot, r.next)
  {
    hide Wrap16, ReleaseBit, CountInv, RecvInv, TraceInv, PumpInv;
    CountsHolder(s, t);
  }

  // ---- completeAcceptEx, registerRecv, completeRecv, checkAndHandleIoError --------------------

  predicate MovesCount(pc: RecvPc) {
    pc.RecvInc? || pc.SelfLock? || pc.SelfUnlock? || pc.IoDec?
  }

  lemma RecvStepCountMoves(s: Slot, pc: RecvPc, a: Act, t: Tally)
    requires Ready(s, InRecv(pc), t) && RecvStep(s, pc, a).Moved? && MovesCount(pc)
    ensures var r := RecvStep(s, pc, a); var u := After(t, InRecv(pc), r.next);
      CountInv(r.slot, u) && !Released(r.slot.io)
  {
    hide Wrap16, Room, CountInv, RecvInv, PumpInv, BoxInv, FifoInv, TraceInv, AgentOk, ReleaseBit;
    var r := RecvStep(s, pc, a);
    var u := After(t, InRecv(pc), r.next);
    CountsHolder(s, t);
    if pc.RecvInc? {
      CountsInc(s, t, r.slot, u);
    } else if pc.SelfLock? {
      NotReleasedAfterInc(s, t);
      CountsInc(s, t, r.slot, u);
    } else {
      CountsDecKept(s, t, r.slot, u);
    }
  }

  lemma RecvStepCounts(s: Slot, pc: RecvPc, a: Act, t: Tally)
    requires Ready(s, InRecv(pc), t) && RecvStep(s, pc, a).Moved?
    ensures var r := RecvStep(s, pc, a); var u := After(t, InRecv(pc), r.next);
      CountInv(r.slot, u) && !Released(r.slot.io) && !Released(s.io)
  {
    hide Wrap16, Room, CountInv, RecvInv, PumpInv, BoxInv, FifoInv, TraceInv, AgentOk, ReleaseBit;
    CountsHolder(s, t);
    hide RecvStep, After;
    if MovesCount(pc) { RecvStepCountMoves(s, pc, a, t); } else { RecvStepHandsOver(s, pc, a, t); }
  }

  lemma RecvStepHandsOver(s: Slot, pc: RecvPc, a: Act, t: Tally)
    requires Ready(s, InRecv(pc), t) && RecvStep(s, pc, a).Moved? && !MovesCount(pc)
    ensures var r := RecvStep(s, pc, a);
      CountInv(r.slot, After(t, InRecv(pc), r.next)) && Released(r.slot.io) == Released(s.io)
  {
    hide Wrap16, Room, CountInv, RecvInv, PumpInv, BoxInv, FifoInv, TraceInv, AgentOk, ReleaseBit;
    hide Inc;
    if pc.RecvIssue? { RecvIssueHandsOver(s, a, t); } else {
      var r := RecvStep(s, pc, a);
      CountsHolder(s, t);
      CountsHandOver(s, t, r.slot, After(t, InRecv(pc), r.next));
    }
  }

  lemma RecvIssueHandsOver(s: Slot, a: Act, t: Tally)
    requires Ready(s, InRecv(RecvIssue), t)
    ensures var r := RecvStep(s, RecvIssue, a);
      CountInv(r.slot, After(t, InRecv(RecvIssue), r.next)) && Released(r.slot.io) == Released(s.io)
  {
    hide Wrap16, Room, CountInv, RecvInv, PumpInv, BoxInv, FifoInv, TraceInv, AgentOk, ReleaseBit;
    CountsHolder(s, t);
    ChainHolder(s, t);
    var r := RecvStep(s, RecvIssue, a);
    CountsHandOver(s, t, r.slot, After(t, InRecv(RecvIssue), r.next));
  }

  /** A worker that locks its own session is never refused. */
  lemma NotReleasedAfterInc(s: Slot, t: Tally)
    requires CountInv(s, t) && t.Natural() && t.refs > 0 && Room(s.io.count)
    ensures !ReleaseBit(Inc(s.io).count)
  {
    Inc16(s.io.count);
  }

  lemma RecvStepRecv(s: Slot, pc: RecvPc, a: Act, t: Tally)
    requires Ready(s, InRecv(pc), t) && RecvStep(s, pc, a).Moved?
    ensures var r := RecvStep(s, pc, a); RecvInv(r.slot, After(t, InRecv(pc), r.next))
  {
    hide Wrap16, ReleaseBit, CountInv, PumpInv, BoxInv, FifoInv, TraceInv, Room;
    RecvStepCounts(s, pc, a, t);
    if pc.SelfLock? { NotReleasedAfterInc(s, t); }
  }

  lemma RecvStepPump(s: Slot, pc: RecvPc, a: Act, t: Tally)
    requires Ready(s, InRecv(pc), t) && RecvStep(s, pc, a).Moved?
    ensures var r := RecvStep(s, pc, a); PumpInv(r.slot, After(t, InRecv(pc), r.next))
  {
    hide Wrap16, ReleaseBit, CountInv, RecvInv, FifoInv, TraceInv, Room;
    if pc.SelfLock? { NotReleasedAfterInc(s, t); }
    if pc.SelfUnlock? { RecvStepCounts(s, pc, a, t); }
  }

  lemma RecvStepBox(s: Slot, pc: RecvPc, a: Act, t: Tally)
    requires Ready(s, InRecv(pc), t) && RecvStep(s, pc, a).Moved?
    ensures var r := RecvStep(s, pc, a); BoxInv(r.slot, After(t, InRecv(pc), r.next)) && FifoInv(r.slot)
  {
    hide Wrap16, ReleaseBit, CountInv, RecvInv, PumpInv, TraceInv, Room, BoxInv, FifoInv;
    RecvStepCounts(s, pc, a, t);
    var r := RecvStep(s, pc, a);
    FifoKeeps(s, r.slot);
    if pc.AcceptCall? {
      AcceptBox(s, t);
    } else {
      hide AgentOk;
      BoxKeeps(s, t, r.slot, After(t, InRecv(pc), r.next));
    }
  }

  lemma AcceptBox(s: Slot, t: Tally)
    requires Ready(s, InRecv(AcceptCall), t)
    ensures var r := RecvStep(s, AcceptCall, Go); BoxInv(r.slot, After(t, InRecv(AcceptCall), r.next))
    ensures RecvStep(s, AcceptCall, Go).slot.past.asserted == s.past.asserted
  {
    hide Wrap16, ReleaseBit, CountInv, RecvInv, PumpInv, TraceInv, Room, FifoInv;
    CountsHolder(s, t);
    RecvStepCounts(s, AcceptCall, Go, t);
  }

  lemma RecvStepTrace(s: Slot, pc: RecvPc, a: Act, t: Tally)
    requires Ready(s, InRecv(pc), t) && RecvStep(s, pc, a).Moved?
    ensures var r := RecvStep(s, pc, a); TraceInv(r.slot, After(t, InRecv(pc), r.next))
  {
    hide Wrap16, ReleaseBit, CountInv, RecvInv, PumpInv, BoxInv, FifoInv, Room, Parse;
    CountsHolder(s, t);
    ParseAppend(s.past.calls, OnAccept(s.id));
    ParseAppend(s.past.calls, OnRecv(s.id));
  }

  lemma RecvStepMover(s: Slot, pc: RecvPc, a: Act, t: Tally)
    requires Ready(s, InRecv(pc), t) && RecvStep(s, pc, a).Moved?
    ensures var r := RecvStep(s, pc, a); AgentOk(r.slot, r.next)
  {
    hide Wrap16, ReleaseBit, CountInv, RecvInv, PumpInv, BoxInv, FifoInv, TraceInv, Room;
  }

  // ---- completeSend, registerSend -------------------------------------------------------------

  lemma PumpStepCounts(s: Slot, pc: PumpPc, t: Tally)
    requires Ready(s, InPump(pc), t) && PumpStep(s, pc).Moved?
    ensures var r := PumpStep(s, pc); var u := After(t, InPump(pc), r.next);
      CountInv(r.slot, u) && !Released(r.slot.io) && !Released(s.io)
  {
    hide Wrap16, ReleaseBit, Room, CountInv, RecvInv, PumpInv, BoxInv, FifoInv, TraceInv, AgentOk;
    var r := PumpStep(s, pc);
    var u := After(t, InPump(pc), r.next);
    CountsHolder(s, t);
    TokenHolder(s, t);
    if pc.RetakeInc? { CountsInc(s, t, r.slot, u); } else { CountsHandOver(s, t, r.slot, u); }
  }

  lemma PumpStepRecv(s: Slot, pc: PumpPc, t: Tally)
    requires Ready(s, InPump(pc), t) && PumpStep(s, pc).Moved?
    ensures var r := PumpStep(s, pc); var u := After(t, InPump(pc), r.next);
      RecvInv(r.slot, u) && TraceInv(r.slot, u)
  {
    hide Wrap16, ReleaseBit, Room, CountInv, RecvInv, PumpInv, BoxInv, FifoInv, TraceInv, AgentOk;
    var r := PumpStep(s, pc);
    var u := After(t, InPump(pc), r.next);
    PumpStepCounts(s, pc, t);
    RecvKeeps(s, t, r.slot, u);
    TraceKeeps(s, t, r.slot, u);
  }

  lemma PumpStepPump(s: Slot, pc: PumpPc, t: Tally)
    requires Ready(s, InPump(pc), t) && PumpStep(s, pc).Moved?
    ensures var r := PumpStep(s, pc); PumpInv(r.slot, After(t, InPump(pc), r.next))
  {
    hide Wrap16, ReleaseBit, Room, CountInv, RecvInv, FifoInv, TraceInv;
    CountsHolder(s, t);
  }

  lemma PumpStepBox(s: Slot, pc: PumpPc, t: Tally)
    requires Ready(s, InPump(pc), t) && PumpStep(s, pc).Moved?
    ensures var r := PumpStep(s, pc); BoxInv(r.slot, After(t, InPump(pc), r.next))
  {
    hide Wrap16, ReleaseBit, Room, CountInv, RecvInv, FifoInv, TraceInv;
    PumpStepCounts(s, pc, t);
  }

  lemma PumpStepFifo(s: Slot, pc: PumpPc, t: Tally)
    requires Ready(s, InPump(pc), t) && PumpStep(s, pc).Moved?
    ensures FifoInv(PumpStep(s, pc).slot)
  {
    hide Wrap16, ReleaseBit, Room, CountInv, RecvInv, PumpInv, TraceInv, FifoInv;
    PumpStepCounts(s, pc, t);
    PumpTokenSet(s, pc, t);
    PumpFifo(s, pc);
  }

  /** What the pump's own steps need of the send side. */
  lemma PumpTokenSet(s: Slot, pc: PumpPc, t: Tally)
    requires Ready(s, InPump(pc), t)
    ensures pc.BatchFree? ==> s.out.flag && s.out.cnt == |s.out.inflight|
    ensures pc != Recheck && pc != RecheckAgain && pc != FlagRetake ==> !s.io.sendPending
  {
    hide Wrap16, ReleaseBit, Room, CountInv, RecvInv, TraceInv, FifoInv;
  }

  lemma PumpFifo(s: Slot, pc: PumpPc)
    requires FifoInv(s) && PumpOk(s, pc) && PumpStep(s, pc).Moved? && !Released(s.io)
    requires pc.BatchFree? ==> s.out.flag && s.out.cnt == |s.out.inflight|
    requires pc != Recheck && pc != RecheckAgain && pc != FlagRetake ==> !s.io.sendPending
    ensures FifoInv(PumpStep(s, pc).slot)
  {
    hide Wrap16, ReleaseBit, Room, Released;
  }

  lemma PumpStepMover(s: Slot, pc: PumpPc, t: Tally)
    requires Ready(s, InPump(pc), t) && PumpStep(s, pc).Moved?
    ensures var r := PumpStep(s, pc); AgentOk(r.slot, r.next)
  {
    hide Wrap16, ReleaseBit, Room, CountInv, RecvInv, TraceInv;
    CountsHolder(s, t);
  }

  lemma IssueStepCounts(s: Slot, pc: IssuePc, a: Act, t: Tally)
    requires Ready(s, InIssue(pc), t) && IssueStep(s, pc, a).Moved?
    ensures var r := IssueStep(s, pc, a); var u := After(t, InIssue(pc), r.next);
      CountInv(r.slot, u) && !Released(r.slot.io) && !Released(s.io)
  {
    hide Wrap16, ReleaseBit, Room, CountInv, RecvInv, PumpInv, BoxInv, FifoInv, TraceInv, AgentOk;
    var r := IssueStep(s, pc, a);
    var u := After(t, InIssue(pc), r.next);
    CountsHolder(s, t);
    TokenHolder(s, t);
    if pc.SendIoInc? { CountsInc(s, t, r.slot, u); } else { CountsHandOver(s, t, r.slot, u); }
  }

  lemma IssueStepRecv(s: Slot, pc: IssuePc, a: Act, t: Tally)
    requires Ready(s, InIssue(pc), t) && IssueStep(s, pc, a).Moved?
    ensures var r := IssueStep(s, pc, a); var u := After(t, InIssue(pc), r.next);
      RecvInv(r.slot, u) && TraceInv(r.slot, u)
  {
    hide Wrap16, ReleaseBit, Room, CountInv, RecvInv, PumpInv, BoxInv, FifoInv, TraceInv, AgentOk;
    var r := IssueStep(s, pc, a);
    var u := After(t, InIssue(pc), r.next);
    IssueStepCounts(s, pc, a, t);
    RecvKeeps(s, t, r.slot, u);
    TraceKeeps(s, t, r.slot, u);
  }

  lemma IssueStepPump(s: Slot, pc: IssuePc, a: Act, t: Tally)
    requires Ready(s, InIssue(pc), t) && IssueStep(s, pc, a).Moved?
    ensures var r := IssueStep(s, pc, a); PumpInv(r.slot, After(t, InIssue(pc), r.next))
  {
    hide Wrap16, ReleaseBit, Room, CountInv, RecvInv, FifoInv, TraceInv;
    CountsHolder(s, t);
  }

  lemma IssueStepBox(s: Slot, pc: IssuePc, a: Act, t: Tally)
    requires Ready(s, InIssue(pc), t) && IssueStep(s, pc, a).Moved?
    ensures var r := IssueStep(s, pc, a); BoxInv(r.slot, After(t, InIssue(pc), r.next))
  {
    hide Wrap16, ReleaseBit, Room, CountInv, RecvInv, FifoInv, TraceInv;
    IssueStepCounts(s, pc, a, t);
  }

  lemma IssueStepFifo(s: Slot, pc: IssuePc, a: Act, t: Tally)
    requires Ready(s, InIssue(pc), t) && IssueStep(s, pc, a).Moved?
    ensures FifoInv(IssueStep(s, pc, a).slot)
  {
    hide Wrap16, ReleaseBit, Room, CountInv, RecvInv, TraceInv;
    IssueStepCounts(s, pc, a, t);
  }

  lemma IssueStepMover(s: Slot, pc: IssuePc, a: Act, t: Tally)
    requires Ready(s, InIssue(pc), t) && IssueStep(s, pc, a).Moved?
    ensures var r := IssueStep(s, pc, a); AgentOk(r.slot, r.next)
  {
    hide Wrap16, ReleaseBit, Room, CountInv, RecvInv, TraceInv;
    CountsHolder(s, t);
  }

  // ---- completeRelease, ReleaseSession, registerAcceptEx ---------------------------------------

  lemma ReleaseStepCounts(s: Slot, pc: RelPc, a: Act, t: Tally)
    requires Ready(s, InRelease(pc), t) && ReleaseStep(s, pc, a).Moved?
    ensures var r := ReleaseStep(s, pc, a); CountInv(r.slot, After(t, InRelease(pc), r.next))
  {
    CountsInRelease(s, t);
    hide CountInv, RecvInv, PumpInv, BoxInv, FifoInv, TraceInv, AgentOk, After, ReleaseStep;
    if pc.RelPush? || pc.ArmIo? { ParkOrArmCounts(s, pc, a, t); } else { ReleaseWorks(s, pc, a, t); }
  }

  lemma ReleaseWorks(s: Slot, pc: RelPc, a: Act, t: Tally)
    requires Ready(s, InRelease(pc), t) && ReleaseStep(s, pc, a).Moved? && !pc.RelPush? && !pc.ArmIo?
    requires t.rel == 1
    ensures var r := ReleaseStep(s, pc, a); CountInv(r.slot, After(t, InRelease(pc), r.next))
  {
    hide CountInv, RecvInv, PumpInv, BoxInv, FifoInv, TraceInv, AgentOk, Batch;
    var r := ReleaseStep(s, pc, a);
    CountsWork(s, t, r.slot, After(t, InRelease(pc), r.next));
  }

  lemma ParkOrArmCounts(s: Slot, pc: RelPc, a: Act, t: Tally)
    requires Ready(s, InRelease(pc), t) && ReleaseStep(s, pc, a).Moved? && (pc.RelPush? || pc.ArmIo?)
    ensures var r := ReleaseStep(s, pc, a); CountInv(r.slot, After(t, InRelease(pc), r.next))
  {
    hide CountInv, RecvInv, PumpInv, BoxInv, FifoInv, TraceInv, AgentOk;
    var r := ReleaseStep(s, pc, a);
    var u := After(t, InRelease(pc), r.next);
    CountsInRelease(s, t);
    ParkedArm(s, t);
    if pc.RelPush? || a == Alt { CountsPark(s, t, r.slot, u); } else { CountsArm(s, t, r.slot, u); }
  }

  lemma ParkedArm(s: Slot, t: Tally)
    requires CountInv(s, t) && t.Natural()
    ensures t.arm <= 1 && t.rel <= 1
  {
  }

  lemma ReleaseStepRecv(s: Slot, pc: RelPc, a: Act, t: Tally)
    requires Ready(s, InRelease(pc), t) && ReleaseStep(s, pc, a).Moved?
    ensures var r := ReleaseStep(s, pc, a); var u := After(t, InRelease(pc), r.next);
      RecvInv(r.slot, u) && PumpInv(r.slot, u)
  {
    hide CountInv, FifoInv, TraceInv;
    CountsInRelease(s, t);
  }

  lemma ReleaseStepBox(s: Slot, pc: RelPc, a: Act, t: Tally)
    requires Ready(s, InRelease(pc), t) && ReleaseStep(s, pc, a).Moved?
    ensures var r := ReleaseStep(s, pc, a); BoxInv(r.slot, After(t, InRelease(pc), r.next)) && FifoInv(r.slot)
  {
    hide CountInv, RecvInv, PumpInv, TraceInv;
    CountsInRelease(s, t);
  }

  lemma ReleaseStepTrace(s: Slot, pc: RelPc, a: Act, t: Tally)
    requires Ready(s, InRelease(pc), t) && ReleaseStep(s, pc, a).Moved?
    ensures var r := ReleaseStep(s, pc, a); TraceInv(r.slot, After(t, InRelease(pc), r.next))
  {
    hide CountInv, RecvInv, PumpInv, FifoInv, Parse;
    CountsInRelease(s, t);
    ParseAppend(s.past.calls, OnRelease(s.id));
  }

  lemma ReleaseStepMover(s: Slot, pc: RelPc, a: Act, t: Tally)
    requires Ready(s, InRelease(pc), t) && ReleaseStep(s, pc, a).Moved?
    ensures var r := ReleaseStep(s, pc, a); AgentOk(r.slot, r.next)
  {
    hide CountInv, RecvInv, PumpInv, FifoInv, TraceInv;
    CountsInRelease(s, t);
  }

  // ---- calls from outside and completions picked up --------------------------------------------

  lemma StartStepCounts(s: Slot, a: Act, t: Tally)
    requires Ready(s, Idle, t) && StartStep(s, a).Moved?
    ensures var r := StartStep(s, a); CountInv(r.slot, After(t, Idle, r.next)) && Released(r.slot.io) == Released(s.io)
  {
    hide Wrap16, ReleaseBit, Room, CountInv, RecvInv, PumpInv, BoxInv, FifoInv, TraceInv, AgentOk;
    if a.CallSend? || a.CallDisconnect? {
      StartLockCounts(s, a, t);
    } else {
      var r := StartStep(s, a);
      CountsHandOver(s, t, r.slot, After(t, Idle, r.next));
    }
  }

  lemma StartLockCounts(s: Slot, a: Act, t: Tally)
    requires Ready(s, Idle, t) && StartStep(s, a).Moved? && (a.CallSend? || a.CallDisconnect?)
    ensures var r := StartStep(s, a); CountInv(r.slot, After(t, Idle, r.next)) && Released(r.slot.io) == Released(s.io)
  {
    hide Wrap16, ReleaseBit, Room, CountInv, RecvInv, PumpInv, BoxInv, FifoInv, TraceInv, AgentOk;
    var r := StartStep(s, a);
    var u := After(t, Idle, r.next);
    LockIncBit(s, t);
    if Released(s.io) { CountsRefused(s, t, r.slot, u); } else { CountsInc(s, t, r.slot, u); }
  }

  /** sessionLock sees the release bit exactly when the slot is released. */
  lemma LockIncBit(s: Slot, t: Tally)
    requires CountInv(s, t) && Room(s.io.count)
    ensures ReleaseBit(Inc(s.io).count) <==> Released(s.io)
  {
    Inc16(s.io.count);
  }

  lemma StartStepRecv(s: Slot, a: Act, t: Tally)
    requires Ready(s, Idle, t) && StartStep(s, a).Moved?
    ensures var r := StartStep(s, a); RecvInv(r.slot, After(t, Idle, r.next))
  {
    hide Wrap16, ReleaseBit, Room, CountInv, RecvInv, PumpInv, BoxInv, FifoInv, TraceInv, AgentOk;
    var r := StartStep(s, a);
    StartStepCounts(s, a, t);
    RecvKeeps(s, t, r.slot, After(t, Idle, r.next));
  }

  lemma StartCallAside(s: Slot, a: Act, t: Tally)
    requires Ready(s, Idle, t) && StartStep(s, a).Moved? && (a.CallSend? || a.CallDisconnect?)
    ensures var r := StartStep(s, a); Aside(s, t, r.slot, After(t, Idle, r.next))
  {
    hide Wrap16, ReleaseBit, Room, CountInv, RecvInv, PumpInv, BoxInv, FifoInv, TraceInv, AgentOk;
    StartStepCounts(s, a, t);
  }

  lemma StartTakeAside(s: Slot, a: Act, t: Tally)
    requires Ready(s, Idle, t) && StartStep(s, a).Moved? && !(a.CallSend? || a.CallDisconnect?)
    ensures var r := StartStep(s, a); Aside(s, t, r.slot, After(t, Idle, r.next))
  {
    hide Wrap16, ReleaseBit, Room, CountInv, RecvInv, PumpInv, BoxInv, FifoInv, TraceInv, AgentOk;
  }

  lemma StartStepAside(s: Slot, a: Act, t: Tally)
    requires Ready(s, Idle, t) && StartStep(s, a).Moved?
    ensures var r := StartStep(s, a); var u := After(t, Idle, r.next);
      PumpInv(r.slot, u) && BoxInv(r.slot, u) && FifoInv(r.slot) && TraceInv(r.slot, u)
  {
    hide StartStep, After, Aside, CountInv, RecvInv, PumpInv, BoxInv, FifoInv, TraceInv, AgentOk;
    if a.CallSend? || a.CallDisconnect? { StartCallAside(s, a, t); } else { StartTakeAside(s, a, t); }
    var r := StartStep(s, a);
    AsideKeeps(s, t, r.slot, After(t, Idle, r.next));
  }

  lemma StartStepMover(s: Slot, a: Act, t: Tally)
    requires Ready(s, Idle, t) && StartStep(s, a).Moved?
    ensures var r := StartStep(s, a); AgentOk(r.slot, r.next)
  {
    hide Wrap16, ReleaseBit, Room;
    if s.io.releasePosted { TakesRelease(s, t); }
    hide CountInv, RecvInv, PumpInv, FifoInv, TraceInv;
  }

  /** A posted release belongs to a slot in use. */
  lemma TakesRelease(s: Slot, t: Tally)
    requires CountInv(s, t) && BoxInv(s, t) && t.Natural() && s.io.releasePosted
    ensures s.past.phase == InUse && t.rel == 0 && s.past.armed
  {
  }

  // ---- any step ---------------------------------------------------------------------------------

  lemma StepShared(s: Slot, g: Agent, a: Act, t: Tally)
    requires Ready(s, g, t) && StepOf(s, g, a).Moved?
    ensures var r := StepOf(s, g, a); Shared(r.slot, After(t, g, r.next)) && AgentOk(r.slot, r.next)
  {
    hide CountInv, RecvInv, PumpInv, BoxInv, FifoInv, TraceInv, AgentOk;
    hide LockStep, PostStep, RecvStep, PumpStep, IssueStep, ReleaseStep, StartStep, After;
    match g
    case Idle =>
      StartStepCounts(s, a, t); StartStepRecv(s, a, t); StartStepAside(s, a, t); StartStepMover(s, a, t);
    case Locking(pc) =>
      LockStepCounts(s, pc, t); LockStepRecv(s, pc, t); LockStepAside(s, pc, t); LockStepMover(s, pc, t);
    case InPost(pc) =>
      PostStepCounts(s, pc, t); PostStepPump(s, pc, t); PostStepBox(s, pc, t); PostStepMover(s, pc, t);
    case InRecv(pc) =>
      RecvStepCounts(s, pc, a, t); RecvStepRecv(s, pc, a, t); RecvStepPump(s, pc, a, t);
      RecvStepBox(s, pc, a, t); RecvStepTrace(s, pc, a, t); RecvStepMover(s, pc, a, t);
    case InPump(pc) =>
      PumpStepCounts(s, pc, t); PumpStepRecv(s, pc, t); PumpStepPump(s, pc, t);
      PumpStepBox(s, pc, t); PumpStepFifo(s, pc, t); PumpStepMover(s, pc, t);
    case InIssue(pc) =>
      IssueStepCounts(s, pc, a, t); IssueStepRecv(s, pc, a, t); IssueStepPump(s, pc, a, t);
      IssueStepBox(s, pc, a, t); IssueStepFifo(s, pc, a, t); IssueStepMover(s, pc, a, t);
    case InRelease(pc) =>
      ReleaseStepCounts(s, pc, a, t); ReleaseStepRecv(s, pc, a, t); ReleaseStepBox(s, pc, a, t);
      ReleaseStepTrace(s, pc, a, t); ReleaseStepMover(s, pc, a, t);
  }

  // ---- the other agents -------------------------------------------------------------------------

  /** What a step from s to r must leave alone for an agent at h. */
  ghost predicate Leaves(s: Slot, r: Slot, h: Agent) {
    || (Of(h).refs == 0 && Of(h).rel == 0)
    || (&& r.id == s.id
        && s.past.published <= r.past.published
        && (s.accepted ==> r.accepted)
        && (Of(h).chain > 0 ==> r.accepted == s.accepted && (r.io.live ==> s.io.live))
        && (Of(h).token > 0 ==>
              && r.out.inflight == s.out.inflight && r.out.cnt == s.out.cnt && (s.out.flag ==> r.out.flag)
              && r.past.wire == s.past.wire && r.past.freed == s.past.freed
              && |s.out.queue| <= |r.out.queue| && s.out.size <= r.out.size)
        && (Of(h).rel > 0 ==>
              && r.out == s.out && r.accepted == s.accepted
              && r.past.phase == s.past.phase && r.past.published == s.past.published && r.past.armed == s.past.armed))
  }

  lemma LeavesKeeps(s: Slot, r: Slot, h: Agent)
    requires AgentOk(s, h) && Leaves(s, r, h)
    ensures AgentOk(r, h)
  {
  }

  /** Two different agents, at g and at h. */
  ghost predicate Beside(t: Tally, g: Agent, h: Agent) {
    t.Minus(Of(g)).Minus(Of(h)).Natural()
  }

  lemma LockStepLeaves(s: Slot, pc: LockPc, t: Tally, h: Agent)
    requires Ready(s, Locking(pc), t) && Beside(t, Locking(pc), h)
    ensures Leaves(s, LockStep(s, pc).slot, h)
  {
    hide Wrap16, ReleaseBit, CountInv, RecvInv, PumpInv, BoxInv, FifoInv, TraceInv, AgentOk, Of;
  }

  lemma PostStepLeaves(s: Slot, pc: PostPc, t: Tally, h: Agent)
    requires Ready(s, InPost(pc), t) && Beside(t, InPost(pc), h) && PostStep(s, pc).Moved?
    ensures Leaves(s, PostStep(s, pc).slot, h)
  {
    hide Wrap16, ReleaseBit, Room, CountInv, RecvInv, PumpInv, BoxInv, FifoInv, TraceInv, AgentOk;
    CountsHolder(s, t);
    assert Of(h).rel == 0;
  }

  lemma RecvStepLeaves(s: Slot, pc: RecvPc, a: Act, t: Tally, h: Agent)
    requires Ready(s, InRecv(pc), t) && Beside(t, InRecv(pc), h) && RecvStep(s, pc, a).Moved?
    ensures Leaves(s, RecvStep(s, pc, a).slot, h)
  {
    hide Wrap16, ReleaseBit, Room, CountInv, RecvInv, PumpInv, BoxInv, FifoInv, TraceInv, AgentOk;
    CountsHolder(s, t);
    ChainHolder(s, t);
    assert Of(h).rel == 0;
    assert pc.Accepting? || pc.AcceptCall? ==> Of(h).chain == 0;
  }

  lemma PumpStepLeaves(s: Slot, pc: PumpPc, t: Tally, h: Agent)
    requires Ready(s, InPump(pc), t) && Beside(t, InPump(pc), h) && PumpStep(s, pc).Moved?
    ensures Leaves(s, PumpStep(s, pc).slot, h)
  {
    hide Wrap16, ReleaseBit, Room, CountInv, RecvInv, PumpInv, BoxInv, FifoInv, TraceInv, AgentOk;
    CountsHolder(s, t);
    TokenHolder(s, t);
    assert Of(h).rel == 0;
    assert OfPump(pc).token > 0 ==> Of(h).token == 0;
  }

  lemma IssueStepLeaves(s: Slot, pc: IssuePc, a: Act, t: Tally, h: Agent)
    requires Ready(s, InIssue(pc), t) && Beside(t, InIssue(pc), h) && IssueStep(s, pc, a).Moved?
    ensures Leaves(s, IssueStep(s, pc, a).slot, h)
  {
    hide Wrap16, ReleaseBit, Room, CountInv, RecvInv, PumpInv, BoxInv, FifoInv, TraceInv, AgentOk;
    CountsHolder(s, t);
    TokenHolder(s, t);
    assert Of(h).rel == 0;
    assert Of(h).token == 0;
  }

  lemma ReleaseStepLeaves(s: Slot, pc: RelPc, a: Act, t: Tally, h: Agent)
    requires Ready(s, InRelease(pc), t) && Beside(t, InRelease(pc), h) && ReleaseStep(s, pc, a).Moved?
    ensures Leaves(s, ReleaseStep(s, pc, a).slot, h)
  {
    hide CountInv, RecvInv, PumpInv, BoxInv, FifoInv, TraceInv, AgentOk;
    CountsInRelease(s, t);
    assert Of(h).refs == 0 && Of(h).rel == 0;
  }

  lemma StartStepLeaves(s: Slot, a: Act, t: Tally, h: Agent)
    requires Ready(s, Idle, t) && Beside(t, Idle, h) && StartStep(s, a).Moved?
    ensures Leaves(s, StartStep(s, a).slot, h)
  {
    hide Wrap16, ReleaseBit, Room, CountInv, RecvInv, PumpInv, BoxInv, FifoInv, TraceInv, AgentOk, Of;
  }

  lemma StepLeaves(s: Slot, g: Agent, a: Act, t: Tally, h: Agent)
    requires Ready(s, g, t) && Beside(t, g, h) && StepOf(s, g, a).Moved? && AgentOk(s, h)
    ensures AgentOk(StepOf(s, g, a).slot, h)
  {
    hide Leaves, AgentOk, Shared, Beside, Of;
    hide LockStep, PostStep, RecvStep, PumpStep, IssueStep, ReleaseStep, StartStep;
    match g {
      case Idle => StartStepLeaves(s, a, t, h);
      case Locking(pc) => LockStepLeaves(s, pc, t, h);
      case InPost(pc) => PostStepLeaves(s, pc, t, h);
      case InRecv(pc) => RecvStepLeaves(s, pc, a, t, h);
      case InPump(pc) => PumpStepLeaves(s, pc, t, h);
      case InIssue(pc) => IssueStepLeaves(s, pc, a, t, h);
      case InRelease(pc) => ReleaseStepLeaves(s, pc, a, t, h);
    }
    LeavesKeeps(s, StepOf(s, g, a).slot, h);
  }

  /** Every step of every agent keeps the invariant of the slot. */
  lemma StepKeepsInv(x: State, i: nat, a: Act)
    requires i < |x.agents| && Inv(x)
    ensures Inv(Step(x, i, a))
  {
    hide Shared, AgentOk, StepOf, Total, Of;
    var s, g := x.slot, x.agents[i];
    var t := Total(x.agents);
    var y := Step(x, i, a);
    if StepOf(s, g, a).Moved? {
      TotalsNatural(x.agents);
      TotalBounds(x.agents, i);
      assert Ready(s, g, t);
      StepShared(s, g, a, t);
      TotalUpdate(x.agents, i, StepOf(s, g, a).next);
      forall j | 0 <= j < |y.agents|
        ensures AgentOk(y.slot, y.agents[j])
      {
        if j != i {
          TotalBoundsPair(x.agents, i, j);
          assert Beside(t, g, x.agents[j]);
          StepLeaves(s, g, a, t, x.agents[j]);
        }
      }
    }
  }
}

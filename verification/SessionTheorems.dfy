/** What the session layer promises, for every reachable state of the library and every slot. */
module SessionTheorems {
  import opened Interlocked
  import opened SessionSlot
  import opened SessionTally
  import opened SessionInvariant
  import opened SessionRules
  import opened SessionSteps
  import opened SessionMessages
  import opened NetworkLib

  /** Nobody uses the session: no thread holds a reference and no operation is outstanding. */
  ghost predicate Unreferenced(x: State) {
    && PendingRefs(x.slot.io) == 0
    && forall j {:trigger x.agents[j]} :: 0 <= j < |x.agents| ==> Of(x.agents[j]).refs == 0
  }

  /** A thread is between winning a session lock for `id` and giving it back. */
  predicate HoldsLock(g: Agent, id: int) {
    match g
    case InPost(pc) => pc.id == id
    case Locking(Cutting(i)) => i == id
    case Locking(Unlock(i)) => i == id
    case _ => false
  }

  /** A worker is releasing the session or re-arming the slot. */
  predicate Releasing(g: Agent) {
    g.InRelease? || (g.Locking? && g.lock.Posting?)
  }

  /** About to try the compare-exchange that starts a release. */
  predicate WillTryRelease(g: Agent) {
    g.Locking? && (g.lock.ZeroCas? || g.lock.MismatchCas?)
  }

  /** Will still look at mSendFlag, or at mSenqQSize after clearing it. */
  predicate WillLookAtFlag(g: Agent) {
    || (g.InPost? && (g.post.Counting? || g.post.SendCas?))
    || g == InPump(Recheck) || g == InPump(RecheckAgain) || g == InPump(FlagRetake)
  }

  /** Holds the right to use mSendOv. */
  predicate HasToken(g: Agent) {
    Of(g).token > 0
  }

  lemma InvAt(l: Lib, k: nat)
    requires Reachable(l) && k < |l.slots|
    ensures Inv(l.slots[k]) && Conserved(l.slots[k])
  {
    hide Inv, Conserved, Reachable, StackOk;
    ReachableInv(l);
  }

  lemma NobodyReferences(x: State)
    requires Inv(x) && Total(x.agents).refs == 0 && PendingRefs(x.slot.io) == 0
    ensures Unreferenced(x)
  {
    hide Total, Of, Inv;
    forall j {:trigger x.agents[j]} | 0 <= j < |x.agents|
      ensures Of(x.agents[j]).refs == 0
    {
      TotalBounds(x.agents, j);
      NetworkLib.Others(x.agents[j]);
    }
  }

  // ---- release ----------------------------------------------------------------------------------

  /** A generation posts at most one release, and a thread that has won the compare-exchange (about
      to post), like everything after it up to the re-arm, runs while nobody uses the session. */
  lemma ReleasePostedOnce(l: Lib, k: nat)
    requires Reachable(l) && k < |l.slots|
    ensures var x := l.slots[k];
      && 0 <= x.slot.past.posts <= 1
      && (x.slot.past.posts == 1 || x.slot.io.releasePosted ==> Unreferenced(x))
      && forall i :: 0 <= i < |x.agents| && Releasing(x.agents[i]) ==>
           Unreferenced(x) && (x.agents[i].Locking? ==> x.slot.past.posts == 0)
  {
    InvAt(l, k);
    var x := l.slots[k];
    ReleaseFacts(x);
  }

  lemma ReleaseFacts(x: State)
    requires Inv(x)
    ensures 0 <= x.slot.past.posts <= 1
    ensures x.slot.past.posts == 1 || x.slot.io.releasePosted ==> Unreferenced(x)
    ensures forall i :: 0 <= i < |x.agents| && Releasing(x.agents[i]) ==>
              Unreferenced(x) && (x.agents[i].Locking? ==> x.slot.past.posts == 0)
    ensures Released(x.slot.io) ==> Unreferenced(x)
  {
    hide Total, AgentOk;
    TotalsNatural(x.agents);
    if Released(x.slot.io) { NobodyReferences(x); }
    forall i | 0 <= i < |x.agents| && Releasing(x.agents[i])
      ensures Unreferenced(x) && (x.agents[i].Locking? ==> x.slot.past.posts == 0)
    {
      TotalBounds(x.agents, i);
      CountsInRelease(x.slot, Total(x.agents));
    }
  }

  /** No release is lost: while the count is zero and the release bit is clear, some thread has yet
      to try the compare-exchange, however late and from whatever generation its decrement was. */
  lemma NoReleaseLost(l: Lib, k: nat)
    requires Reachable(l) && k < |l.slots| && l.slots[k].slot.io.count == 0
    ensures exists i :: 0 <= i < |l.slots[k].agents| && WillTryRelease(l.slots[k].agents[i])
  {
    hide AgentOk, RecvInv, PumpInv, BoxInv, FifoInv, TraceInv, Of, Total, WillTryRelease;
    InvAt(l, k);
    var x := l.slots[k];
    var i := WatcherExists(x.agents);
    WatcherTries(x.agents[i]);
  }

  lemma WatcherTries(g: Agent)
    requires Of(g).watch > 0
    ensures WillTryRelease(g)
  {
  }

  // ---- locks ------------------------------------------------------------------------------------

  /** While a thread holds a lock that it took for `id`, the slot has that ID, is in service, and
      nobody releases, resets or re-arms it. In particular a lock taken with a stale ID never
      succeeds: its holder would contradict slot.id == id. */
  lemma LockPinsSession(l: Lib, k: nat, i: nat, id: int)
    requires Reachable(l) && k < |l.slots| && i < |l.slots[k].agents| && HoldsLock(l.slots[k].agents[i], id)
    ensures var x := l.slots[k];
      && x.slot.id == id
      && x.slot.past.phase == InUse && x.slot.past.posts == 0 && !x.slot.io.releasePosted
      && forall j :: 0 <= j < |x.agents| ==> !Releasing(x.agents[j])
  {
    InvAt(l, k);
    var x := l.slots[k];
    TotalsNatural(x.agents);
    TotalBounds(x.agents, i);
    assert AgentOk(x.slot, x.agents[i]);
    CountsHolder(x.slot, Total(x.agents));
    forall j | 0 <= j < |x.agents|
      ensures !Releasing(x.agents[j])
    {
      TotalBounds(x.agents, j);
    }
  }

  /** An ID that is not, or no longer, the ID of slot k never becomes it again. */
  lemma {:induction false} StaleIdStaysStale(l: Lib, k: nat, id: int, es: seq<Event>)
    requires Reachable(l) && k < |l.slots| && id <= l.seqId && l.slots[k].slot.id != id
    ensures var m := Run(l, es);
      |m.slots| == |l.slots| && l.seqId <= m.seqId && m.slots[k].slot.id != id
  {
    hide Reachable;
    if es != [] {
      StaleIdStaysStale(l, k, id, es[..|es| - 1]);
      RunReachable(l, es[..|es| - 1]);
      StaleStep(Run(l, es[..|es| - 1]), k, id, es[|es| - 1]);
    }
  }

  lemma RunReachable(l: Lib, es: seq<Event>)
    requires Reachable(l)
    ensures Reachable(Run(l, es))
  {
    var n: nat, m: nat, fs: seq<Event> :| l == Run(Init(n, m), fs);
    RunAppend(Init(n, m), fs, es);
  }

  lemma {:induction false} RunAppend(l: Lib, fs: seq<Event>, es: seq<Event>)
    ensures Run(l, fs + es) == Run(Run(l, fs), es)
  {
    hide Next;
    if es == [] {
      assert fs + es == fs;
    } else {
      RunAppend(l, fs, es[..|es| - 1]);
      assert (fs + es)[..|fs + es| - 1] == fs + es[..|es| - 1];
    }
  }

  lemma StaleStep(l: Lib, k: nat, id: int, e: Event)
    requires Reachable(l) && k < |l.slots| && id <= l.seqId && l.slots[k].slot.id != id
    ensures var m := Next(l, e); |m.slots| == |l.slots| && l.seqId <= m.seqId && m.slots[k].slot.id != id
  {
    hide Inv, Conserved, StackOk, Reachable, StepOf, Effects;
    ReachableInv(l);
    match e
    case OnSlot(h, i, a) =>
      if h < |l.slots| && i < |l.slots[h].agents| {
        var b := Resolve(l, l.slots[h].agents[i], a);
        if StepOf(l.slots[h].slot, l.slots[h].agents[i], b).Moved? {
          SlotStepFacts(l, h, i, b);
          EffectOnId(l.slots[h].slot, l.slots[h].agents[i], b, Step(l.slots[h], i, b).slot);
        }
      }
    case Pop(i) =>
    case Stop =>
  }

  lemma EffectOnId(s: Slot, g: Agent, a: Act, r: Slot)
    requires Effects(s, g, a, r)
    ensures r.id == if g == InRelease(ArmId) && a.Arm? then a.newId else s.id
  {
  }

  /** Session IDs in the slots are pairwise different. */
  lemma SessionIdsDistinct(l: Lib, j: nat, k: nat)
    requires Reachable(l) && j < k < |l.slots|
    ensures l.slots[j].slot.id != l.slots[k].slot.id
  {
    hide Inv, Conserved, StackOk, Reachable;
    ReachableInv(l);
  }

  // ---- send pump --------------------------------------------------------------------------------

  /** At most one thread or outstanding completion may use mSendOv, and only while mSendFlag is
      set; queued and in-flight messages belong to the current session. */
  lemma SendTokenUnique(l: Lib, k: nat)
    requires Reachable(l) && k < |l.slots|
    ensures var x := l.slots[k];
      && (forall i :: 0 <= i < |x.agents| && HasToken(x.agents[i]) ==> x.slot.out.flag && !x.slot.io.sendPending)
      && (forall i, j :: 0 <= i < j < |x.agents| && HasToken(x.agents[i]) ==> !HasToken(x.agents[j]))
      && (x.slot.io.sendPending ==> x.slot.out.flag)
      && (forall m :: m in x.slot.out.queue || m in x.slot.out.inflight ==> m.owner == x.slot.id)
  {
    InvAt(l, k);
    var x := l.slots[k];
    hide Total, Of, AgentOk;
    TotalsNatural(x.agents);
    forall i | 0 <= i < |x.agents| && HasToken(x.agents[i])
      ensures x.slot.out.flag && !x.slot.io.sendPending
      ensures forall j :: 0 <= j < |x.agents| && j != i ==> !HasToken(x.agents[j])
    {
      TotalBounds(x.agents, i);
      NetworkLib.Others(x.agents[i]);
      TokenHolder(x.slot, Total(x.agents));
      forall j | 0 <= j < |x.agents| && j != i
        ensures !HasToken(x.agents[j])
      {
        TotalBoundsPair(x.agents, i, j);
      }
    }
  }

  /** A live session with a queued message never rests: a send completion is outstanding, or some
      thread holds the token, or will still look at the flag or recheck the queue. */
  lemma PumpNeverStalls(l: Lib, k: nat)
    requires Reachable(l) && k < |l.slots|
    requires l.slots[k].slot.io.live && l.slots[k].slot.out.queue != []
    ensures var x := l.slots[k];
      || x.slot.io.sendPending
      || exists i :: 0 <= i < |x.agents| && (HasToken(x.agents[i]) || WillLookAtFlag(x.agents[i]))
  {
    InvAt(l, k);
    var x := l.slots[k];
    TotalsNatural(x.agents);
    if !x.slot.io.sendPending {
      if Total(x.agents).token > 0 {
        var i := TokenExists(x.agents);
        assert HasToken(x.agents[i]);
      } else {
        var i := WakerExists(x.agents);
        assert WillLookAtFlag(x.agents[i]);
      }
    }
  }

  lemma {:induction false} TokenExists(agents: seq<Agent>) returns (i: nat)
    requires Total(agents).token > 0
    ensures i < |agents| && Of(agents[i]).token > 0
  {
    hide Of;
    assert Tallies(agents[1..]) == Tallies(agents)[1..];
    if Of(agents[0]).token > 0 {
      i := 0;
    } else {
      i := TokenExists(agents[1..]);
      i := i + 1;
    }
  }

  /** None of the library's assertions fires: mMsgCnt is 0 at accept, registerSend's dequeue never
      returns null, the owner of a dequeued message is the session, mSenqQSize is 0 after a drain. */
  lemma AssertionsHold(l: Lib, k: nat)
    requires Reachable(l) && k < |l.slots|
    ensures !l.slots[k].slot.past.asserted
  {
    hide Total, AgentOk;
    InvAt(l, k);
  }

  /** Within a generation, messages reach WSASend in the order in which they were pushed. */
  lemma SentInOrder(l: Lib, k: nat)
    requires Reachable(l) && k < |l.slots| && !Released(l.slots[k].slot.io)
    ensures var s := l.slots[k].slot;
      && s.past.wire <= s.past.log
      && s.past.freed <= s.past.log
      && s.past.log == s.past.freed + s.out.inflight + s.out.queue
  {
    hide Total, AgentOk;
    InvAt(l, k);
    var s := l.slots[k].slot;
    assert s.past.freed + s.out.inflight <= s.past.log;
  }

  /** A message is destroyed at most as often as it was given to sendPost, and while it is not
      destroyed it is in exactly one place. */
  lemma MessagesConserved(l: Lib, k: nat, m: Msg)
    requires Reachable(l) && k < |l.slots|
    ensures var x := l.slots[k];
      x.slot.past.offered[m] == x.slot.past.destroyed[m]
        + multiset(x.slot.out.queue)[m] + multiset(x.slot.out.inflight)[m] + InHand(x.agents, m)
  {
    hide Inv;
    InvAt(l, k);
  }

  /** A slot out of service has destroyed everything it was ever given, apart from messages still in
      the hands of a caller whose lock is being refused. */
  lemma ParkedSlotHoldsNothing(l: Lib, k: nat, m: Msg)
    requires Reachable(l) && k < |l.slots| && l.slots[k].slot.past.phase != InUse
    ensures var x := l.slots[k]; x.slot.past.offered[m] == x.slot.past.destroyed[m] + InHand(x.agents, m)
  {
    hide Total, AgentOk;
    InvAt(l, k);
  }

  // ---- callbacks, receives and counters -----------------------------------------------------------

  /** The callbacks of every slot follow onAccept, onRecv*, onRelease, each time with one ID; the
      session counter counts the slots between their onAccept and their onRelease. */
  lemma CallbackGrammar(l: Lib, k: nat)
    requires Reachable(l) && k < |l.slots|
    ensures var x := l.slots[k];
      && Parse(x.slot.past.calls) != Broken
      && (Parse(x.slot.past.calls).Open? ==> Parse(x.slot.past.calls) == Open(x.slot.id) && x.slot.accepted)
      && (x.slot.accepted && !Released(x.slot.io) ==> Parse(x.slot.past.calls) == Open(x.slot.id))
  {
    hide AgentOk, BoxInv, FifoInv, PumpInv, RecvInv, Total, Parse;
    InvAt(l, k);
    TotalsNatural(l.slots[k].agents);
  }

  /** At most one accept or receive is outstanding or being processed, so onRecv is never concurrent
      with itself for one session. */
  lemma OneReceiveOutstanding(l: Lib, k: nat, i: nat)
    requires Reachable(l) && k < |l.slots| && i < |l.slots[k].agents| && Of(l.slots[k].agents[i]).chain > 0
    ensures var x := l.slots[k];
      && !x.slot.io.recvPending && !x.slot.io.acceptPending
      && forall j :: 0 <= j < |x.agents| && j != i ==> Of(x.agents[j]).chain == 0
  {
    hide Of, Total, AgentOk, BoxInv, FifoInv, PumpInv, TraceInv, CountInv;
    InvAt(l, k);
    var x := l.slots[k];
    TotalsNatural(x.agents);
    TotalBounds(x.agents, i);
    ChainHolder(x.slot, Total(x.agents));
    forall j | 0 <= j < |x.agents| && j != i
      ensures Of(x.agents[j]).chain == 0
    {
      TotalBoundsPair(x.agents, i, j);
      NetworkLib.Others(x.agents[j]);
    }
  }

  /** mSessionCnt is the number of slots with an open session, mActiveSlotCnt the number of armed
      slots (so neither is ever negative); the free stack holds exactly the parked slots, each once,
      and a parked slot is not armed. */
  lemma CountersAndStack(l: Lib)
    requires Reachable(l)
    ensures l.sessionCnt == Count(l.slots, OpenSession) >= 0
    ensures l.activeCnt == Count(l.slots, Armed) >= 0
    ensures forall k :: 0 <= k < |l.slots| ==> (k in l.stack <==> l.slots[k].slot.past.phase == InStack)
    ensures forall j, h :: 0 <= j < h < |l.stack| ==> l.stack[j] != l.stack[h]
    ensures forall k :: 0 <= k < |l.slots| && k in l.stack ==> !l.slots[k].slot.past.armed && !l.slots[k].slot.accepted
  {
    hide Conserved, Reachable, Total, AgentOk, CountInv, RecvInv, PumpInv, FifoInv, TraceInv, OpenSession, Armed;
    ReachableInv(l);
    CountNonNegative(l.slots, OpenSession);
    CountNonNegative(l.slots, Armed);
  }

  lemma {:induction false} CountNonNegative(xs: seq<State>, f: State -> int)
    requires f == OpenSession || f == Armed
    ensures Count(xs, f) >= 0
  {
    if xs != [] {
      CountNonNegative(xs[1..], f);
    }
  }
}

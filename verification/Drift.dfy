/** The synchronisation counter of a player over its requests: how far a client may drift from the server
    before handleMoveStart and handleMoveStop disconnect it. */
module Drift {
  import opened Players
  import opened Sectors
  import M = Monsters

  /** A MOVE_START or MOVE_STOP as it meets the player: its state and animation frame, and how far the
      packet's position is from the server's. */
  datatype Request = Request(start: bool, state: PlayerState, anim: int, distance: real)

  /** A start during an attack that has long to go: charged, and otherwise ignored. */
  predicate TooEarly(q: Request) {
    q.start && q.state == Attack && PLAYER_ATTACK_TOTAL_FRAME - q.anim >= ALLOW_DELAY_FRAME
  }

  /** Not looked at in this state. */
  predicate Skipped(q: Request) {
    q.state == Stun || q.state == Dead || (if q.start then q.state == Move else q.state == Attack)
  }

  /** Whether the position is compared, and lies within the allowed distance. */
  predicate InSync(q: Request) {
    !TooEarly(q) && !Skipped(q) && q.distance <= SYNC_DISTANCE
  }

  predicate OutOfSync(q: Request) {
    !TooEarly(q) && !Skipped(q) && SYNC_DISTANCE < q.distance
  }

  /** What the request adds to the counter: the cast to an integer drops the fraction. */
  function Charge(q: Request): nat {
    if TooEarly(q) then PLAYER_ATTACK_TOTAL_FRAME - q.anim
    else if OutOfSync(q) then (q.distance - SYNC_DISTANCE).Floor
    else 0
  }

  /** The counter after one more request. */
  function Counted(c: nat, q: Request): nat {
    c + Charge(q) - if InSync(q) && 10 < c then 10 else 0
  }

  // ---- the handlers ------------------------------------------------------------------------------------

  /** q describes packet e as player b meets it; the distance is the square root in Position's operator-. */
  predicate Meets(b: Body, e: Event, q: Request) {
    && (e.Start? || e.Stop?)
    && q.start == e.Start? && q.state == b.state && q.anim == b.anim
    && 0.0 <= q.distance && M.Squared(q.distance) == M.SquaredDistance(b.pos, e.pos)
  }

  function Handled(b: Body, e: Event): Heard
    requires e.Start? || e.Stop?
  {
    if e.Start? then Started(b, e.pos, e.direction) else Stopped(b, e.pos, e.direction)
  }

  /** What each request adds to or takes off the counter, and exactly when it is rejected or accepted. */
  lemma HandlersCount(b: Body, e: Event, q: Request)
    requires Meets(b, e, q)
    ensures var h := Handled(b, e);
      && h.body.sync == Counted(b.sync, q)
      && (h.verdict == Rejected <==> (TooEarly(q) || OutOfSync(q)) && CONFIG_SINK_MAXCOUNT < h.body.sync)
      && (h.verdict == Accepted <==> InSync(q) || (OutOfSync(q) && h.body.sync <= CONFIG_SINK_MAXCOUNT))
  {
    SquaresCompare(SYNC_DISTANCE, q.distance);
    hide M.SquaredDistance, M.Squared, Beyond;
    if OutOfSync(q) {
      BeyondIsExcess(q.distance);
    }
  }

  lemma SquaresCompare(a: real, b: real)
    requires 0.0 <= a && 0.0 <= b
    ensures M.Squared(a) < M.Squared(b) <==> a < b
  {
    if a < b {
      var d := b - a;
      assert b * b == a * a + 2.0 * (a * d) + d * d;
      assert a * d >= 0.0;
      assert d * d > 0.0;
    } else {
      var d := a - b;
      assert a * a == b * b + 2.0 * (b * d) + d * d;
      assert b * d >= 0.0;
      assert d * d >= 0.0;
    }
  }

  lemma BeyondIsExcess(distance: real)
    requires SYNC_DISTANCE < distance
    ensures Reaches(M.Squared(distance), 0)
    ensures Beyond(M.Squared(distance), 0) == (distance - SYNC_DISTANCE).Floor
  {
    SquaresCompare(SYNC_DISTANCE + 0 as real, distance);
    SquaresCompare(distance, SYNC_DISTANCE + 0 as real);
    var n := Beyond(M.Squared(distance), 0);
    SquaresCompare(distance, SYNC_DISTANCE + n as real);
    SquaresCompare(distance, SYNC_DISTANCE + (n + 1) as real);
    hide M.Squared, Beyond;
    assert n as real <= distance - SYNC_DISTANCE < (n + 1) as real;
  }

  /** Nothing else touches the counter. */
  lemma OthersDoNotCount(b: Body, e: Event)
    requires !e.Start? && !e.Stop?
    ensures After(b, e).sync == b.sync
  {
    hide Along, Knocked, M.DirectionTo;
  }

  // ---- runs ----------------------------------------------------------------------------------------------

  function Count(qs: seq<Request>): nat {
    if qs == [] then 0 else Counted(Count(qs[..|qs| - 1]), qs[|qs| - 1])
  }

  predicate Rejects(qs: seq<Request>) {
    && qs != []
    && var q := qs[|qs| - 1];
    (TooEarly(q) || OutOfSync(q)) && CONFIG_SINK_MAXCOUNT < Count(qs)
  }

  /** Nothing has been rejected so far. */
  predicate Clean(qs: seq<Request>) {
    forall n :: 1 <= n <= |qs| ==> !Rejects(qs[..n])
  }

  /** All charges of a run, and all that a request drifted beyond the allowed distance. */
  function Charges(qs: seq<Request>): nat {
    if qs == [] then 0 else Charges(qs[..|qs| - 1]) + Charge(qs[|qs| - 1])
  }

  function Excess(q: Request): real {
    if TooEarly(q) then (PLAYER_ATTACK_TOTAL_FRAME - q.anim) as real
    else if OutOfSync(q) then q.distance - SYNC_DISTANCE
    else 0.0
  }

  function Excesses(qs: seq<Request>): real {
    if qs == [] then 0.0 else Excesses(qs[..|qs| - 1]) + Excess(qs[|qs| - 1])
  }

  function CountOf(qs: seq<Request>, p: Request -> bool): nat {
    if qs == [] then 0 else CountOf(qs[..|qs| - 1], p) + if p(qs[|qs| - 1]) then 1 else 0
  }

  lemma CleanPrefix(qs: seq<Request>)
    requires Clean(qs) && qs != []
    ensures Clean(qs[..|qs| - 1]) && !Rejects(qs)
  {
    var front := qs[..|qs| - 1];
    assert qs[..|qs|] == qs;
    forall n | 1 <= n <= |front|
      ensures !Rejects(front[..n])
    {
      assert front[..n] == qs[..n];
    }
  }

  /** Up to the first rejection the counter stays within its limit, and what has been charged is at
      most 300 plus 10 for every request that was in sync. */
  lemma {:induction false} Budget(qs: seq<Request>)
    requires Clean(qs)
    ensures Count(qs) <= CONFIG_SINK_MAXCOUNT
    ensures Charges(qs) <= Count(qs) + 10 * CountOf(qs, InSync)
    ensures Charges(qs) <= CONFIG_SINK_MAXCOUNT + 10 * CountOf(qs, InSync)
  {
    if qs != [] {
      CleanPrefix(qs);
      Budget(qs[..|qs| - 1]);
    }
  }

  /** The budget in terms of real distances: the cast lets less than 1 per request out of sync go by. */
  lemma {:induction false} RealBudget(qs: seq<Request>)
    requires Clean(qs)
    ensures Charges(qs) as real <= Excesses(qs)
    ensures var out := CountOf(qs, OutOfSync);
      if out == 0 then Excesses(qs) == Charges(qs) as real <= (CONFIG_SINK_MAXCOUNT + 10 * CountOf(qs, InSync)) as real
      else
        && Excesses(qs) < (Charges(qs) + out) as real
        && Excesses(qs) < (CONFIG_SINK_MAXCOUNT + 10 * CountOf(qs, InSync) + out) as real
  {
    Budget(qs);
    if qs != [] {
      CleanPrefix(qs);
      RealBudget(qs[..|qs| - 1]);
    }
  }

  predicate Whole(q: Request) {
    OutOfSync(q) ==> (q.distance - SYNC_DISTANCE).Floor as real == q.distance - SYNC_DISTANCE
  }

  /** The charges are the distances themselves exactly when every excess is a whole number; then the
      budget holds for the distances. */
  lemma {:induction false} WholeBudget(qs: seq<Request>)
    requires Clean(qs)
    ensures Excesses(qs) == Charges(qs) as real <==> forall q :: q in qs ==> Whole(q)
    ensures (forall q :: q in qs ==> Whole(q)) ==>
              Excesses(qs) <= (CONFIG_SINK_MAXCOUNT + 10 * CountOf(qs, InSync)) as real
  {
    Budget(qs);
    if qs != [] {
      var front, last := qs[..|qs| - 1], qs[|qs| - 1];
      CleanPrefix(qs);
      RealBudget(front);
      WholeBudget(front);
      assert qs == front + [last];
      assert Charge(last) as real <= Excess(last) && (Whole(last) <==> Charge(last) as real == Excess(last));
      assert (forall q :: q in qs ==> Whole(q)) <==> (forall q :: q in front ==> Whole(q)) && Whole(last);
    }
  }

  /** The distances of a run keep the budget. */
  predicate KeepsBudget(qs: seq<Request>) {
    Excesses(qs) <= (CONFIG_SINK_MAXCOUNT + 10 * CountOf(qs, InSync)) as real
  }

  /** All but q are charged for what they are. */
  predicate WholeBut(qs: seq<Request>, q: Request) {
    forall r :: r in qs ==> r == q || Whole(r)
  }

  /** Which requests break the budget of the distances: a client whose other requests are all charged for
      what they are keeps it in every run that is not rejected, if and only if q itself is charged for what it
      is, or is rejected whenever it comes. */
  lemma FractionsDecide(q: Request)
    ensures (forall qs :: Clean(qs) && WholeBut(qs, q) ==> KeepsBudget(qs))
       <==> Whole(q) || CONFIG_SINK_MAXCOUNT < Charge(q)
  {
    hide Clean, Whole, Charge, KeepsBudget, CountOf, Excesses;
    if Whole(q) || CONFIG_SINK_MAXCOUNT < Charge(q) {
      forall qs | Clean(qs) && WholeBut(qs, q)
        ensures KeepsBudget(qs)
      {
        if q in qs && CONFIG_SINK_MAXCOUNT < Charge(q) {
          TooFarForAny(qs, q);
        }
        WholeKeeps(qs);
      }
    } else {
      Overspends(q);
      assert WholeBut(Spree(q), q) by {
        FillsUp(q);
      }
    }
  }

  lemma WholeKeeps(qs: seq<Request>)
    requires Clean(qs) && forall q :: q in qs ==> Whole(q)
    ensures KeepsBudget(qs)
  {
    hide Clean, Whole;
    WholeBudget(qs);
  }

  /** A request that is charged more than the limit is rejected at once. */
  lemma {:induction false} TooFarForAny(qs: seq<Request>, q: Request)
    requires q in qs && CONFIG_SINK_MAXCOUNT < Charge(q)
    ensures !Clean(qs)
  {
    var front, last := qs[..|qs| - 1], qs[|qs| - 1];
    assert qs == front + [last];
    if last == q {
      assert qs[..|qs|] == qs && Rejects(qs);
    } else {
      TooFarForAny(front, q);
      if Clean(qs) {
        CleanPrefix(qs);
      }
    }
  }

  /** As much beyond the limit as q leaves of the counter, and then q. */
  function Filler(q: Request): Request
    requires Charge(q) <= CONFIG_SINK_MAXCOUNT
  {
    Request(true, Idle, 0, SYNC_DISTANCE + (CONFIG_SINK_MAXCOUNT - Charge(q)) as real)
  }

  function Spree(q: Request): seq<Request>
    requires Charge(q) <= CONFIG_SINK_MAXCOUNT
  {
    if Charge(q) == CONFIG_SINK_MAXCOUNT then [q] else [Filler(q), q]
  }

  lemma FillsUp(q: Request)
    requires Charge(q) <= CONFIG_SINK_MAXCOUNT
    ensures Whole(Filler(q))
    ensures Charge(q) < CONFIG_SINK_MAXCOUNT ==>
              var f := Filler(q);
              && Charge(f) == CONFIG_SINK_MAXCOUNT - Charge(q) && Excess(f) == Charge(f) as real && !InSync(f)
  {
    WholeUnits(CONFIG_SINK_MAXCOUNT - Charge(q));
    hide Charge, Excess, InSync, Whole;
  }

  lemma WholeUnits(n: nat)
    ensures var f := Request(true, Idle, 0, SYNC_DISTANCE + n as real);
      Whole(f) && Charge(f) == n && Excess(f) == n as real && (0 < n ==> !InSync(f))
  {
    var d := SYNC_DISTANCE + n as real;
    assert d - SYNC_DISTANCE == n as real && (n as real).Floor == n;
  }

  /** It is not rejected, has no request in sync to pay with, and its charges use up the limit: what q is not
      charged for is beyond the budget. */
  lemma Overspends(q: Request)
    requires !Whole(q) && Charge(q) <= CONFIG_SINK_MAXCOUNT
    ensures Clean(Spree(q)) && !KeepsBudget(Spree(q))
  {
    FillsUp(q);
    FractionLost(q);
    var qs, f := Spree(q), Filler(q);
    hide Charge, Excess, InSync, Whole, TooEarly, OutOfSync, Filler;
    One(q);
    if Charge(q) < CONFIG_SINK_MAXCOUNT {
      One(f);
      assert [f, q][..1] == [f] && [f, q][1] == q;
      CleanLonger([f], q);
      assert [f] + [q] == [f, q];
    } else {
      CleanLonger([], q);
      assert [] + [q] == [q];
    }
  }

  lemma FractionLost(q: Request)
    requires !Whole(q)
    ensures OutOfSync(q) && !InSync(q) && !TooEarly(q) && Charge(q) as real < Excess(q)
  {
  }

  lemma One(q: Request)
    requires !InSync(q)
    ensures Count([q]) == Charge(q) && Excesses([q]) == Excess(q) && CountOf([q], InSync) == 0
    ensures Charge(q) <= CONFIG_SINK_MAXCOUNT ==> Clean([q])
  {
    hide Charge, Excess, TooEarly, OutOfSync;
    assert [q][..0] == [];
  }

  function Repeat(q: Request, n: nat): seq<Request> {
    if n == 0 then [] else Repeat(q, n - 1) + [q]
  }

  /** Without that, there is no bound: a client that stays half a unit beyond the allowed distance is
      never charged and never rejected. */
  lemma {:induction false} FractionsAreFree(n: nat)
    ensures var qs := Repeat(Request(true, Idle, 0, 100.5), n);
      Clean(qs) && Count(qs) == 0 && CountOf(qs, InSync) == 0 && Excesses(qs) == n as real * 0.5
  {
    var q := Request(true, Idle, 0, 100.5);
    if n > 0 {
      FractionsAreFree(n - 1);
      var qs, front := Repeat(q, n), Repeat(q, n - 1);
      assert qs[..|qs| - 1] == front;
      HalfUnit();
      hide Charge, Excess, InSync, TooEarly, OutOfSync;
      CleanLonger(front, q);
    }
  }

  lemma HalfUnit()
    ensures var q := Request(true, Idle, 0, 100.5); Charge(q) == 0 && !InSync(q) && Excess(q) == 0.5
  {
  }

  lemma CleanLonger(front: seq<Request>, q: Request)
    requires Clean(front) && !Rejects(front + [q])
    ensures Clean(front + [q])
  {
    var qs := front + [q];
    forall k | 1 <= k <= |qs|
      ensures !Rejects(qs[..k])
    {
      if k <= |front| {
        assert qs[..k] == front[..k];
      } else {
        assert qs[..k] == qs;
      }
    }
  }

  /** Away from zero, staying in sync pays the counter off. */
  lemma {:induction false} InSyncPaysOff(qs: seq<Request>, q: Request, n: nat)
    requires InSync(q) && Count(qs) >= 10 * n
    ensures Count(qs + Repeat(q, n)) <= Count(qs) - 10 * n || Count(qs + Repeat(q, n)) <= 10
  {
    if n == 0 {
      assert qs + Repeat(q, 0) == qs;
    } else {
      InSyncPaysOff(qs, q, n - 1);
      var run := qs + Repeat(q, n);
      assert run[..|run| - 1] == qs + Repeat(q, n - 1) && run[|run| - 1] == q;
    }
  }

  // ---- the runs of a player ------------------------------------------------------------------------------

  /** qs are the requests among es, as they meet player b on the way. */
  predicate Traced(b: Body, es: seq<Event>, qs: seq<Request>)
    decreases |es|
  {
    if es == [] then qs == []
    else if b.connected && (es[0].Start? || es[0].Stop?)
    then qs != [] && Meets(b, es[0], qs[0]) && Traced(After(b, es[0]), es[1..], qs[1..])
    else Traced(After(b, es[0]), es[1..], qs)
  }

  /** In every run of the player's state machine, the counter is that of its requests. */
  lemma {:induction false} RunCounts(t: Tally, es: seq<Event>, past: seq<Request>, qs: seq<Request>)
    requires t.body.sync == Count(past) && Traced(t.body, es, qs)
    ensures Run(t, es).body.sync == Count(past + qs)
    decreases |es|
  {
    hide Counted, After, Meets, Started, Stopped, Excess, Charge;
    if es == [] {
      assert past + qs == past;
    } else if t.body.connected && (es[0].Start? || es[0].Stop?) {
      StepCounts(t, es[0], qs[0]);
      var longer := past + [qs[0]];
      assert longer[..|longer| - 1] == past && longer + qs[1..] == past + qs;
      RunCounts(Next(t, es[0]), es[1..], longer, qs[1..]);
    } else {
      StepDoesNot(t, es[0]);
      RunCounts(Next(t, es[0]), es[1..], past, qs);
    }
  }

  lemma StepCounts(t: Tally, e: Event, q: Request)
    requires t.body.connected && Meets(t.body, e, q)
    ensures Next(t, e).body == After(t.body, e) && After(t.body, e).sync == Counted(t.body.sync, q)
  {
    hide Started, Stopped, Counted;
    HandlersCount(t.body, e, q);
  }

  lemma StepDoesNot(t: Tally, e: Event)
    requires !(t.body.connected && (e.Start? || e.Stop?))
    ensures Next(t, e).body == After(t.body, e) && After(t.body, e).sync == t.body.sync
  {
    hide Started, Stopped, Along, Knocked, M.DirectionTo;
    if !e.Start? && !e.Stop? {
      OthersDoNotCount(t.body, e);
    }
  }

  /** Over any run of a player up to the first rejection, hits, attacks and frames in between, the counter
      is at most 300, and the charges of its requests are within the budget. */
  lemma RunBudget(pos: Position, connected: bool, es: seq<Event>, qs: seq<Request>)
    requires Traced(Joined(pos, connected), es, qs) && Clean(qs)
    ensures Run(Newcomer(pos, connected), es).body.sync <= CONFIG_SINK_MAXCOUNT
    ensures Charges(qs) <= CONFIG_SINK_MAXCOUNT + 10 * CountOf(qs, InSync)
  {
    hide Run, Traced, Charges, CountOf, Count, Clean;
    assert [] + qs == qs;
    NothingCounted();
    RunCounts(Newcomer(pos, connected), es, [], qs);
    Budget(qs);
  }

  lemma NothingCounted()
    ensures Count([]) == 0
  {
  }
}

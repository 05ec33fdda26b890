/** The request queue between the field thread and the DB thread, with its two events. mHDBEvent is
    reset by the wait that it ends; mHDBFinishEvent stays set. */
module DbPipeline {
  type Job = int   // which request it is

  datatype DbPc =
    | Waiting
    | Woken(finished: bool)          // WaitForMultipleObjects has returned 0 or 1
    | Draining(left: nat)            // what remains of the queue size read after the wait
    | Working(job: Job, left: nat)   // dequeued
    | Answering(job: Job, left: nat) // executed
    | Exited

  /** unset: the field thread has enqueued a job and not yet set the event. */
  datatype Pipe = Pipe(reqQ: seq<Job>, event: bool, finish: bool, unset: bool, fieldDone: bool, db: DbPc,
                       enqueued: seq<Job>, executed: seq<Job>, answered: seq<Job>, underflow: bool)

  datatype Event = Enqueue(job: Job) | SignalJob | FieldExit | SignalAgain
                 | Wake | ReadSize | Dequeue | Execute | Answer

  function Next(x: Pipe, e: Event): Pipe {
    match e
    // fieldThread: requestXXX, and its end
    case Enqueue(j) =>
      if x.unset || x.fieldDone then x else x.(reqQ := x.reqQ + [j], unset := true, enqueued := x.enqueued + [j])
    case SignalJob => if x.unset then x.(event := true, unset := false) else x
    case FieldExit => if x.unset || x.fieldDone then x else x.(finish := true, fieldDone := true)
    // the destructor, after it has joined the field thread
    case SignalAgain => if x.fieldDone then x.(event := true) else x
    // dbThread; of two signalled objects the wait reports the first
    case Wake =>
      if x.db != Waiting then x
      else if x.event then x.(event := false, db := Woken(false))
      else if x.finish then x.(db := Woken(true))
      else x
    case ReadSize =>
      if !x.db.Woken? then x
      else if x.db.finished && x.reqQ == [] then x.(db := Exited)
      else x.(db := Draining(|x.reqQ|))
    case Dequeue =>
      if !x.db.Draining? then x
      else if x.db.left == 0 then x.(db := Waiting)
      else if x.reqQ == [] then x.(underflow := true)
      else x.(reqQ := x.reqQ[1..], db := Working(x.reqQ[0], x.db.left - 1))
    case Execute =>
      if x.db.Working? then x.(executed := x.executed + [x.db.job], db := Answering(x.db.job, x.db.left)) else x
    case Answer => if x.db.Answering? then x.(answered := x.answered + [x.db.job], db := Draining(x.db.left)) else x
  }

  function Init(): Pipe {
    Pipe([], false, false, false, false, Waiting, [], [], [], false)
  }

  function Run(es: seq<Event>): Pipe {
    if es == [] then Init() else Next(Run(es[..|es| - 1]), es[|es| - 1])
  }

  /** How many of the queued jobs the DB thread already knows of. */
  function Seen(db: DbPc): nat {
    match db
    case Draining(left) => left
    case Working(_, left) => left
    case Answering(_, left) => left
    case _ => 0
  }

  function InHand(db: DbPc): seq<Job> {
    if db.Working? then [db.job] else []
  }

  function Unanswered(db: DbPc): seq<Job> {
    if db.Answering? then [db.job] else []
  }

  predicate Inv(x: Pipe) {
    && x.enqueued == x.executed + InHand(x.db) + x.reqQ
    && x.executed == x.answered + Unanswered(x.db)
    && Seen(x.db) <= |x.reqQ|
    && (Seen(x.db) < |x.reqQ| && x.db != Woken(false) ==> x.event || x.unset)
    && (x.unset ==> !x.fieldDone) && (x.finish <==> x.fieldDone)
    && (x.db == Woken(true) || x.db == Exited ==> x.fieldDone && x.reqQ == [])
    && !x.underflow
  }

  lemma NextKeeps(x: Pipe, e: Event)
    requires Inv(x)
    ensures Inv(Next(x, e))
  {
    if e == Dequeue && x.reqQ != [] {
      assert x.reqQ == [x.reqQ[0]] + x.reqQ[1..];
    }
  }

  lemma {:induction false} RunInv(es: seq<Event>)
    ensures Inv(Run(es))
  {
    if es != [] {
      RunInv(es[..|es| - 1]);
      NextKeeps(Run(es[..|es| - 1]), es[|es| - 1]);
    }
  }

  /** The states that some run leads to. */
  ghost predicate Reachable(x: Pipe) {
    exists es: seq<Event> :: x == Run(es)
  }

  lemma ReachableInv(x: Pipe)
    requires Reachable(x)
    ensures Inv(x)
  {
    var es: seq<Event> :| x == Run(es);
    RunInv(es);
  }

  /** Every job is executed exactly once and in the order of the requests: at any time, what has been
      executed, the job at work and the queue are together what was requested; and every executed job
      but the last has been answered, in the same order. */
  lemma ExactlyOnceInOrder(x: Pipe)
    requires Reachable(x)
    ensures x.enqueued == x.executed + InHand(x.db) + x.reqQ
    ensures x.executed == x.answered + Unanswered(x.db)
  {
    ReachableInv(x);
  }

  /** The DB thread never sleeps on work: when it waits with a job queued, the event is set or the
      field thread is about to set it. */
  lemma NeverSleepsOnWork(x: Pipe)
    requires Reachable(x) && x.db == Waiting && x.reqQ != []
    ensures x.event || x.unset
  {
    ReachableInv(x);
  }

  /** It exits only after the field thread is done and every request has been executed and answered;
      after the field thread is done it can always wake up, and does not wait again for nothing. */
  lemma ExitsWhenDone(x: Pipe)
    requires Reachable(x)
    ensures x.db == Exited ==> x.fieldDone && x.reqQ == [] && x.answered == x.enqueued
    ensures x.fieldDone && x.db == Waiting ==> Next(x, Wake).db.Woken?
    ensures x.db == Woken(true) ==> Next(x, ReadSize).db == Exited
  {
    ReachableInv(x);
  }

  /** The size read after the wait is never more than what Dequeue finds. */
  lemma DequeueFindsAJob(x: Pipe)
    requires Reachable(x)
    ensures !x.underflow && (x.db.Draining? && x.db.left > 0 ==> x.reqQ != [])
  {
    ReachableInv(x);
  }

  // ---- every request is answered ------------------------------------------------------------------------

  function From(x: Pipe, es: seq<Event>): Pipe
    decreases |es|
  {
    if es == [] then x else From(Next(x, es[0]), es[1..])
  }

  predicate AllAnswered(x: Pipe) {
    x.reqQ == [] && x.answered == x.executed == x.enqueued
  }

  /** What happens next without a new request: the event is set if that is due, or the DB thread takes its next
      step. */
  function Due(x: Pipe): Event {
    if x.unset then SignalJob
    else match x.db
      case Waiting => Wake
      case Woken(_) => ReadSize
      case Draining(_) => Dequeue
      case Working(_, _) => Execute
      case Answering(_, _) => Answer
      case Exited => SignalAgain
  }

  /** How many such steps there are at most. */
  function Steps(x: Pipe): nat {
    6 * |x.reqQ| + (if x.unset then 1 else 0) +
      match x.db
      case Waiting => 4
      case Woken(_) => 3
      case Draining(left) => if left > 0 then 2 else 5
      case Working(_, _) => 7
      case Answering(_, _) => 6
      case Exited => 0
  }

  lemma DueComesNearer(x: Pipe)
    requires Inv(x) && !AllAnswered(x)
    ensures var y := Next(x, Due(x)); Inv(y) && Steps(y) < Steps(x) && y.enqueued == x.enqueued
  {
    NextKeeps(x, Due(x));
  }

  /** Every event is the due step. */
  ghost predicate StepByStep(x: Pipe, es: seq<Event>) {
    forall k :: 0 <= k < |es| ==> es[k] == Due(From(x, es[..k]))
  }

  lemma {:induction false} Answered(x: Pipe) returns (es: seq<Event>)
    requires Inv(x)
    ensures |es| <= Steps(x) && AllAnswered(From(x, es)) && From(x, es).enqueued == x.enqueued && StepByStep(x, es)
    decreases Steps(x)
  {
    hide Inv, Next, Steps, AllAnswered, Due;
    es := [];
    if !AllAnswered(x) {
      DueComesNearer(x);
      var rest := Answered(Next(x, Due(x)));
      es := [Due(x)] + rest;
      forall k | 0 <= k < |es|
        ensures es[k] == Due(From(x, es[..k]))
      {
        if k > 0 { assert es[..k][1..] == rest[..k - 1]; }
      }
    }
  }

  /** No request is forgotten: from wherever the two threads are, when the due steps are taken one after the
      other and no more requests come, a bounded number of them later all requests have been executed and
      answered. */
  lemma NoRequestForgotten(x: Pipe)
    requires Reachable(x)
    ensures exists es ::
              && StepByStep(x, es) && |es| <= Steps(x)
              && AllAnswered(From(x, es)) && From(x, es).enqueued == x.enqueued
  {
    hide Inv, AllAnswered, From, StepByStep, Steps;
    ReachableInv(x);
    var es := Answered(x);
  }
}

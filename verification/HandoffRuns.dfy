/** What becomes of saved positions over whole runs: the row of an account holds what its last successful save
    wrote, saves are executed in the order in which they were requested, and a login reads the last of them. */
module HandoffRuns {
  import opened Handoff

  /** An UPDATE that the DB thread has executed. */
  datatype Update = Update(job: Job, ok: bool)

  /** The save that the event executes. */
  function Executes(x: State, e: Event): seq<Update> {
    if e.Run? && x.db.Taken? && x.db.job.Save? then [Update(x.db.job, e.ok)] else []
  }

  /** The save that the event requests: the player is on the field and has lost its connection, and no save of
      it is pending. */
  function Asks(x: State, e: Event): seq<Job> {
    if e.RequestSave? && e.s in x.field && e.s !in x.connected && e.s !in x.pending && e.s in x.account
    then [Save(e.s, x.account[e.s], e.pos)] else []
  }

  /** The saves that were executed in a run, in order. */
  function Updates(es: seq<Event>): seq<Update> {
    if es == [] then [] else Updates(es[..|es| - 1]) + Executes(RunAll(es[..|es| - 1]), es[|es| - 1])
  }

  /** The saves that were requested in a run, in order. */
  function Requests(es: seq<Event>): seq<Job> {
    if es == [] then [] else Requests(es[..|es| - 1]) + Asks(RunAll(es[..|es| - 1]), es[|es| - 1])
  }

  /** The position that the last successful save of the account wrote; 0 before the first. */
  function LastSaved(us: seq<Update>, a: Account): int {
    if us == [] then 0
    else
      var u := us[|us| - 1];
      if u.ok && u.job.Save? && u.job.a == a then u.job.pos else LastSaved(us[..|us| - 1], a)
  }

  // ---- rows ---------------------------------------------------------------------------------------------

  /** A successful UPDATE writes the row of its account, and no other; a failed one writes nothing; and
      nothing else changes a row. */
  lemma RowsAfter(x: State, e: Event, a: Account)
    ensures var us := Executes(x, e);
      Stored(Next(x, e).store, a) ==
        if us != [] && us[0].ok && us[0].job.a == a then us[0].job.pos else Stored(x.store, a)
  {
    if e.Run? { RunIs(x, e.ok, a); }
    hide Next, Stored;
  }

  lemma RunIs(x: State, ok: bool, a: Account)
    ensures Stored(Next(x, Run(ok)).store, a) ==
              if x.db.Taken? && x.db.job.Save? && ok && x.db.job.a == a then x.db.job.pos else Stored(x.store, a)
  {
  }

  /** After every run each row holds what the last successful save of its account wrote. */
  lemma {:induction false} StoreIsLastSaved(es: seq<Event>, a: Account)
    ensures Stored(RunAll(es).store, a) == LastSaved(Updates(es), a)
  {
    if es != [] {
      var front, e, x := es[..|es| - 1], es[|es| - 1], RunAll(es[..|es| - 1]);
      StoreIsLastSaved(front, a);
      RowsAfter(x, e, a);
      hide Stored, Next, LastSaved, Executes;
      AtMostOne(x, e);
      LastSavedMore(Updates(front), Executes(x, e), a);
    }
  }

  lemma AtMostOne(x: State, e: Event)
    ensures |Executes(x, e)| <= 1 && forall u :: u in Executes(x, e) ==> u.job.Save?
  {
  }

  lemma LastSavedMore(us: seq<Update>, more: seq<Update>, a: Account)
    requires |more| <= 1 && forall u :: u in more ==> u.job.Save?
    ensures LastSaved(us + more, a) == if more != [] && more[0].ok && more[0].job.a == a then more[0].job.pos
                                       else LastSaved(us, a)
  {
    if more == [] {
      assert us + more == us;
    } else {
      assert (us + more)[..|us|] == us && (us + more)[|us|] == more[0];
    }
  }

  // ---- the order of saves ----------------------------------------------------------------------------------

  function JobsOf(us: seq<Update>): seq<Job> {
    seq(|us|, i requires 0 <= i < |us| => us[i].job)
  }

  /** The saves among the jobs. */
  function SaveJobs(q: seq<Job>): seq<Job> {
    if q == [] then [] else (if q[0].Save? then [q[0]] else []) + SaveJobs(q[1..])
  }

  lemma {:induction false} SaveJobsMore(q: seq<Job>, j: Job)
    ensures SaveJobs(q + [j]) == SaveJobs(q) + if j.Save? then [j] else []
  {
    if q == [] {
      assert q + [j] == [j] && [j][1..] == [];
    } else {
      SaveJobsMore(q[1..], j);
      assert (q + [j])[1..] == q[1..] + [j];
    }
  }

  /** The saves that are requested and not executed: the one at work, and the queued ones. */
  function Outstanding(x: State): seq<Job> {
    (if x.db.Taken? && x.db.job.Save? then [x.db.job] else []) + SaveJobs(x.reqQ)
  }

  /** A step executes the first of the outstanding saves, or adds one at the end. */
  lemma OutstandingAfter(x: State, e: Event)
    ensures JobsOf(Executes(x, e)) + Outstanding(Next(x, e)) == Outstanding(x) + Asks(x, e)
  {
    hide Next, SaveJobs, Outstanding;
    match e {
      case RequestSave(s, pos) => RequestJobs(x, s, pos);
      case Run(ok) => RunJobs(x, ok);
      case RequestOther => NoSaveMoves(x, e);
      case Take => NoSaveMoves(x, e);
      case Answer => NoSaveMoves(x, e);
      case _ => OthersKeepJobs(x, e);
    }
  }

  lemma NoSaveMoves(x: State, e: Event)
    requires e.RequestOther? || e.Take? || e.Answer?
    ensures Outstanding(Next(x, e)) == Outstanding(x)
  {
    SaveJobsMore(x.reqQ, Other);
  }

  lemma OthersKeepJobs(x: State, e: Event)
    requires !e.RequestSave? && !e.RequestOther? && !e.Run? && !e.Take? && !e.Answer?
    ensures Outstanding(Next(x, e)) == Outstanding(x)
  {
    hide Next, SaveJobs;
  }

  lemma RequestJobs(x: State, s: Session, pos: int)
    ensures Outstanding(Next(x, RequestSave(s, pos))) == Outstanding(x) + Asks(x, RequestSave(s, pos))
  {
    if s in x.account { SaveJobsMore(x.reqQ, Save(s, x.account[s], pos)); }
    hide SaveJobs;
  }

  lemma RunJobs(x: State, ok: bool)
    ensures JobsOf(Executes(x, Run(ok))) + Outstanding(Next(x, Run(ok))) == Outstanding(x)
  {
    hide SaveJobs;
  }

  /** Requested saves are executed in order: those executed, the one at work and the queued ones are, in this
      order, those requested. */
  lemma {:induction false} SavesInOrder(es: seq<Event>)
    ensures Requests(es) == JobsOf(Updates(es)) + Outstanding(RunAll(es))
  {
    if es != [] {
      var front, e, x := es[..|es| - 1], es[|es| - 1], RunAll(es[..|es| - 1]);
      SavesInOrder(front);
      OutstandingAfter(x, e);
      JobsInParts(Updates(front), Executes(x, e));
      hide Next, Outstanding, Asks, Executes, JobsOf;
      Regroup(JobsOf(Updates(front)), Outstanding(x), Asks(x, e), JobsOf(Executes(x, e)), Outstanding(Next(x, e)));
    }
  }

  lemma JobsInParts(us: seq<Update>, vs: seq<Update>)
    ensures JobsOf(us + vs) == JobsOf(us) + JobsOf(vs)
  {
  }

  lemma Regroup(done: seq<Job>, out: seq<Job>, asked: seq<Job>, more: seq<Job>, rest: seq<Job>)
    requires more + rest == out + asked
    ensures (done + out) + asked == (done + more) + rest
  {
    assert (done + out) + asked == done + (out + asked) && (done + more) + rest == done + (more + rest);
  }

  // ---- what a request and a login may count on -------------------------------------------------------------

  lemma {:induction false} RequestsGrow(es: seq<Event>, fs: seq<Event>)
    ensures Requests(es) <= Requests(es + fs)
  {
    if fs == [] {
      assert es + fs == es;
    } else {
      RequestsGrow(es, fs[..|fs| - 1]);
      hide Asks, RunAll;
      assert (es + fs)[..|es + fs| - 1] == es + fs[..|fs| - 1];
    }
  }

  lemma {:induction false} LastSavedAt(us: seq<Update>, n: nat, a: Account)
    requires n < |us| && us[n].ok && us[n].job.Save? && us[n].job.a == a
    requires forall i :: n < i < |us| && us[i].ok && us[i].job.Save? ==> us[i].job.a != a
    ensures LastSaved(us, a) == us[n].job.pos
  {
    if n < |us| - 1 {
      LastSavedAt(us[..|us| - 1], n, a);
    }
  }

  /** A request that is heard is kept: when its save has been executed with success, and no later save of the
      account has, the row holds its position, whatever else has happened since. */
  lemma SaveIsKept(es: seq<Event>, s: Session, pos: int, fs: seq<Event>)
    requires Asks(RunAll(es), RequestSave(s, pos)) != []
    ensures var a := RunAll(es).account[s]; var all := es + [RequestSave(s, pos)] + fs;
      var n, us := |Requests(es)|, Updates(all);
      n < |us| ==>
        && us[n].job == Save(s, a, pos)
        && (us[n].ok && (forall i :: n < i < |us| && us[i].ok && us[i].job.Save? ==> us[i].job.a != a) ==>
              Stored(RunAll(all).store, a) == pos)
  {
    var e, a := RequestSave(s, pos), RunAll(es).account[s];
    var all, n := es + [e] + fs, |Requests(es)|;
    var us := Updates(all);
    SavesInOrder(all);
    RequestsGrow(es + [e], fs);
    assert (es + [e])[..|es|] == es;
    hide Next, RunAll, Stored, Outstanding, Updates;
    assert Requests(es + [e]) == Requests(es) + [Save(s, a, pos)];
    if n < |us| {
      assert us[n].job == JobsOf(us)[n] == Requests(all)[n] == Requests(es + [e])[n];
      StoreIsLastSaved(all, a);
      if us[n].ok && (forall i :: n < i < |us| && us[i].ok && us[i].job.Save? ==> us[i].job.a != a) {
        LastSavedAt(us, n, a);
      }
    }
  }

  /** The position that was requested last for the account; 0 before the first request. */
  function LastAsked(js: seq<Job>, a: Account): int {
    if js == [] then 0
    else
      var j := js[|js| - 1];
      if j.Save? && j.a == a then j.pos else LastAsked(js[..|js| - 1], a)
  }

  lemma {:induction false} AskedOthers(js: seq<Job>, more: seq<Job>, a: Account)
    requires forall j :: j in more && j.Save? ==> j.a != a
    ensures LastAsked(js + more, a) == LastAsked(js, a)
  {
    if more == [] {
      assert js + more == js;
    } else {
      AskedOthers(js, more[..|more| - 1], a);
      assert (js + more)[..|js + more| - 1] == js + more[..|more| - 1];
      assert (js + more)[|js + more| - 1] == more[|more| - 1];
      assert more[|more| - 1] in more;
    }
  }

  lemma {:induction false} SavedIsAsked(us: seq<Update>, a: Account)
    requires forall u :: u in us && u.job.Save? && u.job.a == a ==> u.ok
    ensures LastSaved(us, a) == LastAsked(JobsOf(us), a)
  {
    if us != [] {
      SavedIsAsked(us[..|us| - 1], a);
      assert JobsOf(us)[..|us| - 1] == JobsOf(us[..|us| - 1]);
    }
  }

  lemma {:induction false} SaveJobsOnly(q: seq<Job>, j: Job)
    ensures j in SaveJobs(q) ==> j.Save? && j in q
  {
    if q != [] {
      SaveJobsOnly(q[1..], j);
    }
  }

  lemma NoneOutstanding(x: State)
    requires Reachable(x) && x.pc.Selected? && x.pc.a !in x.hash
    ensures x.pc.pos == Stored(x.store, x.pc.a)
    ensures forall j :: j in Outstanding(x) && j.Save? ==> j.a != x.pc.a
  {
    hide Next, Stored, Reachable;
    LoginIsFresh(x);
    forall j | j in Outstanding(x) && j.Save?
      ensures j.a != x.pc.a
    {
      SaveJobsOnly(x.reqQ, j);
    }
  }

  /** A login that is admitted reads the position of the last successful save of its account; so if no save of
      it has failed, the position that was requested last. */
  lemma LoginReadsLast(es: seq<Event>)
    requires RunAll(es).pc.Selected? && RunAll(es).pc.a !in RunAll(es).hash
    ensures var x := RunAll(es);
      && x.pc.pos == LastSaved(Updates(es), x.pc.a)
      && ((forall u :: u in Updates(es) && u.job.Save? && u.job.a == x.pc.a ==> u.ok) ==>
            x.pc.pos == LastAsked(Requests(es), x.pc.a))
  {
    hide Next, Stored, Outstanding, Updates, Requests;
    var x, a := RunAll(es), RunAll(es).pc.a;
    NoneOutstanding(x);
    StoreIsLastSaved(es, a);
    SavesInOrder(es);
    AskedOthers(JobsOf(Updates(es)), Outstanding(x), a);
    if forall u :: u in Updates(es) && u.job.Save? && u.job.a == a ==> u.ok {
      SavedIsAsked(Updates(es), a);
    }
  }
}

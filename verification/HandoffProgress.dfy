/** Nobody is locked out: from wherever the three threads are, every account can come into play again. */
module HandoffProgress {
  import opened Handoff

  /** How far a player is on its way. */
  function Rank(p: Place): nat {
    match p
    case Waiting => 0
    case Importable => 1
    case Admitted => 2
    case Registering => 3
    case Playing => 4
    case SaveQueued => 5
    case SaveTaken => 6
    case SaveRun => 7
    case SaveAnswered => 8
    case Noticed => 9
    case Returned => 10
    case Deleted => 11
  }

  ghost predicate Ahead(p: Map, q: Map) {
    forall s :: s in p ==> s in q && Rank(p[s]) <= Rank(q[s])
  }

  /** Players go forward only, in every step. */
  lemma GoesForward(x: State, e: Event)
    requires Inv(x)
    ensures Ahead(x.place, Next(x, e).place)
  {
    hide Inv;
    match e
    case Accept(s) =>
    case ImportAll => ImportGoes(x);
    case Decide => DecideGoes(x);
    case Notice => NoticeGoes(x);
    case Delete => DeleteGoes(x);
    case Leave => LeaveGoes(x);
    case RegisterPlayer => RegisterGoes(x);
    case RequestSave(s, pos) => RequestGoes(x, s, pos);
    case Result => ResultGoes(x);
    case Take => TakeGoes(x);
    case Run(ok) => RunGoes(x, ok);
    case Answer => AnswerGoes(x);
    case _ => OthersGo(x, e);
  }

  lemma OthersGo(x: State, e: Event)
    requires e.Release? || e.Select? || e.PacketsDone? || e.NoticesDone? || e.Look? || e.LookDone? || e.ActDone?
             || e.RequestOther?
    ensures Next(x, e).place == x.place
  {
    hide SelectStep, PacketsDoneStep, NoticesDoneStep, LookStep, LookDoneStep, ActDoneStep, ReleaseStep,
      RequestOtherStep;
  }

  lemma ImportGoes(x: State)
    ensures Ahead(x.place, ImportStep(x).place)
  {
  }

  lemma DecideGoes(x: State)
    requires Inv(x)
    ensures Ahead(x.place, DecideStep(x).place)
  {
    hide Places, Jobs, Queues, Notified, Accounts, Living, Balanced;
  }

  lemma NoticeGoes(x: State)
    requires Inv(x)
    ensures Ahead(x.place, NoticeStep(x).place)
  {
    hide Places, Jobs, Queues, Accounts, Living, Balanced, PcOk;
    if x.noticeQ != [] {
      assert x.noticeQ[0] in x.noticeQ;
    }
  }

  lemma DeleteGoes(x: State)
    ensures Ahead(x.place, DeleteStep(x).place)
  {
  }

  lemma LeaveGoes(x: State)
    requires Inv(x)
    ensures Ahead(x.place, LeaveStep(x).place)
  {
    hide Places, Jobs, Queues, Notified, Accounts, Living, Balanced, ListsOk;
    if x.pc.Acting? && x.pc.leave != [] {
      LeaveHead(x.auth, x.connected, x.place, x.pc.dis, x.pc.leave);
    }
  }

  lemma RegisterGoes(x: State)
    requires Inv(x)
    ensures Ahead(x.place, RegisterStep(x).place)
  {
    hide Places, Jobs, Queues, Notified, Accounts, Living, Balanced, PcOk;
    if x.registerQ != [] {
      RegisterQueues(x, x.registerQ[0]);
    }
  }

  lemma RequestGoes(x: State, s: Session, pos: int)
    requires Inv(x)
    ensures Ahead(x.place, RequestSaveStep(x, s, pos).place)
  {
    hide Places, Jobs, Queues, Notified, Accounts, Living, Balanced, PcOk;
    Whereabouts(x, s);
  }

  lemma ResultGoes(x: State)
    requires Inv(x)
    ensures Ahead(x.place, ResultStep(x).place)
  {
    hide Places, Jobs, Queues, Notified, Accounts, Living, Balanced, PcOk;
    if x.resQ != [] {
      ResultQueues(x);
    }
  }

  lemma TakeGoes(x: State)
    requires Inv(x)
    ensures Ahead(x.place, TakeStep(x).place)
  {
    hide Places, Jobs, Queues, Notified, Accounts, Living, Balanced, PcOk;
    if x.db == Idle && x.reqQ != [] {
      TakeQueues(x);
    }
  }

  lemma RunGoes(x: State, ok: bool)
    requires Inv(x)
    ensures Ahead(x.place, RunStep(x, ok).place)
  {
    hide Places, Jobs, Queues, Notified, Accounts, Living, Balanced, PcOk;
    if x.db.Taken? {
      RunQueues(x, x.db.job);
    }
  }

  lemma AnswerGoes(x: State)
    requires Inv(x)
    ensures Ahead(x.place, AnswerStep(x).place)
  {
    hide Places, Jobs, Queues, Notified, Accounts, Living, Balanced, PcOk;
    if x.db.Done? {
      AnswerQueues(x, x.db.job);
    }
  }

  // ---- runs from a state ------------------------------------------------------------------------------------

  function From(x: State, es: seq<Event>): State {
    if es == [] then x else Next(From(x, es[..|es| - 1]), es[|es| - 1])
  }

  ghost predicate CanReach(x: State, y: State) {
    exists es: seq<Event> :: y == From(x, es)
  }

  lemma Stay(x: State)
    ensures CanReach(x, x)
  {
    assert x == From(x, []);
  }

  lemma OneStep(x: State, y: State, e: Event)
    requires CanReach(x, y)
    ensures CanReach(x, Next(y, e))
  {
    hide Next;
    var es: seq<Event> :| y == From(x, es);
    assert (es + [e])[..|es|] == es;
    assert Next(y, e) == From(x, es + [e]);
  }

  lemma MoreSteps(x: State, y: State, z: State)
    requires CanReach(x, y) && CanReach(y, z)
    ensures CanReach(x, z)
  {
    hide Next;
    var es: seq<Event> :| y == From(x, es);
    var fs: seq<Event> :| z == From(y, fs);
    Joined(x, es, fs);
    assert z == From(x, es + fs);
  }

  lemma {:induction false} Joined(x: State, es: seq<Event>, fs: seq<Event>)
    ensures From(x, es + fs) == From(From(x, es), fs)
  {
    hide Next;
    if fs == [] {
      assert es + fs == es;
    } else {
      Joined(x, es, fs[..|fs| - 1]);
      assert (es + fs)[..|es + fs| - 1] == es + fs[..|fs| - 1];
    }
  }

  // ---- driving one player -----------------------------------------------------------------------------------

  /** Nobody is about to be admitted; the account is free, or player s has it and has come so far. */
  ghost predicate Driven(x: State, s: Session, a: Account, r: nat) {
    && Inv(x) && !x.pc.Selected?
    && (a !in x.hash ||
        (s in x.account && x.account[s] == a && s in x.place && Held(x.place[s]) && r <= Rank(x.place[s])))
  }

  ghost predicate Steady(x: State, y: State) {
    y.connected == x.connected && y.account == x.account && y.logins == x.logins
  }

  lemma NobodySelected(x: State, e: Event)
    requires !x.pc.Selected? && !e.Select? && !e.Accept? && !e.Release?
    ensures NobodyEnters(x, Next(x, e)) && !Next(x, e).pc.Selected?
  {
    if e.Decide? { NothingDecided(x); } else { OthersQuiet(x, e); }
    hide Next;
  }

  lemma NothingDecided(x: State)
    requires !x.pc.Selected?
    ensures Next(x, Decide) == x
  {
  }

  lemma OthersQuiet(x: State, e: Event)
    requires !e.Select? && !e.Accept? && !e.Release? && !e.Decide?
    ensures NobodyEnters(x, Next(x, e))
  {
    hide ImportStep, SelectStep, NoticeStep, LookStep, DeleteStep, LeaveStep, RegisterStep, ResultStep,
      RequestSaveStep, TakeStep, RunStep, AnswerStep, PacketsDoneStep, NoticesDoneStep, LookDoneStep, ActDoneStep,
      RequestOtherStep, NobodyEnters;
  }

  lemma DrivenStep(x: State, e: Event, s: Session, a: Account, r: nat)
    requires Driven(x, s, a, r) && !e.Select? && !e.Accept? && !e.Release?
    ensures var y := Next(x, e);
      && Driven(y, s, a, r) && Steady(x, y)
      && (s in x.place ==> s in y.place && Rank(x.place[s]) <= Rank(y.place[s]))
  {
    hide Next, Places, Jobs, Queues, Notified, Living, Balanced, PcOk;
    NextKeeps(x, e);
    NobodySelected(x, e);
    GoesForward(x, e);
  }

  // ---- the authentication thread comes round --------------------------------------------------------------------

  /** x may be led to y: the connections and rows are as they were, and the account is free or player s of it
      has come as far as r. */
  ghost predicate Leads(x: State, y: State, s: Session, a: Account, r: nat) {
    CanReach(x, y) && Driven(y, s, a, r) && Steady(x, y) && y.store == x.store
  }

  lemma LeadsOn(x: State, y: State, z: State, s: Session, a: Account, r: nat, q: nat)
    requires Leads(x, y, s, a, r) && Leads(y, z, s, a, q)
    ensures Leads(x, z, s, a, q)
  {
    hide Driven;
    MoreSteps(x, y, z);
  }

  lemma LeadsStep(x: State, e: Event, s: Session, a: Account, r: nat)
    requires Driven(x, s, a, r) && !e.Select? && !e.Accept? && !e.Release?
    ensures e.Run? || Leads(x, Next(x, e), s, a, r)
    ensures CanReach(x, Next(x, e)) && Driven(Next(x, e), s, a, r) && Steady(x, Next(x, e))
  {
    DrivenStep(x, e, s, a, r);
    hide Next, Driven, CanReach;
    Stay(x);
    OneStep(x, x, e);
  }

  lemma LookIs(x: State, t: Session)
    requires x.pc.Looking? && t in x.pc.todo
    ensures var z := Next(x, Look(t));
      && z == x.(pc := z.pc) && z.pc.Looking? && z.pc.todo == x.pc.todo - {t}
      && z.pc.dis == x.pc.dis + (if t !in x.connected then [t] else [])
      && z.pc.leave == x.pc.leave + (if t in x.connected && t in x.account then [t] else [])
  {
  }

  lemma OneOf<T>(q: set<T>) returns (t: T)
    requires q != {}
    ensures t in q
  {
    t :| t in q;
  }

  /** checkDisConnectedAndLeavePlayer looks at everybody. */
  lemma {:induction false} LookAll(x: State, s: Session, a: Account, r: nat) returns (y: State)
    requires Driven(x, s, a, r) && x.pc.Looking?
    ensures Leads(x, y, s, a, r) && y.pc.Looking? && y.pc.todo == {}
    ensures s in x.pc.dis || (s in x.pc.todo && s !in x.connected) ==> s in y.pc.dis
    ensures s in x.pc.leave || (s in x.pc.todo && s in x.connected && s in x.account) ==> s in y.pc.leave
    decreases |x.pc.todo|
  {
    hide Next, Driven, CanReach;
    Stay(x);
    y := x;
    if x.pc.todo != {} {
      var t := OneOf(x.pc.todo);
      LookIs(x, t);
      LeadsStep(x, Look(t), s, a, r);
      y := LookAll(Next(x, Look(t)), s, a, r);
      LeadsOn(x, Next(x, Look(t)), y, s, a, r, r);
    }
  }

  lemma DeleteIs(x: State)
    requires x.pc.Acting? && x.pc.dis != []
    ensures var z := Next(x, Delete);
      z.pc == Acting(x.pc.dis[1..], x.pc.leave) && x.pc.dis[0] in z.place && z.place[x.pc.dis[0]] == Deleted
  {
  }

  lemma LeaveIs(x: State)
    requires Inv(x) && x.pc.Acting? && x.pc.dis == [] && x.pc.leave != []
    ensures var z := Next(x, Leave);
      z.pc == Acting([], x.pc.leave[1..]) && x.pc.leave[0] in z.place && z.place[x.pc.leave[0]] == Registering
  {
    hide Jobs, Queues, Notified, Accounts, Living, Balanced, ListsOk, Exactly;
    LeaveHead(x.auth, x.connected, x.place, x.pc.dis, x.pc.leave);
    Whereabouts(x, x.pc.leave[0]);
  }

  /** The disconnected are deleted and the others passed on. */
  lemma {:induction false} ActAll(x: State, s: Session, a: Account, r: nat) returns (y: State)
    requires Driven(x, s, a, r) && x.pc.Acting?
    ensures Leads(x, y, s, a, r) && y.pc == Acting([], [])
    ensures s in x.pc.dis || s in x.pc.leave ==> Driven(y, s, a, 3)
    decreases |x.pc.dis| + |x.pc.leave|
  {
    hide Next, CanReach, Inv;
    Stay(x);
    y := x;
    if x.pc.dis != [] || x.pc.leave != [] {
      var e := if x.pc.dis != [] then Delete else Leave;
      var t := if x.pc.dis != [] then x.pc.dis[0] else x.pc.leave[0];
      LeadsStep(x, e, s, a, r);
      if x.pc.dis != [] { DeleteIs(x); } else { LeaveIs(x); }
      var z := Next(x, e);
      var q := if s == t && r < 3 then 3 else r;
      assert Driven(z, s, a, q);
      y := ActAll(z, s, a, q);
      LeadsOn(x, z, y, s, a, r, q);
    }
  }

  lemma PhaseIs(x: State)
    ensures x.pc == Packets ==> Next(x, PacketsDone) == x.(pc := Notices)
    ensures x.pc == Notices ==> Next(x, NoticesDone) == x.(pc := Looking(x.auth, [], []))
  {
  }

  lemma CheckIs(x: State)
    ensures x.pc.Looking? && x.pc.todo == {} ==> Next(x, LookDone) == x.(pc := Acting(x.pc.dis, x.pc.leave))
    ensures x.pc == Acting([], []) ==> Next(x, ActDone) == x.(pc := Import)
    ensures x.pc == Import ==> Next(x, ImportAll).pc == Packets && Next(x, ImportAll).auth == x.auth + x.unauth
  {
  }

  /** From the second half of the check to the next round. */
  lemma ActRound(x: State, s: Session, a: Account, r: nat) returns (y: State)
    requires Driven(x, s, a, r) && x.pc.Acting?
    ensures Leads(x, y, s, a, r) && y.pc == Import
    ensures s in x.pc.dis || s in x.pc.leave ==> Driven(y, s, a, 3)
  {
    hide Next, CanReach, Driven;
    var z := ActAll(x, s, a, r);
    CheckIs(z);
    LeadsStep(z, ActDone, s, a, r);
    y := Next(z, ActDone);
    LeadsOn(x, z, y, s, a, r, r);
    if s in x.pc.dis || s in x.pc.leave { LeadsStep(z, ActDone, s, a, 3); }
  }

  lemma LookRound(x: State, s: Session, a: Account, r: nat) returns (y: State)
    requires Driven(x, s, a, r) && x.pc.Looking?
    ensures Leads(x, y, s, a, r) && y.pc == Import
    ensures s in x.pc.todo && (s !in x.connected || s in x.account) ==> Driven(y, s, a, 3)
  {
    hide Next, CanReach, Driven;
    var z := LookAll(x, s, a, r);
    CheckIs(z);
    LeadsStep(z, LookDone, s, a, r);
    var w := Next(z, LookDone);
    y := ActRound(w, s, a, r);
    LeadsOn(x, z, w, s, a, r, r);
    LeadsOn(x, w, y, s, a, r, r);
  }

  lemma NoticeRound(x: State, s: Session, a: Account, r: nat) returns (y: State)
    requires Driven(x, s, a, r) && x.pc == Notices
    ensures Leads(x, y, s, a, r) && y.pc == Import
    ensures s in x.auth && (s !in x.connected || s in x.account) ==> Driven(y, s, a, 3)
  {
    hide Next, CanReach, Driven;
    PhaseIs(x);
    LeadsStep(x, NoticesDone, s, a, r);
    y := LookRound(Next(x, NoticesDone), s, a, r);
    LeadsOn(x, Next(x, NoticesDone), y, s, a, r, r);
  }

  lemma PacketRound(x: State, s: Session, a: Account, r: nat) returns (y: State)
    requires Driven(x, s, a, r) && x.pc == Packets
    ensures Leads(x, y, s, a, r) && y.pc == Import
    ensures s in x.auth && (s !in x.connected || s in x.account) ==> Driven(y, s, a, 3)
  {
    hide Next, CanReach, Driven;
    PhaseIs(x);
    LeadsStep(x, PacketsDone, s, a, r);
    y := NoticeRound(Next(x, PacketsDone), s, a, r);
    LeadsOn(x, Next(x, PacketsDone), y, s, a, r, r);
  }

  /** The thread comes to the start of its loop. */
  lemma ToImport(x: State, s: Session, a: Account, r: nat) returns (y: State)
    requires Driven(x, s, a, r)
    ensures Leads(x, y, s, a, r) && y.pc == Import
  {
    hide Next, CanReach, Inv;
    Stay(x);
    match x.pc {
      case Import => y := x;
      case Packets => y := PacketRound(x, s, a, r);
      case Notices => y := NoticeRound(x, s, a, r);
      case Looking(_, _, _) => y := LookRound(x, s, a, r);
      case Acting(_, _) => y := ActRound(x, s, a, r);
    }
  }

  /** The thread comes to the notices of the field. */
  lemma ToNotices(x: State, s: Session, a: Account, r: nat) returns (y: State)
    requires Driven(x, s, a, r)
    ensures Leads(x, y, s, a, r) && y.pc == Notices
  {
    hide Next, CanReach, Driven;
    var z := ToImport(x, s, a, r);
    CheckIs(z);
    LeadsStep(z, ImportAll, s, a, r);
    var w := Next(z, ImportAll);
    PhaseIs(w);
    LeadsStep(w, PacketsDone, s, a, r);
    y := Next(w, PacketsDone);
    LeadsOn(x, z, w, s, a, r, r);
    LeadsOn(x, w, y, s, a, r, r);
  }

  /** A whole round: an authenticated player is passed on, or deleted if its connection is lost. */
  lemma WholeRound(x: State, s: Session, a: Account, r: nat) returns (y: State)
    requires Driven(x, s, a, r) && x.pc == Import && s in x.auth && s in x.account
    ensures Leads(x, y, s, a, r) && Driven(y, s, a, 3)
  {
    hide Next, CanReach, Driven;
    CheckIs(x);
    LeadsStep(x, ImportAll, s, a, r);
    var z := Next(x, ImportAll);
    y := PacketRound(z, s, a, r);
    LeadsOn(x, z, y, s, a, r, r);
  }

  // ---- every place is left ------------------------------------------------------------------------------------

  /** Places in a queue, or with the DB thread. */
  predicate InLine(p: Place) {
    p == Registering || p == SaveQueued || p == SaveTaken || p == SaveRun || p == SaveAnswered
  }

  /** What brings a player on from there. */
  function Push(x: State, p: Place): Event {
    match p
    case Registering => RegisterPlayer
    case SaveQueued => if x.db.Idle? then Take else if x.db.Taken? then Run(true) else Answer
    case SaveTaken => Run(true)
    case SaveRun => Answer
    case _ => Result
  }

  /** How often. */
  function Left(x: State, p: Place): nat {
    match p
    case Registering => |x.registerQ|
    case SaveQueued => 3 * |x.reqQ| + if x.db.Idle? then 0 else if x.db.Taken? then 2 else 1
    case SaveAnswered => |x.resQ|
    case _ => 0
  }

  lemma PushMoves(x: State, s: Session)
    requires Inv(x) && s in x.place && InLine(x.place[s])
    ensures var p := x.place[s]; var y := Next(x, Push(x, p));
      s in y.place && (y.place[s] == p ==> Left(y, p) < Left(x, p))
  {
    hide Inv, Next;
    match x.place[s]
    case Registering => RegisterMoves(x, s);
    case SaveQueued => QueueMoves(x, s);
    case SaveTaken => RunMoves(x, s);
    case SaveRun => AnswerMoves(x, s);
    case _ => ResultMoves(x, s);
  }

  lemma RegisterMoves(x: State, s: Session)
    requires Inv(x) && s in x.place && x.place[s] == Registering
    ensures var y := Next(x, RegisterPlayer); s in y.place && |y.registerQ| < |x.registerQ|
  {
    hide Places, Jobs, Notified, Accounts, Living, Balanced, PcOk;
    assert s in x.registerQ;
  }

  lemma QueueMoves(x: State, s: Session)
    requires Inv(x) && s in x.place && x.place[s] == SaveQueued
    ensures var y := Next(x, Push(x, SaveQueued)); s in y.place && Left(y, SaveQueued) < Left(x, SaveQueued)
  {
    GoesForward(x, Push(x, SaveQueued));
    hide Places, Jobs, Notified, Accounts, Living, Balanced, PcOk, OnceEach, Next;
    InQueue(x.place, x.reqQ, s);
    match x.db
    case Idle => TakeMoves(x);
    case Taken(_) => DbMoves(x);
    case Done(_) => DbMoves(x);
  }

  lemma InQueue(place: Map, reqQ: seq<Job>, s: Session)
    requires OnceEach(place, Saves(reqQ), SaveQueued) && s in place && place[s] == SaveQueued
    ensures reqQ != []
  {
    assert s in Saves(reqQ);
  }

  lemma TakeMoves(x: State)
    requires x.db == Idle && x.reqQ != []
    ensures var y := Next(x, Take); y.reqQ == x.reqQ[1..] && y.db.Taken?
  {
  }

  lemma DbMoves(x: State)
    ensures x.db.Taken? ==> Next(x, Run(true)).reqQ == x.reqQ && Next(x, Run(true)).db.Done?
    ensures x.db.Done? ==> Next(x, Answer).reqQ == x.reqQ && Next(x, Answer).db == Idle
  {
    hide Get;
  }

  lemma RunMoves(x: State, s: Session)
    requires Inv(x) && s in x.place && x.place[s] == SaveTaken
    ensures var y := Next(x, Run(true)); s in y.place && y.place[s] == SaveRun
  {
    hide Places, Jobs, Notified, Accounts, Living, Balanced, PcOk;
    assert s in AtWork(x.db, false);
  }

  lemma AnswerMoves(x: State, s: Session)
    requires Inv(x) && s in x.place && x.place[s] == SaveRun
    ensures var y := Next(x, Answer); s in y.place && y.place[s] == SaveAnswered
  {
    hide Places, Jobs, Notified, Accounts, Living, Balanced, PcOk;
    assert s in AtWork(x.db, true);
  }

  lemma ResultMoves(x: State, s: Session)
    requires Inv(x) && s in x.place && x.place[s] == SaveAnswered
    ensures var y := Next(x, Result); s in y.place && |y.resQ| < |x.resQ|
  {
    hide Places, Jobs, Notified, Accounts, Living, Balanced, PcOk;
    assert s in Saves(x.resQ);
  }

  /** x may be led to y, where the account is free or player s of it has come as far as r. */
  ghost predicate Brings(x: State, y: State, s: Session, a: Account, r: nat) {
    CanReach(x, y) && Driven(y, s, a, r) && Steady(x, y)
  }

  lemma BringsOn(x: State, y: State, z: State, s: Session, a: Account, r: nat, q: nat)
    requires Brings(x, y, s, a, r) && Brings(y, z, s, a, q)
    ensures Brings(x, z, s, a, q)
  {
    hide Driven;
    MoreSteps(x, y, z);
  }

  lemma DrivenPlace(x: State, s: Session, a: Account, r: nat)
    requires Driven(x, s, a, r) && a in x.hash
    ensures s in x.place && Held(x.place[s]) && r <= Rank(x.place[s]) && Driven(x, s, a, Rank(x.place[s]))
    ensures Inv(x) && s in x.account && x.account[s] == a
  {
    hide Inv;
  }

  lemma DrivenFurther(x: State, s: Session, a: Account, p: Place)
    requires Driven(x, s, a, Rank(p)) && (a !in x.hash || (s in x.place && x.place[s] != p))
    ensures Driven(x, s, a, Rank(p) + 1)
  {
    hide Inv;
  }

  lemma {:induction false} OutOfLine(x: State, s: Session, a: Account, p: Place) returns (y: State)
    requires Driven(x, s, a, Rank(p)) && InLine(p)
    ensures Brings(x, y, s, a, Rank(p) + 1) && (p == Registering ==> y.store == x.store)
    decreases Left(x, p)
  {
    hide Next, CanReach, Driven, Left, Push, Rank, Held;
    Stay(x);
    y := x;
    if a !in x.hash || (s in x.place && x.place[s] != p) {
      DrivenFurther(x, s, a, p);
    } else {
      DrivenPlace(x, s, a, Rank(p));
      PushMoves(x, s);
      PushIs(x, p);
      var e := Push(x, p);
      LeadsStep(x, e, s, a, Rank(p));
      if s in Next(x, e).place && Next(x, e).place[s] == p {
        y := OutOfLine(Next(x, e), s, a, p);
        BringsOn(x, Next(x, e), y, s, a, Rank(p), Rank(p) + 1);
      } else {
        y := Next(x, e);
        DrivenFurther(y, s, a, p);
      }
    }
  }

  lemma PushIs(x: State, p: Place)
    ensures var e := Push(x, p); !e.Select? && !e.Accept? && !e.Release? && (p == Registering ==> e == RegisterPlayer)
  {
  }

  lemma SaveIs(x: State, s: Session)
    requires Inv(x) && s in x.place && x.place[s] == Playing && s in x.account && s !in x.connected
    ensures var y := Next(x, RequestSave(s, 0)); s in y.place && y.place[s] == SaveQueued
  {
    hide Jobs, Queues, Notified, Accounts, Living, Balanced, PcOk, Exactly;
    Whereabouts(x, s);
  }

  lemma NoticeIs(x: State, s: Session, a: Account)
    requires Inv(x) && x.pc == Notices && a in x.hash && x.hash[a] == s && s in x.place && x.place[s] == Noticed
    ensures a in x.noticeQ
    ensures var y := Next(x, Notice); y.pc == Notices && y.noticeQ == x.noticeQ[1..]
  {
    hide Places, Jobs, Queues, Accounts, Living, Balanced, PcOk;
  }

  /** The notices are read until the player's own. */
  lemma {:induction false} Noted(x: State, s: Session, a: Account) returns (y: State)
    requires Driven(x, s, a, Rank(Noticed)) && x.pc == Notices
    ensures Brings(x, y, s, a, Rank(Noticed) + 1)
    decreases |x.noticeQ|
  {
    hide Next, CanReach, Inv, Driven;
    Stay(x);
    y := x;
    if a !in x.hash || (s in x.place && x.place[s] != Noticed) {
      DrivenFurther(x, s, a, Noticed);
    } else {
      DrivenPlace(x, s, a, Rank(Noticed));
      HasEntry(x, s, a);
      NoticeIs(x, s, a);
      LeadsStep(x, Notice, s, a, Rank(Noticed));
      y := Noted(Next(x, Notice), s, a);
      BringsOn(x, Next(x, Notice), y, s, a, Rank(Noticed), Rank(Noticed) + 1);
    }
  }

  lemma HasEntry(x: State, s: Session, a: Account)
    requires Inv(x) && s in x.account && x.account[s] == a && s in x.place && Held(x.place[s])
    ensures a in x.hash && x.hash[a] == s && (x.place[s] == Admitted ==> s in x.auth)
  {
    hide Jobs, Queues, Notified, Living, Balanced, PcOk, Exactly;
    Whereabouts(x, s);
  }

  /** A player whose connection is lost can be brought on, wherever it is. */
  lemma Onward(x: State, s: Session, a: Account) returns (y: State)
    requires Driven(x, s, a, 0) && a in x.hash && s in x.place && s !in x.connected
    ensures Brings(x, y, s, a, Rank(x.place[s]) + 1)
  {
    hide Next, CanReach, Inv, Driven;
    DrivenPlace(x, s, a, 0);
    var p := x.place[s];
    if InLine(p) {
      y := OutOfLine(x, s, a, p);
    } else if p == Playing {
      SaveIs(x, s);
      LeadsStep(x, RequestSave(s, 0), s, a, Rank(p));
      y := Next(x, RequestSave(s, 0));
      DrivenFurther(y, s, a, p);
    } else if p == Noticed {
      var z := ToNotices(x, s, a, Rank(p));
      y := Noted(z, s, a);
      BringsOn(x, z, y, s, a, Rank(p), Rank(p) + 1);
    } else {
      y := Checked(x, s, a);
    }
  }

  /** A disconnected player of the authentication thread is deleted in the next round at the latest. */
  lemma Checked(x: State, s: Session, a: Account) returns (y: State)
    requires Driven(x, s, a, Rank(Admitted)) && s in x.account
    ensures Brings(x, y, s, a, Rank(Admitted) + 1)
  {
    hide Next, CanReach, Inv, Driven;
    var z := ToImport(x, s, a, Rank(Admitted));
    if a !in z.hash || (s in z.place && z.place[s] != Admitted) {
      DrivenFurther(z, s, a, Admitted);
      y := z;
    } else {
      DrivenPlace(z, s, a, Rank(Admitted));
      HasEntry(z, s, a);
      y := WholeRound(z, s, a, Rank(Admitted));
      BringsOn(x, z, y, s, a, Rank(Admitted), Rank(Admitted) + 1);
    }
  }

  lemma {:induction false} Freed(x: State, s: Session, a: Account, r: nat) returns (y: State)
    requires Driven(x, s, a, r) && s !in x.connected && r <= Rank(Deleted)
    ensures Brings(x, y, s, a, 0) && a !in y.hash
    decreases Rank(Deleted) - r
  {
    hide Next, CanReach, Inv, Driven;
    Stay(x);
    y := x;
    DrivenLess(x, s, a, r);
    if a in x.hash {
      DrivenPlace(x, s, a, r);
      var p := x.place[s];
      assert Rank(p) < Rank(Deleted);
      var z := Onward(x, s, a);
      y := Freed(z, s, a, Rank(p) + 1);
      BringsOn(x, z, y, s, a, Rank(p) + 1, 0);
    }
  }

  lemma DrivenLess(x: State, s: Session, a: Account, r: nat)
    requires Driven(x, s, a, r)
    ensures Driven(x, s, a, 0)
  {
    hide Inv;
  }

  // ---- a free account comes into play -------------------------------------------------------------------------

  lemma {:induction false} Unused(q: set<Session>) returns (m: Session)
    ensures forall t :: t in q ==> t < m
  {
    if q == {} {
      m := 0;
    } else {
      var t := OneOf(q);
      var n := Unused(q - {t});
      m := if n <= t then t + 1 else n;
      forall u | u in q
        ensures u < m
      {
        assert u == t || u in q - {t};
      }
    }
  }

  /** A player that is connected and has an account is on its way to the field, or on it. */
  lemma AliveHolds(x: State, s: Session, a: Account, r: nat)
    requires Driven(x, s, a, r) && s in x.connected && s in x.account && x.account[s] == a
    ensures a in x.hash && x.hash[a] == s && s in x.place && r <= Rank(x.place[s]) <= Rank(Playing)
    ensures x.place[s] == Playing ==> s in x.field
  {
    hide Jobs, Queues, Notified, Balanced, PcOk, Exactly;
    Whereabouts(x, s);
  }

  /** Accept, import, SELECT and the duplicate check of a new session. */
  lemma Admit(x: State, s: Session, a: Account) returns (y: State)
    requires Inv(x) && x.pc == Import && s !in x.place && a !in x.hash
    ensures CanReach(x, y) && Driven(y, s, a, Rank(Admitted)) && y.pc == Packets && y.store == x.store
    ensures s in y.connected && s in y.auth && s in y.account && y.account[s] == a
    ensures y.logins == x.logins + [(a, Stored(x.store, a), Get(x.executed, a))]
  {
    hide Next, CanReach, Inv, Stored, Get;
    var x1 := Next(x, Accept(s));
    var x2 := Next(x1, ImportAll);
    var x3 := Next(x2, Select(s, a));
    y := Next(x3, Decide);
    AcceptIs(x, s);
    ImportIs(x1, s);
    SelectIs(x2, s, a);
    DecideIs(x3);
    NextKeeps(x, Accept(s));
    NextKeeps(x1, ImportAll);
    NextKeeps(x2, Select(s, a));
    NextKeeps(x3, Decide);
    Stay(x);
    OneStep(x, x, Accept(s));
    OneStep(x, x1, ImportAll);
    OneStep(x, x2, Select(s, a));
    OneStep(x, x3, Decide);
  }

  lemma AcceptIs(x: State, s: Session)
    requires Inv(x) && s !in x.place
    ensures var y := Next(x, Accept(s));
      && s in y.unauth && s in y.connected && s in y.place && y.place[s] == Waiting && s !in y.account
      && y.pc == x.pc && y.hash == x.hash && y.store == x.store && y.executed == x.executed && y.logins == x.logins
  {
    hide Places, Jobs, Queues, Notified, Balanced, PcOk, Living;
  }

  lemma ImportIs(x: State, s: Session)
    requires x.pc == Import && s in x.unauth && s in x.place && x.place[s] == Waiting
    ensures var y := Next(x, ImportAll);
      && y.pc == Packets && s in y.auth && s in y.unauth && s in y.place && y.place[s] == Importable
      && y.connected == x.connected && y.account == x.account && y.hash == x.hash
      && y.store == x.store && y.executed == x.executed && y.logins == x.logins
  {
  }

  lemma SelectIs(x: State, s: Session, a: Account)
    requires x.pc == Packets && s in x.auth && s in x.connected && s !in x.account
    ensures Next(x, Select(s, a)) == x.(pc := Selected(s, a, Stored(x.store, a), Get(x.executed, a)))
  {
  }

  lemma DecideIs(x: State)
    requires x.pc.Selected? && x.pc.a !in x.hash && x.pc.s in x.unauth
    ensures var y := Next(x, Decide); var s, a := x.pc.s, x.pc.a;
      && y.pc == Packets && y.hash == x.hash[a := s] && y.account == x.account[s := a] && y.auth == x.auth
      && y.place == x.place[s := Admitted] && y.connected == x.connected && y.store == x.store
      && y.logins == x.logins + [(a, x.pc.pos, x.pc.seen)]
  {
  }

  /** x may be led to y, where a session of account a plays: it was admitted with the stored position. */
  ghost predicate Plays(x: State, y: State, a: Account) {
    && CanReach(x, y) && a in y.hash && y.hash[a] in y.field && y.hash[a] in y.connected
    && y.logins != [] && y.logins[|y.logins| - 1].0 == a && y.logins[|y.logins| - 1].1 == Stored(y.store, a)
  }

  lemma EntersField(x: State, s: Session, a: Account) returns (y: State)
    requires Inv(x) && x.pc == Import && s !in x.place && a !in x.hash
    ensures Plays(x, y, a)
  {
    hide Next, CanReach, Inv, Driven, Stored, Rank;
    var z := Admit(x, s, a);
    var w := PacketRound(z, s, a, Rank(Admitted));
    Ranks();
    y := OutOfLine(w, s, a, Registering);
    AliveHolds(y, s, a, Rank(Registering) + 1);
    OnlyPlaying(y.place[s]);
    MoreSteps(x, z, w);
    MoreSteps(x, w, y);
  }

  lemma Ranks()
    ensures Rank(Registering) == 3 && Rank(Playing) == 4
  {
  }

  lemma OnlyPlaying(p: Place)
    ensures Rank(p) == 4 ==> p == Playing
  {
  }

  lemma FreeStays(x: State, y: State, s: Session, a: Account)
    ensures a !in x.hash && Driven(x, s, a, 0) ==> Driven(x, s, a, 12)
    ensures Driven(y, s, a, 12) ==> a !in y.hash
  {
    hide Inv;
  }

  /** Whatever is waiting to be decided is decided, and the session that has the account loses its connection. */
  lemma Cleared(x: State, a: Account) returns (y: State, s: Session)
    requires Inv(x)
    ensures CanReach(x, y) && Driven(y, s, a, 0) && s !in y.connected
  {
    hide Next, CanReach, Places, Jobs, Queues, Notified, Living, Balanced, PcOk;
    Stay(x);
    var z := Next(x, Decide);
    NextKeeps(x, Decide);
    OneStep(x, x, Decide);
    Decided(x);
    s := if a in z.hash then z.hash[a] else 0;
    y := Next(z, Release(s));
    NextKeeps(z, Release(s));
    OneStep(x, z, Release(s));
    Disconnected(z, s);
  }

  lemma Decided(x: State)
    ensures !Next(x, Decide).pc.Selected?
  {
    hide DecideStep;
  }

  lemma Disconnected(x: State, s: Session)
    ensures Next(x, Release(s)) == x.(connected := x.connected - {s})
  {
  }

  /** Nobody is locked out: from every state that the three threads can get into, whatever is queued and
      whoever has the account, they can go on so that a new session of the account comes into play, with the
      position that the account's row then holds. */
  lemma NobodyIsLockedOut(x: State, a: Account)
    requires Reachable(x)
    ensures exists y :: Plays(x, y, a)
  {
    hide Next, CanReach, Inv, Driven, Reachable, Plays;
    ReachableInv(x);
    var w, s := Cleared(x, a);
    var z := Freed(w, s, a, 0);
    FreeStays(z, z, s, a);
    var v := ToImport(z, s, a, 12);
    FreeStays(z, v, s, a);
    DrivenInv(v, s, a, 12);
    var t := Unused(v.place.Keys);
    var y := EntersField(v, t, a);
    MoreSteps(x, w, z);
    MoreSteps(x, z, v);
    PlaysFrom(x, v, y, a);
  }

  lemma DrivenInv(x: State, s: Session, a: Account, r: nat)
    requires Driven(x, s, a, r)
    ensures Inv(x)
  {
    hide Inv;
  }

  lemma PlaysFrom(x: State, y: State, z: State, a: Account)
    requires CanReach(x, y) && Plays(y, z, a)
    ensures Plays(x, z, a)
  {
    hide CanReach;
    MoreSteps(x, y, z);
  }
}

/** A player's way through the authentication thread, the field thread and the DB thread: who owns it,
    when its position is saved, and when its account may log in again. With CONFIG_FIELD_SIZE == 1
    there is one field. */
module Handoff {
  type Session = int   // a session ID, which is also the identity of its Player
  type Account = int

  /** What is in the DB queues: position saves, and jobs without effect here. */
  datatype Job = Save(s: Session, a: Account, pos: int) | Other

  /** The loop of authThread: the import of new sessions is one step under its lock; then packets,
      field notices, and checkDisConnectedAndLeavePlayer, which first looks at every player, then
      deletes the disconnected and passes on the authenticated. Selected: handleAuthReq has read the
      account's row and has not yet looked for a duplicate login. */
  datatype AuthPc =
    | Import
    | Packets
    | Selected(s: Session, a: Account, pos: int, seen: nat)
    | Notices
    | Looking(todo: set<Session>, dis: seq<Session>, leave: seq<Session>)
    | Acting(dis: seq<Session>, leave: seq<Session>)

  datatype DbPc = Idle | Taken(job: Job) | Done(job: Job)

  /** Where a Player is on its way. Not part of the program; kept to state the invariant. */
  datatype Place = Waiting | Importable | Admitted | Registering | Playing
                 | SaveQueued | SaveTaken | SaveRun | SaveAnswered | Noticed | Returned | Deleted

  datatype State = State(
    unauth: set<Session>,              // mUnAuthSessions
    auth: set<Session>,                // players of authThread
    hash: map<Account, Session>,       // mAccountsHash
    registerQ: seq<Session>,           // mMsgQ[0]
    field: set<Session>,               // players of fieldThread
    pending: set<Session>,             // DB_POSITION_SAVE_PENDING_BIT
    reqQ: seq<Job>,                    // mDBReqQ[0]
    resQ: seq<Job>,                    // mDBResQ[0]
    noticeQ: seq<Account>,             // mNotifyMsgQ[0]
    connected: set<Session>,           // mBConnect
    account: map<Session, Account>,    // mAccountNo, once known; mNextFieldID leaves the auth index then
    pc: AuthPc,
    db: DbPc,
    store: map<Account, int>,          // the saved positions
    requested: map<Account, nat>,      // saves requested, and executed, so far
    executed: map<Account, nat>,
    logins: seq<(Account, int, nat)>,  // admitted: account, position read, saves executed when it was read
    place: map<Session, Place>,
    asserted: bool)

  datatype Event =
    | Accept(s: Session) | Release(s: Session)
    | ImportAll | Select(s: Session, a: Account) | Decide | PacketsDone
    | Notice | NoticesDone | Look(s: Session) | LookDone | Delete | Leave | ActDone
    | RegisterPlayer | RequestSave(s: Session, pos: int) | RequestOther | Result
    | Take | Run(ok: bool) | Answer

  function Get(m: map<Account, nat>, a: Account): nat {
    if a in m then m[a] else 0
  }

  function Stored(m: map<Account, int>, a: Account): int {
    if a in m then m[a] else 0
  }

  function Assert(x: State, holds: bool): State {
    x.(asserted := x.asserted || !holds)
  }

  /** The rows, and the DB thread with its queue, are as they were. */
  predicate SameDb(x: State, y: State) {
    y.store == x.store && y.db == x.db && y.reqQ == x.reqQ
  }

  /** The connections, the accounts of the players and the admissions are as they were; the table may have
      lost entries; no login has begun. */
  ghost predicate NobodyEnters(x: State, y: State) {
    && y.connected == x.connected && y.account == x.account && y.logins == x.logins
    && (forall a :: a in y.hash ==> a in x.hash && y.hash[a] == x.hash[a])
    && (y.pc.Selected? ==> y.pc == x.pc)
  }

  // ---- callbacks of the network library ---------------------------------------------------------------

  /** onAccept, below the limit of unauthenticated sessions. Session IDs are never reused. */
  function AcceptStep(x: State, s: Session): (after: State)
    ensures SameDb(x, after)
  {
    if s in x.place then x
    else Assert(x, s !in x.unauth).(unauth := x.unauth + {s}, connected := x.connected + {s},
                                    place := x.place[s := Waiting])
  }

  /** onRelease. */
  function ReleaseStep(x: State, s: Session): (after: State)
    ensures SameDb(x, after) && after.place == x.place
  {
    x.(connected := x.connected - {s})
  }

  // ---- authThread ---------------------------------------------------------------------------------------

  function ImportStep(x: State): (after: State)
    ensures SameDb(x, after) && NobodyEnters(x, after)
  {
    if x.pc != Import then x
    else x.(auth := x.auth + x.unauth, pc := Packets,
            place := Imported(x.place))
  }

  /** handleAuthReq up to the SELECT, for a message of a player that is not authenticated yet. */
  function SelectStep(x: State, s: Session, a: Account): (after: State)
    ensures SameDb(x, after) && after.place == x.place
  {
    if x.pc != Packets || s !in x.auth || s in x.account || s !in x.connected then x
    else x.(pc := Selected(s, a, Stored(x.store, a), Get(x.executed, a)))
  }

  /** handleAuthReq from the duplicate check on. */
  function DecideStep(x: State): (after: State)
    ensures SameDb(x, after) && !after.pc.Selected?
  {
    if !x.pc.Selected? then x
    else
      var s, a, y := x.pc.s, x.pc.a, x.(pc := Packets);
      if a in x.hash || s !in x.unauth then y
      else y.(unauth := x.unauth - {s}, account := x.account[s := a], hash := x.hash[a := s],
              logins := x.logins + [(a, x.pc.pos, x.pc.seen)], place := x.place[s := Admitted])
  }

  function PacketsDoneStep(x: State): (after: State)
    ensures SameDb(x, after) && NobodyEnters(x, after) && after.place == x.place
  {
    if x.pc == Packets then x.(pc := Notices) else x
  }

  /** authNotifyPacketProc. */
  function NoticeStep(x: State): (after: State)
    ensures SameDb(x, after) && NobodyEnters(x, after)
  {
    if x.pc != Notices || x.noticeQ == [] then x
    else
      var a, y := x.noticeQ[0], x.(noticeQ := x.noticeQ[1..]);
      if a !in x.hash then Assert(y, false)
      else y.(auth := x.auth + {x.hash[a]}, hash := x.hash - {a}, place := x.place[x.hash[a] := Returned])
  }

  /** checkDisConnectedAndLeavePlayer begins. */
  function NoticesDoneStep(x: State): (after: State)
    ensures SameDb(x, after) && NobodyEnters(x, after) && after.place == x.place
  {
    if x.pc == Notices then x.(pc := Looking(x.auth, [], [])) else x
  }

  function LookStep(x: State, s: Session): (after: State)
    ensures SameDb(x, after) && NobodyEnters(x, after) && after.place == x.place
  {
    if !x.pc.Looking? || s !in x.pc.todo then x
    else
      var rest := x.pc.todo - {s};
      if s !in x.connected then x.(pc := Looking(rest, x.pc.dis + [s], x.pc.leave))
      else if s in x.account then x.(pc := Looking(rest, x.pc.dis, x.pc.leave + [s]))
      else x.(pc := Looking(rest, x.pc.dis, x.pc.leave))
  }

  function LookDoneStep(x: State): (after: State)
    ensures SameDb(x, after) && NobodyEnters(x, after) && after.place == x.place
  {
    if x.pc.Looking? && x.pc.todo == {} then x.(pc := Acting(x.pc.dis, x.pc.leave)) else x
  }

  /** The body of the first loop: the Player is deleted. */
  function DeleteStep(x: State): (after: State)
    ensures SameDb(x, after) && NobodyEnters(x, after)
  {
    if !x.pc.Acting? || x.pc.dis == [] then x
    else
      var s := x.pc.dis[0];
      Assert(x, s in x.auth).(pc := Acting(x.pc.dis[1..], x.pc.leave), auth := x.auth - {s},
                              unauth := if s in x.unauth then x.unauth - {s} else x.unauth,
                              hash := if s !in x.unauth && s in x.account then x.hash - {x.account[s]} else x.hash,
                              place := x.place[s := Deleted])
  }

  /** The body of the second loop: enterField. */
  function LeaveStep(x: State): (after: State)
    ensures SameDb(x, after) && NobodyEnters(x, after)
  {
    if !x.pc.Acting? || x.pc.dis != [] || x.pc.leave == [] then x
    else
      var s := x.pc.leave[0];
      var y := x.(pc := Acting(x.pc.dis, x.pc.leave[1..]));
      if s in x.pending then y
      else Assert(y, s in x.auth).(auth := x.auth - {s}, registerQ := x.registerQ + [s],
                                   place := x.place[s := Registering])
  }

  function ActDoneStep(x: State): (after: State)
    ensures SameDb(x, after) && NobodyEnters(x, after) && after.place == x.place
  {
    if x.pc == Acting([], []) then x.(pc := Import) else x
  }

  // ---- fieldThread ----------------------------------------------------------------------------------------

  /** handleRegisterPlayer. */
  function RegisterStep(x: State): (after: State)
    ensures SameDb(x, after) && NobodyEnters(x, after)
  {
    if x.registerQ == [] then x
    else
      var s := x.registerQ[0];
      Assert(x, s !in x.field).(registerQ := x.registerQ[1..], field := x.field + {s}, place := x.place[s := Playing])
  }

  /** checkDisConnectedAndLeavePlayer on the field, for one player. */
  function RequestSaveStep(x: State, s: Session, pos: int): (after: State)
    ensures after.store == x.store && after.db == x.db && NobodyEnters(x, after)
  {
    if s !in x.field || s in x.connected || s in x.pending || s !in x.account then x
    else
      var a := x.account[s];
      x.(reqQ := x.reqQ + [Save(s, a, pos)], pending := x.pending + {s},
         requested := x.requested[a := Get(x.requested, a) + 1], place := x.place[s := SaveQueued])
  }

  function RequestOtherStep(x: State): (after: State)
    ensures after.store == x.store && after.db == x.db && NobodyEnters(x, after) && after.place == x.place
  {
    x.(reqQ := x.reqQ + [Other])
  }

  /** dbResultPacketProc, for one result. */
  function ResultStep(x: State): (after: State)
    ensures SameDb(x, after) && NobodyEnters(x, after)
  {
    if x.resQ == [] then x
    else
      var r, y := x.resQ[0], x.(resQ := x.resQ[1..]);
      if r.Other? || r.s !in x.field || r.s !in x.account then y
      else y.(pending := x.pending - {r.s}, noticeQ := x.noticeQ + [x.account[r.s]], field := x.field - {r.s},
              place := x.place[r.s := Noticed])
  }

  // ---- dbThread ---------------------------------------------------------------------------------------------

  function TakeStep(x: State): (after: State)
    ensures after.store == x.store && NobodyEnters(x, after)
  {
    if x.db != Idle || x.reqQ == [] then x
    else
      var j := x.reqQ[0];
      x.(reqQ := x.reqQ[1..], db := Taken(j), place := if j.Save? then x.place[j.s := SaveTaken] else x.place)
  }

  /** The UPDATE, which may fail. */
  function RunStep(x: State, ok: bool): (after: State)
    ensures NobodyEnters(x, after)
    ensures after.reqQ == x.reqQ && ((x.db.Taken? && x.db.job.Save?) || after.store == x.store)
  {
    if !x.db.Taken? then x
    else
      var j := x.db.job;
      if j.Other? then x.(db := Done(j))
      else x.(db := Done(j), store := if ok then x.store[j.a := j.pos] else x.store,
              executed := x.executed[j.a := Get(x.executed, j.a) + 1], place := x.place[j.s := SaveRun])
  }

  function AnswerStep(x: State): (after: State)
    ensures after.store == x.store && after.reqQ == x.reqQ && NobodyEnters(x, after)
  {
    if !x.db.Done? then x
    else
      var j := x.db.job;
      x.(db := Idle, resQ := x.resQ + [j], place := if j.Save? then x.place[j.s := SaveAnswered] else x.place)
  }

  /** Only the DB thread writes rows; only requests and the DB thread change its queue. */
  function Next(x: State, e: Event): (after: State)
    ensures e.Run? || after.store == x.store
    ensures e.Run? || e.Take? || e.Answer? || after.db == x.db
    ensures e.Take? || e.RequestSave? || e.RequestOther? || after.reqQ == x.reqQ
  {
    match e
    case Accept(s) => AcceptStep(x, s)
    case Release(s) => ReleaseStep(x, s)
    case ImportAll => ImportStep(x)
    case Select(s, a) => SelectStep(x, s, a)
    case Decide => DecideStep(x)
    case PacketsDone => PacketsDoneStep(x)
    case Notice => NoticeStep(x)
    case NoticesDone => NoticesDoneStep(x)
    case Look(s) => LookStep(x, s)
    case LookDone => LookDoneStep(x)
    case Delete => DeleteStep(x)
    case Leave => LeaveStep(x)
    case ActDone => ActDoneStep(x)
    case RegisterPlayer => RegisterStep(x)
    case RequestSave(s, pos) => RequestSaveStep(x, s, pos)
    case RequestOther => RequestOtherStep(x)
    case Result => ResultStep(x)
    case Take => TakeStep(x)
    case Run(ok) => RunStep(x, ok)
    case Answer => AnswerStep(x)
  }

  function Init(): State {
    State({}, {}, map[], [], {}, {}, [], [], [], {}, map[], Import, Idle, map[], map[], map[], [], map[], false)
  }

  function RunAll(es: seq<Event>): State {
    if es == [] then Init() else Next(RunAll(es[..|es| - 1]), es[|es| - 1])
  }

  // ---- the invariant -------------------------------------------------------------------------------------------

  type Map = map<Session, Place>

  predicate Unauthenticated(p: Place) { p == Waiting || p == Importable }
  predicate InAuth(p: Place) { p == Importable || p == Admitted || p == Returned }
  predicate Saving(p: Place) { p == SaveQueued || p == SaveTaken || p == SaveRun || p == SaveAnswered }
  predicate InField(p: Place) { p == Playing || Saving(p) }
  predicate Held(p: Place) { p == Admitted || p == Registering || InField(p) || p == Noticed }
  predicate Alive(p: Place) { Unauthenticated(p) || p == Admitted || p == Registering || p == Playing }
  predicate Unsaved(p: Place) { p == SaveQueued || p == SaveTaken }

  /** The set holds exactly the players whose place is in the class c. */
  ghost predicate Exactly(members: set<Session>, place: Map, c: Place -> bool) {
    forall s :: s in members <==> s in place && c(place[s])
  }

  lemma ExactlyMoves(members: set<Session>, place: Map, c: Place -> bool, s: Session, q: Place)
    requires Exactly(members, place, c)
    ensures Exactly(if c(q) then members + {s} else members - {s}, place[s := q], c)
  {
  }

  /** Each structure holds exactly the players that are there. */
  ghost predicate Places(unauth: set<Session>, auth: set<Session>, field: set<Session>, pending: set<Session>,
                         place: Map) {
    && Exactly(unauth, place, Unauthenticated)
    && Exactly(auth, place, InAuth)
    && Exactly(field, place, InField)
    && Exactly(pending, place, Saving)
  }

  /** The sequence holds exactly the sessions at p, each once. */
  ghost predicate OnceEach(place: Map, q: seq<Session>, p: Place) {
    && (forall i, j :: 0 <= i < j < |q| ==> q[i] != q[j])
    && (forall s :: s in q <==> s in place && place[s] == p)
  }

  lemma OnceElsewhere(place: Map, q: seq<Session>, p: Place, s: Session, r: Place)
    requires OnceEach(place, q, p) && r != p && (s in place ==> place[s] != p)
    ensures OnceEach(place[s := r], q, p)
  {
  }

  lemma OnceMore(place: Map, q: seq<Session>, p: Place, s: Session)
    requires OnceEach(place, q, p) && (s in place ==> place[s] != p)
    ensures OnceEach(place[s := p], q + [s], p)
  {
  }

  lemma OnceLess(place: Map, q: seq<Session>, p: Place, r: Place)
    requires OnceEach(place, q, p) && q != [] && r != p
    ensures OnceEach(place[q[0] := r], q[1..], p)
  {
    assert q == [q[0]] + q[1..];
  }

  function Saves(q: seq<Job>): seq<Session> {
    if q == [] then [] else (if q[0].Save? then [q[0].s] else []) + Saves(q[1..])
  }

  lemma {:induction false} SavesMore(q: seq<Job>, j: Job)
    ensures Saves(q + [j]) == Saves(q) + if j.Save? then [j.s] else []
  {
    if q == [] {
      assert q + [j] == [j] && [j][1..] == [];
    } else {
      SavesMore(q[1..], j);
      assert (q + [j])[1..] == q[1..] + [j];
    }
  }

  ghost predicate JobOk(account: map<Session, Account>, j: Job) {
    j.Save? ==> j.s in account && account[j.s] == j.a
  }

  function AtWork(db: DbPc, done: bool): seq<Session> {
    match db
    case Idle => []
    case Taken(j) => if !done && j.Save? then [j.s] else []
    case Done(j) => if done && j.Save? then [j.s] else []
  }

  ghost predicate Jobs(reqQ: seq<Job>, db: DbPc, account: map<Session, Account>) {
    && (forall j :: j in reqQ ==> JobOk(account, j))
    && (db != Idle ==> JobOk(account, db.job))
  }

  ghost predicate Queues(place: Map, registerQ: seq<Session>, reqQ: seq<Job>, db: DbPc, resQ: seq<Job>) {
    && OnceEach(place, registerQ, Registering)
    && OnceEach(place, Saves(reqQ), SaveQueued)
    && OnceEach(place, AtWork(db, false), SaveTaken)
    && OnceEach(place, AtWork(db, true), SaveRun)
    && OnceEach(place, Saves(resQ), SaveAnswered)
  }

  ghost predicate Notified(noticeQ: seq<Account>, hash: map<Account, Session>, place: Map) {
    && (forall i, j :: 0 <= i < j < |noticeQ| ==> noticeQ[i] != noticeQ[j])
    && (forall a :: a in noticeQ <==> a in hash && hash[a] in place && place[hash[a]] == Noticed)
  }

  /** The account table and the authenticated players match one to one. */
  ghost predicate Accounts(hash: map<Account, Session>, account: map<Session, Account>, place: Map) {
    && (forall a :: a in hash ==>
          hash[a] in place && Held(place[hash[a]]) && hash[a] in account && account[hash[a]] == a)
    && (forall s :: s in place && Held(place[s]) ==> s in account && account[s] in hash && hash[account[s]] == s)
    && (forall s :: s in place && place[s] == Returned ==> s in account && account[s] !in hash)
    && (forall s :: s in account ==> s in place && !Unauthenticated(place[s]))
  }

  ghost predicate Living(connected: set<Session>, place: Map) {
    forall s :: s in connected ==> s in place && Alive(place[s])
  }

  ghost predicate DistinctIn(q: seq<Session>, all: set<Session>) {
    && (forall i, j :: 0 <= i < j < |q| ==> q[i] != q[j])
    && (forall s :: s in q ==> s in all)
  }

  ghost predicate NoneReturned(place: Map) {
    forall s :: s in place ==> place[s] != Returned
  }

  ghost predicate ListsOk(auth: set<Session>, connected: set<Session>, place: Map,
                          todo: set<Session>, dis: seq<Session>, leave: seq<Session>) {
    && todo <= auth && DistinctIn(dis, auth) && DistinctIn(leave, auth)
    && (forall s :: s in dis ==> s !in leave && s !in todo && s !in connected)
    && (forall s :: s in leave ==> s !in todo && s in place && place[s] == Admitted)
    && (forall s :: s in place && place[s] == Returned ==> s in todo || s in dis)
  }

  /** A player that came back from the field is there only until the check of the same round. */
  ghost predicate PcOk(pc: AuthPc, auth: set<Session>, connected: set<Session>, place: Map,
                       hash: map<Account, Session>, store: map<Account, int>, executed: map<Account, nat>) {
    match pc
    case Import => NoneReturned(place)
    case Packets => NoneReturned(place)
    case Selected(s, a, pos, seen) =>
      && NoneReturned(place) && s in place && place[s] == Importable
      && (a !in hash ==> pos == Stored(store, a) && seen == Get(executed, a))
    case Notices => true
    case Looking(todo, dis, leave) => ListsOk(auth, connected, place, todo, dis, leave)
    case Acting(dis, leave) => ListsOk(auth, connected, place, {}, dis, leave)
  }

  /** A save of an account is outstanding exactly while its player waits for one to be executed. */
  ghost predicate Balanced(requested: map<Account, nat>, executed: map<Account, nat>, hash: map<Account, Session>,
                           place: Map) {
    forall a :: Get(requested, a) == Get(executed, a) +
      if a in hash && hash[a] in place && Unsaved(place[hash[a]]) then 1 else 0
  }

  ghost predicate Inv(x: State) {
    && Places(x.unauth, x.auth, x.field, x.pending, x.place)
    && Jobs(x.reqQ, x.db, x.account)
    && Queues(x.place, x.registerQ, x.reqQ, x.db, x.resQ)
    && Notified(x.noticeQ, x.hash, x.place)
    && Accounts(x.hash, x.account, x.place)
    && Living(x.connected, x.place)
    && PcOk(x.pc, x.auth, x.connected, x.place, x.hash, x.store, x.executed)
    && Balanced(x.requested, x.executed, x.hash, x.place)
    && !x.asserted
  }

  // ---- a player moves on: what a change of place needs ----------------------------------------------------------

  lemma PlacesMove(x: State, s: Session, q: Place, y: State)
    requires Places(x.unauth, x.auth, x.field, x.pending, x.place) && y.place == x.place[s := q]
    requires y.unauth == (if Unauthenticated(q) then x.unauth + {s} else x.unauth - {s})
    requires y.auth == (if InAuth(q) then x.auth + {s} else x.auth - {s})
    requires y.field == (if InField(q) then x.field + {s} else x.field - {s})
    requires y.pending == (if Saving(q) then x.pending + {s} else x.pending - {s})
    ensures Places(y.unauth, y.auth, y.field, y.pending, y.place)
  {
    hide Exactly;
    ExactlyMoves(x.unauth, x.place, Unauthenticated, s, q);
    ExactlyMoves(x.auth, x.place, InAuth, s, q);
    ExactlyMoves(x.field, x.place, InField, s, q);
    ExactlyMoves(x.pending, x.place, Saving, s, q);
  }

  /** What the four sets say about one player. */
  lemma Whereabouts(x: State, s: Session)
    requires Places(x.unauth, x.auth, x.field, x.pending, x.place)
    ensures s in x.unauth <==> s in x.place && Unauthenticated(x.place[s])
    ensures s in x.auth <==> s in x.place && InAuth(x.place[s])
    ensures s in x.field <==> s in x.place && InField(x.place[s])
    ensures s in x.pending <==> s in x.place && Saving(x.place[s])
  {
  }

  /** A player that keeps its account entry. */
  lemma AccountsMove(hash: map<Account, Session>, account: map<Session, Account>, place: Map, s: Session, q: Place)
    requires Accounts(hash, account, place) && s in place && Held(place[s]) && Held(q)
    ensures Accounts(hash, account, place[s := q])
  {
  }

  lemma NotifiedMove(noticeQ: seq<Account>, hash: map<Account, Session>, place: Map, s: Session, q: Place)
    requires Notified(noticeQ, hash, place) && q != Noticed && (s in place ==> place[s] != Noticed)
    ensures Notified(noticeQ, hash, place[s := q])
  {
  }

  lemma BalancedMove(requested: map<Account, nat>, executed: map<Account, nat>, hash: map<Account, Session>,
                     place: Map, s: Session, q: Place)
    requires Balanced(requested, executed, hash, place) && (Unsaved(q) <==> s in place && Unsaved(place[s]))
    ensures Balanced(requested, executed, hash, place[s := q])
  {
  }

  lemma LivingMove(connected: set<Session>, place: Map, s: Session, q: Place)
    requires Living(connected, place) && (s in connected ==> Alive(q))
    ensures Living(connected, place[s := q])
  {
  }

  /** Steps of the field and DB threads do not disturb the authentication thread. */
  lemma PcMove(x: State, s: Session, q: Place)
    requires PcOk(x.pc, x.auth, x.connected, x.place, x.hash, x.store, x.executed)
    requires s in x.place && !InAuth(x.place[s]) && !InAuth(q)
    ensures PcOk(x.pc, x.auth, x.connected, x.place[s := q], x.hash, x.store, x.executed)
  {
  }

  predicate Queued(p: Place) {
    p == Registering || Saving(p)
  }

  lemma QueuesElsewhere(place: Map, registerQ: seq<Session>, reqQ: seq<Job>, db: DbPc, resQ: seq<Job>, s: Session,
                        r: Place)
    requires Queues(place, registerQ, reqQ, db, resQ) && !Queued(r) && (s in place ==> !Queued(place[s]))
    ensures Queues(place[s := r], registerQ, reqQ, db, resQ)
  {
    OnceElsewhere(place, registerQ, Registering, s, r);
    OnceElsewhere(place, Saves(reqQ), SaveQueued, s, r);
    OnceElsewhere(place, AtWork(db, false), SaveTaken, s, r);
    OnceElsewhere(place, AtWork(db, true), SaveRun, s, r);
    OnceElsewhere(place, Saves(resQ), SaveAnswered, s, r);
    hide OnceEach;
  }

  /** The player that a queue's head, or the running job, speaks of. */
  lemma OnceAt(place: Map, q: seq<Session>, p: Place)
    requires OnceEach(place, q, p) && q != []
    ensures q[0] in place && place[q[0]] == p
  {
    assert q[0] in q;
  }

  // ---- every step keeps the invariant ------------------------------------------------------------------------------

  lemma AcceptKeeps(x: State, s: Session)
    requires Inv(x)
    ensures Inv(AcceptStep(x, s))
  {
    if s !in x.place {
      var y := AcceptStep(x, s);
      Whereabouts(x, s);
      assert s !in x.connected;
      PlacesMove(x, s, Waiting, y);
      QueuesElsewhere(x.place, x.registerQ, x.reqQ, x.db, x.resQ, s, Waiting);
      NotifiedMove(x.noticeQ, x.hash, x.place, s, Waiting);
      BalancedMove(x.requested, x.executed, x.hash, x.place, s, Waiting);
      LivingMove(x.connected, x.place, s, Waiting);
      AccountsNew(x.hash, x.account, x.place, s);
      PcAccept(x, s);
    }
  }

  lemma AccountsNew(hash: map<Account, Session>, account: map<Session, Account>, place: Map, s: Session)
    requires Accounts(hash, account, place) && s !in place
    ensures Accounts(hash, account, place[s := Waiting])
  {
  }

  lemma PcAccept(x: State, s: Session)
    requires PcOk(x.pc, x.auth, x.connected, x.place, x.hash, x.store, x.executed)
    requires s !in x.place && s !in x.connected && Exactly(x.auth, x.place, InAuth)
    ensures PcOk(x.pc, x.auth, x.connected + {s}, x.place[s := Waiting], x.hash, x.store, x.executed)
  {
  }

  lemma ReleaseKeeps(x: State, s: Session)
    requires Inv(x)
    ensures Inv(ReleaseStep(x, s))
  {
    hide OnceEach, Exactly, Accounts, Notified, Balanced, Jobs, Queues, Places;
  }

  lemma ImportKeeps(x: State)
    requires Inv(x)
    ensures Inv(ImportStep(x))
  {
    if x.pc == Import {
      var y := ImportStep(x);
      ImportQueues(x.place, y.place, x.registerQ, x.reqQ, x.db, x.resQ);
      ImportTable(x, y.place);
      ImportPlaces(x, y.place);
      hide Queues, Jobs, Notified, Accounts, Balanced, Places;
    }
  }

  function Imported(place: Map): Map {
    map s | s in place :: if place[s] == Waiting then Importable else place[s]
  }

  lemma ImportPlaces(x: State, after: Map)
    requires Places(x.unauth, x.auth, x.field, x.pending, x.place) && after == Imported(x.place)
    ensures Places(x.unauth, x.auth + x.unauth, x.field, x.pending, after)
  {
  }

  lemma ImportTable(x: State, after: Map)
    requires Accounts(x.hash, x.account, x.place) && Notified(x.noticeQ, x.hash, x.place)
    requires Balanced(x.requested, x.executed, x.hash, x.place) && after == Imported(x.place)
    ensures Accounts(x.hash, x.account, after) && Notified(x.noticeQ, x.hash, after)
    ensures Balanced(x.requested, x.executed, x.hash, after)
  {
    hide Get;
    assert forall s :: s in after <==> s in x.place;
    assert forall a :: a in x.hash ==> after[x.hash[a]] == x.place[x.hash[a]];
  }

  lemma ImportQueues(place: Map, after: Map, registerQ: seq<Session>, reqQ: seq<Job>, db: DbPc, resQ: seq<Job>)
    requires Queues(place, registerQ, reqQ, db, resQ)
    requires after == Imported(place)
    ensures Queues(after, registerQ, reqQ, db, resQ)
  {
  }

  lemma DecideKeeps(x: State)
    requires Inv(x)
    ensures Inv(DecideStep(x))
  {
    hide OnceEach, Exactly, Queues, Living, Places, Balanced, Notified, Accounts;
    if x.pc.Selected? && x.pc.a !in x.hash && x.pc.s in x.unauth {
      var s, a, y := x.pc.s, x.pc.a, DecideStep(x);
      Whereabouts(x, s);
      AdmitPlaces(x, s, y);
      DecideAccounts(x, s, a);
      SelectedPc(x);
    }
  }

  lemma SelectedPc(x: State)
    requires PcOk(x.pc, x.auth, x.connected, x.place, x.hash, x.store, x.executed) && x.pc.Selected?
    ensures NoneReturned(x.place) && NoneReturned(x.place[x.pc.s := Admitted])
    ensures x.pc.s in x.place && x.place[x.pc.s] == Importable
  {
  }

  lemma AdmitPlaces(x: State, s: Session, y: State)
    requires Places(x.unauth, x.auth, x.field, x.pending, x.place) && Living(x.connected, x.place)
    requires Queues(x.place, x.registerQ, x.reqQ, x.db, x.resQ)
    requires s in x.place && x.place[s] == Importable && y.place == x.place[s := Admitted]
    requires y.unauth == x.unauth - {s} && y.auth == x.auth && y.field == x.field && y.pending == x.pending
    ensures Places(y.unauth, y.auth, y.field, y.pending, y.place)
    ensures Queues(y.place, x.registerQ, x.reqQ, x.db, x.resQ) && Living(x.connected, y.place)
  {
    hide Exactly, OnceEach, Queues, Living, Places;
    Whereabouts(x, s);
    PlacesMove(x, s, Admitted, y);
    QueuesElsewhere(x.place, x.registerQ, x.reqQ, x.db, x.resQ, s, Admitted);
    LivingMove(x.connected, x.place, s, Admitted);
  }

  lemma DecideAccounts(x: State, s: Session, a: Account)
    requires Accounts(x.hash, x.account, x.place) && Notified(x.noticeQ, x.hash, x.place)
    requires Balanced(x.requested, x.executed, x.hash, x.place)
    requires a !in x.hash && s in x.place && x.place[s] == Importable && NoneReturned(x.place)
    ensures Accounts(x.hash[a := s], x.account[s := a], x.place[s := Admitted])
    ensures Notified(x.noticeQ, x.hash[a := s], x.place[s := Admitted])
    ensures Balanced(x.requested, x.executed, x.hash[a := s], x.place[s := Admitted])
    ensures forall j :: JobOk(x.account, j) ==> JobOk(x.account[s := a], j)
  {
    assert s !in x.account;
  }

  /** The assertion of authNotifyPacketProc holds: the account of a notice is in the table. */
  lemma NoticeKeeps(x: State)
    requires Inv(x)
    ensures Inv(NoticeStep(x))
  {
    if x.pc == Notices && x.noticeQ != [] {
      var a := x.noticeQ[0];
      assert a in x.noticeQ;
      hide OnceEach, Exactly, Queues, Places, Balanced;
      var s, y := x.hash[a], NoticeStep(x);
      Whereabouts(x, s);
      PlacesMove(x, s, Returned, y);
      QueuesElsewhere(x.place, x.registerQ, x.reqQ, x.db, x.resQ, s, Returned);
      NoticeAccounts(x, a, s);
    }
  }

  lemma NoticeAccounts(x: State, a: Account, s: Session)
    requires Accounts(x.hash, x.account, x.place) && Notified(x.noticeQ, x.hash, x.place)
    requires Balanced(x.requested, x.executed, x.hash, x.place) && Living(x.connected, x.place)
    requires x.noticeQ != [] && a == x.noticeQ[0] && a in x.hash && s == x.hash[a]
    ensures Accounts(x.hash - {a}, x.account, x.place[s := Returned])
    ensures Notified(x.noticeQ[1..], x.hash - {a}, x.place[s := Returned])
    ensures Balanced(x.requested, x.executed, x.hash - {a}, x.place[s := Returned])
    ensures Living(x.connected, x.place[s := Returned])
  {
    hide Balanced, Living;
    HashApart(x.hash, x.account, x.place);
    NoticeTable(x.hash, x.account, x.place, a);
    hide Accounts;
    assert x.noticeQ == [a] + x.noticeQ[1..];
    assert a in x.noticeQ;
    NoticeBalance(x, a, s);
  }

  lemma NoticeBalance(x: State, a: Account, s: Session)
    requires Balanced(x.requested, x.executed, x.hash, x.place) && Living(x.connected, x.place)
    requires a in x.hash && x.hash[a] == s && s in x.place && x.place[s] == Noticed
    requires forall b :: b in x.hash && b != a ==> x.hash[b] != s
    ensures Balanced(x.requested, x.executed, x.hash - {a}, x.place[s := Returned])
    ensures Living(x.connected, x.place[s := Returned])
  {
    hide Get;
  }

  lemma HashApart(hash: map<Account, Session>, account: map<Session, Account>, place: Map)
    requires Accounts(hash, account, place)
    ensures forall a, b :: a in hash && b in hash && a != b ==> hash[a] != hash[b]
  {
  }

  lemma NoticeTable(hash: map<Account, Session>, account: map<Session, Account>, place: Map, a: Account)
    requires Accounts(hash, account, place) && a in hash && hash[a] in place
    ensures Accounts(hash - {a}, account, place[hash[a] := Returned])
  {
  }

  lemma NoticesDoneKeeps(x: State)
    requires Inv(x)
    ensures Inv(Next(x, NoticesDone))
  {
    hide OnceEach, Queues, Accounts, Notified, Balanced, Living, Jobs;
  }

  lemma LookKeeps(x: State, s: Session)
    requires Inv(x)
    ensures Inv(LookStep(x, s))
  {
    hide OnceEach, Queues, Notified, Balanced, Jobs;
    if x.pc.Looking? && s in x.pc.todo {
      hide Exactly, Accounts;
      LookLists(x, s);
    }
  }

  lemma LookLists(x: State, s: Session)
    requires x.pc.Looking? && s in x.pc.todo && ListsOk(x.auth, x.connected, x.place, x.pc.todo, x.pc.dis, x.pc.leave)
    requires Accounts(x.hash, x.account, x.place) && Exactly(x.auth, x.place, InAuth) && Living(x.connected, x.place)
    ensures var rest := x.pc.todo - {s};
      && (s !in x.connected ==> ListsOk(x.auth, x.connected, x.place, rest, x.pc.dis + [s], x.pc.leave))
      && (s in x.connected && s in x.account ==>
          ListsOk(x.auth, x.connected, x.place, rest, x.pc.dis, x.pc.leave + [s]))
      && (s in x.connected ==> ListsOk(x.auth, x.connected, x.place, rest, x.pc.dis, x.pc.leave))
  {
    hide Accounts;
    if s in x.account { KnownPlace(x.hash, x.account, x.place, s); }
  }

  lemma KnownPlace(hash: map<Account, Session>, account: map<Session, Account>, place: Map, s: Session)
    requires Accounts(hash, account, place) && s in account
    ensures s in place && !Unauthenticated(place[s])
  {
  }

  /** The find of checkDisConnectedAndLeavePlayer succeeds; and for a player that came back from the
      field, erasing its account from the table erases nothing. */
  lemma DeleteKeeps(x: State)
    requires Inv(x)
    ensures Inv(DeleteStep(x))
  {
    hide OnceEach, Queues, ListsOk, Accounts, Notified, Balanced, Places, Living, Jobs;
    if x.pc.Acting? && x.pc.dis != [] {
      var s := x.pc.dis[0];
      DisHead(x.auth, x.connected, x.place, x.pc.dis, x.pc.leave);
      Whereabouts(x, s);
      if s in x.unauth { DeleteUnknown(x, s); } else { DeleteKnown(x, s); }
      DeleteRest(x, s, DeleteStep(x));
    }
  }

  /** What does not depend on whether the player was authenticated. */
  lemma DeleteRest(x: State, s: Session, y: State)
    requires Places(x.unauth, x.auth, x.field, x.pending, x.place) && Living(x.connected, x.place)
    requires Queues(x.place, x.registerQ, x.reqQ, x.db, x.resQ)
    requires x.pc.Acting? && x.pc.dis != [] && s == x.pc.dis[0]
    requires ListsOk(x.auth, x.connected, x.place, {}, x.pc.dis, x.pc.leave)
    requires y.place == x.place[s := Deleted] && y.auth == x.auth - {s} && y.field == x.field && y.pending == x.pending
    requires y.unauth == (if s in x.unauth then x.unauth - {s} else x.unauth) && y.connected == x.connected
    requires y.registerQ == x.registerQ && y.reqQ == x.reqQ && y.db == x.db && y.resQ == x.resQ
    requires y.pc == Acting(x.pc.dis[1..], x.pc.leave)
    ensures Places(y.unauth, y.auth, y.field, y.pending, y.place) && Living(y.connected, y.place)
    ensures Queues(y.place, y.registerQ, y.reqQ, y.db, y.resQ)
    ensures PcOk(y.pc, y.auth, y.connected, y.place, y.hash, y.store, y.executed)
  {
    hide OnceEach, Queues, ListsOk, Places, Living;
    DisHead(x.auth, x.connected, x.place, x.pc.dis, x.pc.leave);
    Whereabouts(x, s);
    PlacesMove(x, s, Deleted, y);
    QueuesElsewhere(x.place, x.registerQ, x.reqQ, x.db, x.resQ, s, Deleted);
    LivingMove(x.connected, x.place, s, Deleted);
    DeleteLists(x);
  }

  lemma DeleteUnknown(x: State, s: Session)
    requires Accounts(x.hash, x.account, x.place) && Notified(x.noticeQ, x.hash, x.place)
    requires Balanced(x.requested, x.executed, x.hash, x.place) && s in x.place && Unauthenticated(x.place[s])
    ensures Accounts(x.hash, x.account, x.place[s := Deleted])
    ensures Notified(x.noticeQ, x.hash, x.place[s := Deleted])
    ensures Balanced(x.requested, x.executed, x.hash, x.place[s := Deleted])
  {
    hide Get;
  }

  lemma DeleteKnown(x: State, s: Session)
    requires Accounts(x.hash, x.account, x.place) && Notified(x.noticeQ, x.hash, x.place)
    requires Balanced(x.requested, x.executed, x.hash, x.place)
    requires s in x.place && (x.place[s] == Admitted || x.place[s] == Returned)
    ensures s in x.account
    ensures var h := x.hash - {x.account[s]};
      && Accounts(h, x.account, x.place[s := Deleted])
      && Notified(x.noticeQ, h, x.place[s := Deleted])
      && Balanced(x.requested, x.executed, h, x.place[s := Deleted])
      && (x.place[s] == Returned ==> h == x.hash)
  {
    EraseEntry(x.hash, x.account, x.place, s);
    hide Accounts, Get;
  }

  /** The table without the entry of a deleted player, and what the other invariants need to know of it. */
  lemma EraseEntry(hash: map<Account, Session>, account: map<Session, Account>, place: Map, s: Session)
    requires Accounts(hash, account, place) && s in place && (place[s] == Admitted || place[s] == Returned)
    ensures s in account && Accounts(hash - {account[s]}, account, place[s := Deleted])
    ensures place[s] == Returned ==> hash - {account[s]} == hash
    ensures account[s] in hash ==> hash[account[s]] == s
    ensures forall a :: a in hash && a != account[s] ==> hash[a] != s && hash[a] in place
    ensures place[s] == Returned ==> account[s] !in hash
  {
  }

  lemma DisHead(auth: set<Session>, connected: set<Session>, place: Map, dis: seq<Session>, leave: seq<Session>)
    requires ListsOk(auth, connected, place, {}, dis, leave) && dis != []
    ensures dis[0] in auth && dis[0] !in connected
  {
    assert dis[0] in dis;
  }

  lemma LeaveHead(auth: set<Session>, connected: set<Session>, place: Map, dis: seq<Session>, leave: seq<Session>)
    requires ListsOk(auth, connected, place, {}, dis, leave) && leave != []
    ensures leave[0] in place && place[leave[0]] == Admitted
  {
    assert leave[0] in leave;
  }

  lemma DeleteLists(x: State)
    requires x.pc.Acting? && x.pc.dis != [] && ListsOk(x.auth, x.connected, x.place, {}, x.pc.dis, x.pc.leave)
    ensures var s := x.pc.dis[0];
      ListsOk(x.auth - {s}, x.connected, x.place[s := Deleted], {}, x.pc.dis[1..], x.pc.leave)
  {
    assert x.pc.dis == [x.pc.dis[0]] + x.pc.dis[1..];
  }

  lemma LeaveKeeps(x: State)
    requires Inv(x)
    ensures Inv(LeaveStep(x))
  {
    hide OnceEach, Exactly, Queues, ListsOk, Accounts, Notified, Balanced, Living, Places, Jobs;
    if x.pc.Acting? && x.pc.dis == [] && x.pc.leave != [] {
      var s, y := x.pc.leave[0], LeaveStep(x);
      LeaveHead(x.auth, x.connected, x.place, x.pc.dis, x.pc.leave);
      Whereabouts(x, s);
      PlacesMove(x, s, Registering, y);
      LeaveTable(x, s);
      LeaveLists(x);
      QueuesToRegister(x, s);
    }
  }

  lemma LeaveTable(x: State, s: Session)
    requires Accounts(x.hash, x.account, x.place) && Notified(x.noticeQ, x.hash, x.place)
    requires Balanced(x.requested, x.executed, x.hash, x.place) && Living(x.connected, x.place)
    requires s in x.place && x.place[s] == Admitted
    ensures var p := x.place[s := Registering];
      && Accounts(x.hash, x.account, p) && Notified(x.noticeQ, x.hash, p)
      && Balanced(x.requested, x.executed, x.hash, p) && Living(x.connected, p)
  {
    hide Accounts, Notified, Balanced, Living;
    AccountsMove(x.hash, x.account, x.place, s, Registering);
    NotifiedMove(x.noticeQ, x.hash, x.place, s, Registering);
    BalancedMove(x.requested, x.executed, x.hash, x.place, s, Registering);
    LivingMove(x.connected, x.place, s, Registering);
  }

  lemma LeaveLists(x: State)
    requires x.pc.Acting? && x.pc.dis == [] && x.pc.leave != []
               && ListsOk(x.auth, x.connected, x.place, {}, [], x.pc.leave)
    ensures var s := x.pc.leave[0];
      ListsOk(x.auth - {s}, x.connected, x.place[s := Registering], {}, [], x.pc.leave[1..])
  {
    assert x.pc.leave == [x.pc.leave[0]] + x.pc.leave[1..];
  }

  lemma QueuesToRegister(x: State, s: Session)
    requires Queues(x.place, x.registerQ, x.reqQ, x.db, x.resQ) && s in x.place && x.place[s] == Admitted
    ensures Queues(x.place[s := Registering], x.registerQ + [s], x.reqQ, x.db, x.resQ)
  {
    OnceMore(x.place, x.registerQ, Registering, s);
    OnceElsewhere(x.place, Saves(x.reqQ), SaveQueued, s, Registering);
    OnceElsewhere(x.place, AtWork(x.db, false), SaveTaken, s, Registering);
    OnceElsewhere(x.place, AtWork(x.db, true), SaveRun, s, Registering);
    OnceElsewhere(x.place, Saves(x.resQ), SaveAnswered, s, Registering);
    hide OnceEach;
  }

  /** The assertion of handleRegisterPlayer holds. */
  lemma RegisterKeeps(x: State)
    requires Inv(x)
    ensures Inv(RegisterStep(x))
  {
    hide OnceEach, Exactly, PcOk, Accounts, Notified, Balanced, Living, Jobs, Places, Queues;
    if x.registerQ != [] {
      var s, y := x.registerQ[0], RegisterStep(x);
      RegisterQueues(x, s);
      Whereabouts(x, s);
      PlacesMove(x, s, Playing, y);
      FieldMove(x, s, Playing);
      BalancedMove(x.requested, x.executed, x.hash, x.place, s, Playing);
      LivingMove(x.connected, x.place, s, Playing);
    }
  }

  lemma RegisterQueues(x: State, s: Session)
    requires Queues(x.place, x.registerQ, x.reqQ, x.db, x.resQ) && x.registerQ != [] && s == x.registerQ[0]
    ensures s in x.place && x.place[s] == Registering
    ensures Queues(x.place[s := Playing], x.registerQ[1..], x.reqQ, x.db, x.resQ)
  {
    hide OnceEach;
    OnceAt(x.place, x.registerQ, Registering);
    OnceLess(x.place, x.registerQ, Registering, Playing);
    OnceElsewhere(x.place, Saves(x.reqQ), SaveQueued, s, Playing);
    OnceElsewhere(x.place, AtWork(x.db, false), SaveTaken, s, Playing);
    OnceElsewhere(x.place, AtWork(x.db, true), SaveRun, s, Playing);
    OnceElsewhere(x.place, Saves(x.resQ), SaveAnswered, s, Playing);
  }

  /** What stays true when a player moves within the field and the DB thread. */
  lemma FieldMove(x: State, s: Session, q: Place)
    requires PcOk(x.pc, x.auth, x.connected, x.place, x.hash, x.store, x.executed)
    requires Accounts(x.hash, x.account, x.place) && Notified(x.noticeQ, x.hash, x.place)
    requires s in x.place && Held(x.place[s]) && !InAuth(x.place[s]) && x.place[s] != Noticed && InField(q)
    ensures PcOk(x.pc, x.auth, x.connected, x.place[s := q], x.hash, x.store, x.executed)
    ensures Accounts(x.hash, x.account, x.place[s := q]) && Notified(x.noticeQ, x.hash, x.place[s := q])
    ensures s in x.account && x.account[s] in x.hash && x.hash[x.account[s]] == s
  {
    PcMove(x, s, q);
    AccountsMove(x.hash, x.account, x.place, s, q);
    NotifiedMove(x.noticeQ, x.hash, x.place, s, q);
  }

  lemma RequestSaveKeeps(x: State, s: Session, pos: int)
    requires Inv(x)
    ensures Inv(RequestSaveStep(x, s, pos))
  {
    hide OnceEach, Exactly, PcOk, Accounts, Notified, Balanced, Living, Jobs, Places, Queues;
    if s in x.field && s !in x.connected && s !in x.pending && s in x.account {
      var y, a := RequestSaveStep(x, s, pos), x.account[s];
      Whereabouts(x, s);
      PlacesMove(x, s, SaveQueued, y);
      FieldMove(x, s, SaveQueued);
      LivingMove(x.connected, x.place, s, SaveQueued);
      RequestBalanced(x, s, a);
      MoreJobs(x.reqQ, x.db, x.account, Save(s, a, pos));
      RequestQueues(x, s, Save(s, a, pos));
    }
  }

  lemma RequestQueues(x: State, s: Session, j: Job)
    requires Queues(x.place, x.registerQ, x.reqQ, x.db, x.resQ) && s in x.place && x.place[s] == Playing
    requires j.Save? && j.s == s
    ensures Queues(x.place[s := SaveQueued], x.registerQ, x.reqQ + [j], x.db, x.resQ)
  {
    hide OnceEach;
    SavesMore(x.reqQ, j);
    OnceElsewhere(x.place, x.registerQ, Registering, s, SaveQueued);
    OnceMore(x.place, Saves(x.reqQ), SaveQueued, s);
    OnceElsewhere(x.place, AtWork(x.db, false), SaveTaken, s, SaveQueued);
    OnceElsewhere(x.place, AtWork(x.db, true), SaveRun, s, SaveQueued);
    OnceElsewhere(x.place, Saves(x.resQ), SaveAnswered, s, SaveQueued);
  }

  lemma RequestBalanced(x: State, s: Session, a: Account)
    requires Balanced(x.requested, x.executed, x.hash, x.place) && Accounts(x.hash, x.account, x.place)
    requires s in x.place && x.place[s] == Playing && s in x.account && x.account[s] == a
    ensures Balanced(x.requested[a := Get(x.requested, a) + 1], x.executed, x.hash, x.place[s := SaveQueued])
  {
  }

  lemma MoreJobs(reqQ: seq<Job>, db: DbPc, account: map<Session, Account>, j: Job)
    requires Jobs(reqQ, db, account) && JobOk(account, j)
    ensures Jobs(reqQ + [j], db, account)
  {
  }

  lemma RequestOtherKeeps(x: State)
    requires Inv(x)
    ensures Inv(Next(x, RequestOther))
  {
    SavesMore(x.reqQ, Other);
    MoreJobs(x.reqQ, x.db, x.account, Other);
    assert Saves(x.reqQ) + [] == Saves(x.reqQ);
    hide OnceEach, PcOk, Accounts, Notified, Balanced, Living, Jobs, Places;
  }

  lemma TakeKeeps(x: State)
    requires Inv(x)
    ensures Inv(TakeStep(x))
  {
    hide OnceEach, Exactly, PcOk, Accounts, Notified, Balanced, Living, Places, Queues;
    if x.db == Idle && x.reqQ != [] {
      var j, y := x.reqQ[0], TakeStep(x);
      assert x.reqQ == [j] + x.reqQ[1..];
      TakeQueues(x);
      if j.Save? {
        MoveInDb(x, j.s, SaveTaken, y);
        BalancedMove(x.requested, x.executed, x.hash, x.place, j.s, SaveTaken);
      }
    }
  }

  lemma TakeQueues(x: State)
    requires Queues(x.place, x.registerQ, x.reqQ, x.db, x.resQ) && x.db == Idle && x.reqQ != []
    ensures var j := x.reqQ[0];
      if j.Save? then j.s in x.place && x.place[j.s] == SaveQueued
                      && Queues(x.place[j.s := SaveTaken], x.registerQ, x.reqQ[1..], Taken(j), x.resQ)
      else Queues(x.place, x.registerQ, x.reqQ[1..], Taken(j), x.resQ)
  {
    hide OnceEach;
    var j, rest := x.reqQ[0], Saves(x.reqQ[1..]);
    assert [] + rest == rest;
    if j.Save? {
      assert Saves(x.reqQ)[1..] == rest && [] + [j.s] == [j.s];
      OnceAt(x.place, Saves(x.reqQ), SaveQueued);
      OnceElsewhere(x.place, x.registerQ, Registering, j.s, SaveTaken);
      OnceLess(x.place, Saves(x.reqQ), SaveQueued, SaveTaken);
      OnceMore(x.place, AtWork(x.db, false), SaveTaken, j.s);
      OnceElsewhere(x.place, AtWork(x.db, true), SaveRun, j.s, SaveTaken);
      OnceElsewhere(x.place, Saves(x.resQ), SaveAnswered, j.s, SaveTaken);
    }
  }

  /** A save goes from one stage to the next. */
  lemma MoveInDb(x: State, s: Session, q: Place, y: State)
    requires Places(x.unauth, x.auth, x.field, x.pending, x.place)
    requires PcOk(x.pc, x.auth, x.connected, x.place, x.hash, x.store, x.executed)
    requires Accounts(x.hash, x.account, x.place) && Notified(x.noticeQ, x.hash, x.place)
               && Living(x.connected, x.place)
    requires s in x.place && Saving(x.place[s]) && Saving(q) && y.place == x.place[s := q]
    requires y.unauth == x.unauth && y.auth == x.auth && y.field == x.field && y.pending == x.pending
    ensures Places(y.unauth, y.auth, y.field, y.pending, y.place) && Living(x.connected, x.place[s := q])
    ensures PcOk(x.pc, x.auth, x.connected, x.place[s := q], x.hash, x.store, x.executed)
    ensures Accounts(x.hash, x.account, x.place[s := q]) && Notified(x.noticeQ, x.hash, x.place[s := q])
    ensures s in x.account && x.account[s] in x.hash && x.hash[x.account[s]] == s
  {
    hide PcOk, Accounts, Notified, Places;
    Whereabouts(x, s);
    assert s !in x.connected;
    PlacesMove(x, s, q, y);
    FieldMove(x, s, q);
    LivingMove(x.connected, x.place, s, q);
  }

  lemma RunKeeps(x: State, ok: bool)
    requires Inv(x)
    ensures Inv(RunStep(x, ok))
  {
    hide OnceEach, Exactly, PcOk, Accounts, Notified, Balanced, Living, Places, Queues;
    if x.db.Taken? {
      var j, y := x.db.job, RunStep(x, ok);
      RunQueues(x, j);
      if j.Save? {
        MoveInDb(x, j.s, SaveRun, y);
        RunBalanced(x, j.s, j.a);
        RunPc(y.pc, y.auth, y.connected, y.place, y.hash, x.store, x.executed, j.a, j.pos, ok);
      }
    }
  }

  lemma RunQueues(x: State, j: Job)
    requires Queues(x.place, x.registerQ, x.reqQ, x.db, x.resQ) && x.db == Taken(j)
    ensures if j.Save? then j.s in x.place && x.place[j.s] == SaveTaken
                            && Queues(x.place[j.s := SaveRun], x.registerQ, x.reqQ, Done(j), x.resQ)
            else Queues(x.place, x.registerQ, x.reqQ, Done(j), x.resQ)
  {
    hide OnceEach;
    if j.Save? {
      assert [] + [j.s] == [j.s] && [j.s][1..] == [];
      OnceAt(x.place, AtWork(x.db, false), SaveTaken);
      OnceElsewhere(x.place, x.registerQ, Registering, j.s, SaveRun);
      OnceElsewhere(x.place, Saves(x.reqQ), SaveQueued, j.s, SaveRun);
      OnceLess(x.place, AtWork(x.db, false), SaveTaken, SaveRun);
      OnceMore(x.place, AtWork(x.db, true), SaveRun, j.s);
      OnceElsewhere(x.place, Saves(x.resQ), SaveAnswered, j.s, SaveRun);
    }
  }

  lemma RunBalanced(x: State, s: Session, a: Account)
    requires Balanced(x.requested, x.executed, x.hash, x.place) && Accounts(x.hash, x.account, x.place)
    requires s in x.place && x.place[s] == SaveTaken && s in x.account && x.account[s] == a
    ensures Balanced(x.requested, x.executed[a := Get(x.executed, a) + 1], x.hash, x.place[s := SaveRun])
  {
  }

  /** A save that runs does not disturb a login that has read another account's row. */
  lemma RunPc(pc: AuthPc, auth: set<Session>, connected: set<Session>, place: Map, hash: map<Account, Session>,
              store: map<Account, int>, executed: map<Account, nat>, a: Account, pos: int, ok: bool)
    requires PcOk(pc, auth, connected, place, hash, store, executed) && a in hash
    ensures PcOk(pc, auth, connected, place, hash, if ok then store[a := pos] else store,
                 executed[a := Get(executed, a) + 1])
  {
  }

  lemma AnswerKeeps(x: State)
    requires Inv(x)
    ensures Inv(AnswerStep(x))
  {
    hide OnceEach, Exactly, PcOk, Accounts, Notified, Balanced, Living, Places, Queues;
    if x.db.Done? {
      var j, y := x.db.job, AnswerStep(x);
      AnswerQueues(x, j);
      if j.Save? {
        MoveInDb(x, j.s, SaveAnswered, y);
        BalancedMove(x.requested, x.executed, x.hash, x.place, j.s, SaveAnswered);
      }
    }
  }

  lemma AnswerQueues(x: State, j: Job)
    requires Queues(x.place, x.registerQ, x.reqQ, x.db, x.resQ) && x.db == Done(j)
    ensures if j.Save? then j.s in x.place && x.place[j.s] == SaveRun
                            && Queues(x.place[j.s := SaveAnswered], x.registerQ, x.reqQ, Idle, x.resQ + [j])
            else Queues(x.place, x.registerQ, x.reqQ, Idle, x.resQ + [j])
  {
    hide OnceEach;
    SavesMore(x.resQ, j);
    assert Saves(x.resQ) + [] == Saves(x.resQ);
    if j.Save? {
      assert [j.s][1..] == [];
      OnceAt(x.place, AtWork(x.db, true), SaveRun);
      OnceElsewhere(x.place, x.registerQ, Registering, j.s, SaveAnswered);
      OnceElsewhere(x.place, Saves(x.reqQ), SaveQueued, j.s, SaveAnswered);
      OnceElsewhere(x.place, AtWork(x.db, false), SaveTaken, j.s, SaveAnswered);
      OnceLess(x.place, AtWork(x.db, true), SaveRun, SaveAnswered);
      OnceMore(x.place, Saves(x.resQ), SaveAnswered, j.s);
    }
  }

  lemma ResultKeeps(x: State)
    requires Inv(x)
    ensures Inv(ResultStep(x))
  {
    hide OnceEach, Exactly, PcOk, Accounts, Notified, Balanced, Living, Places, Jobs, Queues;
    if x.resQ != [] {
      var r, y := x.resQ[0], ResultStep(x);
      ResultQueues(x);
      if r.Save? {
        var s := r.s;
        Whereabouts(x, s);
        ResultAccounts(x, s);
        PlacesMove(x, s, Noticed, y);
        PcMove(x, s, Noticed);
      }
    }
  }

  lemma ResultQueues(x: State)
    requires Queues(x.place, x.registerQ, x.reqQ, x.db, x.resQ) && x.resQ != []
    ensures var r := x.resQ[0];
      if r.Save? then r.s in x.place && x.place[r.s] == SaveAnswered
                      && Queues(x.place[r.s := Noticed], x.registerQ, x.reqQ, x.db, x.resQ[1..])
      else Queues(x.place, x.registerQ, x.reqQ, x.db, x.resQ[1..])
  {
    hide OnceEach;
    var r, rest := x.resQ[0], Saves(x.resQ[1..]);
    assert [] + rest == rest;
    if r.Save? {
      assert Saves(x.resQ)[1..] == rest;
      OnceAt(x.place, Saves(x.resQ), SaveAnswered);
      OnceElsewhere(x.place, x.registerQ, Registering, r.s, Noticed);
      OnceElsewhere(x.place, Saves(x.reqQ), SaveQueued, r.s, Noticed);
      OnceElsewhere(x.place, AtWork(x.db, false), SaveTaken, r.s, Noticed);
      OnceElsewhere(x.place, AtWork(x.db, true), SaveRun, r.s, Noticed);
      OnceLess(x.place, Saves(x.resQ), SaveAnswered, Noticed);
    }
  }

  lemma ResultAccounts(x: State, s: Session)
    requires Accounts(x.hash, x.account, x.place) && Notified(x.noticeQ, x.hash, x.place)
    requires Balanced(x.requested, x.executed, x.hash, x.place) && Living(x.connected, x.place)
    requires s in x.place && x.place[s] == SaveAnswered
    ensures s in x.account && Accounts(x.hash, x.account, x.place[s := Noticed])
    ensures Notified(x.noticeQ + [x.account[s]], x.hash, x.place[s := Noticed])
    ensures Balanced(x.requested, x.executed, x.hash, x.place[s := Noticed])
    ensures Living(x.connected, x.place[s := Noticed])
  {
    AccountsMove(x.hash, x.account, x.place, s, Noticed);
    BalancedMove(x.requested, x.executed, x.hash, x.place, s, Noticed);
    assert s !in x.connected;
    hide Balanced;
    var a := x.account[s];
    assert a in x.hash && x.hash[a] == s && a !in x.noticeQ;
  }

  lemma NextKeeps(x: State, e: Event)
    requires Inv(x)
    ensures Inv(Next(x, e))
  {
    hide Inv, AcceptStep, ReleaseStep, ImportStep, SelectStep, DecideStep, NoticeStep, LookStep, DeleteStep, LeaveStep,
         RegisterStep, RequestSaveStep, ResultStep, TakeStep, RunStep, AnswerStep;
    match e
    case Accept(s) => AcceptKeeps(x, s);
    case Release(s) => ReleaseKeeps(x, s);
    case ImportAll => ImportKeeps(x);
    case Select(s, a) => SelectKeeps(x, s, a);
    case Decide => DecideKeeps(x);
    case PacketsDone => PhaseKeeps(x, e);
    case Notice => NoticeKeeps(x);
    case NoticesDone => NoticesDoneKeeps(x);
    case Look(s) => LookKeeps(x, s);
    case LookDone => PhaseKeeps(x, e);
    case Delete => DeleteKeeps(x);
    case Leave => LeaveKeeps(x);
    case ActDone => PhaseKeeps(x, e);
    case RegisterPlayer => RegisterKeeps(x);
    case RequestSave(s, pos) => RequestSaveKeeps(x, s, pos);
    case RequestOther => RequestOtherKeeps(x);
    case Result => ResultKeeps(x);
    case Take => TakeKeeps(x);
    case Run(ok) => RunKeeps(x, ok);
    case Answer => AnswerKeeps(x);
  }

  lemma SelectKeeps(x: State, s: Session, a: Account)
    requires Inv(x)
    ensures Inv(SelectStep(x, s, a))
  {
    hide OnceEach, Queues, Notified, Balanced, Living, Jobs;
    if x.pc == Packets && s in x.auth && s !in x.account {
      assert s in x.place && InAuth(x.place[s]);
    }
  }

  lemma PhaseKeeps(x: State, e: Event)
    requires Inv(x) && (e == PacketsDone || e == LookDone || e == ActDone)
    ensures Inv(Next(x, e))
  {
    hide OnceEach, Queues, Notified, Balanced, Living, Jobs, Accounts, Places;
  }

  lemma {:induction false} RunInv(es: seq<Event>)
    ensures Inv(RunAll(es))
  {
    if es == [] {
      var x := Init();
      assert OnceEach(x.place, [], Registering);
    } else {
      hide Inv, Next;
      RunInv(es[..|es| - 1]);
      NextKeeps(RunAll(es[..|es| - 1]), es[|es| - 1]);
    }
  }

  // ---- what every interleaving guarantees -------------------------------------------------------------------------

  /** The states that some run leads to. */
  ghost predicate Reachable(x: State) {
    exists es: seq<Event> :: x == RunAll(es)
  }

  lemma ReachableInv(x: State)
    requires Reachable(x)
    ensures Inv(x)
  {
    var es: seq<Event> :| x == RunAll(es);
    hide Inv, RunAll;
    RunInv(es);
  }

  /** No save of account a is waiting or running. */
  ghost predicate NothingToSave(x: State, a: Account) {
    && (forall j :: j in x.reqQ && j.Save? ==> j.a != a)
    && (x.db.Taken? && x.db.job.Save? ==> x.db.job.a != a)
  }

  /** A login that is admitted is fresh: whenever handleAuthReq finds no duplicate, the player is still
      waiting to be promoted, no save of the account is outstanding, the row was read after the last
      requested save had been executed, and it still holds what was read. */
  lemma LoginIsFresh(x: State)
    requires Reachable(x) && x.pc.Selected? && x.pc.a !in x.hash
    ensures x.pc.s in x.unauth
    ensures NothingToSave(x, x.pc.a)
    ensures x.pc.seen == Get(x.executed, x.pc.a) == Get(x.requested, x.pc.a)
    ensures x.pc.pos == Stored(x.store, x.pc.a)
    ensures x.pc.a in Next(x, Decide).hash
  {
    hide OnceEach, Notified, Queues, Jobs, Accounts, Living, Reachable;
    ReachableInv(x);
    Idleness(x, x.pc.a);
  }

  /** An account without an entry in the table has nothing in the DB thread's queue. */
  lemma Idleness(x: State, a: Account)
    requires Inv(x) && a !in x.hash
    ensures NothingToSave(x, a)
  {
    hide PcOk, Notified, Balanced, Living, Places;
    forall j | j in x.reqQ && j.Save?
      ensures j.a != a
    {
      SavesHas(x.reqQ, j);
      assert j.s in x.place && Held(x.place[j.s]);
    }
    if x.db.Taken? && x.db.job.Save? {
      OnceAt(x.place, AtWork(x.db, false), SaveTaken);
    }
  }

  lemma {:induction false} SavesHas(q: seq<Job>, j: Job)
    requires j in q && j.Save?
    ensures j.s in Saves(q)
  {
    if j != q[0] {
      SavesHas(q[1..], j);
    }
  }

  /** At most one save per account is outstanding. */
  lemma OneSavePerAccount(x: State, a: Account)
    requires Reachable(x)
    ensures Get(x.executed, a) <= Get(x.requested, a) <= Get(x.executed, a) + 1
    ensures a !in x.hash ==> Get(x.requested, a) == Get(x.executed, a)
  {
    hide Reachable, Places, Queues, PcOk, Living, Jobs, Notified, Accounts, Get;
    ReachableInv(x);
  }

  /** The player's account is named in a notice that the authentication thread has not yet read. */
  ghost predicate InNotice(x: State, s: Session) {
    s in x.account && x.account[s] in x.noticeQ && x.account[s] in x.hash && x.hash[x.account[s]] == s
  }

  /** Every Player that was created and not deleted is in exactly one place, and no other is in any. */
  lemma OnePlace(x: State, s: Session)
    requires Reachable(x)
    ensures var auth, queue := s in x.unauth || s in x.auth, s in x.registerQ;
      var field, notice := s in x.field, InNotice(x, s);
      && !(auth && queue) && !(auth && field) && !(auth && notice) && !(queue && field) && !(queue && notice)
           && !(field && notice)
      && (s in x.place && x.place[s] != Deleted <==> auth || queue || field || notice)
    ensures forall i, j :: 0 <= i < j < |x.registerQ| ==> x.registerQ[i] != x.registerQ[j]
  {
    hide Inv, InNotice, Reachable;
    ReachableInv(x);
    ByPlace(x, s);
  }

  lemma ByPlace(x: State, s: Session)
    requires Inv(x)
    ensures s in x.unauth || s in x.auth <==> s in x.place && (Unauthenticated(x.place[s]) || InAuth(x.place[s]))
    ensures s in x.registerQ <==> s in x.place && x.place[s] == Registering
    ensures forall i, j :: 0 <= i < j < |x.registerQ| ==> x.registerQ[i] != x.registerQ[j]
    ensures s in x.field <==> s in x.place && InField(x.place[s])
    ensures InNotice(x, s) <==> s in x.place && x.place[s] == Noticed
  {
    hide PcOk, Balanced, Living, Jobs, InNotice, Places, Queues, Accounts, Notified;
    Whereabouts(x, s);
    RegisterOnce(x);
    NoticePlace(x, s);
  }

  lemma NoticePlace(x: State, s: Session)
    requires Accounts(x.hash, x.account, x.place) && Notified(x.noticeQ, x.hash, x.place)
    ensures InNotice(x, s) <==> s in x.place && x.place[s] == Noticed
  {
    if s in x.place && x.place[s] == Noticed {
      assert Held(x.place[s]);
      var a := x.account[s];
      assert a in x.hash && x.hash[a] == s;
      assert a in x.noticeQ;
    }
    if InNotice(x, s) {
      var a := x.account[s];
      assert a in x.noticeQ && x.hash[a] == s;
    }
  }

  lemma RegisterOnce(x: State)
    requires Queues(x.place, x.registerQ, x.reqQ, x.db, x.resQ)
    ensures forall i, j :: 0 <= i < j < |x.registerQ| ==> x.registerQ[i] != x.registerQ[j]
    ensures forall s :: s in x.registerQ <==> s in x.place && x.place[s] == Registering
  {
  }

  /** The account table is one to one, holds nothing but authenticated players that exist, and has an
      entry for every player that is queued for the field, on it, or named in a notice. */
  lemma AccountTable(x: State)
    requires Reachable(x)
    ensures forall a, b :: a in x.hash && b in x.hash && a != b ==> x.hash[a] != x.hash[b]
    ensures forall a :: a in x.hash ==>
              && x.hash[a] in x.account && x.account[x.hash[a]] == a
              && x.hash[a] in x.place && x.place[x.hash[a]] != Deleted
    ensures forall s :: s in x.registerQ || s in x.field ==>
              s in x.account && x.account[s] in x.hash && x.hash[x.account[s]] == s
  {
    hide Reachable, Places, Queues, PcOk, Balanced, Living, Jobs, Notified;
    ReachableInv(x);
    forall s | s in x.registerQ || s in x.field
      ensures s in x.account && x.account[s] in x.hash && x.hash[x.account[s]] == s
    {
      ByPlace(x, s);
    }
  }

  /** A Player is deleted only after its onRelease, and no callback can touch it afterwards: whoever is
      connected has not been deleted, and the next to be deleted is not connected. */
  lemma DeletedAfterRelease(x: State)
    requires Reachable(x)
    ensures forall s :: s in x.connected ==> s in x.place && x.place[s] != Deleted
    ensures x.pc.Acting? && x.pc.dis != [] ==> x.pc.dis[0] in x.auth && x.pc.dis[0] !in x.connected
  {
    hide Reachable, Places, Queues, Accounts, Notified, Balanced, Jobs;
    ReachableInv(x);
    if x.pc.Acting? && x.pc.dis != [] {
      DisHead(x.auth, x.connected, x.place, x.pc.dis, x.pc.leave);
    }
  }

  /** Deleting an authenticated player never erases the entry of another login: if its account has an
      entry, it is the player's own. */
  lemma OnlyOwnEntryErased(x: State, s: Session)
    requires Reachable(x) && s in x.auth && s in x.account
    ensures x.account[s] in x.hash ==> x.hash[x.account[s]] == s
  {
    hide Reachable, Places, Queues, PcOk, Balanced, Living, Jobs, Notified;
    ReachableInv(x);
    Whereabouts(x, s);
    KnownPlace(x.hash, x.account, x.place, s);
  }

  /** The assertions of the hand-off never fire, and a save result always finds its player. */
  lemma AssertionsHold(x: State)
    requires Reachable(x)
    ensures !x.asserted
    ensures x.resQ != [] && x.resQ[0].Save? ==>
              x.resQ[0].s in x.field && x.resQ[0].s in x.account && x.resQ[0].s in x.pending
  {
    hide Reachable, PcOk, Balanced, Living, Jobs, Notified, Queues, Places;
    ReachableInv(x);
    if x.resQ != [] && x.resQ[0].Save? {
      ResultQueues(x);
      Whereabouts(x, x.resQ[0].s);
      assert Held(x.place[x.resQ[0].s]);
    }
  }
}

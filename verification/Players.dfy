/** A player's own state machine (Player.cpp) with what the field server's handlers do to it, and the ends
    of its message queue. */
module Players {
  import opened Sectors
  import opened RingBuffer
  import opened LittleEndian
  import M = Monsters

  const PLAYER_HIT_STUN_FRAME: int := 30
  const PLAYER_ATTACK_TOTAL_FRAME: int := 30
  const PLAYER_ATTACK_AWINDUP_FRAME: int := 8
  const PLAYER_MAX_HP: int := 100
  const KNOCKBACK: real := 100.0
  const SPEED: real := 4.5
  const ALLOW_DELAY_FRAME: int := 25
  const SYNC_DISTANCE: real := 100.0
  const CONFIG_SINK_MAXCOUNT: int := 300

  datatype PlayerState = Idle | Move | Attack | Stun | Dead

  /** sync: mSyncCnt, a uint64_t; being a nat says that it never wraps below zero. */
  datatype Body = Body(state: PlayerState, connected: bool, direction: M.Direction, pos: Position, start: Position,
                       anim: int, hp: int, hitStun: int, sync: nat)

  /** What a handler makes of a packet; a rejected one disconnects the session. */
  datatype Verdict = Ignored | Accepted | Rejected
  datatype Heard = Heard(body: Body, verdict: Verdict)

  /** A player as its constructor and the login leave it. */
  function Joined(pos: Position, connected: bool): Body {
    Body(Idle, connected, 0, pos, Position(0.0, 0.0), 0, PLAYER_MAX_HP, 0, 0)
  }

  function Enter(b: Body, s: PlayerState): Body {
    b.(state := s, anim := 0, start := b.pos)
  }

  /** How far so many frames lead in one coordinate. */
  function Way(v: real, anim: int): real {
    v * SPEED * anim as real
  }

  function Along(start: Position, d: M.Direction, anim: int): Position {
    var v := M.DirectionVector(d);
    Position(M.ClampReal(start.x + Way(v.x, anim), M.WorldW()), M.ClampReal(start.y + Way(v.y, anim), M.WorldH()))
  }

  function Knocked(p: Position, facing: M.Direction): Position {
    var v := M.DirectionVector(facing);
    Position(M.ClampReal(p.x + v.x * KNOCKBACK, M.WorldW()), M.ClampReal(p.y + v.y * KNOCKBACK, M.WorldH()))
  }

  /** One update: a disconnected player is frozen, a dead one only counts frames. */
  function Updated(prior: Body): Body {
    if !prior.connected then prior
    else
      var b := prior.(anim := prior.anim + 1);
      match b.state
      case Dead => b
      case Idle => b
      case Move => b.(pos := Along(b.start, b.direction, b.anim))
      case Attack => if PLAYER_ATTACK_TOTAL_FRAME <= b.anim then Enter(b, Idle) else b
      case Stun => if b.hitStun > 0 then b.(hitStun := b.hitStun - 1) else Enter(b, Idle)
  }

  /** One hit by a monster that stands at `from` and looks in direction `facing`. */
  function Damaged(b: Body, damage: int, from: Position, facing: M.Direction): Body {
    if b.state == Dead then b
    else
      var c := b.(direction := M.DirectionTo(b.pos, from), pos := Knocked(b.pos, facing),
                  hp := if b.hp - damage < 0 then 0 else b.hp - damage);
      if c.hp == 0 then Enter(c, Dead) else Enter(c.(hitStun := PLAYER_HIT_STUN_FRAME), Stun)
  }

  /** What fieldUpdate looks at to let an attack land. */
  predicate Lands(b: Body) {
    b.state == Attack && b.anim == PLAYER_ATTACK_AWINDUP_FRAME
  }

  // ---- the handlers ---------------------------------------------------------------------------------------

  /** Whether n more units beyond the allowed distance are within a distance whose square is given. */
  predicate Reaches(square: real, n: nat) {
    M.Squared(SYNC_DISTANCE + n as real) <= square
  }

  /** static_cast<uint64_t>(distance - syncDistance), by the square of the distance: how many whole units
      it exceeds the allowed distance. */
  function Beyond(square: real, n: nat): (e: nat)
    requires Reaches(square, n)
    ensures Reaches(square, e) && !Reaches(square, e + 1)
    decreases square.Floor - n
  {
    if Reaches(square, n + 1) then NotFurther(square, n + 1); Beyond(square, n + 1) else n
  }

  lemma NotFurther(square: real, n: nat)
    requires Reaches(square, n)
    ensures n <= square.Floor
  {
    var r := SYNC_DISTANCE + n as real;
    assert r * r >= r * 1.0;
  }

  predicate FarOff(b: Body, pos: Position) {
    M.Squared(SYNC_DISTANCE) < M.SquaredDistance(b.pos, pos)
  }

  /** An attack that has long to go. */
  predicate EarlyInAttack(b: Body) {
    b.state == Attack && PLAYER_ATTACK_TOTAL_FRAME - b.anim >= ALLOW_DELAY_FRAME
  }

  function Judged(b: Body, otherwise: Verdict): Heard {
    Heard(b, if CONFIG_SINK_MAXCOUNT < b.sync then Rejected else otherwise)
  }

  /** The comparison of the packet's position with the server's: drifting is charged, being in sync pays off. */
  function Compared(b: Body, pos: Position): Heard {
    if FarOff(b, pos) then Judged(b.(sync := b.sync + Beyond(M.SquaredDistance(b.pos, pos), 0)), Accepted)
    else Heard(if 10 < b.sync then b.(sync := b.sync - 10) else b, Accepted)
  }

  /** handleMoveStart: not heard when stunned, dead or moving; charged early in an attack. */
  function Started(b: Body, pos: Position, direction: M.Direction): Heard {
    if b.state == Stun || b.state == Dead || b.state == Move then Heard(b, Ignored)
    else if EarlyInAttack(b) then Judged(b.(sync := b.sync + (PLAYER_ATTACK_TOTAL_FRAME - b.anim)), Ignored)
    else
      var h := Compared(b, pos);
      if h.verdict == Rejected then h else Heard(Enter(h.body.(pos := pos, direction := direction), Move), Accepted)
  }

  /** handleMoveStop: not heard when attacking, dead or stunned. */
  function Stopped(b: Body, pos: Position, direction: M.Direction): Heard {
    if b.state == Attack || b.state == Dead || b.state == Stun then Heard(b, Ignored)
    else
      var h := Compared(b, pos);
      if h.verdict == Rejected then h
      else
        var c := h.body.(pos := pos, direction := direction);
        Heard(if c.state == Idle then c else Enter(c, Idle), Accepted)
  }

  /** The state change of handleAttackReq: an attack starts from rest or movement. */
  predicate CanSwing(b: Body) {
    b.state == Idle || b.state == Move
  }

  function Swung(b: Body): Body {
    if CanSwing(b) then Enter(b, Attack) else b
  }

  class Player {
    var mState: PlayerState
    var mBConnect: bool
    var mDirection: M.Direction
    var mPos: Position
    var mStartMovePos: Position
    var mAnimFrame: int
    var mHp: int
    var mHitStunFrame: int
    var mSyncCnt: nat

    function Value(): Body
      reads this
    {
      Body(mState, mBConnect, mDirection, mPos, mStartMovePos, mAnimFrame, mHp, mHitStunFrame, mSyncCnt)
    }

    constructor ()
      ensures Value() == Joined(Position(0.0, 0.0), true)
    {
      mState, mBConnect, mDirection, mAnimFrame, mHp, mHitStunFrame, mSyncCnt := Idle, true, 0, 0, PLAYER_MAX_HP, 0, 0;
      mPos, mStartMovePos := Position(0.0, 0.0), Position(0.0, 0.0);
    }

    /** The fields of a player that is kept elsewhere by value. */
    method Load(b: Body)
      modifies this
      ensures Value() == b
    {
      mState, mBConnect, mDirection, mPos, mStartMovePos := b.state, b.connected, b.direction, b.pos, b.start;
      mAnimFrame, mHp, mHitStunFrame, mSyncCnt := b.anim, b.hp, b.hitStun, b.sync;
    }

    /** The precondition is the assertion of the source: no caller enters the state it is in. */
    method ChangeState(state: PlayerState)
      requires state != mState
      modifies this`mState, this`mAnimFrame, this`mStartMovePos
      ensures Value() == Enter(old(Value()), state)
    {
      mState, mAnimFrame, mStartMovePos := state, 0, mPos;
    }

    method Update()
      modifies this
      ensures Value() == Updated(old(Value()))
    {
      if !mBConnect {
        return;
      }
      mAnimFrame := mAnimFrame + 1;
      if mState == Dead {
        return;
      }
      match mState {
        case Move => mPos := Along(mStartMovePos, mDirection, mAnimFrame);
        case Attack =>
          if PLAYER_ATTACK_TOTAL_FRAME <= mAnimFrame {
            ChangeState(Idle);
          }
        case Stun =>
          if mHitStunFrame > 0 {
            mHitStunFrame := mHitStunFrame - 1;
          } else {
            ChangeState(Idle);
          }
        case Idle =>
        case Dead =>
      }
    }

    method TakeDamage(damage: int, from: Position, facing: M.Direction)
      modifies this
      ensures Value() == Damaged(old(Value()), damage, from, facing)
    {
      if mState == Dead {
        return;
      }
      mDirection := M.GetDirectionTo(mPos, from);
      mPos := Knocked(mPos, facing);
      mHp := if mHp - damage < 0 then 0 else mHp - damage;
      if mHp == 0 {
        ChangeState(Dead);
      } else {
        mHitStunFrame := PLAYER_HIT_STUN_FRAME;
        if mState == Stun {
          mAnimFrame, mStartMovePos := 0, mPos;
        } else {
          ChangeState(Stun);
        }
      }
    }

    /** The check that both movement handlers share. */
    method ComparePosition(pos: Position) returns (ok: bool)
      modifies this`mSyncCnt
      ensures Heard(Value(), if ok then Accepted else Rejected) == Compared(old(Value()), pos)
      ensures !ok ==> FarOff(old(Value()), pos) && CONFIG_SINK_MAXCOUNT < mSyncCnt
    {
      hide M.SquaredDistance, M.Squared;
      if FarOff(Value(), pos) {
        mSyncCnt := mSyncCnt + Beyond(M.SquaredDistance(mPos, pos), 0);
        if CONFIG_SINK_MAXCOUNT < mSyncCnt {
          return false;
        }
      } else if 10 < mSyncCnt {
        mSyncCnt := mSyncCnt - 10;
      }
      return true;
    }

    /** handleMoveStart. asserted: one of its assertions fails (and the debugger, if there is one, stops there).
        That on state changes cannot fail; one fails on every rejection for the distance, another on a start
        with another speed than the server's. */
    method HandleMoveStart(pos: Position, direction: M.Direction, speed: real)
      returns (verdict: Verdict, asserted: bool)
      modifies this
      ensures asserted <==>
                || (verdict == Rejected && !EarlyInAttack(old(Value())))
                || (verdict == Accepted && speed != SPEED)
      ensures Heard(Value(), verdict) == Started(old(Value()), pos, direction)
      ensures verdict == Rejected <==>
                && CONFIG_SINK_MAXCOUNT < mSyncCnt
                && (EarlyInAttack(old(Value())) || (old(mState) in {Idle, Attack} && FarOff(old(Value()), pos)))
      ensures verdict == Accepted <==> mState == Move && old(mState) != Move
    {
      hide FarOff, Beyond;
      match mState {
        case Stun => return Ignored, false;
        case Dead => return Ignored, false;
        case Move => return Ignored, false;
        case Attack =>
          if PLAYER_ATTACK_TOTAL_FRAME - mAnimFrame >= ALLOW_DELAY_FRAME {
            mSyncCnt := mSyncCnt + (PLAYER_ATTACK_TOTAL_FRAME - mAnimFrame);
            if CONFIG_SINK_MAXCOUNT < mSyncCnt {
              return Rejected, false;
            }
            return Ignored, false;
          }
        case Idle =>
      }
      var ok := ComparePosition(pos);
      if !ok {
        return Rejected, true;
      }
      mPos, mDirection := pos, direction;
      ChangeState(Move);
      return Accepted, SPEED != speed;
    }

    /** handleMoveStop. asserted: a stop that is heard gives a position outside the world. */
    method HandleMoveStop(pos: Position, direction: M.Direction) returns (verdict: Verdict, asserted: bool)
      modifies this
      ensures asserted <==> verdict != Ignored && !M.InWorld(pos)
      ensures Heard(Value(), verdict) == Stopped(old(Value()), pos, direction)
      ensures verdict == Ignored <==> old(mState) in {Attack, Dead, Stun}
      ensures verdict == Accepted ==> mState == Idle && mPos == pos
    {
      hide FarOff, Beyond;
      if mState == Attack || mState == Dead || mState == Stun {
        return Ignored, false;
      }
      asserted := !(0.0 <= pos.x) || !(0.0 <= pos.y) || !(M.WorldW() >= pos.x) || !(M.WorldH() >= pos.y);
      var ok := ComparePosition(pos);
      if !ok {
        return Rejected, asserted;
      }
      mPos, mDirection := pos, direction;
      if mState != Idle {
        ChangeState(Idle);
      }
      return Accepted, asserted;
    }

    /** handleAttackReq, once the skill has been accepted. */
    method StartAttack() returns (told: bool)
      modifies this
      ensures (told <==> CanSwing(old(Value()))) && Value() == Swung(old(Value()))
      ensures told <==> old(mState) == Idle || old(mState) == Move
      ensures if told then mState == Attack && mAnimFrame == 0 && mHp == old(mHp) && mPos == old(mPos)
              else Value() == old(Value())
    {
      if mState == Dead || mState == Attack || mState == Stun {
        return false;
      }
      if mState != Attack {
        ChangeState(Attack);
      }
      return true;
    }
  }

  // ---- runs -------------------------------------------------------------------------------------------------

  /** Whatever happens to a player on the field. Messages of a disconnected player are not dequeued. */
  datatype Event =
    | Frame
    | Hit(damage: nat, from: Position, facing: M.Direction)
    | Start(pos: Position, direction: M.Direction)
    | Stop(pos: Position, direction: M.Direction)
    | Swing
    | Lost

  function After(b: Body, e: Event): Body {
    match e
    case Frame => Updated(b)
    case Hit(damage, from, facing) => Damaged(b, damage, from, facing)
    case Start(pos, direction) => if b.connected then Started(b, pos, direction).body else b
    case Stop(pos, direction) => if b.connected then Stopped(b, pos, direction).body else b
    case Swing => if b.connected then Swung(b) else b
    case Lost => b.(connected := false)
  }

  /** swings: the attacks that were accepted. hits: the frames that let an attack land. late: those after
      the connection was lost. cut: the attacks that a hit or a movement ended before they landed. */
  datatype Tally = Tally(body: Body, swings: nat, hits: nat, late: nat, cut: nat)

  /** An attack that has not landed yet. */
  predicate Pending(b: Body) {
    b.state == Attack && b.anim < PLAYER_ATTACK_AWINDUP_FRAME
  }

  /** The tally of a player that event e has turned into c. */
  function Recorded(t: Tally, e: Event, c: Body): Tally {
    var b := t.body;
    Tally(c,
          t.swings + (if e.Swing? && b.connected && CanSwing(b) then 1 else 0),
          t.hits + (if e.Frame? && Lands(c) && c.connected then 1 else 0),
          t.late + (if e.Frame? && Lands(c) && !c.connected then 1 else 0),
          t.cut + (if Pending(b) && c.state != Attack then 1 else 0))
  }

  function Next(t: Tally, e: Event): Tally {
    Recorded(t, e, After(t.body, e))
  }

  function Run(t: Tally, es: seq<Event>): Tally
    decreases |es|
  {
    if es == [] then t else Run(Next(t, es[0]), es[1..])
  }

  lemma {:induction false} RunInParts(t: Tally, es: seq<Event>, fs: seq<Event>)
    ensures Run(t, es + fs) == Run(Run(t, es), fs)
    decreases |es|
  {
    hide Next;
    if es == [] {
      assert es + fs == fs;
    } else {
      assert (es + fs)[1..] == es[1..] + fs;
      RunInParts(Next(t, es[0]), es[1..], fs);
    }
  }

  /** Landings are never taken back. */
  lemma {:induction false} LandingsStay(t: Tally, es: seq<Event>)
    ensures t.hits <= Run(t, es).hits && t.late <= Run(t, es).late
    decreases |es|
  {
    hide After;
    if es != [] {
      LandingsStay(Next(t, es[0]), es[1..]);
    }
  }

  /** Messages of a disconnected player change nothing. */
  lemma Unheard(t: Tally, e: Event)
    requires !t.body.connected && (e.Start? || e.Stop? || e.Swing?)
    ensures Next(t, e) == t
  {
  }

  function Newcomer(pos: Position, connected: bool): Tally {
    Tally(Joined(pos, connected), 0, 0, 0, 0)
  }

  /** Every accepted attack has landed once, or was cut short, or is still to land; health says who is dead. */
  predicate Balanced(t: Tally) {
    && t.swings == t.hits + t.cut + (if Pending(t.body) then 1 else 0)
    && (t.body.state == Attack ==> 0 <= t.body.anim < PLAYER_ATTACK_TOTAL_FRAME)
    && 0 <= t.body.hp <= PLAYER_MAX_HP && (t.body.state == Dead <==> t.body.hp == 0)
    && (t.body.connected ==> t.late == 0)
  }

  lemma NextBalanced(t: Tally, e: Event)
    requires Balanced(t)
    ensures Balanced(Next(t, e)) && Next(t, e).body.hp <= t.body.hp
    ensures t.body.state == Dead ==> Next(t, e).body.state == Dead
  {
    hide Along, Knocked, FarOff, Beyond, M.DirectionTo;
  }

  /** One hit per attack, in every run: attacks that landed while the player was connected, attacks cut
      short and the one that may be under way add up to the accepted attacks. */
  lemma {:induction false} SwingsAddUp(t: Tally, es: seq<Event>)
    requires Balanced(t)
    ensures var r := Run(t, es);
      Balanced(r) && r.swings == r.hits + r.cut + (if Pending(r.body) then 1 else 0) && r.hits <= r.swings
    decreases |es|
  {
    hide Next;
    if es != [] {
      NextBalanced(t, es[0]);
      hide Balanced;
      SwingsAddUp(Next(t, es[0]), es[1..]);
    }
  }

  /** Health only falls, whatever happens, and a player is dead from when it has none on for ever. */
  lemma {:induction false} DeathIsFinal(t: Tally, es: seq<Event>)
    requires Balanced(t)
    ensures var b := Run(t, es).body;
      && 0 <= b.hp <= t.body.hp && (b.state == Dead <==> b.hp == 0)
      && (t.body.state == Dead ==> b.state == Dead)
    decreases |es|
  {
    hide Next;
    if es != [] {
      NextBalanced(t, es[0]);
      DeathIsFinal(Next(t, es[0]), es[1..]);
    }
  }

  function FramesBeforeHit(es: seq<Event>): nat {
    if es == [] || es[0].Hit? then 0 else FramesBeforeHit(es[1..]) + if es[0].Frame? then 1 else 0
  }

  /** The exception: once disconnected, a player lands nothing more, unless the connection was lost in
      the windup frame. Then its attack lands again in every frame until a monster hits it or it is
      removed, however long that takes. */
  lemma {:induction false} FrozenSwing(t: Tally, es: seq<Event>)
    requires !t.body.connected
    ensures var r := Run(t, es);
      && r.late == t.late + (if Lands(t.body) then FramesBeforeHit(es) else 0)
      && r.hits == t.hits && r.swings == t.swings && !r.body.connected
      && ((forall e :: e in es ==> !e.Hit?) ==> r.body == t.body)
    decreases |es|
  {
    if es != [] {
      var e, u := es[0], Next(t, es[0]);
      FrozenStep(t, e);
      hide Next, Lands;
      FrozenSwing(u, es[1..]);
      if e.Hit? {
        assert FramesBeforeHit(es) == 0;
      } else {
        assert FramesBeforeHit(es) == FramesBeforeHit(es[1..]) + if e.Frame? then 1 else 0;
      }
    }
  }

  lemma FrozenStep(t: Tally, e: Event)
    requires !t.body.connected
    ensures var u := Next(t, e);
      && !u.body.connected && u.hits == t.hits && u.swings == t.swings
      && (!e.Hit? ==> u.body == t.body && u.late == t.late + if e.Frame? && Lands(t.body) then 1 else 0)
      && (e.Hit? ==> !Lands(u.body) && u.late == t.late)
  {
    hide Knocked, Started, Stopped, M.DirectionTo;
  }

  // ---- what a player that nobody disturbs does --------------------------------------------------------------

  function UpdatedTimes(b: Body, n: nat): Body {
    if n == 0 then b else Updated(UpdatedTimes(b, n - 1))
  }

  /** How many of the first n frames let the attack land. */
  function Hits(b: Body, n: nat): nat {
    if n == 0 then 0 else Hits(b, n - 1) + if Lands(UpdatedTimes(b, n)) then 1 else 0
  }

  /** An attack of a connected player that nobody interrupts lands in exactly one frame, the eighth, and
      is over after thirty. */
  lemma {:induction false} SwingHitsOnce(b: Body, n: nat)
    requires b.connected && b.state == Attack && b.anim == 0
    ensures Hits(b, n) == if n < PLAYER_ATTACK_AWINDUP_FRAME then 0 else 1
    ensures UpdatedTimes(b, n).state == if n < PLAYER_ATTACK_TOTAL_FRAME then Attack else Idle
    ensures UpdatedTimes(b, n) == if n < PLAYER_ATTACK_TOTAL_FRAME then b.(anim := n)
                                  else Enter(b, Idle).(anim := n - PLAYER_ATTACK_TOTAL_FRAME)
  {
    if n > 0 {
      SwingHitsOnce(b, n - 1);
    }
  }

  /** A player that survives a hit is stunned for thirty frames and idle in the next. */
  lemma {:induction false} StunEnds(b: Body, n: nat)
    requires b.connected && b.state == Stun && b.hitStun == PLAYER_HIT_STUN_FRAME && b.anim == 0
    requires n <= PLAYER_HIT_STUN_FRAME + 1
    ensures UpdatedTimes(b, n) == if n <= PLAYER_HIT_STUN_FRAME then b.(anim := n, hitStun := PLAYER_HIT_STUN_FRAME - n)
                                  else Enter(b, Idle).(hitStun := 0)
  {
    if n > 0 {
      StunEnds(b, n - 1);
    }
  }

  /** A player that was heard to start walks the way it said, from where it said: after n frames it is 4.5
      units a frame further, or at the border of the world. */
  lemma {:induction false} StartWalks(b: Body, pos: Position, direction: M.Direction, n: nat)
    requires b.connected && Started(b, pos, direction).verdict == Accepted
    ensures var s := Started(b, pos, direction).body;
      s.state == Move && s.pos == pos && s.direction == direction && s.connected && s.hp == b.hp
    ensures var c, v := UpdatedTimes(Started(b, pos, direction).body, n), M.DirectionVector(direction);
      && c.state == Move && c.direction == direction && c.anim == n && c.start == pos && c.connected
      && (0 < n ==> M.Pushed(pos, c.pos, v.x * 4.5 * n as real, v.y * 4.5 * n as real))
  {
    hide Compared, Along, M.DirectionVector, M.Pushed;
    StartKeeps(b, pos, direction);
    if n > 0 {
      StartWalks(b, pos, direction, n - 1);
      AlongIsPushed(pos, direction, n);
    }
  }

  lemma AlongIsPushed(start: Position, direction: M.Direction, n: nat)
    ensures var v := M.DirectionVector(direction);
      M.Pushed(start, Along(start, direction, n), v.x * 4.5 * n as real, v.y * 4.5 * n as real)
  {
    hide M.DirectionVector;
    var v := M.DirectionVector(direction);
    assert Way(v.x, n) == v.x * 4.5 * n as real && Way(v.y, n) == v.y * 4.5 * n as real;
    hide Way;
  }

  lemma StartKeeps(b: Body, pos: Position, direction: M.Direction)
    ensures var h := Compared(b, pos); h.body == b.(sync := h.body.sync)
  {
  }

  /** A player that was heard to stop stands where it said, and stays there. */
  lemma {:induction false} StopStands(b: Body, pos: Position, direction: M.Direction, n: nat)
    requires b.connected && Stopped(b, pos, direction).verdict == Accepted
    ensures var c := UpdatedTimes(Stopped(b, pos, direction).body, n);
      c.state == Idle && c.pos == pos && c.direction == direction && c.connected && c.hp == b.hp
  {
    hide Compared;
    if n > 0 {
      StopStands(b, pos, direction, n - 1);
    } else {
      StartKeeps(b, pos, direction);
    }
  }

  /** What a hit does to a living player: it costs as much health as the damage, turns the player to the monster,
      pushes it a hundred units the way the monster looks, and kills it or stuns it. */
  lemma HitHurts(b: Body, damage: nat, from: Position, facing: M.Direction)
    requires b.state != Dead && 0 <= b.hp
    ensures var c, v := Damaged(b, damage, from, facing), M.DirectionVector(facing);
      && c.hp == (if b.hp <= damage then 0 else b.hp - damage)
      && c.state == (if b.hp <= damage then Dead else Stun) && c.anim == 0
      && M.IsDirectionTo(b.pos, from, c.direction) && M.Pushed(b.pos, c.pos, 100.0 * v.x, 100.0 * v.y)
      && (c.state == Stun ==> c.hitStun == PLAYER_HIT_STUN_FRAME)
      && c.connected == b.connected && c.sync == b.sync
  {
    M.DirectionToIsExact(b.pos, from, M.DirectionTo(b.pos, from));
    hide M.DirectionTo, M.IsDirectionTo, M.DirectionVector;
  }

  function HurtTimes(b: Body, damage: nat, blows: seq<M.Blow>): Body {
    if blows == [] then b
    else
      var last := blows[|blows| - 1];
      Damaged(HurtTimes(b, damage, blows[..|blows| - 1]), damage, last.from, last.facing)
  }

  /** A player is dead exactly when the hits have cost all its health; with 10 to a hit and 100 to lose, at the
      tenth. */
  lemma {:induction false} HitsAddUp(b: Body, damage: nat, blows: seq<M.Blow>)
    requires b.state != Dead && 0 < b.hp
    ensures var c := HurtTimes(b, damage, blows); var sum := damage * |blows|;
      && c.hp == (if b.hp <= sum then 0 else b.hp - sum) && (c.state == Dead <==> b.hp <= sum)
      && (damage == M.MONSTER_ATTACK_DAMAGE && b.hp == PLAYER_MAX_HP ==> (c.state == Dead <==> 10 <= |blows|))
  {
    hide Damaged;
    if blows != [] {
      var front, last := blows[..|blows| - 1], blows[|blows| - 1];
      HitsAddUp(b, damage, front);
      assert damage * |blows| == damage * |front| + damage;
      var c := HurtTimes(b, damage, front);
      if c.state != Dead {
        HitHurts(c, damage, last.from, last.facing);
      }
      DeadIsDead(c, damage, last);
    }
  }

  lemma DeadIsDead(b: Body, damage: nat, blow: M.Blow)
    ensures b.state == Dead ==> Damaged(b, damage, blow.from, blow.facing) == b
  {
  }

  // ---- the message queue --------------------------------------------------------------------------------------

  datatype Pointer = Pointer(address: int)

  function Flat(q: seq<Pointer>): seq<Byte> {
    if q == [] then [] else Bytes(q[0].address, 8) + Flat(q[1..])
  }

  lemma {:induction false} FlatMore(q: seq<Pointer>, p: Pointer)
    ensures Flat(q + [p]) == Flat(q) + Bytes(p.address, 8)
  {
    hide Bytes;
    if q == [] {
      assert q + [p] == [p] && [p][1..] == [];
      assert Flat([]) == [] && Flat([p]) == Bytes(p.address, 8) + Flat([]);
    } else {
      FlatMore(q[1..], p);
      var r := q + [p];
      assert r[1..] == q[1..] + [p] && r[0] == q[0];
      assert Flat(r) == Bytes(q[0].address, 8) + (Flat(q[1..]) + Bytes(p.address, 8));
    }
  }

  lemma {:induction false} FlatLength(q: seq<Pointer>)
    ensures |Flat(q)| == 8 * |q|
  {
    if q != [] {
      FlatLength(q[1..]);
    }
  }

  /** mRecvQ, through which the workers hand messages to the thread that owns the player. */
  class MessageQueue {
    const mRecvQ: MyRingBuffer
    ghost var pointers: seq<Pointer>

    ghost predicate Valid()
      reads this, mRecvQ, mRecvQ.mBuffer
    {
      && mRecvQ.Valid() && mRecvQ.mBFail == {}
      && mRecvQ.Contents() == Flat(pointers)
      && forall p :: p in pointers ==> 0 <= p.address < Power(8)
    }

    constructor ()
      ensures Valid() && pointers == [] && fresh(mRecvQ) && fresh(mRecvQ.mBuffer)
    {
      mRecvQ := new MyRingBuffer();
      pointers := [];
    }

    /** The message is last in the queue. With no room left nothing changes but the ring's fail bit, on
        which its assertion stops the server. */
    method EnQueueMsg(msg: Pointer)
      requires Valid() && 0 <= msg.address < Power(8)
      modifies this`pointers, mRecvQ, mRecvQ.mBuffer
      ensures mRecvQ.mBFail == {} <==> 8 * |old(pointers)| + 8 < SIZE
      ensures mRecvQ.mBFail == {} ==> Valid() && pointers == old(pointers) + [msg]
      ensures mRecvQ.mBFail != {} ==>
                && mRecvQ.mBFail == {BufferFull} && pointers == old(pointers)
                && mRecvQ.Valid() && mRecvQ.Contents() == Flat(pointers)
      ensures mRecvQ.mBuffer == old(mRecvQ.mBuffer)
    {
      hide Flat, Bytes, Power, Window, GetUseSize, GetFreeSize;
      FlatMore(pointers, msg);
      FlatLength(pointers);
      SizesAgree(mRecvQ.mFront, mRecvQ.mRear);
      var bytes := Bytes(msg.address, 8);
      mRecvQ.Enqueue(bytes, 8);
      assert bytes[..8] == bytes;
      if mRecvQ.mBFail == {} {
        pointers := pointers + [msg];
      }
    }

    /** Nothing for a disconnected player or an empty queue; otherwise the oldest message. */
    method DeQueueMsgOrNull(connected: bool) returns (found: bool, msg: Pointer)
      requires Valid()
      modifies this`pointers, mRecvQ
      ensures Valid() && (found <==> connected && old(pointers) != [])
      ensures found ==> old(pointers) == [msg] + pointers
      ensures !found ==> pointers == old(pointers)
    {
      hide Bytes, Power, Window;
      if !connected {
        return false, Pointer(0);
      }
      FlatLength(pointers);
      if GetUseSize(mRecvQ.mFront, mRecvQ.mRear) < 8 {
        return false, Pointer(0);
      }
      hide GetUseSize;
      var bytes := new Byte[8];
      mRecvQ.Dequeue(bytes, 8);
      ghost var head := pointers[0];
      assert bytes[..8] == Bytes(head.address, 8);
      NumberOfBytes(head.address, 8);
      msg := Pointer(LittleEndian.Number(bytes[..]));
      assert bytes[..] == bytes[..8];
      assert pointers == [head] + pointers[1..];
      pointers := pointers[1..];
      return true, msg;
    }
  }
}

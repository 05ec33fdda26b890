/** A monster's own state machine (Monster.cpp). Positions and distances are real numbers; distances
    are compared squared. */
module Monsters {
  import opened Sectors

  const PATROL_RADIUS: real := 150.0
  const CHASE_LEASH_RADIUS: real := 2400.0
  const MONSTER_ATTACK_RANGE: real := 50.0
  const MONSTER_MAX_HP: int := 100
  const MONSTER_RESPAWN_FRAME: int := 500
  const MONSTER_HIT_STUN_FRAME: int := 50
  const MONSTER_ATTACK_TOTAL_FRAME: int := 80
  const MONSTER_ATTACK_WINDUP_FRAME: int := 20
  const MONSTER_ATTACK_DAMAGE: int := 10
  const SPEED: real := 3.0
  const KNOCKBACK: real := 30.0

  type Direction = d: int | 0 <= d < 8

  datatype MonsterState = Idle | Move | Chase | Attack | Stun | Dead | Return

  /** kDirectionVectorTable: Down, DownLeft, DownRight, Left, Right, Up, UpLeft, UpRight. */
  function DirectionVector(d: Direction): Position {
    match d
    case 0 => Position(0.0, 1.0)
    case 1 => Position(-0.707107, 0.707107)
    case 2 => Position(0.707107, 0.707107)
    case 3 => Position(-1.0, 0.0)
    case 4 => Position(1.0, 0.0)
    case 5 => Position(0.0, -1.0)
    case 6 => Position(-0.707107, -0.707107)
    case 7 => Position(0.707107, -0.707107)
  }

  function ClampReal(r: real, hi: real): real {
    if r < 0.0 then 0.0 else if hi < r then hi else r
  }

  function WorldW(): real { (SECTOR_WORLD_W * SECTOR_COL_CNT) as real }
  function WorldH(): real { (SECTOR_WORLD_H * SECTOR_ROW_CNT) as real }

  predicate InWorld(p: Position) {
    0.0 <= p.x <= WorldW() && 0.0 <= p.y <= WorldH()
  }

  function SquaredDistance(a: Position, b: Position): real {
    (a.x - b.x) * (a.x - b.x) + (a.y - b.y) * (a.y - b.y)
  }

  function Squared(r: real): real { r * r }

  /** The part of `to` seen from `from` that lies in direction d. */
  function Dot(from: Position, to: Position, d: Direction): real {
    (to.x - from.x) * DirectionVector(d).x + (to.y - from.y) * DirectionVector(d).y
  }

  /** What getDirectionTo is for: of the eight directions, the first that points best at the target;
      Down for a target as good as reached. (Dividing by the distance does not change the comparisons.) */
  predicate IsDirectionTo(from: Position, to: Position, d: Direction) {
    if SquaredDistance(from, to) < Squared(0.0001) then d == 0
    else
      && (forall e: Direction :: Dot(from, to, e) <= Dot(from, to, d))
      && (forall e: Direction :: e < d ==> Dot(from, to, e) < Dot(from, to, d))
  }

  /** The best of the first n directions. */
  function BestOf(from: Position, to: Position, n: int): (d: Direction)
    requires 1 <= n <= 8
    ensures d < n
  {
    if n == 1 then 0
    else
      var best := BestOf(from, to, n - 1);
      if Dot(from, to, n - 1) > Dot(from, to, best) then n - 1 else best
  }

  function DirectionTo(from: Position, to: Position): Direction {
    if SquaredDistance(from, to) < Squared(0.0001) then 0 else BestOf(from, to, 8)
  }

  lemma {:induction false} BestOfIsBest(from: Position, to: Position, n: int)
    requires 1 <= n <= 8
    ensures forall e: Direction :: e < n ==> Dot(from, to, e) <= Dot(from, to, BestOf(from, to, n))
    ensures forall e: Direction :: e < BestOf(from, to, n) ==> Dot(from, to, e) < Dot(from, to, BestOf(from, to, n))
  {
    hide Dot;
    if n > 1 {
      BestOfIsBest(from, to, n - 1);
    }
  }

  /** There is exactly one such direction. */
  lemma DirectionToIsExact(from: Position, to: Position, d: Direction)
    ensures IsDirectionTo(from, to, d) <==> d == DirectionTo(from, to)
  {
    BestOfIsBest(from, to, 8);
    hide Dot, BestOf;
  }

  method GetDirectionTo(from: Position, to: Position) returns (best: Direction)
    ensures best == DirectionTo(from, to) && IsDirectionTo(from, to, best)
  {
    hide Dot;
    if SquaredDistance(from, to) < Squared(0.0001) {
      return 0;
    }
    best := 0;
    var bestDot := Dot(from, to, 0);
    var i := 1;
    while i < 8
      invariant 1 <= i <= 8 && best == BestOf(from, to, i) && bestDot == Dot(from, to, best)
    {
      var dot := Dot(from, to, i);
      if dot > bestDot {
        bestDot := dot;
        best := i;
      }
      i := i + 1;
    }
    DirectionToIsExact(from, to, best);
  }

  /** The fields of a monster. */
  datatype Body = Body(state: MonsterState, direction: Direction, pos: Position, spawnPos: Position,
                       start: Position, anim: int, hp: int, hitStun: int, target: int, targetPos: Position)

  /** What is left to chance: rand() % 100 == 0, and the direction drawn then. */
  datatype Luck = Luck(hit: bool, drawn: Direction)

  predicate Wandering(s: MonsterState) {
    s == Move || s == Chase || s == Return
  }

  function Enter(b: Body, s: MonsterState): Body {
    b.(state := s, anim := 0, start := b.pos)
  }

  function Turn(b: Body, d: Direction): Body {
    b.(direction := d, anim := 0, start := b.pos)
  }

  /** How far so many frames lead in one coordinate. */
  function Way(v: real, anim: int): real {
    v * SPEED * anim as real
  }

  /** Where a monster is after so many frames on its way. */
  function Along(start: Position, d: Direction, anim: int): Position {
    var v := DirectionVector(d);
    Position(ClampReal(start.x + Way(v.x, anim), WorldW()), ClampReal(start.y + Way(v.y, anim), WorldH()))
  }

  function Moved(b: Body): (c: Body)
    ensures c == b.(pos := c.pos)
  {
    b.(pos := Along(b.start, b.direction, b.anim))
  }

  /** Whether a monster this far from its spawn position goes home rather than rest. */
  function GivenUp(b: Body): Body {
    Enter(b, if Squared(PATROL_RADIUS) < SquaredDistance(b.pos, b.spawnPos) then Return else Idle)
  }

  function HomeDirection(b: Body): Direction {
    var left, up := b.spawnPos.x < b.pos.x, b.spawnPos.y < b.pos.y;
    if b.spawnPos.x == b.pos.x then (if up then 5 else 0)
    else if b.spawnPos.y == b.pos.y then (if left then 3 else 4)
    else if left then (if up then 6 else 1)
    else (if up then 7 else 2)
  }

  /** One Update. */
  function Updated(prior: Body, luck: Luck): Body {
    var b := prior.(anim := prior.anim + 1);
    match b.state
    case Idle =>
      if Squared(PATROL_RADIUS) < SquaredDistance(b.pos, b.spawnPos) then Enter(b.(direction := HomeDirection(b)), Move)
      else if luck.hit && 10 <= b.anim then Enter(b.(direction := luck.drawn), Move)
      else b
    case Move =>
      if Squared(PATROL_RADIUS) <= SquaredDistance(b.pos, b.spawnPos) then Enter(b, Return)
      else if luck.hit && 10 <= b.anim then Enter(b, Idle)
      else Moved(b)
    case Chase =>
      if Squared(CHASE_LEASH_RADIUS) < SquaredDistance(b.pos, b.spawnPos) then GivenUp(b)
      else
        var d := DirectionTo(b.pos, b.targetPos);
        if SquaredDistance(b.pos, b.targetPos) <= Squared(MONSTER_ATTACK_RANGE) then Enter(Turn(b, d), Attack)
        else if d != b.direction && 10 <= b.anim then Moved(Turn(b, d))
        else Moved(b)
    case Attack => if b.anim >= MONSTER_ATTACK_TOTAL_FRAME then Enter(b, Chase) else b
    case Stun => if b.hitStun > 0 then b.(hitStun := b.hitStun - 1) else Enter(b, Chase)
    case Dead =>
      if b.anim >= MONSTER_RESPAWN_FRAME
      then Enter(b, Idle).(start := b.spawnPos, pos := b.spawnPos, hp := MONSTER_MAX_HP)
      else b
    case Return =>
      if SquaredDistance(b.pos, b.spawnPos) <= Squared(10.0) then Moved(Enter(b, Idle))
      else if 15 <= b.anim then Moved(Turn(b, DirectionTo(b.pos, b.spawnPos)))
      else Moved(b)
  }

  /** One hit by an attacker that stands at `from` and looks in direction `facing`. */
  function Damaged(b: Body, damage: int, from: Position, facing: Direction, attackerId: int): Body {
    if b.state == Dead then b
    else
      var v := DirectionVector(facing);
      var c := b.(direction := DirectionTo(b.pos, from),
                  pos := Position(ClampReal(b.pos.x + v.x * KNOCKBACK, WorldW()),
                                  ClampReal(b.pos.y + v.y * KNOCKBACK, WorldH())),
                  hp := if b.hp - damage < 0 then 0 else b.hp - damage);
      if c.hp == 0 then Enter(c, Dead)
      else Enter(c.(hitStun := MONSTER_HIT_STUN_FRAME, target := attackerId), Stun)
  }

  class Monster {
    var mState: MonsterState
    var mDirection: Direction
    var mPos: Position
    var mSpawnPos: Position
    var mStartMovePos: Position
    var mAnimFrame: int
    var mHp: int
    var mHitStunFrame: int
    var mTargetPlayerID: int
    var mTargetPos: Position

    function Value(): Body
      reads this
    {
      Body(mState, mDirection, mPos, mSpawnPos, mStartMovePos, mAnimFrame, mHp, mHitStunFrame, mTargetPlayerID,
           mTargetPos)
    }

    constructor (pos: Position)
      ensures Value() == Body(Idle, 0, pos, pos, pos, 0, MONSTER_MAX_HP, 0, -1, pos)
    {
      mState, mDirection, mPos, mSpawnPos, mStartMovePos := Idle, 0, pos, pos, pos;
      mAnimFrame, mHp, mHitStunFrame, mTargetPlayerID, mTargetPos := 0, MONSTER_MAX_HP, 0, -1, pos;
    }

    /** The fields of a monster that is kept elsewhere by value. */
    method Load(b: Body)
      modifies this
      ensures Value() == b
    {
      mState, mDirection, mPos, mSpawnPos, mStartMovePos := b.state, b.direction, b.pos, b.spawnPos, b.start;
      mAnimFrame, mHp, mHitStunFrame, mTargetPlayerID, mTargetPos := b.anim, b.hp, b.hitStun, b.target, b.targetPos;
    }

    /** The precondition is the assertion of the source: no caller enters the state it is in. */
    method ChangeState(state: MonsterState)
      requires state != mState
      modifies this`mState, this`mAnimFrame, this`mStartMovePos
      ensures Value() == Enter(old(Value()), state)
    {
      mState := state;
      ResetAnimStart();
    }

    method ResetAnimStart()
      modifies this`mAnimFrame, this`mStartMovePos
      ensures Value() == old(Value()).(anim := 0, start := old(mPos))
    {
      mAnimFrame := 0;
      mStartMovePos := mPos;
    }

    method ChangeDirection(newDir: Direction)
      modifies this`mDirection, this`mAnimFrame, this`mStartMovePos
      ensures Value() == Turn(old(Value()), newDir)
    {
      mDirection := newDir;
      mAnimFrame := 0;
      mStartMovePos := mPos;
    }

    method MoveUpdate()
      modifies this`mPos
      ensures Value() == Moved(old(Value()))
    {
      mPos := Along(mStartMovePos, mDirection, mAnimFrame);
    }

    /** Also called by the field server, for a chasing monster whose target is gone. */
    method GiveUpChase()
      requires mState == Chase
      modifies this`mState, this`mAnimFrame, this`mStartMovePos
      ensures Value() == GivenUp(old(Value()))
    {
      if Squared(PATROL_RADIUS) < SquaredDistance(mPos, mSpawnPos) {
        ChangeState(Return);
      } else {
        ChangeState(Idle);
      }
    }

    method Update(luck: Luck)
      modifies this
      ensures Value() == Updated(old(Value()), luck)
    {
      mAnimFrame := mAnimFrame + 1;
      match mState {
        case Idle => IdleUpdate(luck);
        case Move => PatrolUpdate(luck);
        case Chase => ChaseUpdate(luck);
        case Attack =>
          if mAnimFrame >= MONSTER_ATTACK_TOTAL_FRAME {
            ChangeState(Chase);
          }
        case Stun =>
          if mHitStunFrame > 0 {
            mHitStunFrame := mHitStunFrame - 1;
          } else {
            ChangeState(Chase);
          }
        case Dead =>
          if mAnimFrame >= MONSTER_RESPAWN_FRAME {
            ChangeState(Idle);
            mStartMovePos := mSpawnPos;
            mPos := mSpawnPos;
            mHp := MONSTER_MAX_HP;
          }
        case Return => ReturnUpdate(luck);
      }
    }

    method IdleUpdate(luck: Luck)
      requires mState == Idle
      modifies this
      ensures Value() == Updated(old(Value()).(anim := old(mAnimFrame) - 1), luck)
    {
      if Squared(PATROL_RADIUS) < SquaredDistance(mPos, mSpawnPos) {
        mDirection := HomeDirection(Value());
        ChangeState(Move);
      } else if luck.hit && 10 <= mAnimFrame {
        mDirection := luck.drawn;
        ChangeState(Move);
      }
    }

    method PatrolUpdate(luck: Luck)
      requires mState == Move
      modifies this
      ensures Value() == Updated(old(Value()).(anim := old(mAnimFrame) - 1), luck)
    {
      if Squared(PATROL_RADIUS) <= SquaredDistance(mPos, mSpawnPos) {
        ChangeState(Return);
      } else if luck.hit && 10 <= mAnimFrame {
        ChangeState(Idle);
      } else {
        MoveUpdate();
      }
    }

    method ChaseUpdate(ghost luck: Luck)
      requires mState == Chase
      modifies this
      ensures Value() == Updated(old(Value()).(anim := old(mAnimFrame) - 1), luck)
    {
      if Squared(CHASE_LEASH_RADIUS) < SquaredDistance(mPos, mSpawnPos) {
        GiveUpChase();
        return;
      }
      var newDirection := GetDirectionTo(mPos, mTargetPos);
      if SquaredDistance(mPos, mTargetPos) <= Squared(MONSTER_ATTACK_RANGE) {
        ChangeDirection(newDirection);
        ChangeState(Attack);
        return;
      }
      if newDirection != mDirection && 10 <= mAnimFrame {
        ChangeDirection(newDirection);
      }
      MoveUpdate();
    }

    method ReturnUpdate(ghost luck: Luck)
      requires mState == Return
      modifies this
      ensures Value() == Updated(old(Value()).(anim := old(mAnimFrame) - 1), luck)
    {
      if SquaredDistance(mPos, mSpawnPos) <= Squared(10.0) {
        ChangeState(Idle);
      } else if 15 <= mAnimFrame {
        var newDir := GetDirectionTo(mPos, mSpawnPos);
        ChangeDirection(newDir);
      }
      MoveUpdate();
    }

    method TakeDamage(damage: int, from: Position, facing: Direction, attackerId: int)
      modifies this
      ensures Value() == Damaged(old(Value()), damage, from, facing, attackerId)
    {
      if mState == Dead {
        return;
      }
      mDirection := GetDirectionTo(mPos, from);
      var v := DirectionVector(facing);
      mPos := Position(ClampReal(mPos.x + v.x * KNOCKBACK, WorldW()), ClampReal(mPos.y + v.y * KNOCKBACK, WorldH()));
      mHp := if mHp - damage < 0 then 0 else mHp - damage;
      if mHp == 0 {
        ChangeState(Dead);
      } else {
        mHitStunFrame := MONSTER_HIT_STUN_FRAME;
        mTargetPlayerID := attackerId;
        if mState == Stun {
          ResetAnimStart();
        } else {
          ChangeState(Stun);
        }
      }
    }
  }

  // ---- what the state machine guarantees --------------------------------------------------------------

  /** An update never stuns or kills; and a monster changes its place only while it wanders before
      and after, or when it respawns. This is what the movement packets rely on. */
  lemma MovesOnlyWandering(b: Body, luck: Luck)
    requires InWorld(b.pos) && InWorld(b.spawnPos)
    ensures var c := Updated(b, luck);
      && InWorld(c.pos) && c.spawnPos == b.spawnPos
      && (c.state == Stun ==> b.state == Stun) && (c.state == Dead ==> b.state == Dead)
      && (b.state == Dead && c.state != Dead ==> c.state == Idle && c.pos == b.spawnPos && c.anim == 0)
      && (c.pos != b.pos ==> (Wandering(b.state) && Wandering(c.state)) || (b.state == Dead && c.state == Idle))
  {
    var c := b.(anim := b.anim + 1);
    if b.state == Return {
      EnterThenMove(c);
    }
    hide SquaredDistance, DirectionVector, Squared;
  }

  lemma NoDistance(p: Position)
    ensures SquaredDistance(p, p) == 0.0
  {
  }

  /** With the frame count just reset, moveUpdate leaves a monster in the world where it is. */
  lemma EnterThenMove(b: Body)
    requires InWorld(b.pos)
    ensures Moved(Enter(b, Idle)) == Enter(b, Idle)
  {
  }

  function UpdatedTimes(b: Body, lucks: seq<Luck>): Body {
    if lucks == [] then b else Updated(UpdatedTimes(b, lucks[..|lucks| - 1]), lucks[|lucks| - 1])
  }

  /** Without further hits a killed monster stays dead for MONSTER_RESPAWN_FRAME - 1 updates; the
      next one revives it at its spawn position with full health. */
  lemma {:induction false} DeadUntilRespawn(b: Body, lucks: seq<Luck>)
    requires b.state == Dead && b.anim == 0
    ensures |lucks| < MONSTER_RESPAWN_FRAME ==> UpdatedTimes(b, lucks) == b.(anim := |lucks|)
    ensures |lucks| == MONSTER_RESPAWN_FRAME ==>
              UpdatedTimes(b, lucks) ==
                b.(state := Idle, pos := b.spawnPos, start := b.spawnPos, anim := 0, hp := MONSTER_MAX_HP)
  {
    if lucks != [] {
      DeadUntilRespawn(b, lucks[..|lucks| - 1]);
    }
  }

  /** A monster that survives a hit is stunned for MONSTER_HIT_STUN_FRAME updates without moving, and
      chases its attacker at the next. */
  lemma {:induction false} StunnedThenChasing(b: Body, lucks: seq<Luck>)
    requires b.state == Stun && b.hitStun == MONSTER_HIT_STUN_FRAME && b.anim == 0
    ensures |lucks| <= MONSTER_HIT_STUN_FRAME ==>
              UpdatedTimes(b, lucks) == b.(anim := |lucks|, hitStun := MONSTER_HIT_STUN_FRAME - |lucks|)
    ensures |lucks| == MONSTER_HIT_STUN_FRAME + 1 ==> UpdatedTimes(b, lucks) == Enter(b, Chase).(hitStun := 0)
  {
    if lucks != [] {
      StunnedThenChasing(b, lucks[..|lucks| - 1]);
    }
  }

  /** An attack that no hit interrupts lasts eighty updates, in which the monster neither moves nor turns; then it
      chases on. */
  lemma {:induction false} AttackThenChase(b: Body, lucks: seq<Luck>)
    requires b.state == Attack && b.anim == 0
    ensures |lucks| < MONSTER_ATTACK_TOTAL_FRAME ==> UpdatedTimes(b, lucks) == b.(anim := |lucks|)
    ensures |lucks| == MONSTER_ATTACK_TOTAL_FRAME ==> UpdatedTimes(b, lucks) == Enter(b, Chase)
  {
    if lucks != [] {
      AttackThenChase(b, lucks[..|lucks| - 1]);
    }
  }

  /** Where a push by (dx, dy) leads: there, or as far as the world goes. */
  predicate Pushed(p: Position, q: Position, dx: real, dy: real) {
    && InWorld(q)
    && (0.0 <= p.x + dx <= WorldW() ==> q.x == p.x + dx)
    && (p.x + dx < 0.0 ==> q.x == 0.0) && (WorldW() < p.x + dx ==> q.x == WorldW())
    && (0.0 <= p.y + dy <= WorldH() ==> q.y == p.y + dy)
    && (p.y + dy < 0.0 ==> q.y == 0.0) && (WorldH() < p.y + dy ==> q.y == WorldH())
  }

  /** What a hit does to a living monster: it costs as much health as the damage, turns the monster to its
      attacker, pushes it thirty units the way the attacker looks, and kills it or stuns it. */
  lemma HitHurts(b: Body, damage: nat, from: Position, facing: Direction, attackerId: int)
    requires b.state != Dead && 0 <= b.hp
    ensures var c, v := Damaged(b, damage, from, facing, attackerId), DirectionVector(facing);
      && c.hp == (if b.hp <= damage then 0 else b.hp - damage)
      && c.state == (if b.hp <= damage then Dead else Stun) && c.anim == 0
      && IsDirectionTo(b.pos, from, c.direction) && Pushed(b.pos, c.pos, 30.0 * v.x, 30.0 * v.y)
      && (c.state == Stun ==> c.target == attackerId && c.hitStun == MONSTER_HIT_STUN_FRAME)
  {
    DirectionToIsExact(b.pos, from, DirectionTo(b.pos, from));
    hide DirectionTo, IsDirectionTo, DirectionVector;
  }

  datatype Blow = Blow(from: Position, facing: Direction, attacker: int)

  function HurtTimes(b: Body, damage: nat, blows: seq<Blow>): Body {
    if blows == [] then b
    else
      var last := blows[|blows| - 1];
      Damaged(HurtTimes(b, damage, blows[..|blows| - 1]), damage, last.from, last.facing, last.attacker)
  }

  /** Hits add up, wherever they come from: a monster is dead exactly when they have cost all its health; with
      35 to a hit and 100 to lose, at the third. */
  lemma {:induction false} HitsAddUp(b: Body, damage: nat, blows: seq<Blow>)
    requires b.state != Dead && 0 < b.hp
    ensures var c := HurtTimes(b, damage, blows); var sum := damage * |blows|;
      && c.hp == (if b.hp <= sum then 0 else b.hp - sum) && (c.state == Dead <==> b.hp <= sum)
      && (damage == 35 && b.hp == MONSTER_MAX_HP ==> (c.state == Dead <==> 3 <= |blows|))
  {
    hide Damaged;
    if blows != [] {
      var front, last := blows[..|blows| - 1], blows[|blows| - 1];
      HitsAddUp(b, damage, front);
      assert damage * |blows| == damage * |front| + damage;
      var c := HurtTimes(b, damage, front);
      if c.state != Dead {
        HitHurts(c, damage, last.from, last.facing, last.attacker);
      }
      DeadIsDead(c, damage, last);
    }
  }

  lemma DeadIsDead(b: Body, damage: nat, blow: Blow)
    ensures b.state == Dead ==> Damaged(b, damage, blow.from, blow.facing, blow.attacker) == b
  {
  }

  // ---- the attacks of a monster ------------------------------------------------------------------------------

  /** The windup frame of a monster's attack. */
  predicate Strikes(b: Body) {
    b.state == Attack && b.anim == MONSTER_ATTACK_WINDUP_FRAME
  }

  /** What happens to a monster: an update; before that, a chaser is shown its target or loses it; a hit. */
  datatype Deed =
    | Act(luck: Luck)
    | See(target: Position)
    | Lose
    | Suffer(damage: nat, blow: Blow)

  function Did(b: Body, e: Deed): Body {
    match e
    case Act(luck) => Updated(b, luck)
    case See(p) => if b.state == Chase then b.(targetPos := p) else b
    case Lose => if b.state == Chase then GivenUp(b) else b
    case Suffer(damage, w) => Damaged(b, damage, w.from, w.facing, w.attacker)
  }

  /** attacks: those begun. strikes: the updates that brought one to the windup frame. cut: those that a hit
      ended before. */
  datatype Fight = Fight(body: Body, attacks: nat, strikes: nat, cut: nat)

  predicate Winding(b: Body) {
    b.state == Attack && b.anim < MONSTER_ATTACK_WINDUP_FRAME
  }

  function Fought(f: Fight, e: Deed): Fight {
    var b, c := f.body, Did(f.body, e);
    Fight(c,
          f.attacks + (if c.state == Attack && b.state != Attack then 1 else 0),
          f.strikes + (if e.Act? && Strikes(c) then 1 else 0),
          f.cut + (if Winding(b) && c.state != Attack then 1 else 0))
  }

  function FoughtOn(f: Fight, es: seq<Deed>): Fight {
    if es == [] then f else Fought(FoughtOn(f, es[..|es| - 1]), es[|es| - 1])
  }

  predicate Even(f: Fight) {
    && f.attacks == f.strikes + f.cut + (if Winding(f.body) then 1 else 0)
    && (f.body.state == Attack ==> 0 <= f.body.anim < MONSTER_ATTACK_TOTAL_FRAME)
  }

  /** One strike to an attack, in every run: attacks begun are those that have struck, those that a hit cut
      short, and the one that may be under way. */
  lemma {:induction false} StrikesAddUp(f: Fight, es: seq<Deed>)
    requires Even(f)
    ensures var g := FoughtOn(f, es);
      g.attacks == g.strikes + g.cut + (if Winding(g.body) then 1 else 0) && g.strikes <= g.attacks && Even(g)
  {
    if es != [] {
      StrikesAddUp(f, es[..|es| - 1]);
      FightStep(FoughtOn(f, es[..|es| - 1]), es[|es| - 1]);
      hide Even, Fought, Winding;
    }
  }

  lemma FightStep(f: Fight, e: Deed)
    requires Even(f)
    ensures Even(Fought(f, e))
  {
    hide DirectionTo, DirectionVector, Squared, SquaredDistance, Along, HomeDirection;
  }
}

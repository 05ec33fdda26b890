/** Where a monster's state machine takes it: a chaser to its target, a returning monster home. */
module MonsterCourses {
  import opened Sectors
  import opened Monsters

  /** Seen from (0, 0), the point (dx, dy) lies at least `far` units ahead in direction d, in every
      coordinate in which d moves: going that far never passes it. */
  predicate Ahead(d: Direction, dx: real, dy: real, far: real) {
    var v := DirectionVector(d);
    && (v.x > 0.0 ==> far * v.x <= dx) && (v.x < 0.0 ==> dx <= far * v.x)
    && (v.y > 0.0 ==> far * v.y <= dy) && (v.y < 0.0 ==> dy <= far * v.y)
  }

  lemma SmallerSquare(a: real, b: real)
    requires 0.0 <= a < b
    ensures a * a < b * b
  {
    var d := b - a;
    assert b * b == a * a + 2.0 * (a * d) + d * d;
    assert a * d >= 0.0 && d * d > 0.0;
  }

  /** Two sides of a right triangle, one not much longer than the other: neither is short. */
  lemma NeitherShort(a: real, b: real, far: real)
    requires 0.0 <= a && 0.0 <= b <= 2.41422 * a && 0.0 < far && 3.42 * (far * far) < a * a + b * b
    ensures 0.707107 * far <= a
  {
    assert (0.707107 * far) * (0.707107 * far) == 0.500000309449 * (far * far);
    assert (1.70712 * far) * (1.70712 * far) == 2.9142586944 * (far * far);
    if a < 0.707107 * far {
      SmallerSquare(a, 0.707107 * far);
      SmallerSquare(b, 1.70712 * far);
    }
  }

  lemma LongSide(a: real, b: real, far: real)
    requires 0.0 <= a && 0.0 <= b <= 0.41422 * a && 0.0 < far && 3.42 * (far * far) < a * a + b * b
    ensures far <= a
  {
    assert (0.5 * far) * (0.5 * far) == 0.25 * (far * far);
    if a < far {
      SmallerSquare(a, far);
      SmallerSquare(b, 0.5 * far);
    }
  }

  function Abs(r: real): real {
    if r < 0.0 then -r else r
  }

  lemma AbsSquare(r: real)
    ensures Abs(r) * Abs(r) == r * r
  {
  }

  /** The best of the eight directions leads ahead to the target. */
  lemma BestIsAhead(from: Position, to: Position, d: Direction, far: real)
    requires IsDirectionTo(from, to, d) && 1.0 <= far && 3.42 * (far * far) < SquaredDistance(from, to)
    ensures Ahead(d, to.x - from.x, to.y - from.y, far)
  {
    var dx, dy := to.x - from.x, to.y - from.y;
    var a, b := Abs(dx), Abs(dy);
    AbsSquare(dx);
    AbsSquare(dy);
    assert (to.x - from.x) * (to.x - from.x) == (from.x - to.x) * (from.x - to.x);
    assert (to.y - from.y) * (to.y - from.y) == (from.y - to.y) * (from.y - to.y);
    assert far * far >= 1.0;
    assert Squared(0.0001) < 1.0;
    Better(from, to, d);
    if d == 3 || d == 4 {
      LongSide(a, b, far);
    } else if d == 0 || d == 5 {
      LongSide(b, a, far);
    } else {
      NeitherShort(a, b, far);
      NeitherShort(b, a, far);
    }
  }

  /** What being the best of the eight says about the two coordinates. */
  lemma Better(from: Position, to: Position, d: Direction)
    requires forall e: Direction :: Dot(from, to, e) <= Dot(from, to, d)
    ensures var dx, dy := to.x - from.x, to.y - from.y;
      match d
      case 0 => Abs(dx) <= 0.41422 * dy
      case 1 => dx <= 0.0 <= dy && dy <= 2.41422 * -dx && -dx <= 2.41422 * dy
      case 2 => 0.0 <= dx && 0.0 <= dy && dy <= 2.41422 * dx && dx <= 2.41422 * dy
      case 3 => Abs(dy) <= 0.41422 * -dx
      case 4 => Abs(dy) <= 0.41422 * dx
      case 5 => Abs(dx) <= 0.41422 * -dy
      case 6 => dx <= 0.0 && dy <= 0.0 && -dy <= 2.41422 * -dx && -dx <= 2.41422 * -dy
      case 7 => 0.0 <= dx && dy <= 0.0 && -dy <= 2.41422 * dx && dx <= 2.41422 * -dy
  {
    assert Dot(from, to, 0) <= Dot(from, to, d) && Dot(from, to, 1) <= Dot(from, to, d);
    assert Dot(from, to, 2) <= Dot(from, to, d) && Dot(from, to, 3) <= Dot(from, to, d);
    assert Dot(from, to, 4) <= Dot(from, to, d) && Dot(from, to, 5) <= Dot(from, to, d);
    assert Dot(from, to, 6) <= Dot(from, to, d) && Dot(from, to, 7) <= Dot(from, to, d);
  }

  // ---- the chase --------------------------------------------------------------------------------------------

  predicate WithinLeash(b: Body) {
    SquaredDistance(b.pos, b.spawnPos) <= 2400.0 * 2400.0
  }

  /** The target is within 50 units. */
  predicate InReach(b: Body) {
    SquaredDistance(b.pos, b.targetPos) <= 50.0 * 50.0
  }

  /** What a chaser on its leash does: it attacks exactly if its target is in reach, and then looks at it;
      otherwise it chases on, and at least every ten frames turns to where the target is. */
  lemma ChaseHeads(b: Body, luck: Luck)
    requires b.state == Chase && WithinLeash(b)
    ensures var c := Updated(b, luck);
      && (c.state == Attack <==> InReach(b)) && (c.state == Chase <==> !InReach(b))
      && (c.state == Attack ==> c.pos == b.pos && c.anim == 0 && IsDirectionTo(b.pos, b.targetPos, c.direction))
      && (c.state == Chase && 9 <= b.anim ==> IsDirectionTo(b.pos, b.targetPos, c.direction))
      && (c.state == Chase && b.anim < 9 ==> c.direction == b.direction && c.anim == b.anim + 1)
      && c.target == b.target && c.targetPos == b.targetPos && c.spawnPos == b.spawnPos && c.hp == b.hp
  {
    hide DirectionTo;
    DirectionToIsExact(b.pos, b.targetPos, DirectionTo(b.pos, b.targetPos));
    hide SquaredDistance, DirectionVector, IsDirectionTo, Along;
  }

  /** Beyond its leash it gives up: home, or at rest if home is near. */
  lemma LeashHolds(b: Body, luck: Luck)
    requires b.state == Chase && !WithinLeash(b)
    ensures var c := Updated(b, luck); c.state == Return && c.pos == b.pos
  {
    hide DirectionTo, SquaredDistance;
  }

  /** A monster that has lost its target goes home exactly if home is more than 150 units away, and rests where it
      is otherwise. */
  lemma GivesUp(b: Body)
    ensures var c := GivenUp(b); var dx, dy := b.spawnPos.x - b.pos.x, b.spawnPos.y - b.pos.y;
      && (c.state == Return <==> 150.0 * 150.0 < dx * dx + dy * dy) && (c.state == Return || c.state == Idle)
      && c == b.(state := c.state, anim := 0, start := b.pos)
  {
    AbsSquare(b.spawnPos.x - b.pos.x);
    AbsSquare(b.spawnPos.y - b.pos.y);
    AbsSquare(b.pos.x - b.spawnPos.x);
    AbsSquare(b.pos.y - b.spawnPos.y);
  }

  /** A walk: the monster is where its way from `start` has brought it. */
  predicate Leg(b: Body) {
    InWorld(b.start) && 0 <= b.anim && b.pos == Along(b.start, b.direction, b.anim)
  }

  /** A walk that leads to a point: it will be directed again before it can pass it. */
  predicate OnCourse(b: Body, to: Position) {
    Leg(b) && (b.anim < 9 ==> Ahead(b.direction, to.x - b.start.x, to.y - b.start.y, 27.0))
  }

  /** How far a point is, added up over both coordinates. */
  function Away(p: Position, to: Position): real {
    Abs(to.x - p.x) + Abs(to.y - p.y)
  }

  /** One coordinate of a step that does not pass its goal: the border of the world does not matter. */
  lemma Coordinate(start: real, v: real, anim: int, hi: real, to: real)
    requires 0.0 <= start <= hi && 0.0 <= to <= hi && 0 <= anim
    requires var rest := to - ClampReal(start + Way(v, anim), hi);
      (v > 0.0 ==> SPEED * v <= rest) && (v < 0.0 ==> rest <= SPEED * v)
    ensures var p, q := ClampReal(start + Way(v, anim), hi), ClampReal(start + Way(v, anim + 1), hi);
      Abs(to - q) == Abs(to - p) - SPEED * Abs(v) && (v == 0.0 ==> q == p == start)
  {
    var a := anim as real;
    assert (anim + 1) as real == a + 1.0;
    assert Way(v, anim + 1) == Way(v, anim) + v * SPEED;
    if v > 0.0 {
      assert v * SPEED * a >= 0.0;
    } else if v < 0.0 {
      assert v * SPEED * a <= 0.0;
    }
  }

  lemma VectorIsLong(d: Direction)
    ensures var v := DirectionVector(d); 1.0 <= Abs(v.x) + Abs(v.y) && 0.0 <= Abs(v.x) && 0.0 <= Abs(v.y)
  {
  }

  /** A step of a walk whose goal is at least one step ahead: nearer by a step, in each coordinate. */
  lemma StepNearer(b: Body, to: Position)
    requires Leg(b) && InWorld(to) && Ahead(b.direction, to.x - b.pos.x, to.y - b.pos.y, SPEED)
    ensures var q := Along(b.start, b.direction, b.anim + 1);
      && Away(q, to) <= Away(b.pos, to) - SPEED
      && Abs(to.x - q.x) <= Abs(to.x - b.pos.x) && Abs(to.y - q.y) <= Abs(to.y - b.pos.y)
  {
    hide ClampReal, DirectionVector, WorldW, WorldH, Abs, Way;
    var v := DirectionVector(b.direction);
    var q := Along(b.start, b.direction, b.anim + 1);
    VectorIsLong(b.direction);
    Coordinate(b.start.x, v.x, b.anim, WorldW(), to.x);
    Coordinate(b.start.y, v.y, b.anim, WorldH(), to.y);
    assert Abs(to.x - q.x) == Abs(to.x - b.pos.x) - SPEED * Abs(v.x);
    assert Abs(to.y - q.y) == Abs(to.y - b.pos.y) - SPEED * Abs(v.y);
  }

  lemma StillAhead(start: real, v: real, anim: int, hi: real, to: real, far: real)
    requires 0.0 <= start <= hi && 0.0 <= to <= hi && 0 <= anim && SPEED * (anim + 1) as real <= far
    requires (v > 0.0 ==> far * v <= to - start) && (v < 0.0 ==> to - start <= far * v)
    ensures var rest := to - ClampReal(start + Way(v, anim), hi);
      (v > 0.0 ==> SPEED * v <= rest) && (v < 0.0 ==> rest <= SPEED * v)
  {
    var gone := SPEED * anim as real;
    assert (anim + 1) as real == anim as real + 1.0 && gone + SPEED <= far;
    assert Way(v, anim) == v * gone;
    var spare := far - gone - SPEED;
    assert far * v == v * gone + SPEED * v + v * spare;
    if v > 0.0 {
      assert v * gone >= 0.0 && v * spare >= 0.0;
    } else if v < 0.0 {
      assert v * gone <= 0.0 && v * spare <= 0.0;
    }
  }

  /** On a course of which `far` units are still free of the goal, the next step does not pass it. */
  lemma NextIsFree(b: Body, to: Position, far: real)
    requires Leg(b) && InWorld(to) && Ahead(b.direction, to.x - b.start.x, to.y - b.start.y, far)
    requires SPEED * (b.anim + 1) as real <= far
    ensures Ahead(b.direction, to.x - b.pos.x, to.y - b.pos.y, SPEED)
  {
    hide ClampReal, DirectionVector, WorldW, WorldH, Way;
    var v := DirectionVector(b.direction);
    StillAhead(b.start.x, v.x, b.anim, WorldW(), to.x, far);
    StillAhead(b.start.y, v.y, b.anim, WorldH(), to.y, far);
  }

  lemma AheadLess(d: Direction, dx: real, dy: real, far: real, near: real)
    requires Ahead(d, dx, dy, far) && 0.0 <= near <= far
    ensures Ahead(d, dx, dy, near)
  {
    var v := DirectionVector(d);
    assert (far - near) * v.x == far * v.x - near * v.x && (far - near) * v.y == far * v.y - near * v.y;
    Grows(far - near, v.x);
    Grows(far - near, v.y);
  }

  lemma Grows(a: real, b: real)
    requires 0.0 <= a
    ensures (b >= 0.0 ==> a * b >= 0.0) && (b <= 0.0 ==> a * b <= 0.0)
  {
  }

  /** Where a walk leads in one frame. */
  lemma WalksOn(b: Body)
    requires Leg(b)
    ensures var c := Moved(b.(anim := b.anim + 1)); Leg(c) && c.pos == Along(b.start, b.direction, b.anim + 1)
  {
    hide ClampReal, DirectionVector;
  }

  lemma LegInWorld(b: Body)
    requires Leg(b)
    ensures InWorld(b.pos)
  {
    hide Way, DirectionVector;
  }

  lemma TurnsHere(b: Body, d: Direction)
    requires InWorld(b.pos)
    ensures var c := Moved(Turn(b, d)); c == Turn(b, d) && Leg(c)
  {
    hide DirectionVector;
  }

  lemma CourseFrames(b: Body)
    requires OnCourse(b, b.targetPos)
    ensures 0 <= b.anim
  {
  }

  /** One frame of a chaser on course, on its leash and out of reach of a target that stands still: it turns
      on the spot, or comes nearer by a step, and is on course again. */
  lemma CourseStep(b: Body, luck: Luck)
    requires b.state == Chase && OnCourse(b, b.targetPos) && InWorld(b.targetPos) && WithinLeash(b) && !InReach(b)
    ensures var c := Updated(b, luck);
      && c.state == Chase && OnCourse(c, c.targetPos) && c.targetPos == b.targetPos
      && (if c.anim == 0 then 9 <= b.anim && c.pos == b.pos
          else c.anim == b.anim + 1 && Away(c.pos, c.targetPos) <= Away(b.pos, b.targetPos) - SPEED)
      && SquaredDistance(c.pos, c.targetPos) <= SquaredDistance(b.pos, b.targetPos)
  {
    hide Leg, Ahead, DirectionTo, IsDirectionTo, Moved, Along, DirectionVector, SquaredDistance, Away;
    var t, d := b.targetPos, DirectionTo(b.pos, b.targetPos);
    CourseFrames(b);
    LegInWorld(b);
    DirectionToIsExact(b.pos, t, d);
    BestIsAhead(b.pos, t, d, 27.0);
    AheadLess(d, t.x - b.pos.x, t.y - b.pos.y, 27.0, SPEED);
    TurnsHere(b.(anim := b.anim + 1), d);
    WalksOn(b);
    if b.anim < 9 {
      NextIsFree(b, t, 27.0);
    }
    if b.anim < 9 || d == b.direction {
      StepNearer(b, t);
      NearerSquared(b.pos, Along(b.start, b.direction, b.anim + 1), t);
    }
    MovedKeeps(b);
  }

  lemma MovedKeeps(b: Body)
    ensures Moved(b.(anim := b.anim + 1)).direction == b.direction && Moved(b.(anim := b.anim + 1)).start == b.start
  {
  }

  lemma NearerSquared(p: Position, q: Position, to: Position)
    requires Abs(to.x - q.x) <= Abs(to.x - p.x) && Abs(to.y - q.y) <= Abs(to.y - p.y)
    ensures SquaredDistance(q, to) <= SquaredDistance(p, to)
  {
    LessSquare(to.x - q.x, to.x - p.x);
    LessSquare(to.y - q.y, to.y - p.y);
    assert SquaredDistance(q, to) == (to.x - q.x) * (to.x - q.x) + (to.y - q.y) * (to.y - q.y);
    assert SquaredDistance(p, to) == (to.x - p.x) * (to.x - p.x) + (to.y - p.y) * (to.y - p.y);
  }

  lemma LessSquare(a: real, b: real)
    requires Abs(a) <= Abs(b)
    ensures a * a <= b * b
  {
    AbsSquare(a);
    AbsSquare(b);
    if Abs(a) < Abs(b) {
      SmallerSquare(Abs(a), Abs(b));
    }
  }

  /** What is left of a chase: the way, and the frames until the next turn. */
  function Left(b: Body): real {
    Away(b.pos, b.targetPos) + 0.3 * (if b.anim < 9 then b.anim else 9) as real
  }

  /** So far the chaser has been on its leash, and out of reach of its target. */
  predicate Undecided(b: Body, lucks: seq<Luck>) {
    forall k :: 0 <= k < |lucks| ==>
      WithinLeash(UpdatedTimes(b, lucks[..k])) && !InReach(UpdatedTimes(b, lucks[..k]))
  }

  lemma UndecidedPrefix(b: Body, lucks: seq<Luck>)
    requires Undecided(b, lucks) && lucks != []
    ensures var front := lucks[..|lucks| - 1];
      Undecided(b, front) && WithinLeash(UpdatedTimes(b, front)) && !InReach(UpdatedTimes(b, front))
  {
    hide WithinLeash, InReach, UpdatedTimes;
    var front := lucks[..|lucks| - 1];
    assert forall k :: 0 <= k < |front| ==> front[..k] == lucks[..k];
  }

  /** A chaser on course comes nearer and nearer to a target that stands still. */
  lemma {:induction false} ChaseComesNearer(b: Body, lucks: seq<Luck>)
    requires b.state == Chase && OnCourse(b, b.targetPos) && InWorld(b.targetPos) && Undecided(b, lucks)
    ensures var c := UpdatedTimes(b, lucks);
      && c.state == Chase && OnCourse(c, c.targetPos) && c.targetPos == b.targetPos
      && Left(c) <= Left(b) - 2.7 * |lucks| as real
      && SquaredDistance(c.pos, c.targetPos) <= SquaredDistance(b.pos, b.targetPos)
  {
    hide OnCourse, InWorld, WithinLeash, InReach, SquaredDistance, Updated, Undecided, Away;
    if lucks != [] {
      var front := lucks[..|lucks| - 1];
      UndecidedPrefix(b, lucks);
      ChaseComesNearer(b, front);
      FrameByFrame(UpdatedTimes(b, front), lucks[|lucks| - 1]);
      assert |lucks| as real == |front| as real + 1.0;
    }
  }

  lemma FrameByFrame(b: Body, luck: Luck)
    requires b.state == Chase && OnCourse(b, b.targetPos) && InWorld(b.targetPos) && WithinLeash(b) && !InReach(b)
    ensures var c := Updated(b, luck);
      && c.state == Chase && OnCourse(c, c.targetPos) && c.targetPos == b.targetPos && Left(c) <= Left(b) - 2.7
      && SquaredDistance(c.pos, c.targetPos) <= SquaredDistance(b.pos, b.targetPos)
  {
    CourseStep(b, luck);
    CourseFrames(b);
    hide OnCourse, InWorld, WithinLeash, InReach, SquaredDistance, Updated, Away;
  }

  /** So it catches it, or is stopped by its leash, within a time that its distance gives. */
  lemma ChaseEnds(b: Body, lucks: seq<Luck>)
    requires b.state == Chase && OnCourse(b, b.targetPos) && InWorld(b.targetPos)
    requires Left(b) < 2.7 * |lucks| as real
    ensures exists k :: 0 <= k < |lucks| && var c := UpdatedTimes(b, lucks[..k]);
              c.state == Chase && (!WithinLeash(c) || Updated(c, lucks[k]).state == Attack)
  {
    hide OnCourse, InWorld, WithinLeash, InReach, Updated, UpdatedTimes;
    if Undecided(b, lucks) {
      ChaseComesNearer(b, lucks);
      LeftOver(UpdatedTimes(b, lucks));
    } else {
      var k := Decided(b, lucks);
      ChaseComesNearer(b, lucks[..k]);
      var c := UpdatedTimes(b, lucks[..k]);
      if WithinLeash(c) {
        ChaseHeads(c, lucks[k]);
      }
    }
  }

  lemma LeftOver(b: Body)
    requires OnCourse(b, b.targetPos)
    ensures 0.0 <= Left(b)
  {
  }

  /** The first frame that decides the chase. */
  lemma {:induction false} Decided(b: Body, lucks: seq<Luck>) returns (k: nat)
    requires !Undecided(b, lucks)
    ensures k < |lucks| && Undecided(b, lucks[..k])
    ensures !WithinLeash(UpdatedTimes(b, lucks[..k])) || InReach(UpdatedTimes(b, lucks[..k]))
  {
    hide WithinLeash, InReach, UpdatedTimes;
    var front := lucks[..|lucks| - 1];
    if Undecided(b, front) {
      k := |lucks| - 1;
      assert forall j :: 0 <= j < k ==> lucks[..j] == front[..j];
    } else {
      k := Decided(b, front);
      assert front[..k] == lucks[..k];
    }
  }

  /** A chaser that starts off in whatever direction is on course after at most nine frames. */
  lemma {:induction false} ChaseAims(b: Body, lucks: seq<Luck>)
    requires b.state == Chase && Leg(b) && Undecided(b, lucks) && b.anim + |lucks| <= 9
    ensures var c := UpdatedTimes(b, lucks);
      && c.state == Chase && Leg(c) && c.anim == b.anim + |lucks| && c.targetPos == b.targetPos
      && (c.anim == 9 ==> OnCourse(c, c.targetPos))
  {
    hide Undecided, UpdatedTimes, Ahead;
    if lucks == [] {
      assert UpdatedTimes(b, []) == b by { NoUpdate(b); }
    } else {
      var front := lucks[..|lucks| - 1];
      UndecidedPrefix(b, lucks);
      ChaseAims(b, front);
      OneUpdate(b, lucks);
      var c := UpdatedTimes(b, front);
      WalksOn(c);
      ChaseHeads(c, lucks[|lucks| - 1]);
      hide Leg, WithinLeash, InReach, IsDirectionTo, DirectionTo;
    }
  }

  lemma NoUpdate(b: Body)
    ensures UpdatedTimes(b, []) == b
  {
  }

  lemma OneUpdate(b: Body, lucks: seq<Luck>)
    requires lucks != []
    ensures UpdatedTimes(b, lucks) == Updated(UpdatedTimes(b, lucks[..|lucks| - 1]), lucks[|lucks| - 1])
  {
  }

  /** Whatever a wandering monster does, it is on a walk. */
  lemma WalksAreLegs(b: Body, luck: Luck)
    requires InWorld(b.pos) && InWorld(b.spawnPos) && 0 <= b.anim && (Wandering(b.state) ==> Leg(b))
    ensures var c := Updated(b, luck); InWorld(c.pos) && 0 <= c.anim && (Wandering(c.state) ==> Leg(c))
  {
    MovesOnlyWandering(b, luck);
    if Wandering(b.state) {
      WalksOn(b);
    }
    hide SquaredDistance, DirectionVector, DirectionTo, Way;
  }

  // ---- the way home -----------------------------------------------------------------------------------------

  /** What a returning monster does: within ten units of home it rests, and only there; otherwise it goes on,
      and at least every fifteen frames turns to where home is. */
  lemma ReturnHeads(b: Body, luck: Luck)
    requires b.state == Return && InWorld(b.pos)
    ensures var c := Updated(b, luck);
      && (c.state == Idle <==> SquaredDistance(b.pos, b.spawnPos) <= 10.0 * 10.0)
           && (c.state == Idle || c.state == Return)
      && (c.state == Idle ==> c.pos == b.pos)
      && (c.state == Return && 14 <= b.anim ==> IsDirectionTo(b.pos, b.spawnPos, c.direction) && c.pos == b.pos)
      && (c.state == Return && b.anim < 14 ==> c.direction == b.direction && c.anim == b.anim + 1)
  {
    DirectionToIsExact(b.pos, b.spawnPos, DirectionTo(b.pos, b.spawnPos));
    EnterThenMove(b.(anim := b.anim + 1));
    TurnsHere(b.(anim := b.anim + 1), DirectionTo(b.pos, b.spawnPos));
    hide SquaredDistance, DirectionVector, IsDirectionTo, DirectionTo, Along, InWorld;
  }

  /** A returning monster on its way home. */
  predicate HomeBound(b: Body) {
    Leg(b) && b.anim <= 14 && Ahead(b.direction, b.spawnPos.x - b.start.x, b.spawnPos.y - b.start.y, 42.0)
  }

  /** From 78 units on, a turn leads towards home for the whole of the next walk. */
  lemma TurnsHome(b: Body, luck: Luck)
    requires b.state == Return && InWorld(b.pos) && 14 <= b.anim && 78.0 * 78.0 < SquaredDistance(b.pos, b.spawnPos)
    ensures var c := Updated(b, luck); c.state == Return && c.pos == b.pos && HomeBound(c)
  {
    var d := DirectionTo(b.pos, b.spawnPos);
    DirectionToIsExact(b.pos, b.spawnPos, d);
    BestIsAhead(b.pos, b.spawnPos, d, 42.0);
    TurnsHere(b.(anim := b.anim + 1), d);
    hide SquaredDistance, DirectionVector, IsDirectionTo, DirectionTo, Along, InWorld, Ahead;
  }

  /** On such a walk every frame leads a step nearer home. */
  lemma NearerHome(b: Body, luck: Luck)
    requires b.state == Return && HomeBound(b) && b.anim < 14 && InWorld(b.spawnPos)
    ensures var c := Updated(b, luck);
      || c.state == Idle
      || (c.state == Return && HomeBound(c) && c.anim == b.anim + 1
          && Away(c.pos, c.spawnPos) <= Away(b.pos, b.spawnPos) - SPEED)
  {
    hide Leg, Ahead, DirectionTo, DirectionVector, SquaredDistance, Along, Moved, InWorld, Away;
    WalksOn(b);
    NextIsFree(b, b.spawnPos, 42.0);
    StepNearer(b, b.spawnPos);
    MovedKeeps(b);
  }

  // ---- rest and patrol -----------------------------------------------------------------------------------------

  /** The signs of direction d are those of (dx, dy). */
  predicate PointsTo(d: Direction, dx: real, dy: real) {
    var v := DirectionVector(d);
    && (v.x > 0.0 <==> dx > 0.0) && (v.x < 0.0 <==> dx < 0.0)
    && (v.y > 0.0 <==> dy > 0.0) && (v.y < 0.0 <==> dy < 0.0)
  }

  /** A resting monster stays where it is. It sets off only beyond its patrol radius, and then towards home, or
      by chance after ten frames of rest. */
  lemma RestHeads(b: Body, luck: Luck)
    requires b.state == Idle
    ensures var c := Updated(b, luck); var far := 150.0 * 150.0 < SquaredDistance(b.pos, b.spawnPos);
      && c.pos == b.pos && (c.state == Move || c.state == Idle)
      && (c.state == Move <==> far || (luck.hit && 9 <= b.anim))
      && (c.state == Idle ==> c == b.(anim := b.anim + 1))
      && (far ==> PointsTo(c.direction, b.spawnPos.x - b.pos.x, b.spawnPos.y - b.pos.y))
      && (c.state == Move && !far ==> c.direction == luck.drawn)
      && (c.state == Move ==> c.start == b.pos && c.anim == 0)
  {
  }

  /** A patrolling monster turns home exactly at its patrol radius; before, it rests only by chance, after ten
      frames on its way; otherwise it walks on. */
  lemma PatrolHeads(b: Body, luck: Luck)
    requires b.state == Move && Leg(b)
    ensures var c := Updated(b, luck); var far := 150.0 * 150.0 <= SquaredDistance(b.pos, b.spawnPos);
      && (c.state == Return <==> far) && (c.state == Idle <==> !far && luck.hit && 9 <= b.anim)
      && (c.state == Move || c.state == Return || c.state == Idle) && c.direction == b.direction
      && (c.state != Move ==> c.pos == b.pos && c.start == b.pos && c.anim == 0)
      && (c.state == Move ==> Leg(c) && c.start == b.start && c.anim == b.anim + 1)
  {
    WalksOn(b);
    hide SquaredDistance, DirectionVector, Along;
  }

  /** One frame of a walk moves a monster by three units (and the rounding of the table). */
  lemma StepIsShort(b: Body)
    requires Leg(b)
    ensures var q := Along(b.start, b.direction, b.anim + 1); SquaredDistance(q, b.pos) <= 9.00001
  {
    hide DirectionVector, ClampReal;
    var v := DirectionVector(b.direction);
    var q := Along(b.start, b.direction, b.anim + 1);
    ShortCoordinate(b.start.x, v.x, b.anim, WorldW());
    ShortCoordinate(b.start.y, v.y, b.anim, WorldH());
    VectorIsUnit(b.direction);
    hide Way, Abs;
    assert Abs(q.x - b.pos.x) <= Abs(SPEED * v.x) && Abs(q.y - b.pos.y) <= Abs(SPEED * v.y);
    LessSquare(q.x - b.pos.x, SPEED * v.x);
    LessSquare(q.y - b.pos.y, SPEED * v.y);
    assert (SPEED * v.x) * (SPEED * v.x) == 9.0 * (v.x * v.x) && (SPEED * v.y) * (SPEED * v.y) == 9.0 * (v.y * v.y);
  }

  lemma VectorIsUnit(d: Direction)
    ensures var v := DirectionVector(d); v.x * v.x + v.y * v.y <= 1.000001
  {
  }

  lemma ShortCoordinate(start: real, v: real, anim: int, hi: real)
    requires 0.0 <= hi
    ensures Abs(ClampReal(start + Way(v, anim + 1), hi) - ClampReal(start + Way(v, anim), hi)) <= Abs(SPEED * v)
  {
    assert (anim + 1) as real == anim as real + 1.0;
    assert Way(v, anim + 1) == Way(v, anim) + v * SPEED;
  }

  /** A patrolling monster never gets farther from home than its patrol radius and one step. */
  lemma PatrolStaysNear(b: Body, luck: Luck)
    requires b.state == Move && Leg(b)
    ensures var c := Updated(b, luck);
      c.state == Move ==> SquaredDistance(c.pos, b.spawnPos) <= 153.01 * 153.01
  {
    hide SquaredDistance, Leg, Along, DirectionVector;
    var c := Updated(b, luck);
    PatrolHeads(b, luck);
    WalksOn(b);
    if c.state == Move {
      StepIsShort(b);
      StillNear(b.spawnPos, b.pos, c.pos);
    }
  }

  lemma StillNear(home: Position, p: Position, q: Position)
    requires SquaredDistance(p, home) < 150.0 * 150.0 && SquaredDistance(q, p) <= 9.00001
    ensures SquaredDistance(q, home) <= 153.01 * 153.01
  {
    var px, py, sx, sy := p.x - home.x, p.y - home.y, q.x - p.x, q.y - p.y;
    assert SquaredDistance(p, home) == px * px + py * py;
    assert SquaredDistance(q, p) == sx * sx + sy * sy;
    OneStepFarther(px, py, sx, sy);
    assert SquaredDistance(q, home) == (px + sx) * (px + sx) + (py + sy) * (py + sy) by {
      assert q.x - home.x == px + sx && q.y - home.y == py + sy;
    }
  }

  lemma OneStepFarther(px: real, py: real, sx: real, sy: real)
    requires px * px + py * py < 150.0 * 150.0 && sx * sx + sy * sy <= 9.00001
    ensures (px + sx) * (px + sx) + (py + sy) * (py + sy) <= 153.01 * 153.01
  {
    var dot := px * sx + py * sy;
    var cross := px * sy - py * sx;
    var p2, s2 := px * px + py * py, sx * sx + sy * sy;
    assert dot * dot + cross * cross == p2 * s2;
    assert cross * cross >= 0.0;
    Bounded(p2, 22500.0, s2, 9.00001);
    if dot > 450.001 {
      SmallerSquare(450.001, dot);
    }
    assert (px + sx) * (px + sx) + (py + sy) * (py + sy) == p2 + 2.0 * dot + s2;
  }

  lemma Bounded(a: real, x: real, b: real, y: real)
    requires 0.0 <= a <= x && 0.0 <= b <= y
    ensures a * b <= x * y
  {
    assert (x - a) * b >= 0.0 && x * (y - b) >= 0.0;
  }
}

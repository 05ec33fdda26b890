/** A monster that goes home arrives there: from wherever it is, whatever its way has been. */
module MonsterReturns {
  import opened Sectors
  import opened Monsters
  import opened MonsterCourses

  // ---- one walk ---------------------------------------------------------------------------------------------

  /** A product, for proofs that need not know what it is. */
  function Mul(a: real, b: real): real {
    a * b
  }

  lemma Product(a: real, b: real)
    ensures 0.0 <= a && 0.0 <= b ==> 0.0 <= a * b
    ensures 0.0 <= a * a
  {
  }

  /** Of a way whose length squared is q, u lies in the direction: at least 0.92 of it. */
  predicate Covers(u: real, q: real) {
    0.0 <= u && 0.853 * q <= Mul(u, u) <= 1.000001 * q
  }

  lemma AxisCovers(a: real, b: real)
    requires -0.41422 * a <= b <= 0.41422 * a
    ensures Covers(a, Mul(a, a) + Mul(b, b))
  {
    Product(0.41422 * a - b, 0.41422 * a + b);
    assert (0.41422 * a - b) * (0.41422 * a + b) == 0.1715782084 * (a * a) - b * b;
    Product(a, b);
    Product(b, a);
  }

  lemma DiagonalCovers(a: real, b: real)
    requires 0.0 <= a && 0.0 <= b && b <= 2.41422 * a && a <= 2.41422 * b
    ensures Covers(0.707107 * (a + b), Mul(a, a) + Mul(b, b))
  {
    Product(2.41422 * a - b, 2.41422 * b - a);
    assert (2.41422 * a - b) * (2.41422 * b - a) == 6.8284582084 * (a * b) - 2.41422 * (a * a + b * b);
    Product(a - b, a - b);
    assert (a - b) * (a - b) == a * a + b * b - 2.0 * (a * b);
    Product(a, b);
    Product(b, a);
    var u := 0.707107 * (a + b);
    assert u * u == 0.500000309449 * (a * a + b * b + 2.0 * (a * b));
    Diagonal(a * a + b * b, a * b, u * u);
  }

  lemma Diagonal(q: real, p: real, uu: real)
    requires 0.0 <= q && 2.41422 * q <= 6.8284582084 * p && 2.0 * p <= q && uu == 0.500000309449 * (q + 2.0 * p)
    ensures 0.853 * q <= uu <= 1.000001 * q
  {
  }

  lemma SameSquare(a: real)
    ensures Mul(-a, -a) == Mul(a, a)
  {
  }

  lemma DotIs(from: Position, to: Position, d: Direction)
    ensures var dx, dy := to.x - from.x, to.y - from.y;
      Dot(from, to, d) ==
        match d
        case 0 => dy
        case 1 => 0.707107 * (-dx + dy)
        case 2 => 0.707107 * (dx + dy)
        case 3 => -dx
        case 4 => dx
        case 5 => -dy
        case 6 => 0.707107 * (-dx + -dy)
        case 7 => 0.707107 * (dx + -dy)
  {
  }

  lemma Distance(p: Position, q: Position)
    ensures SquaredDistance(p, q) == Mul(p.x - q.x, p.x - q.x) + Mul(p.y - q.y, p.y - q.y)
  {
  }

  /** The best of the eight directions covers most of the way. */
  lemma BestCovers(from: Position, to: Position, d: Direction)
    requires IsDirectionTo(from, to, d) && 1.0 <= SquaredDistance(from, to)
    ensures Covers(Dot(from, to, d), SquaredDistance(from, to))
  {
    assert Squared(0.0001) < 1.0;
    Better(from, to, d);
    hide Mul, Covers, Dot, IsDirectionTo, SquaredDistance;
    var dx, dy := to.x - from.x, to.y - from.y;
    DotIs(from, to, d);
    Distance(from, to);
    assert from.x - to.x == -dx && from.y - to.y == -dy;
    SameSquare(dx);
    SameSquare(dy);
    match d
    case 0 => AxisCovers(dy, dx);
    case 1 => DiagonalCovers(-dx, dy);
    case 2 => DiagonalCovers(dx, dy);
    case 3 => AxisCovers(-dx, dy);
    case 4 => AxisCovers(dx, dy);
    case 5 => AxisCovers(-dy, dx);
    case 6 => DiagonalCovers(-dx, -dy);
    case 7 => DiagonalCovers(dx, -dy);
  }

  lemma ClampNearer(p: real, to: real, hi: real)
    requires 0.0 <= to <= hi
    ensures Mul(ClampReal(p, hi) - to, ClampReal(p, hi) - to) <= Mul(p - to, p - to)
  {
    if p < 0.0 {
      Longer(to, to - p);
      SameSquare(to);
      SameSquare(to - p);
    } else if hi < p {
      Longer(hi - to, p - to);
    }
  }

  lemma Longer(a: real, b: real)
    requires 0.0 <= a <= b
    ensures Mul(a, a) <= Mul(b, b)
  {
    Product(b - a, b + a);
    assert (b - a) * (b + a) == b * b - a * a;
  }

  /** How far it still is, squared, after k frames on the way, if the world has no border. */
  function Rest(q: real, u: real, k: nat): real {
    q - 6.0 * Mul(k as real, u) + 9.000009 * Mul(k as real, k as real)
  }

  lemma RestAfter(from: Position, to: Position, d: Direction, k: nat)
    requires InWorld(to)
    ensures SquaredDistance(Along(from, d, k), to) <= Rest(SquaredDistance(from, to), Dot(from, to, d), k)
  {
    hide Rest, DirectionVector, Mul, ClampReal, Way, WorldW, WorldH;
    Unit(d);
    RestInPlane(from, DirectionVector(d), to, k, WorldW(), WorldH());
    Distance(Along(from, d, k), to);
    Distance(from, to);
    Product2(from, to, d);
  }

  lemma Unit(d: Direction)
    ensures var v := DirectionVector(d); Mul(v.x, v.x) + Mul(v.y, v.y) <= 1.000001
  {
    VectorIsUnit(d);
  }

  lemma Product2(p: Position, q: Position, d: Direction)
    ensures var v := DirectionVector(d); Dot(p, q, d) == Mul(q.x - p.x, v.x) + Mul(q.y - p.y, v.y)
  {
    hide DirectionVector;
  }

  lemma RestInPlane(from: Position, v: Position, to: Position, k: nat, w: real, h: real)
    requires 0.0 <= to.x <= w && 0.0 <= to.y <= h && Mul(v.x, v.x) + Mul(v.y, v.y) <= 1.000001
    ensures var x, y := ClampReal(from.x + Way(v.x, k), w), ClampReal(from.y + Way(v.y, k), h);
      Mul(x - to.x, x - to.x) + Mul(y - to.y, y - to.y) <=
        Rest(Mul(from.x - to.x, from.x - to.x) + Mul(from.y - to.y, from.y - to.y),
             Mul(to.x - from.x, v.x) + Mul(to.y - from.y, v.y), k)
  {
    hide ClampReal, Way, Mul;
    OneCoordinate(from.x, v.x, k, to.x, w);
    OneCoordinate(from.y, v.y, k, to.y, h);
    AddUp(Mul(v.x, v.x), Mul(v.y, v.y), k as real, Mul(to.x - from.x, v.x), Mul(to.y - from.y, v.y));
  }

  lemma AddUp(a: real, b: real, t: real, p: real, q: real)
    requires a + b <= 1.000001
    ensures Mul(a, Mul(t, t)) + Mul(b, Mul(t, t)) <= 1.000001 * Mul(t, t) && Mul(t, p) + Mul(t, q) == Mul(t, p + q)
  {
    Product(1.000001 - a - b, t * t);
    Product(t, t);
    assert (1.000001 - a - b) * (t * t) == 1.000001 * (t * t) - a * (t * t) - b * (t * t);
  }

  lemma OneCoordinate(from: real, v: real, k: nat, to: real, hi: real)
    requires 0.0 <= to <= hi
    ensures var c := ClampReal(from + Way(v, k), hi); var t := k as real;
      Mul(c - to, c - to) <=
        Mul(from - to, from - to) - 6.0 * Mul(t, Mul(to - from, v)) + 9.0 * Mul(Mul(v, v), Mul(t, t))
  {
    ClampNearer(from + Way(v, k), to, hi);
    Coordinates(from, v, k as real, to);
  }

  lemma Coordinates(from: real, v: real, t: real, to: real)
    ensures (from + v * SPEED * t - to) * (from + v * SPEED * t - to)
         == (from - to) * (from - to) - 6.0 * (t * ((to - from) * v)) + 9.0 * ((v * v) * (t * t))
  {
    var a, b := from - to, v * t;
    assert v * SPEED * t == 3.0 * b;
    assert (a + 3.0 * b) * (a + 3.0 * b) == a * a + 6.0 * (a * b) + 9.0 * (b * b);
    assert a * b == -(t * ((to - from) * v));
    assert b * b == (v * v) * (t * t);
  }

  /** Within 23.5 units, the way passes home within ten. */
  lemma PassesHome(q: real, u: real) returns (k: nat)
    requires 0.0 <= q <= 552.25 && Covers(u, q)
    ensures k <= 14 && Rest(q, u, k) <= 100.0
  {
    NotLonger(u, q, 23.51);
    k := ((u + 1.5) / 3.0).Floor;
    var t := k as real;
    assert -1.5 <= u - 3.0 * t <= 1.5;
    var e := u - 3.0 * t;
    Product(1.5 - e, 1.5 + e);
    assert (1.5 - e) * (1.5 + e) == 2.25 - e * e;
    assert e * e == u * u - 6.0 * (t * u) + 9.0 * (t * t);
    Product(9.0 - t, 9.0 + t);
    assert (9.0 - t) * (9.0 + t) == 81.0 - t * t;
    Passing(q, u * u, t * u, t * t, e * e);
  }

  lemma Passing(q: real, uu: real, tu: real, tt: real, ee: real)
    requires q <= 552.25 && 0.853 * q <= uu && ee == uu - 6.0 * tu + 9.0 * tt && ee <= 2.25 && tt <= 81.0
    ensures q - 6.0 * tu + 9.000009 * tt <= 100.0
  {
  }

  lemma Nearing(q: real, u: real, uu: real, a: real, b: real)
    requires 0.853 * q <= uu <= a * u - b && 21.7 <= u
    ensures a == 70.18 && b == 1052.016 ==> q - 84.0 * u + 1764.001764 <= 552.25
    ensures a == 99.71 && b == 1692.817 && u <= 78.01 ==> q - 84.0 * u + 1764.001764 <= 2350.0
  {
  }

  lemma NotLonger(u: real, q: real, hi: real)
    requires 0.0 <= u && u * u <= 1.000001 * q && 1.000001 * q <= hi * hi && 0.0 <= hi
    ensures u <= hi
  {
    if hi < u { SmallerSquare(hi, u); }
  }

  lemma NotShorter(u: real, q: real, lo: real)
    requires 0.0 <= u && 0.853 * q <= u * u && lo * lo <= 0.853 * q && 0.0 <= lo
    ensures lo <= u
  {
    if u < lo { SmallerSquare(u, lo); }
  }

  /** From farther off, a whole walk leads nearer. */
  lemma ComesNearer(q: real, u: real)
    requires 552.25 < q && Covers(u, q)
    ensures var r := Rest(q, u, 14);
      && (q <= 2350.0 ==> r <= 552.25)
      && (2350.0 < q <= 6084.0 ==> r <= 2350.0)
      && (6084.0 < q ==> r <= q - 4000.0)
  {
    assert Rest(q, u, 14) == q - 84.0 * u + 1764.001764;
    NotShorter(u, q, 21.7);
    if q <= 2350.0 {
      NotLonger(u, q, 48.48);
      Product(u - 21.7, 48.48 - u);
      assert (u - 21.7) * (48.48 - u) == 70.18 * u - u * u - 1052.016;
      Nearing(q, u, u * u, 70.18, 1052.016);
    } else if q <= 6084.0 {
      NotLonger(u, q, 78.01);
      Product(u - 21.7, 78.01 - u);
      assert (u - 21.7) * (78.01 - u) == 99.71 * u - u * u - 1692.817;
      Nearing(q, u, u * u, 99.71, 1692.817);
    } else {
      NotShorter(u, q, 72.0);
    }
  }

  // ---- walk after walk ----------------------------------------------------------------------------------------

  /** A monster that has just turned home. */
  predicate TurnedHome(b: Body) {
    && b.state == Return && b.anim == 0 && b.start == b.pos && InWorld(b.pos) && InWorld(b.spawnPos)
    && IsDirectionTo(b.pos, b.spawnPos, b.direction)
  }

  predicate AtHome(b: Body) {
    SquaredDistance(b.pos, b.spawnPos) <= 100.0
  }

  /** n updates; a returning monster leaves nothing to chance. */
  function Later(b: Body, n: nat): Body {
    if n == 0 then b else Updated(Later(b, n - 1), Luck(false, 0))
  }

  function Walking(b: Body, k: nat): Body {
    b.(pos := Along(b.start, b.direction, k), anim := k)
  }

  ghost predicate OnItsWay(b: Body, n: nat) {
    forall j: nat :: j < n ==> Later(b, j).state == Return
  }

  /** The monster is on its way home until the n-th update, in which it comes to rest there. */
  ghost predicate Arrives(b: Body, n: nat) {
    OnItsWay(b, n) && Later(b, n).state == Idle && AtHome(Later(b, n))
  }

  lemma UpdateIs(b: Body)
    requires b.state == Return && InWorld(b.pos) && InWorld(b.spawnPos) && 0 <= b.anim
    ensures var c := Updated(b, Luck(false, 0));
      if AtHome(b) then c.state == Idle && AtHome(c)
      else if 14 <= b.anim then TurnedHome(c) && c.pos == b.pos && c.spawnPos == b.spawnPos
      else c == Walking(b, b.anim + 1)
  {
    EnterThenMove(b.(anim := b.anim + 1));
    DirectionToIsExact(b.pos, b.spawnPos, DirectionTo(b.pos, b.spawnPos));
    TurnsHere(b.(anim := b.anim + 1), DirectionTo(b.pos, b.spawnPos));
    hide DirectionTo, IsDirectionTo, Along, DirectionVector, SquaredDistance;
  }

  lemma AlongInWorld(start: Position, d: Direction, k: int)
    ensures InWorld(Along(start, d, k))
    ensures InWorld(start) ==> Along(start, d, 0) == start
  {
    var v := DirectionVector(d);
    assert Way(v.x, 0) == 0.0 && Way(v.y, 0) == 0.0;
    hide Way, DirectionVector;
  }

  /** A walk that has not come within ten units of home yet. */
  lemma {:induction false} WalksOnward(b: Body, k: nat)
    requires TurnedHome(b) && k <= 14 && forall j: nat :: j < k ==> !AtHome(Walking(b, j))
    ensures Later(b, k) == Walking(b, k) && forall j: nat :: j <= k ==> Later(b, j).state == Return
  {
    hide AtHome, Along, InWorld, IsDirectionTo, Updated;
    AlongInWorld(b.start, b.direction, k);
    if k > 0 {
      WalksOnward(b, k - 1);
      AlongInWorld(b.start, b.direction, k - 1);
      UpdateIs(Walking(b, k - 1));
    }
  }

  lemma {:induction false} FirstAtHome(b: Body, m: nat) returns (k: nat)
    ensures k <= m && (forall j: nat :: j < k ==> !AtHome(Walking(b, j))) && (k < m ==> AtHome(Walking(b, k)))
  {
    hide AtHome, Walking;
    if m == 0 {
      k := 0;
    } else {
      k := FirstAtHome(b, m - 1);
      if k == m - 1 && !AtHome(Walking(b, k)) {
        k := m;
      }
    }
  }

  /** How many walks from so far away. */
  function Walks(q: real): nat {
    if q <= 552.25 then 0 else if q <= 2350.0 then 1 else if q <= 6084.0 then 2
    else 3 + ((q - 6084.0) / 4000.0).Floor
  }

  lemma FewerWalks(q: real, r: real)
    requires 552.25 < q
    requires q <= 2350.0 ==> r <= 552.25
    requires 2350.0 < q <= 6084.0 ==> r <= 2350.0
    requires 6084.0 < q ==> r <= q - 4000.0
    ensures Walks(r) < Walks(q)
  {
    if 6084.0 < r {
      assert (r - 6084.0) / 4000.0 <= (q - 6084.0) / 4000.0 - 1.0;
    }
  }

  function Far(b: Body): real {
    SquaredDistance(b.pos, b.spawnPos)
  }

  /** One walk: the monster comes to rest at home, or turns again nearer to it. */
  lemma OneWalk(b: Body) returns (n: nat)
    requires TurnedHome(b)
    ensures n <= 15
    ensures Arrives(b, n) ||
            (&& n == 15 && OnItsWay(b, n) && TurnedHome(Later(b, n))
             && Walks(Far(Later(b, n))) < Walks(Far(b)))
  {
    hide Along, InWorld, IsDirectionTo, Updated, SquaredDistance, Dot, Rest, Covers, Walks;
    var k := FirstAtHome(b, 15);
    if k < 15 {
      WalksOnward(b, k);
      AlongInWorld(b.start, b.direction, k);
      UpdateIs(Walking(b, k));
      n := k + 1;
    } else {
      WalksOnward(b, 14);
      AlongInWorld(b.start, b.direction, 14);
      UpdateIs(Walking(b, 14));
      n := 15;
      assert Later(b, 15) == Updated(Later(b, 14), Luck(false, 0));
      MissedHome(b);
    }
  }

  lemma CloseEnough(b: Body)
    requires TurnedHome(b) && 1.0 <= Far(b) <= 552.25
    ensures exists k: nat :: k < 15 && AtHome(Walking(b, k))
  {
    hide Along, IsDirectionTo, SquaredDistance, Dot, Rest, Covers;
    BestCovers(b.pos, b.spawnPos, b.direction);
    var k := PassesHome(Far(b), Dot(b.pos, b.spawnPos, b.direction));
    RestAfter(b.pos, b.spawnPos, b.direction, k);
    assert AtHome(Walking(b, k));
  }

  lemma MissedHome(b: Body)
    requires TurnedHome(b) && forall j: nat :: j < 15 ==> !AtHome(Walking(b, j))
    ensures Walks(SquaredDistance(Along(b.start, b.direction, 14), b.spawnPos)) < Walks(Far(b))
  {
    hide Along, IsDirectionTo, SquaredDistance, Dot, Rest, Covers, Walks;
    var q, u := Far(b), Dot(b.pos, b.spawnPos, b.direction);
    assert !AtHome(Walking(b, 0));
    AlongInWorld(b.start, b.direction, 0);
    BestCovers(b.pos, b.spawnPos, b.direction);
    if q <= 552.25 {
      CloseEnough(b);
      assert false;
    } else {
      ComesNearer(q, u);
      RestAfter(b.pos, b.spawnPos, b.direction, 14);
      FewerWalks(q, SquaredDistance(Along(b.start, b.direction, 14), b.spawnPos));
    }
  }

  lemma {:induction false} LaterOn(b: Body, m: nat, n: nat)
    ensures Later(b, m + n) == Later(Later(b, m), n)
  {
    hide Updated;
    if n > 0 {
      LaterOn(b, m, n - 1);
    }
  }

  lemma OnItsWayLater(b: Body, m: nat, n: nat)
    requires OnItsWay(b, m) && OnItsWay(Later(b, m), n)
    ensures OnItsWay(b, m + n)
  {
    hide Later;
    forall j: nat | j < m + n
      ensures Later(b, j).state == Return
    {
      if m <= j { LaterOn(b, m, j - m); }
    }
  }

  lemma ArrivesLater(b: Body, m: nat, n: nat)
    requires OnItsWay(b, m) && Arrives(Later(b, m), n)
    ensures Arrives(b, m + n)
  {
    hide Later, AtHome, OnItsWay;
    LaterOn(b, m, n);
    OnItsWayLater(b, m, n);
  }

  /** From a turn on: at home after at most so many walks. */
  lemma {:induction false} ComesHome(b: Body) returns (n: nat)
    requires TurnedHome(b)
    ensures Arrives(b, n) && n <= 15 * (Walks(Far(b)) + 1)
    decreases Walks(Far(b))
  {
    hide Arrives, TurnedHome, Later, Walks, Far, OnItsWay;
    n := OneWalk(b);
    if !Arrives(b, n) {
      var m := ComesHome(Later(b, n));
      ArrivesLater(b, n, m);
      n := n + m;
    }
  }

  /** Whatever way the monster was going when it gave up, it turns home in time. */
  lemma {:induction false} Turns(b: Body) returns (n: nat)
    requires b.state == Return && InWorld(b.pos) && InWorld(b.spawnPos) && 0 <= b.anim
    ensures n <= (if b.anim < 14 then 15 - b.anim else 1)
    ensures Arrives(b, n) || (OnItsWay(b, n) && TurnedHome(Later(b, n)))
    decreases 14 - b.anim
  {
    hide TurnedHome, AtHome, Updated, Along, InWorld;
    UpdateIs(b);
    n := 1;
    assert Later(b, 0) == b && Later(b, 1) == Updated(b, Luck(false, 0));
    if !AtHome(b) && b.anim < 14 {
      AlongInWorld(b.start, b.direction, b.anim + 1);
      var m := Turns(Later(b, 1));
      assert OnItsWay(b, 1);
      hide OnItsWay, Later;
      if Arrives(Later(b, 1), m) {
        ArrivesLater(b, 1, m);
      } else {
        LaterOn(b, 1, m);
        OnItsWayLater(b, 1, m);
      }
      n := 1 + m;
    }
  }

  /** The monster is on its way home for all of the updates but the last, in which it comes to rest there. */
  predicate Returns(b: Body, lucks: seq<Luck>) {
    && lucks != []
    && (forall k :: 0 <= k < |lucks| ==> UpdatedTimes(b, lucks[..k]).state == Return)
    && UpdatedTimes(b, lucks).state == Idle
    && SquaredDistance(UpdatedTimes(b, lucks).pos, b.spawnPos) <= 10.0 * 10.0
  }

  /** Chance has no part in a return. */
  lemma {:induction false} SameWay(b: Body, lucks: seq<Luck>)
    requires OnItsWay(b, |lucks|)
    ensures UpdatedTimes(b, lucks) == Later(b, |lucks|) && Later(b, |lucks|).spawnPos == b.spawnPos
  {
    if lucks != [] {
      SameWay(b, lucks[..|lucks| - 1]);
      LuckIsIdle(Later(b, |lucks| - 1), lucks[|lucks| - 1]);
      hide Updated;
    }
  }

  lemma LuckIsIdle(b: Body, luck: Luck)
    ensures b.state == Return ==>
              Updated(b, luck) == Updated(b, Luck(false, 0)) && Updated(b, luck).spawnPos == b.spawnPos
  {
    hide SquaredDistance, DirectionTo, Along;
  }

  lemma ReturnsThen(b: Body, lucks: seq<Luck>)
    requires b.state == Return && Arrives(b, |lucks|)
    ensures Returns(b, lucks)
  {
    hide Updated, SquaredDistance;
    SameWay(b, lucks);
    forall k | 0 <= k < |lucks|
      ensures UpdatedTimes(b, lucks[..k]).state == Return
    {
      SameWay(b, lucks[..k]);
    }
  }

  /** After n updates, whatever is drawn in them. */
  ghost predicate ReturnsIn(b: Body, n: nat) {
    forall lucks: seq<Luck> :: |lucks| == n ==> Returns(b, lucks)
  }

  /** Every return ends at home: a monster on its way back that nobody hits comes to rest within ten units of
      where it spawned, after a number of updates that does not depend on chance. */
  lemma ReturnEnds(b: Body)
    requires b.state == Return && InWorld(b.pos) && InWorld(b.spawnPos) && 0 <= b.anim
    ensures exists n: nat :: ReturnsIn(b, n)
  {
    hide Arrives, TurnedHome, Later, OnItsWay, Returns, InWorld;
    var n := Turns(b);
    if !Arrives(b, n) {
      var m := ComesHome(Later(b, n));
      ArrivesLater(b, n, m);
      n := n + m;
    }
    forall lucks: seq<Luck> | |lucks| == n
      ensures Returns(b, lucks)
    {
      ReturnsThen(b, lucks);
    }
    assert ReturnsIn(b, n);
  }
}

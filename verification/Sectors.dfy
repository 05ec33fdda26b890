/** The sector grid and the lists of surrounding sectors (MapConfig.h and the sector functions of
    FieldServer). */
module Sectors {
  const SECTOR_WORLD_W: int := 320
  const SECTOR_WORLD_H: int := 235
  const SECTOR_COL_CNT: int := 20
  const SECTOR_ROW_CNT: int := 20

  datatype Sector = Sector(x: int, y: int)
  datatype Position = Position(x: real, y: real)

  predicate InGrid(s: Sector) {
    0 <= s.x < SECTOR_COL_CNT && 0 <= s.y < SECTOR_ROW_CNT
  }

  /** At most one column and one row apart. */
  predicate Near(a: Sector, b: Sector) {
    -1 <= a.x - b.x <= 1 && -1 <= a.y - b.y <= 1
  }

  predicate Distinct<T(==)>(s: seq<T>) {
    forall i, j :: 0 <= i < j < |s| ==> s[i] != s[j]
  }

  /** The conversion of a float to int32_t. */
  function Truncate(r: real): int {
    if r < 0.0 then -((-r).Floor) else r.Floor
  }

  function Clamp(i: int, lo: int, hi: int): int {
    if i < lo then lo else if hi < i then hi else i
  }

  /** calcSector: every position belongs to a sector of the grid. */
  function SectorOf(pos: Position): (s: Sector)
    ensures InGrid(s)
  {
    Sector(Clamp(Truncate(pos.x / SECTOR_WORLD_W as real), 0, SECTOR_COL_CNT - 1),
           Clamp(Truncate(pos.y / SECTOR_WORLD_H as real), 0, SECTOR_ROW_CNT - 1))
  }

  /** The area of a sector; those at the border reach as far as there are positions. */
  predicate Holds(s: Sector, pos: Position) {
    && InGrid(s)
    && (s.x == 0 || (s.x * SECTOR_WORLD_W) as real <= pos.x)
    && (s.x == SECTOR_COL_CNT - 1 || pos.x < ((s.x + 1) * SECTOR_WORLD_W) as real)
    && (s.y == 0 || (s.y * SECTOR_WORLD_H) as real <= pos.y)
    && (s.y == SECTOR_ROW_CNT - 1 || pos.y < ((s.y + 1) * SECTOR_WORLD_H) as real)
  }

  /** calcSector finds the one sector in whose area the position lies. */
  lemma SectorHolds(pos: Position, s: Sector)
    ensures Holds(s, pos) <==> s == SectorOf(pos)
  {
    Cast(pos.x / SECTOR_WORLD_W as real, SECTOR_COL_CNT, s.x);
    Cast(pos.y / SECTOR_WORLD_H as real, SECTOR_ROW_CNT, s.y);
  }

  lemma Cast(q: real, n: int, i: int)
    requires 1 < n
    ensures i == Clamp(Truncate(q), 0, n - 1) <==>
            0 <= i < n && (i == 0 || i as real <= q) && (i == n - 1 || q < (i + 1) as real)
  {
    if q < 0.0 {
      assert Truncate(q) <= 0;
    } else {
      assert i as real <= q <==> i <= q.Floor;
      assert q < (i + 1) as real <==> q.Floor < i + 1;
    }
  }

  /** dx and dy of nearSectorInitalization. */
  function Offset(i: int): Sector {
    Sector(i / 3 - 1, i % 3 - 1)
  }

  /** The first n of the nine candidates around a sector, without those off the grid. */
  function AroundUpTo(c: Sector, n: nat): seq<Sector> {
    if n == 0 then []
    else
      var s := Sector(c.x + Offset(n - 1).x, c.y + Offset(n - 1).y);
      AroundUpTo(c, n - 1) + if InGrid(s) then [s] else []
  }

  /** What getAroundSectors returns. */
  function Around(c: Sector): seq<Sector> {
    AroundUpTo(c, 9)
  }

  /** The position of a near sector among the nine candidates. */
  function Number(c: Sector, s: Sector): int {
    3 * (s.x - c.x + 1) + (s.y - c.y + 1)
  }

  /** The surrounding list of a sector holds the grid sectors near it, each once. */
  lemma AroundIsNear(c: Sector)
    ensures Distinct(Around(c))
    ensures forall s :: s in Around(c) <==> InGrid(s) && Near(c, s)
  {
    AroundMembers(c, 9);
  }

  lemma {:induction false} AroundMembers(c: Sector, n: nat)
    requires n <= 9
    ensures Distinct(AroundUpTo(c, n))
    ensures forall s :: s in AroundUpTo(c, n) <==> InGrid(s) && Near(c, s) && Number(c, s) < n
  {
    if n > 0 {
      AroundMembers(c, n - 1);
      var last := Sector(c.x + Offset(n - 1).x, c.y + Offset(n - 1).y);
      assert Near(c, last) && Number(c, last) == n - 1;
      assert forall s :: Near(c, s) && Number(c, s) == n - 1 ==> s == last;
    }
  }

  /** nearSectorInitalization: the cache holds the surrounding list of every sector of the grid. */
  method NearSectorInitialization() returns (cache: map<Sector, seq<Sector>>)
    ensures forall c :: c in cache <==> InGrid(c)
    ensures forall c :: InGrid(c) ==> cache[c] == Around(c)
  {
    hide Around;
    cache := map[];
    for row := 0 to SECTOR_COL_CNT
      invariant forall c :: c in cache <==> InGrid(c) && c.y < row
      invariant forall c :: c in cache ==> cache[c] == Around(c)
    {
      for col := 0 to SECTOR_COL_CNT
        invariant forall c :: c in cache <==> InGrid(c) && (c.y < row || (c.y == row && c.x < col))
        invariant forall c :: c in cache ==> cache[c] == Around(c)
      {
        var around := CollectAround(Sector(col, row));
        cache := cache[Sector(col, row) := around];
      }
    }
  }

  /** The innermost loop. */
  method CollectAround(center: Sector) returns (around: seq<Sector>)
    ensures around == Around(center)
  {
    hide InGrid, Offset;
    around := [];
    for i := 0 to 9
      invariant around == AroundUpTo(center, i)
    {
      var s := Sector(center.x + Offset(i).x, center.y + Offset(i).y);
      if InGrid(s) {
        around := around + [s];
      }
    }
  }

  /** vector::erase. */
  function Erase<T>(s: seq<T>, i: nat): seq<T>
    requires i < |s|
  {
    s[..i] + s[i + 1..]
  }

  /** calcDespawnAndSpawnSector, which is also calcMonsterDespawnAndSpawnSector: what both lists hold
      is erased from both, so each keeps exactly what the other does not have. */
  method CalcDespawnAndSpawn(dest: seq<Sector>, current: seq<Sector>) returns (spawn: seq<Sector>, despawn: seq<Sector>)
    requires Distinct(dest) && Distinct(current)
    ensures Distinct(spawn) && Distinct(despawn)
    ensures forall s :: s in spawn <==> s in dest && s !in current
    ensures forall s :: s in despawn <==> s in current && s !in dest
  {
    spawn, despawn := dest, current;
    var i, passed := 0, 0;   // passed: how much of dest has been looked at
    while i < |spawn|
      invariant 0 <= i <= |spawn| && passed <= |dest| && spawn[i..] == dest[passed..]
      invariant Distinct(spawn) && Distinct(despawn)
      invariant forall s :: s in spawn[..i] <==> s in dest[..passed] && s !in current
      invariant forall s :: s in despawn <==> s in current && s !in dest[..passed]
      decreases |dest| - passed
    {
      ghost var head := dest[passed];
      assert spawn[i] == spawn[i..][0] == head && spawn[i + 1..] == dest[passed + 1..];
      assert dest[..passed + 1] == dest[..passed] + [head];
      assert head !in dest[..passed];
      var erased := EraseFirst(spawn[i], despawn);
      var bErase := |erased| < |despawn|;
      despawn := erased;
      if bErase {
        ghost var before := spawn;
        spawn := Erase(spawn, i);
        assert spawn[..i] == before[..i] && spawn[i..] == before[i + 1..];
      } else {
        assert spawn[..i + 1] == spawn[..i] + [head];
        i := i + 1;
      }
      passed := passed + 1;
    }
    assert spawn[..i] == spawn && dest[..passed] == dest;
  }

  /** The inner loop: the first element equal to s is erased. */
  method EraseFirst(s: Sector, list: seq<Sector>) returns (erased: seq<Sector>)
    requires Distinct(list)
    ensures Distinct(erased)
    ensures |erased| == if s in list then |list| - 1 else |list|
    ensures forall t :: t in erased <==> t in list && t != s
  {
    var j := 0;
    while j < |list|
      invariant 0 <= j <= |list| && s !in list[..j]
    {
      if s == list[j] {
        assert list == list[..j] + [s] + list[j + 1..];
        return Erase(list, j);
      }
      assert list[..j + 1] == list[..j] + [list[j]];
      j := j + 1;
    }
    assert list[..j] == list;
    return list;
  }
}

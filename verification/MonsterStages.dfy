/** What holds of a monster between the phases of a tick, so that the movement packets of monsterProc
    fit what every client shows. */
module MonsterStages {
  import opened Sectors
  import opened ClientView
  import opened FieldViews
  import M = Monsters

  predicate InRange(m: Mob) {
    && M.InWorld(m.body.pos) && M.InWorld(m.body.spawnPos)
    && InGrid(m.sector) && InGrid(m.dest)
  }

  /** Between ticks, and until its own update, a monster is filed where it stands. The exceptions: a
      dead one; one that was just knocked back; one that has just respawned (FilingIsExact says which). */
  predicate Settled(m: Mob) {
    && InRange(m)
    && (m.body.state != M.Dead ==> m.dest == m.sector)
    && (m.body.state == M.Dead ==>
          0 <= m.body.anim && m.dest == if m.body.anim == 0 then m.sector else SectorOf(m.body.pos))
    && (SectorOf(m.body.pos) != m.sector ==>
          || m.body.state == M.Dead
          || (m.body.state == M.Stun && m.body.hitStun > 0)
          || (m.body.state == M.Idle && m.body.anim == 0 && m.body.pos == m.body.spawnPos))
  }

  /** After the monster's update in fieldUpdate. */
  predicate MidTick(m: Mob) {
    && InRange(m)
    && (m.before == M.Dead ==>
          || (m.body.state == M.Dead && 0 < m.body.anim && m.dest == SectorOf(m.body.pos))
          || (m.body.state == M.Idle && m.body.anim == 0 && m.body.pos == m.body.spawnPos))
    && (m.before != M.Dead ==>
          && m.body.state != M.Dead && m.dest == SectorOf(m.body.pos)
          && (m.dest != m.sector ==> (M.Wandering(m.before) <==> Walks(m))))
    && (m.body.state == M.Stun ==> m.before == M.Stun)
    && (m.before == M.Dead || (m.before == m.body.state && !Walks(m)) ==> m.body.direction == m.beforeDirection)
  }

  /** After the second monster loop of fieldUpdate. */
  predicate Filed(m: Mob) {
    MidTick(m) && (m.before != M.Dead ==> m.sector == m.dest)
  }

  /** The first monster loop of fieldUpdate, for one monster. prey: where its target is, if it is in
      play and alive. */
  function Stepped(m: Mob, prey: Option<Position>, luck: M.Luck): Mob {
    var b := if m.body.state != M.Chase then m.body
             else if prey.Some? then m.body.(targetPos := prey.value)
             else M.GivenUp(m.body);
    var c := M.Updated(b, luck);
    Mob(c, m.sector, if SectorOf(c.pos) == m.sector then m.dest else SectorOf(c.pos), m.body.state, m.body.direction)
  }

  /** The second monster loop, for one monster. */
  predicate ChangesSector(m: Mob) {
    m.before != M.Dead && m.sector != m.dest
  }

  function AfterFiling(m: Mob): (n: Mob)
    ensures n.body == m.body
  {
    if ChangesSector(m) then m.(sector := m.dest) else m
  }

  /** A monster that has come back to life in this tick. */
  predicate Returns(m: Mob) {
    m.before == M.Dead && m.body.state == M.Idle
  }

  /** monsterProc, for one monster. */
  function AfterProc(m: Mob): (n: Mob)
    ensures n.body == m.body
  {
    m.(sector := if Returns(m) then m.dest else m.sector, before := m.body.state, beforeDirection := m.body.direction)
  }

  /** A whole tick of one monster. */
  function Ticked(m: Mob, prey: Option<Position>, luck: M.Luck): Mob {
    AfterProc(AfterFiling(Stepped(m, prey, luck)))
  }

  lemma StepFromSettled(m: Mob, prey: Option<Position>, luck: M.Luck)
    requires Settled(m)
    ensures MidTick(Stepped(m, prey, luck))
    ensures Stepped(m, prey, luck).before == m.body.state && Stepped(m, prey, luck).sector == m.sector
  {
    hide SectorOf;
    var b := if m.body.state != M.Chase then m.body
             else if prey.Some? then m.body.(targetPos := prey.value)
             else M.GivenUp(m.body);
    M.MovesOnlyWandering(b, luck);
    if m.body.state == M.Chase && prey.None? {
      GivenUpThenUpdated(m.body, luck);
    }
    hide M.SquaredDistance, M.Squared, M.Moved, M.DirectionVector, M.InWorld;
    StepCases(m.body, b, M.Updated(b, luck), luck);
  }

  // ---- where a monster is filed ------------------------------------------------------------------------

  /** updateMonsterSectorCheck keeps the old mDestSector of a monster that returns to the sector it is
      filed under, so it is filed right exactly if that sector is another one, or nothing was kept. */
  lemma ReturnDest(m: Mob, prey: Option<Position>, luck: M.Luck)
    requires InRange(m) && m.body.state == M.Dead && m.body.anim + 1 >= M.MONSTER_RESPAWN_FRAME
    ensures var n := Stepped(m, prey, luck);
      && Returns(n) && n.body.pos == m.body.spawnPos
      && (n.dest == SectorOf(m.body.spawnPos) <==> SectorOf(m.body.spawnPos) != m.sector || m.dest == m.sector)
  {
    hide SectorOf;
  }

  /** A monster that was killed outside the sector it is filed under, and returns to that sector. */
  predicate ReturnsLate(m: Mob) {
    && m.body.state == M.Dead && m.body.anim + 1 >= M.MONSTER_RESPAWN_FRAME
    && SectorOf(m.body.spawnPos) == m.sector != SectorOf(m.body.pos)
  }

  /** At the end of a tick every living monster is filed where it stands, but exactly those: they are
      filed where they died, and at the end of the next tick where they stand. */
  lemma FilingIsExact(m: Mob, prey: Option<Position>, luck: M.Luck)
    requires Settled(m)
    ensures var n := Ticked(m, prey, luck);
      && (n.body.state != M.Dead ==> (n.sector == SectorOf(n.body.pos) <==> !ReturnsLate(m)))
      && (n.body.state != M.Dead && ReturnsLate(m) ==> n.sector == SectorOf(m.body.pos))
      && (n.body.state == M.Dead ==> n.sector == m.sector && n.body.pos == m.body.pos)
  {
    hide SectorOf, M.GivenUp, M.InWorld;
    StepFromSettled(m, prey, luck);
    if m.body.state == M.Dead {
      if m.body.anim + 1 >= M.MONSTER_RESPAWN_FRAME {
        ReturnDest(m, prey, luck);
      } else {
        assert M.Updated(m.body, luck) == m.body.(anim := m.body.anim + 1);
      }
    }
  }

  function Ticks(m: Mob, lucks: seq<M.Luck>): Mob {
    if lucks == [] then m else Ticked(Ticks(m, lucks[..|lucks| - 1]), None, lucks[|lucks| - 1])
  }

  /** A dead monster stays filed where it was, and remembers where it fell. */
  lemma {:induction false} DeadTicks(m: Mob, lucks: seq<M.Luck>)
    requires Settled(m) && m.body.state == M.Dead && m.body.anim == 0 && |lucks| < M.MONSTER_RESPAWN_FRAME
    ensures var n := Ticks(m, lucks);
      && n.body == m.body.(anim := |lucks|) && n.sector == m.sector
      && n.dest == if lucks == [] then m.sector else SectorOf(m.body.pos)
  {
    hide SectorOf, M.InWorld;
    if lucks != [] {
      DeadTicks(m, lucks[..|lucks| - 1]);
    }
  }

  /** From its death on: a monster that nobody hits returns after MONSTER_RESPAWN_FRAME ticks, with full
      health at its spawn position. It is then filed elsewhere if and only if it fell outside the sector
      it was filed under and spawns in it. */
  lemma ReturnIsFiled(m: Mob, lucks: seq<M.Luck>)
    requires Settled(m) && m.body.state == M.Dead && m.body.anim == 0 && |lucks| == M.MONSTER_RESPAWN_FRAME
    ensures var n := Ticks(m, lucks);
      && n.body.state == M.Idle && n.body.pos == m.body.spawnPos && n.body.hp == M.MONSTER_MAX_HP
      && n.sector == (if SectorOf(m.body.spawnPos) == m.sector then SectorOf(m.body.pos) else SectorOf(m.body.spawnPos))
      && (n.sector == SectorOf(n.body.pos) <==>
          SectorOf(m.body.spawnPos) != m.sector || SectorOf(m.body.pos) == m.sector)
  {
    var front, luck := lucks[..|lucks| - 1], lucks[|lucks| - 1];
    DeadTicks(m, front);
    ReturnDest(Ticks(m, front), None, luck);
    hide SectorOf;
  }

  /** A monster as it was put on the field, with some of its health gone. */
  function Wounded(here: Position, hp: int): Mob {
    Mob(M.Body(M.Idle, 0, here, here, here, 0, hp, 0, -1, here), SectorOf(here), SectorOf(here), M.Idle, 0)
  }

  /** It happens: a monster with 30 health left that spawned at (319, 100) is hit by an attacker that looks
      to the right. It falls in the next sector, and is filed there when it is back. */
  lemma ReturnedLate(lucks: seq<M.Luck>, from: Position, attacker: int)
    requires |lucks| == M.MONSTER_RESPAWN_FRAME
    ensures var m := Wounded(Position(319.0, 100.0), 30);
      var k := m.(body := M.Damaged(m.body, 35, from, 4, attacker));
      && Settled(m) && k.body.state == M.Dead
      && Ticks(k, lucks).body.pos == m.body.pos && SectorOf(m.body.pos) == Sector(0, 0)
      && Ticks(k, lucks).sector == SectorOf(k.body.pos) == Sector(1, 0)
  {
    var m := Wounded(Position(319.0, 100.0), 30);
    var k := m.(body := M.Damaged(m.body, 35, from, 4, attacker));
    Falls(from, attacker);
    hide SectorOf, M.Damaged, Ticks, M.DirectionTo;
    ReturnIsFiled(k, lucks);
  }

  lemma Falls(from: Position, attacker: int)
    ensures var m := Wounded(Position(319.0, 100.0), 30);
      var k := m.(body := M.Damaged(m.body, 35, from, 4, attacker));
      && Settled(m) && Settled(k) && k.body.state == M.Dead && k.body.anim == 0 && k.sector == m.sector == Sector(0, 0)
      && k.body.spawnPos == m.body.pos && SectorOf(m.body.pos) == Sector(0, 0)
      && k.body.pos == Position(349.0, 100.0) && SectorOf(k.body.pos) == Sector(1, 0)
  {
    hide M.DirectionTo;
  }

  /** An update changes the place of a wandering monster only; one that just respawned stays. */
  lemma StepCases(a: M.Body, b: M.Body, c: M.Body, luck: M.Luck)
    requires c == M.Updated(b, luck) && M.InWorld(a.pos) && M.InWorld(a.spawnPos)
    requires b == a || (a.state == M.Chase && (b == a.(targetPos := b.targetPos) || b == M.GivenUp(a)))
    ensures a.state == M.Stun && a.hitStun > 0 ==> c.state == M.Stun && c.pos == a.pos
    ensures a.state == M.Idle && a.anim == 0 && a.pos == a.spawnPos ==> c.state == M.Idle && c.pos == a.pos
    ensures c.state == M.Stun ==> a.state == M.Stun
    ensures a.state != M.Dead ==> c.state != M.Dead
    ensures a.state == M.Dead ==> c.state == M.Dead || (c.state == M.Idle && c.anim == 0 && c.pos == c.spawnPos)
    ensures a.state == M.Dead || (a.state == c.state && !M.Wandering(c.state)) ==> c.direction == a.direction
  {
    hide M.Moved;
    M.NoDistance(a.pos);
  }

  /** A chasing monster whose target is gone either heads home at once or rests where it is. */
  lemma GivenUpThenUpdated(a: M.Body, luck: M.Luck)
    requires a.state == M.Chase && M.InWorld(a.pos)
    ensures var c := M.Updated(M.GivenUp(a), luck); c.state == M.Return || (c.state == M.Idle && c.pos == a.pos)
  {
    var b := M.GivenUp(a);
    M.EnterThenMove(b);
    assert 150.0 * 150.0 > 10.0 * 10.0;
    hide M.SquaredDistance, M.DirectionVector;
  }

  // ---- what monsterProc tells --------------------------------------------------------------------------

  /** The client's handlers, for several packets. */
  function Played(v: View, ps: seq<Packet>): View {
    if ps == [] then v else Apply(Played(v, ps[..|ps| - 1]), ps[|ps| - 1])
  }

  function Attacks(ps: seq<Packet>): nat {
    if ps == [] then 0 else Attacks(ps[..|ps| - 1]) + if ps[|ps| - 1].MonsterAttack? then 1 else 0
  }

  lemma PlayedFew(v: View, p: Packet, q: Packet)
    ensures Played(v, []) == v && Played(v, [p]) == Apply(v, p) && Played(v, [p, q]) == Apply(Apply(v, p), q)
    ensures Attacks([]) == 0 && Attacks([p]) == (if p.MonsterAttack? then 1 else 0)
    ensures Attacks([p, q]) == Attacks([p]) + if q.MonsterAttack? then 1 else 0
  {
    hide Apply;
    assert [p][..0] == [] && [p, q][..1] == [p];
  }

  /** What monsterProc sends about a monster that does not come back to life: something exactly if its state or
      its direction has changed; one attack exactly if it has entered that state. A copy that did and looked
      as the monster before the tick does and looks as the monster after it, and no assertion of the client
      fails. */
  lemma AnnouncementTells(m: int, mob: Mob, v: View)
    requires MidTick(mob) && !Returns(mob)
    ensures var ps := Announcement(m, mob);
      && (ps == [] <==> mob.body.state == mob.before && mob.body.direction == mob.beforeDirection)
      && Attacks(ps) == (if mob.body.state == M.Attack && mob.before != M.Attack then 1 else 0)
    ensures var w := Played(v, Announcement(m, mob));
      Thing(Monster, m) in v.seen && (m in v.moving <==> M.Wandering(mob.before)) && m in v.facing
        && v.facing[m] == mob.beforeDirection ==>
          && w == v.(moving := w.moving, facing := v.facing[m := mob.body.direction])
          && (m in w.moving <==> Walks(mob)) && (forall n :: n != m ==> (n in w.moving <==> n in v.moving))
  {
    var d := mob.body.direction;
    PlayedFew(v, MonsterMoveStop(m, d), MonsterAttack(m));
    PlayedFew(v, MonsterMoveStop(m, d), MonsterMoveStart(m, d));
    PlayedFew(v, MonsterMoveStart(m, d), MonsterMoveStart(m, d));
    hide InRange, SectorOf, Played, Attacks;
  }
}

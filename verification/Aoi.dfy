/** Area of interest: one observer's view against where things are indexed, for every kind of change. */
module Aoi {
  import opened Sectors
  import opened ClientView

  type Placement = map<Thing, Sector>

  /** What the client of `self` should know: everything else in its 3x3 sectors. */
  function Expected(at: Placement, self: Thing): set<Thing>
    requires self in at
  {
    set t | t in at && t != self && Near(at[self], at[t])
  }

  /** Everything but `self` that is indexed in one of the listed sectors. */
  function Within(at: Placement, near: seq<Sector>, self: Thing): set<Thing> {
    set t | t in at && t != self && at[t] in near
  }

  function MovingIn(seen: set<Thing>, moving: set<int>): set<int> {
    set m | m in moving && Thing(Monster, m) in seen
  }

  /** The view is exact but for `haunt`: characters that were removed from play without a despawn.
      shown: what the copies of the monsters do, the same at every client. */
  ghost predicate Exact(v: View, at: Placement, shown: Copies, self: Thing, haunt: set<Thing>) {
    && self in at
    && v.seen == Expected(at, self) + haunt
    && v.moving == MovingIn(v.seen, shown.moving)
    && (forall m :: Thing(Monster, m) in v.seen ==>
          m in v.facing && (m in shown.facing ==> v.facing[m] == shown.facing[m]))
    && !v.broken
    && forall t :: t in haunt ==> t.kind.Character?
  }

  predicate Sees(at: Placement, self: Thing, t: Thing)
    requires self in at
  {
    t in at && t != self && Near(at[self], at[t])
  }

  /** Thing t appears at, or moves to, sector b; an observer is sent at most one packet. */
  function AfterMove(v: View, at: Placement, self: Thing, t: Thing, b: Sector, look: Look): View
    requires self in at
  {
    if Near(at[self], b) then (if Sees(at, self, t) then v else Apply(v, Spawn(t, look)))
    else if Sees(at, self, t) then Apply(v, Despawn(t)) else v
  }

  lemma MoveKeepsExact(v: View, at: Placement, shown: Copies, self: Thing, haunt: set<Thing>, t: Thing, b: Sector,
                       look: Look)
    requires Exact(v, at, shown, self, haunt) && t != self
    requires t.kind.Monster? ==> Fits(shown, t.id, look)
    ensures var lost := Sees(at, self, t) && !Near(at[self], b);
      Exact(AfterMove(v, at, self, t, b, look), at[t := b], shown, self, if lost then haunt - {t} else haunt)
    ensures AfterMove(v, at, self, t, b, look).doubled ==
              v.doubled + if Near(at[self], b) && !Sees(at, self, t) && t in haunt then {t} else {}
  {
    var w := AfterMove(v, at, self, t, b, look);
    assert Expected(at[t := b], self)
        == if Near(at[self], b) then Expected(at, self) + {t} else Expected(at, self) - {t};
  }

  /** A dead monster returns: everybody near its sector is sent a despawn, everybody near the sector
      it now belongs to a spawn, so copies next to both are replaced. */
  function AfterRespawn(v: View, at: Placement, self: Thing, t: Thing, b: Sector, look: Look): View
    requires self in at
  {
    var w := if Sees(at, self, t) then Apply(v, Despawn(t)) else v;
    if Near(at[self], b) then Apply(w, Spawn(t, look)) else w
  }

  lemma RespawnKeepsExact(v: View, at: Placement, shown: Copies, self: Thing, haunt: set<Thing>, m: int, b: Sector,
                          look: Look)
    requires Exact(v, at, shown, self, haunt) && self.kind.Character? && Fits(shown, m, look)
    ensures var w := AfterRespawn(v, at, self, Thing(Monster, m), b, look);
      Exact(w, at[Thing(Monster, m) := b], shown, self, haunt) && w.doubled == v.doubled
  {
    var t := Thing(Monster, m);
    assert Expected(at[t := b], self)
        == if Near(at[self], b) then Expected(at, self) + {t} else Expected(at, self) - {t};
  }

  /** Thing t is removed, and everybody near it is told. */
  lemma RemovalKeepsExact(v: View, at: Placement, shown: Copies, self: Thing, haunt: set<Thing>, t: Thing)
    requires Exact(v, at, shown, self, haunt) && t != self && t.kind.Item?
    ensures var w := if Sees(at, self, t) then Apply(v, Despawn(t)) else v;
      Exact(w, at - {t}, shown, self, haunt) && w.doubled == v.doubled
  {
    assert Expected(at - {t}, self) == Expected(at, self) - {t};
  }

  /** A character is removed, and nobody is told. */
  lemma SilentRemoval(v: View, at: Placement, shown: Copies, self: Thing, haunt: set<Thing>, t: Thing)
    requires Exact(v, at, shown, self, haunt) && t != self && t.kind.Character?
    ensures Exact(v, at - {t}, shown, self, if Sees(at, self, t) then haunt + {t} else haunt)
  {
    assert Expected(at - {t}, self) == Expected(at, self) - {t};
  }

  /** The observer itself moves to sector b: it is sent what is new and what is gone. */
  lemma OwnMoveKeepsExact(v: View, at: Placement, shown: Copies, self: Thing, haunt: set<Thing>, b: Sector,
                          spawn: seq<Sector>, despawn: seq<Sector>)
    requires Exact(v, at, shown, self, haunt)
    requires forall t :: t in at ==> InGrid(at[t])
    requires forall s :: s in spawn <==> InGrid(s) && Near(b, s) && !Near(at[self], s)
    requires forall s :: s in despawn <==> InGrid(s) && Near(at[self], s) && !Near(b, s)
    ensures var w := RemoveAll(AddAll(v, Within(at, spawn, self), shown), Within(at, despawn, self));
      && Exact(w, at[self := b], shown, self, haunt - Within(at, despawn, self))
      && w.doubled == v.doubled + haunt * Within(at, spawn, self)
  {
    var gained, lost := Within(at, spawn, self), Within(at, despawn, self);
    assert Expected(at[self := b], self) == Expected(at, self) + gained - lost;
    assert Expected(at, self) * gained == {};
  }

  /** A new observer is sent everything around it. */
  lemma EntryIsExact(at: Placement, shown: Copies, self: Thing, b: Sector)
    requires self !in at && self.kind.Character?
    requires forall t :: t in at ==> InGrid(at[t])
    ensures var w := AddAll(EMPTY, Within(at, Around(b), self), shown);
      Exact(w, at[self := b], shown, self, {}) && w.doubled == {}
  {
    AroundIsNear(b);
    assert Expected(at[self := b], self) == Within(at, Around(b), self);
  }

  predicate AboutMonster(p: Packet, m: int) {
    || (p.MonsterMoveStart? && p.id == m) || (p.MonsterMoveStop? && p.id == m)
    || (p.MonsterDamaged? && p.id == m) || p == MonsterAttack(m)
  }

  /** A packet about monster m goes to everybody near it. */
  lemma PacketKeepsExact(v: View, at: Placement, shown: Copies, self: Thing, haunt: set<Thing>, m: int, p: Packet)
    requires Exact(v, at, shown, self, haunt) && self.kind.Character?
    requires AboutMonster(p, m) && (p.MonsterMoveStart? ==> m !in shown.moving)
    ensures var w := if Sees(at, self, Thing(Monster, m)) then Apply(v, p) else v;
      && Exact(w, at, ShownAfter(shown, p), self, haunt)
      && w.doubled == v.doubled
  {
  }

  /** A packet about character c goes to everybody else near it. */
  lemma CharacterPacketKeepsExact(v: View, at: Placement, shown: Copies, self: Thing, haunt: set<Thing>, c: int,
                                  p: Packet)
    requires Exact(v, at, shown, self, haunt)
    requires p == CharacterMoveStart(c) || p == CharacterMoveStop(c) || p == CharacterAttack(c)
             || p == CharacterDamaged(c)
    ensures var w := if Sees(at, self, Thing(Character, c)) then Apply(v, p) else v;
      Exact(w, at, shown, self, haunt) && w.doubled == v.doubled
  {
  }

  function ShownAfter(shown: Copies, p: Packet): Copies {
    match p
    case MonsterMoveStart(m, d) => Copies(shown.moving + {m}, shown.facing[m := d])
    case MonsterMoveStop(m, d) => Copies(shown.moving - {m}, shown.facing[m := d])
    case MonsterDamaged(m, d) => Copies(shown.moving - {m}, shown.facing[m := d])
    case _ => shown
  }

  /** The copies of monster m need not look the same way any more. */
  function Forgotten(shown: Copies, m: int): Copies {
    shown.(facing := shown.facing - {m})
  }

  /** Nothing has changed but for the copies of monster m. */
  ghost predicate ChangedOnly(was: Copies, now: Copies, m: int) {
    forall n :: n != m ==>
      && (n in now.moving <==> n in was.moving) && (n in now.facing <==> n in was.facing)
      && (n in now.facing ==> now.facing[n] == was.facing[n])
  }
}

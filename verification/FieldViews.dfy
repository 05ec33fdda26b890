/** The field's players, monsters and items, their sector indexes, and what the clients see of them. */
module FieldViews {
  import opened Sectors
  import opened ClientView
  import opened Aoi
  import M = Monsters
  import P = Players

  datatype Option<T> = None | Some(value: T)

  /** life: the player itself and what has become of its attacks. skill and targets: the attack announced
      by the last accepted PLAYER_ATTACK_REQ. */
  datatype Avatar = Avatar(character: int, life: P.Tally, current: Sector, dest: Sector,
                           skill: int, targets: seq<int>, inventory: map<ItemId, int>)
  datatype Mob = Mob(body: M.Body, sector: Sector, dest: Sector, before: M.MonsterState, beforeDirection: M.Direction)
  datatype Drop = Drop(loot: Loot, pos: Position, sector: Sector, life: int)

  datatype ItemId = Gold | Potion
  datatype Loot = Loot(item: ItemId, count: int)

  type Cells = map<Sector, set<int>>

  function Entered(character: int, pos: Position, connected: bool): Avatar {
    Avatar(character, P.Newcomer(pos, connected), SectorOf(pos), SectorOf(pos), 0, [], map[])
  }

  function Lived(a: Avatar, e: P.Event): Avatar {
    a.(life := P.Next(a.life, e))
  }

  function Self(a: Avatar): Thing {
    Thing(Character, a.character)
  }

  predicate Walks(m: Mob) {
    M.Wandering(m.body.state)
  }

  /** A sector index and the sectors its members believe to be in agree. */
  ghost predicate Indexed(cells: Cells, where: map<int, Sector>) {
    && (forall s :: s in cells <==> InGrid(s))
    && (forall i :: i in where ==> InGrid(where[i]) && i in cells[where[i]])
    && (forall s, i :: s in cells && i in cells[s] ==> i in where && where[i] == s)
  }

  function Reindexed(cells: Cells, i: int, a: Sector, b: Sector): Cells
    requires a in cells && b in cells
  {
    var c := cells[a := cells[a] - {i}];
    c[b := c[b] + {i}]
  }

  lemma ReindexedIsIndexed(cells: Cells, where: map<int, Sector>, i: int, b: Sector)
    requires Indexed(cells, where) && i in where && InGrid(b) && b != where[i]
    ensures Indexed(Reindexed(cells, i, where[i], b), where[i := b])
  {
  }

  lemma IndexedAfterEntry(cells: Cells, where: map<int, Sector>, i: int, b: Sector)
    requires Indexed(cells, where) && i !in where && InGrid(b)
    ensures Indexed(cells[b := cells[b] + {i}], where[i := b])
  {
  }

  function PlayerSectors(players: map<int, Avatar>): map<int, Sector> {
    map o | o in players :: players[o].current
  }

  function MobSectors(monsters: map<int, Mob>): map<int, Sector> {
    map m | m in monsters :: monsters[m].sector
  }

  function DropSectors(items: map<int, Drop>): map<int, Sector> {
    map i | i in items :: items[i].sector
  }

  /** Where everything in play is indexed. */
  ghost predicate Placed(at: Placement, players: map<int, Avatar>, monsters: map<int, Mob>, items: map<int, Drop>) {
    && (forall o :: o in players ==> Self(players[o]) in at && at[Self(players[o])] == players[o].current)
    && (forall t :: t in at && t.kind.Character? ==> exists o :: o in players && players[o].character == t.id)
    && (forall o, p :: o in players && p in players && o != p ==> players[o].character != players[p].character)
    && (forall o :: o in players ==> InGrid(players[o].dest))
    && (forall m :: m in monsters <==> Thing(Monster, m) in at)
    && (forall m :: m in monsters ==> at[Thing(Monster, m)] == monsters[m].sector)
    && (forall i :: i in items <==> Thing(Item, i) in at)
    && (forall i :: i in items ==> at[Thing(Item, i)] == items[i].sector)
    && (forall t :: t in at ==> InGrid(at[t]))
  }

  lemma PlacedInGrid(at: Placement, players: map<int, Avatar>, monsters: map<int, Mob>, items: map<int, Drop>)
    requires Placed(at, players, monsters, items)
    ensures forall t :: t in at ==> InGrid(at[t])
    ensures forall o :: o in players ==>
              Self(players[o]) in at && at[Self(players[o])] == players[o].current && InGrid(players[o].dest)
    ensures forall o, p :: o in players && p in players && o != p ==> Self(players[o]) != Self(players[p])
  {
  }

  lemma PlacedAfterEntry(at: Placement, players: map<int, Avatar>, monsters: map<int, Mob>, items: map<int, Drop>,
                         o: int, a: Avatar)
    requires Placed(at, players, monsters, items) && o !in players && InGrid(a.current)
    requires InGrid(a.current) && InGrid(a.dest)
    requires forall p :: p in players ==> players[p].character != a.character
    ensures Self(a) !in at && Placed(at[Self(a) := a.current], players[o := a], monsters, items)
  {
    var now := players[o := a];
    forall t | t in at[Self(a) := a.current] && t.kind.Character?
      ensures exists p :: p in now && now[p].character == t.id
    {
      if t == Self(a) {
        assert now[o].character == t.id;
      } else {
        var p :| p in players && players[p].character == t.id;
        assert now[p].character == t.id;
      }
    }
  }

  lemma PlacedAfterMove(at: Placement, players: map<int, Avatar>, monsters: map<int, Mob>, items: map<int, Drop>,
                        o: int, a: Avatar)
    requires Placed(at, players, monsters, items) && o in players
    requires Self(a) == Self(players[o]) && InGrid(a.current) && InGrid(a.dest)
    ensures Placed(at[Self(a) := a.current], players[o := a], monsters, items)
  {
    var now := players[o := a];
    forall t | t in at && t.kind.Character?
      ensures exists p :: p in now && now[p].character == t.id
    {
      var p :| p in players && players[p].character == t.id;
      assert now[p].character == t.id;
    }
  }

  lemma PlacedAfterMobMove(at: Placement, players: map<int, Avatar>, monsters: map<int, Mob>, items: map<int, Drop>,
                           m: int, mob: Mob)
    requires Placed(at, players, monsters, items) && m in monsters && InGrid(mob.sector)
    ensures Placed(at[Thing(Monster, m) := mob.sector], players, monsters[m := mob], items)
  {
    forall t | t in at && t.kind.Character?
      ensures exists p :: p in players && players[p].character == t.id
    {
    }
  }

  lemma PlacedAfterUpdate(at: Placement, players: map<int, Avatar>, monsters: map<int, Mob>, items: map<int, Drop>,
                          m: int, mob: Mob)
    requires Placed(at, players, monsters, items) && m in monsters && mob.sector == monsters[m].sector
    ensures Thing(Monster, m) in at && InGrid(mob.sector) && Placed(at, players, monsters[m := mob], items)
    ensures MobSectors(monsters[m := mob]) == MobSectors(monsters)
  {
    assert at[Thing(Monster, m) := mob.sector] == at;
    PlacedAfterMobMove(at, players, monsters, items, m, mob);
  }

  lemma PlacedAfterMonster(at: Placement, players: map<int, Avatar>, monsters: map<int, Mob>, items: map<int, Drop>,
                           m: int, mob: Mob)
    requires Placed(at, players, monsters, items) && m !in monsters && InGrid(mob.sector)
    ensures Placed(at[Thing(Monster, m) := mob.sector], players, monsters[m := mob], items)
  {
    forall t | t in at && t.kind.Character?
      ensures exists p :: p in players && players[p].character == t.id
    {
    }
  }

  lemma PlacedAfterDrop(at: Placement, players: map<int, Avatar>, monsters: map<int, Mob>, items: map<int, Drop>,
                        i: int, d: Drop)
    requires Placed(at, players, monsters, items) && i !in items && InGrid(d.sector)
    ensures Thing(Item, i) !in at && Placed(at[Thing(Item, i) := d.sector], players, monsters, items[i := d])
  {
    forall t | t in at && t.kind.Character?
      ensures exists p :: p in players && players[p].character == t.id
    {
    }
  }

  lemma PlacedWithoutItem(at: Placement, players: map<int, Avatar>, monsters: map<int, Mob>, items: map<int, Drop>,
                          i: int)
    requires Placed(at, players, monsters, items)
    ensures Placed(at - {Thing(Item, i)}, players, monsters, items - {i})
  {
    forall t | t in at && t.kind.Character?
      ensures exists p :: p in players && players[p].character == t.id
    {
    }
  }

  lemma PlacedWithoutPlayer(at: Placement, players: map<int, Avatar>, monsters: map<int, Mob>, items: map<int, Drop>,
                            o: int)
    requires Placed(at, players, monsters, items) && o in players
    ensures Placed(at - {Self(players[o])}, players - {o}, monsters, items)
  {
    var now := players - {o};
    forall t | t in at - {Self(players[o])} && t.kind.Character?
      ensures exists p :: p in now && now[p].character == t.id
    {
      var p :| p in players && players[p].character == t.id;
      assert now[p].character == t.id;
    }
  }

  lemma IndexedWithout(cells: Cells, where: map<int, Sector>, i: int)
    requires Indexed(cells, where) && i in where
    ensures where[i] in cells && Indexed(cells[where[i] := cells[where[i]] - {i}], where - {i})
  {
  }

  lemma MembersOf(cells: Cells, where: map<int, Sector>, s: Sector)
    requires Indexed(cells, where) && InGrid(s)
    ensures s in cells && forall i :: i in cells[s] <==> i in where && where[i] == s
  {
  }

  lemma IndexedCells(cells: Cells, where: map<int, Sector>)
    requires Indexed(cells, where)
    ensures forall s :: s in cells <==> InGrid(s)
    ensures forall i :: i in where ==> i in cells[where[i]]
  {
  }

  /** Client o sees exactly what is around it, but for characters that were removed from play. */
  ghost predicate ViewOk(log: seq<Packet>, at: Placement, shown: Copies, self: Thing, haunt: set<Thing>,
                         gone: set<Thing>) {
    && Exact(Fold(log), at, shown, self, haunt)
    && haunt <= gone && Fold(log).doubled == {}
  }

  function Walking(monsters: map<int, Mob>): set<int> {
    set m | m in monsters && Walks(monsters[m])
  }

  /** Copies that do what the monsters do. */
  function CopiesOf(monsters: map<int, Mob>): Copies {
    Copies(Walking(monsters), map m | m in monsters :: monsters[m].body.direction)
  }

  /** What a monster's spawn record says. */
  function LookOf(mob: Mob): Look {
    Look(Walks(mob), mob.body.direction)
  }

  function OfKind(at: Placement, kind: Kind, near: seq<Sector>, self: Thing): set<Thing> {
    set t | t in Within(at, near, self) && t.kind == kind
  }

  lemma NearIsMutual(a: Sector, b: Sector)
    requires InGrid(a) && InGrid(b)
    ensures Near(a, b) <==> Near(b, a)
    ensures Near(a, b) <==> a in Around(b)
  {
    AroundIsNear(b);
  }

  /** The observer's view after thing t has appeared at, or moved to, sector b. */
  lemma ViewAfterMove(log: seq<Packet>, sent: seq<Packet>, at: Placement, shown: Copies, self: Thing,
                      haunt: set<Thing>, gone: set<Thing>, t: Thing, b: Sector, look: Look)
    requires ViewOk(log, at, shown, self, haunt, gone) && t != self && t !in gone
    requires t.kind.Monster? ==> Fits(shown, t.id, look)
    requires sent == log + if Near(at[self], b) then (if Sees(at, self, t) then [] else [Spawn(t, look)])
                           else if Sees(at, self, t) then [Despawn(t)] else []
    ensures ViewOk(sent, at[t := b], shown, self, haunt, gone)
  {
    assert haunt - {t} == haunt;
    hide Fold, Exact, Apply;
    MoveKeepsExact(Fold(log), at, shown, self, haunt, t, b, look);
    assert log + [] == log;
    FoldAppend(log, Spawn(t, look));
    FoldAppend(log, Despawn(t));
  }

  /** Who gains sight of thing t, and who loses it, when it appears at or moves to sector b. */
  ghost predicate Deltas(at: Placement, t: Thing, b: Sector, spawn: seq<Sector>, despawn: seq<Sector>) {
    forall s :: InGrid(s) ==>
      && (s in spawn <==> Near(s, b) && !(t in at && Near(s, at[t])))
      && (s in despawn <==> !Near(s, b) && t in at && Near(s, at[t]))
  }

  ghost predicate AllViews(players: map<int, Avatar>, logs: map<int, seq<Packet>>, at: Placement, shown: Copies,
                           haunts: map<int, set<Thing>>, gone: set<Thing>) {
    && players.Keys <= logs.Keys && players.Keys <= haunts.Keys
    && at.Keys !! gone && (forall t :: t in gone ==> t.kind.Character?)
    && forall o :: o in players ==>
         && Self(players[o]) in at && at[Self(players[o])] == players[o].current && InGrid(players[o].current)
         && ViewOk(logs[o], at, shown, Self(players[o]), haunts[o], gone)
  }

  /** Everybody in the `spawn` sectors was sent a spawn of t, everybody in the `despawn` sectors a despawn. */
  ghost predicate Told(players: map<int, Avatar>, logs: map<int, seq<Packet>>, sent: map<int, seq<Packet>>,
                       t: Thing, look: Look, spawn: seq<Sector>, despawn: seq<Sector>) {
    && players.Keys <= logs.Keys && players.Keys <= sent.Keys
    && forall p :: p in players ==>
         sent[p] == logs[p] + (if players[p].current in spawn then [Spawn(t, look)] else [])
                            + (if players[p].current in despawn then [Despawn(t)] else [])
  }

  /** All observers but the moving one. */
  lemma OthersSeeMove(players: map<int, Avatar>, logs: map<int, seq<Packet>>, sent: map<int, seq<Packet>>,
                      at: Placement, shown: Copies, haunts: map<int, set<Thing>>, gone: set<Thing>,
                      t: Thing, b: Sector, look: Look, spawn: seq<Sector>, despawn: seq<Sector>)
    requires AllViews(players, logs, at, shown, haunts, gone) && t !in gone
    requires forall p :: p in players ==> Self(players[p]) != t
    requires Told(players, logs, sent, t, look, spawn, despawn)
    requires Deltas(at, t, b, spawn, despawn) && (t.kind.Monster? ==> Fits(shown, t.id, look))
    ensures AllViews(players, sent, at[t := b], shown, haunts, gone)
  {
    forall p | p in players
      ensures ViewOk(sent[p], at[t := b], shown, Self(players[p]), haunts[p], gone)
    {
      var self, c := Self(players[p]), players[p].current;
      assert c in spawn <==> Near(c, b) && !Sees(at, self, t);
      assert c in despawn <==> !Near(c, b) && Sees(at, self, t);
      assert logs[p] + [] + [] == logs[p] + [];
      hide Fold, ViewOk;
      ViewAfterMove(logs[p], sent[p], at, shown, self, haunts[p], gone, t, b, look);
    }
  }

  /** What is not known of the copies need not hold. */
  lemma ForgetViews(players: map<int, Avatar>, logs: map<int, seq<Packet>>, at: Placement, shown: Copies,
                    haunts: map<int, set<Thing>>, gone: set<Thing>, m: int)
    requires AllViews(players, logs, at, shown, haunts, gone)
    ensures AllViews(players, logs, at, Forgotten(shown, m), haunts, gone)
  {
    hide Fold;
    forall o | o in players
      ensures ViewOk(logs[o], at, Forgotten(shown, m), Self(players[o]), haunts[o], gone)
    {
    }
  }

  lemma NoViews(logs: map<int, seq<Packet>>, at: Placement, shown: Copies, haunts: map<int, set<Thing>>,
                gone: set<Thing>)
    requires at.Keys !! gone && forall t :: t in gone ==> t.kind.Character?
    ensures AllViews(map[], logs, at, shown, haunts, gone)
  {
  }

  lemma ViewKeys(players: map<int, Avatar>, logs: map<int, seq<Packet>>, at: Placement, shown: Copies,
                 haunts: map<int, set<Thing>>, gone: set<Thing>)
    requires AllViews(players, logs, at, shown, haunts, gone)
    ensures players.Keys <= logs.Keys && players.Keys <= haunts.Keys
    ensures at.Keys !! gone && forall t :: t in gone ==> t.kind.Character?
  {
  }

  lemma OnlySpawned(players: map<int, Avatar>, logs: map<int, seq<Packet>>, sent: map<int, seq<Packet>>, t: Thing,
                    spawn: seq<Sector>)
    requires players.Keys <= logs.Keys && players.Keys <= sent.Keys
    requires forall p :: p in players ==>
               sent[p] == logs[p] + if players[p].current in spawn then [OwnPacket(t, true)] else []
    ensures Told(players, logs, sent, t, STILL, spawn, [])
  {
  }

  /** A player enters: the others see it, and it sees everything around. */
  lemma EntryViews(players: map<int, Avatar>, logs: map<int, seq<Packet>>, sent: map<int, seq<Packet>>,
                   at: Placement, shown: Copies, haunts: map<int, set<Thing>>, gone: set<Thing>, o: int, a: Avatar)
    requires AllViews(players, logs, at, shown, haunts, gone) && o !in players && o in sent
    requires Self(a) !in at && Self(a) !in gone && InGrid(a.current) && forall t :: t in at ==> InGrid(at[t])
    requires forall p :: p in players ==> Self(players[p]) != Self(a)
    requires Told(players, logs, sent, Self(a), STILL, Around(a.current), [])
    requires Fold(sent[o]) ==
               Announced(EMPTY, Within(at[Self(a) := a.current], Around(a.current), Self(a)), shown, true)
    ensures AllViews(players[o := a], sent, at[Self(a) := a.current], shown, haunts[o := {}], gone)
  {
    hide Fold, ViewOk, Announced, Deltas, Within, Around;
    var t, b := Self(a), a.current;
    EntryView(sent[o], at, shown, t, b, gone);
    AroundDeltas(at, t, b);
    OthersSeeMove(players, logs, sent, at, shown, haunts, gone, t, b, STILL, Around(b), []);
  }

  lemma MobMoveViews(players: map<int, Avatar>, logs: map<int, seq<Packet>>, sent: map<int, seq<Packet>>,
                     at: Placement, shown: Copies, haunts: map<int, set<Thing>>, gone: set<Thing>,
                     m: int, b: Sector, look: Look, spawn: seq<Sector>, despawn: seq<Sector>)
    requires AllViews(players, logs, at, shown, haunts, gone)
    requires Told(players, logs, sent, Thing(Monster, m), look, spawn, despawn)
    requires Deltas(at, Thing(Monster, m), b, spawn, despawn) && Fits(shown, m, look)
    requires Thing(Monster, m) in at
    ensures AllViews(players, sent, at[Thing(Monster, m) := b], shown, haunts, gone)
  {
    var t := Thing(Monster, m);
    hide ViewOk, Told, Deltas;
    OthersSeeMove(players, logs, sent, at, shown, haunts, gone, t, b, look, spawn, despawn);
  }

  lemma OneMoreView(players: map<int, Avatar>, logs: map<int, seq<Packet>>, at: Placement, shown: Copies,
                    haunts: map<int, set<Thing>>, gone: set<Thing>, o: int, a: Avatar)
    requires AllViews(players, logs, at, shown, haunts, gone) && o in logs && o in haunts
    requires Self(a) in at && at[Self(a)] == a.current && InGrid(a.current)
    requires ViewOk(logs[o], at, shown, Self(a), haunts[o], gone)
    ensures AllViews(players[o := a], logs, at, shown, haunts, gone)
  {
    hide ViewOk;
  }

  lemma MovedDeltas(at: Placement, t: Thing, b: Sector, spawn: seq<Sector>, despawn: seq<Sector>)
    requires t in at && InGrid(at[t]) && InGrid(b)
    requires forall s :: s in spawn <==> s in Around(b) && s !in Around(at[t])
    requires forall s :: s in despawn <==> s in Around(at[t]) && s !in Around(b)
    ensures Deltas(at, t, b, spawn, despawn)
    ensures forall s :: s in spawn || s in despawn ==> InGrid(s)
  {
    AroundIsNear(b);
    AroundIsNear(at[t]);
  }

  lemma BothTold(players: map<int, Avatar>, logs: map<int, seq<Packet>>, sent: map<int, seq<Packet>>, t: Thing,
                 spawn: seq<Sector>, despawn: seq<Sector>)
    requires players.Keys <= logs.Keys && players.Keys <= sent.Keys
    requires forall p :: p in players ==>
               sent[p] == logs[p] + (if players[p].current in spawn then [OwnPacket(t, true)] else [])
                                  + (if players[p].current in despawn then [OwnPacket(t, false)] else [])
    ensures Told(players, logs, sent, t, STILL, spawn, despawn)
  {
  }

  /** A player changes its sector: for the others it moves, and it is sent what is new and what is gone. */
  lemma OwnMoveViews(players: map<int, Avatar>, logs: map<int, seq<Packet>>, sent: map<int, seq<Packet>>,
                     at: Placement, shown: Copies, haunts: map<int, set<Thing>>, gone: set<Thing>, o: int, a: Avatar,
                     spawn: seq<Sector>, despawn: seq<Sector>)
    requires AllViews(players, logs, at, shown, haunts, gone) && o in players && o in sent
    requires Self(a) == Self(players[o]) && InGrid(a.current) && forall t :: t in at ==> InGrid(at[t])
    requires forall p :: p in players && p != o ==> Self(players[p]) != Self(a)
    requires Deltas(at, Self(a), a.current, spawn, despawn) && forall s :: s in spawn || s in despawn ==> InGrid(s)
    requires Told(players - {o}, logs, sent, Self(a), STILL, spawn, despawn)
    requires var v := Announced(Fold(logs[o]), Within(at, spawn, Self(a)), shown, true);
      Fold(sent[o]) == Announced(v, Within(at, despawn, Self(a)), shown, false)
    ensures AllViews(players[o := a], sent, at[Self(a) := a.current], shown, haunts, gone)
  {
    var others, t, b := players - {o}, Self(a), a.current;
    OthersSeeMove(others, logs, sent, at, shown, haunts, gone, t, b, STILL, spawn, despawn);
    OwnView(logs[o], sent[o], at, shown, t, haunts[o], gone, b, spawn, despawn);
    hide ViewOk, Deltas, Announced, Fold, Within, Told;
    OneMoreView(others, sent, at[t := b], shown, haunts, gone, o, a);
    assert others[o := a] == players[o := a];
  }

  lemma OwnView(log: seq<Packet>, sent: seq<Packet>, at: Placement, shown: Copies, self: Thing, haunt: set<Thing>,
                gone: set<Thing>, b: Sector, spawn: seq<Sector>, despawn: seq<Sector>)
    requires ViewOk(log, at, shown, self, haunt, gone) && at.Keys !! gone
    requires InGrid(b) && forall t :: t in at ==> InGrid(at[t])
    requires Deltas(at, self, b, spawn, despawn) && forall s :: s in spawn || s in despawn ==> InGrid(s)
    requires var v := Announced(Fold(log), Within(at, spawn, self), shown, true);
      Fold(sent) == Announced(v, Within(at, despawn, self), shown, false)
    ensures ViewOk(sent, at[self := b], shown, self, haunt, gone)
  {
    assert haunt - Within(at, despawn, self) == haunt && haunt * Within(at, spawn, self) == {};
    hide Fold;
    OwnMoveKeepsExact(Fold(log), at, shown, self, haunt, b, spawn, despawn);
  }

  /** Everybody in the listed sectors, but `except`, was sent p, and nobody else anything. */
  ghost predicate ToldBut(players: map<int, Avatar>, logs: map<int, seq<Packet>>, sent: map<int, seq<Packet>>,
                          p: Packet, near: seq<Sector>, except: Option<int>) {
    && players.Keys <= logs.Keys && players.Keys <= sent.Keys
    && forall o :: o in players ==>
         sent[o] == logs[o] + if players[o].current in near && Some(o) != except then [p] else []
  }

  /** Everybody in the listed sectors was sent p. */
  ghost predicate ToldOne(players: map<int, Avatar>, logs: map<int, seq<Packet>>, sent: map<int, seq<Packet>>,
                          p: Packet, near: seq<Sector>) {
    && players.Keys <= logs.Keys && players.Keys <= sent.Keys
    && forall o :: o in players ==> sent[o] == logs[o] + if players[o].current in near then [p] else []
  }

  /** Everybody in the listed sectors was sent ps, nobody else anything. */
  ghost predicate ToldAll(players: map<int, Avatar>, logs: map<int, seq<Packet>>, sent: map<int, seq<Packet>>,
                          ps: seq<Packet>, near: seq<Sector>) {
    && players.Keys <= logs.Keys && players.Keys <= sent.Keys
    && forall o :: o in players ==> sent[o] == logs[o] + if players[o].current in near then ps else []
  }

  lemma ToldNothing(players: map<int, Avatar>, logs: map<int, seq<Packet>>, near: seq<Sector>)
    requires players.Keys <= logs.Keys
    ensures ToldAll(players, logs, logs, [], near)
  {
  }

  lemma ToldMore(players: map<int, Avatar>, logs: map<int, seq<Packet>>, mid: map<int, seq<Packet>>,
                 sent: map<int, seq<Packet>>,
                 ps: seq<Packet>, p: Packet, near: seq<Sector>)
    requires ToldAll(players, logs, mid, ps, near) && ToldOne(players, mid, sent, p, near)
    ensures ToldAll(players, logs, sent, ps + [p], near)
  {
  }

  /** What monsterProc sends about a monster that does not respawn. */
  function Announcement(m: int, mob: Mob): seq<Packet> {
    if mob.body.state == mob.before && mob.body.direction == mob.beforeDirection then []
    else match mob.body.state
      case Move => Walk(m, mob)
      case Chase => Walk(m, mob)
      case Return => Walk(m, mob)
      case Attack => StopPackets(m, mob, true)
      case Idle => StopPackets(m, mob, false)
      case Stun => []
      case Dead => []
  }

  function Walk(m: int, mob: Mob): seq<Packet> {
    var d := mob.body.direction;
    if M.Wandering(mob.before) then [MonsterMoveStop(m, d), MonsterMoveStart(m, d)] else [MonsterMoveStart(m, d)]
  }

  function StopPackets(m: int, mob: Mob, attack: bool): seq<Packet> {
    var stop := MonsterMoveStop(m, mob.body.direction);
    if attack then [stop, MonsterAttack(m)] else [stop]
  }

  /** A packet about a monster goes to everybody around it. */
  lemma PacketViews(players: map<int, Avatar>, logs: map<int, seq<Packet>>, sent: map<int, seq<Packet>>,
                    at: Placement, shown: Copies, haunts: map<int, set<Thing>>, gone: set<Thing>, m: int, p: Packet)
    requires AllViews(players, logs, at, shown, haunts, gone)
    requires Thing(Monster, m) in at && InGrid(at[Thing(Monster, m)])
    requires ToldOne(players, logs, sent, p, Around(at[Thing(Monster, m)]))
    requires AboutMonster(p, m) && (p.MonsterMoveStart? ==> m !in shown.moving)
    ensures AllViews(players, sent, at, ShownAfter(shown, p), haunts, gone)
  {
    var t := Thing(Monster, m);
    forall o | o in players
      ensures ViewOk(sent[o], at, ShownAfter(shown, p), Self(players[o]), haunts[o], gone)
    {
      var self := Self(players[o]);
      NearIsMutual(players[o].current, at[t]);
      assert players[o].current in Around(at[t]) <==> Sees(at, self, t);
      assert logs[o] + [] == logs[o];
      hide Fold, Exact;
      FoldAppend(logs[o], p);
      PacketKeepsExact(Fold(logs[o]), at, shown, self, haunts[o], m, p);
    }
  }

  /** A packet about a character goes to everybody else around it, or to everybody if it concerns damage. */
  lemma CharacterPacketViews(players: map<int, Avatar>, logs: map<int, seq<Packet>>, sent: map<int, seq<Packet>>,
                             at: Placement, shown: Copies, haunts: map<int, set<Thing>>, gone: set<Thing>,
                             o: int, p: Packet, except: Option<int>)
    requires AllViews(players, logs, at, shown, haunts, gone) && o in players
    requires forall q :: q in players && q != o ==> Self(players[q]) != Self(players[o])
    requires ToldBut(players, logs, sent, p, Around(players[o].current), except)
    requires var c := players[o].character;
      if except == Some(o) then p == CharacterMoveStart(c) || p == CharacterMoveStop(c) || p == CharacterAttack(c)
      else except == None && p == CharacterDamaged(c)
    ensures AllViews(players, sent, at, shown, haunts, gone)
  {
    hide ViewOk;
    forall q | q in players
      ensures ViewOk(sent[q], at, shown, Self(players[q]), haunts[q], gone)
    {
      CharacterPacketView(players, logs[q], sent[q], at, shown, haunts[q], gone, o, p, except, q);
    }
  }

  /** The same for one client. */
  lemma CharacterPacketView(players: map<int, Avatar>, log: seq<Packet>, sent: seq<Packet>, at: Placement,
                            shown: Copies, haunt: set<Thing>, gone: set<Thing>, o: int, p: Packet,
                            except: Option<int>, q: int)
    requires o in players && q in players && ViewOk(log, at, shown, Self(players[q]), haunt, gone)
    requires InGrid(players[o].current) && InGrid(players[q].current)
    requires Self(players[o]) in at && at[Self(players[o])] == players[o].current
    requires Self(players[q]) in at && at[Self(players[q])] == players[q].current
    requires q != o ==> Self(players[q]) != Self(players[o])
    requires sent == log + if players[q].current in Around(players[o].current) && Some(q) != except then [p] else []
    requires var c := players[o].character;
      if except == Some(o) then p == CharacterMoveStart(c) || p == CharacterMoveStop(c) || p == CharacterAttack(c)
      else except == None && p == CharacterDamaged(c)
    ensures ViewOk(sent, at, shown, Self(players[q]), haunt, gone)
  {
    hide Fold, Exact, Apply;
    var t, here, self := Self(players[o]), players[o].current, Self(players[q]);
    NearIsMutual(players[q].current, here);
    assert log + [] == log;
    FoldAppend(log, p);
    CharacterPacketKeepsExact(Fold(log), at, shown, self, haunt, t.id, p);
    DamageUnseen(Fold(log), players[o].character);
    assert q != o ==> (players[q].current in Around(here) <==> Sees(at, self, t));
  }

  /** The packet about a hit on a character changes nothing in a view. */
  lemma DamageUnseen(v: View, c: int)
    ensures Apply(v, CharacterDamaged(c)) == v
  {
  }

  /** Everybody near sector a was told that t is gone, then everybody near sector b that it is there. */
  ghost predicate ToldReturn(players: map<int, Avatar>, logs: map<int, seq<Packet>>, sent: map<int, seq<Packet>>,
                             t: Thing, look: Look, a: seq<Sector>, b: seq<Sector>) {
    && players.Keys <= logs.Keys && players.Keys <= sent.Keys
    && forall o :: o in players ==>
         sent[o] == logs[o] + (if players[o].current in a then [Despawn(t)] else [])
                            + (if players[o].current in b then [Spawn(t, look)] else [])
  }

  lemma BothReturned(players: map<int, Avatar>, logs: map<int, seq<Packet>>, mid: map<int, seq<Packet>>,
                     sent: map<int, seq<Packet>>, t: Thing, look: Look, a: seq<Sector>,
                     b: seq<Sector>)
    requires ToldOne(players, logs, mid, Despawn(t), a) && ToldOne(players, mid, sent, Spawn(t, look), b)
    ensures ToldReturn(players, logs, sent, t, look, a, b)
  {
  }

  /** A monster returns from the dead at sector b: a despawn around its old sector, then a spawn. */
  lemma RespawnViews(players: map<int, Avatar>, logs: map<int, seq<Packet>>, mid: map<int, seq<Packet>>,
                     sent: map<int, seq<Packet>>,
                     at: Placement, shown: Copies, haunts: map<int, set<Thing>>, gone: set<Thing>, m: int, b: Sector,
                     look: Look)
    requires AllViews(players, logs, at, shown, haunts, gone) && Fits(shown, m, look)
    requires Thing(Monster, m) in at && InGrid(at[Thing(Monster, m)]) && InGrid(b)
    requires ToldOne(players, logs, mid, Despawn(Thing(Monster, m)), Around(at[Thing(Monster, m)]))
    requires ToldOne(players, mid, sent, Spawn(Thing(Monster, m), look), Around(b))
    ensures AllViews(players, sent, at[Thing(Monster, m) := b], shown, haunts, gone)
  {
    var t := Thing(Monster, m);
    forall o | o in players
      ensures ViewOk(sent[o], at[t := b], shown, Self(players[o]), haunts[o], gone)
    {
      var self := Self(players[o]);
      NearIsMutual(players[o].current, at[t]);
      NearIsMutual(players[o].current, b);
      assert players[o].current in Around(at[t]) <==> Sees(at, self, t);
      assert players[o].current in Around(b) <==> Near(at[self], b);
      assert logs[o] + [] == logs[o] && mid[o] + [] == mid[o];
      hide Fold, Exact;
      FoldAppend(logs[o], Despawn(t));
      FoldAppend(mid[o], Spawn(t, look));
      RespawnKeepsExact(Fold(logs[o]), at, shown, self, haunts[o], m, b, look);
    }
  }

  /** An item is looted or expires: a despawn around it. */
  lemma ItemGoneViews(players: map<int, Avatar>, logs: map<int, seq<Packet>>, sent: map<int, seq<Packet>>,
                      at: Placement, shown: Copies, haunts: map<int, set<Thing>>, gone: set<Thing>, i: int)
    requires AllViews(players, logs, at, shown, haunts, gone)
    requires Thing(Item, i) in at && InGrid(at[Thing(Item, i)])
    requires ToldOne(players, logs, sent, Despawn(Thing(Item, i)), Around(at[Thing(Item, i)]))
    ensures AllViews(players, sent, at - {Thing(Item, i)}, shown, haunts, gone)
  {
    var t := Thing(Item, i);
    forall o | o in players
      ensures ViewOk(sent[o], at - {t}, shown, Self(players[o]), haunts[o], gone)
    {
      var self := Self(players[o]);
      NearIsMutual(players[o].current, at[t]);
      assert players[o].current in Around(at[t]) <==> Sees(at, self, t);
      assert logs[o] + [] == logs[o];
      hide Fold, Exact;
      FoldAppend(logs[o], Despawn(t));
      RemovalKeepsExact(Fold(logs[o]), at, shown, self, haunts[o], t);
    }
  }

  function Haunted(players: map<int, Avatar>, haunts: map<int, set<Thing>>, a: Avatar): map<int, set<Thing>> {
    map o | o in haunts ::
      haunts[o] + if o in players && Near(players[o].current, a.current) then {Self(a)} else {}
  }

  /** A player leaves play without a packet: those around keep showing it. */
  lemma RemovalViews(players: map<int, Avatar>, logs: map<int, seq<Packet>>, at: Placement, shown: Copies,
                     haunts: map<int, set<Thing>>, gone: set<Thing>, a: Avatar)
    requires AllViews(players, logs, at, shown, haunts, gone)
    requires Self(a) in at && at[Self(a)] == a.current && forall o :: o in players ==> Self(players[o]) != Self(a)
    ensures AllViews(players, logs, at - {Self(a)}, shown, Haunted(players, haunts, a), gone + {Self(a)})
  {
    forall o | o in players
      ensures ViewOk(logs[o], at - {Self(a)}, shown, Self(players[o]), Haunted(players, haunts, a)[o], gone + {Self(a)})
    {
      hide Fold, Exact;
      SilentRemoval(Fold(logs[o]), at, shown, Self(players[o]), haunts[o], Self(a));
    }
  }

  lemma FewerViews(players: map<int, Avatar>, logs: map<int, seq<Packet>>, at: Placement, shown: Copies,
                   haunts: map<int, set<Thing>>, gone: set<Thing>, o: int)
    requires AllViews(players, logs, at, shown, haunts, gone)
    ensures AllViews(players - {o}, logs, at, shown, haunts, gone)
  {
  }

  /** A new thing appears, seen by everybody around it. */
  lemma AppearanceViews(players: map<int, Avatar>, logs: map<int, seq<Packet>>, sent: map<int, seq<Packet>>,
                        at: Placement, shown: Copies, haunts: map<int, set<Thing>>, gone: set<Thing>,
                        i: int, b: Sector)
    requires AllViews(players, logs, at, shown, haunts, gone)
    requires Thing(Item, i) !in at && Thing(Item, i) !in gone && InGrid(b)
    requires ToldOne(players, logs, sent, Spawn(Thing(Item, i), STILL), Around(b))
    ensures AllViews(players, sent, at[Thing(Item, i) := b], shown, haunts, gone)
  {
    var t := Thing(Item, i);
    AroundDeltas(at, t, b);
    assert Told(players, logs, sent, t, STILL, Around(b), []);
    hide ViewOk, Deltas, Told;
    OthersSeeMove(players, logs, sent, at, shown, haunts, gone, t, b, STILL, Around(b), []);
  }

  lemma MobPlace(at: Placement, players: map<int, Avatar>, monsters: map<int, Mob>, items: map<int, Drop>, m: int)
    requires Placed(at, players, monsters, items) && m in monsters
    ensures Thing(Monster, m) in at && at[Thing(Monster, m)] == monsters[m].sector && InGrid(monsters[m].sector)
  {
  }

  lemma DropPlace(at: Placement, players: map<int, Avatar>, monsters: map<int, Mob>, items: map<int, Drop>, i: int)
    requires Placed(at, players, monsters, items) && i in items
    ensures Thing(Item, i) in at && at[Thing(Item, i)] == items[i].sector && InGrid(items[i].sector)
  {
  }

  lemma PlayerPlace(at: Placement, players: map<int, Avatar>, monsters: map<int, Mob>, items: map<int, Drop>, o: int)
    requires Placed(at, players, monsters, items) && o in players
    ensures Self(players[o]) in at && at[Self(players[o])] == players[o].current && InGrid(players[o].current)
  {
  }

  lemma PlacedAfterAging(at: Placement, players: map<int, Avatar>, monsters: map<int, Mob>, items: map<int, Drop>,
                         i: int, d: Drop)
    requires Placed(at, players, monsters, items) && i in items && d.sector == items[i].sector
    ensures Placed(at, players, monsters, items[i := d]) && DropSectors(items[i := d]) == DropSectors(items)
  {
  }

  lemma BothBroadcast(players: map<int, Avatar>, logs: map<int, seq<Packet>>, sent: map<int, seq<Packet>>, t: Thing,
                      look: Look,
                      spawn: seq<Sector>, despawn: seq<Sector>)
    requires players.Keys <= logs.Keys && players.Keys <= sent.Keys
    requires forall p :: p in players ==>
               sent[p] == logs[p] + (if players[p].current in spawn then [Spawn(t, look)] else [])
                                  + (if players[p].current in despawn then [Despawn(t)] else [])
    ensures Told(players, logs, sent, t, look, spawn, despawn)
  {
  }

  lemma AroundDeltas(at: Placement, t: Thing, b: Sector)
    requires t !in at
    ensures Deltas(at, t, b, Around(b), [])
    ensures forall s :: InGrid(s) ==> (s in Around(b) <==> Near(s, b))
  {
    AroundIsNear(b);
  }

  lemma EntryView(log: seq<Packet>, at: Placement, shown: Copies, self: Thing, b: Sector, gone: set<Thing>)
    requires self !in at && self.kind.Character?
    requires forall t :: t in at ==> InGrid(at[t])
    requires Fold(log) == Announced(EMPTY, Within(at[self := b], Around(b), self), shown, true)
    ensures ViewOk(log, at[self := b], shown, self, {}, gone)
  {
    hide Fold;
    EntryIsExact(at, shown, self, b);
    assert Within(at[self := b], Around(b), self) == Within(at, Around(b), self);
  }

  function OwnPacket(t: Thing, spawn: bool): Packet {
    if spawn then Spawn(t, STILL) else Despawn(t)
  }

  lemma ThreeKinds(at: Placement, near: seq<Sector>, self: Thing)
    ensures OfKind(at, Character, near, self) + OfKind(at, Monster, near, self) + OfKind(at, Item, near, self) ==
              Within(at, near, self)
    ensures OfKind(at, Character, near, self) !! OfKind(at, Monster, near, self)
    ensures OfKind(at, Character, near, self) + OfKind(at, Monster, near, self) !! OfKind(at, Item, near, self)
  {
  }

  lemma NoSector(at: Placement, kind: Kind, near: seq<Sector>, self: Thing)
    ensures OfKind(at, kind, near[..0], self) == {}
  {
  }

  lemma OneMoreSector(at: Placement, kind: Kind, near: seq<Sector>, i: nat, self: Thing)
    requires i < |near| && Distinct(near)
    ensures var a, b := OfKind(at, kind, near[..i], self), OfKind(at, kind, [near[i]], self);
      a !! b && OfKind(at, kind, near[..i + 1], self) == a + b
  {
    assert near[i] !in near[..i];
    assert near[..i + 1] == near[..i] + [near[i]];
  }
}

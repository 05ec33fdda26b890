/** The field thread: every operation keeps the sector indexes and every client's view exact. */
module Field {
  import opened Sectors
  import opened ClientView
  import opened Aoi
  import opened FieldViews
  import opened MonsterStages
  import opened FieldFrames
  import M = Monsters
  import P = Players

  class Field {
    var players: map<int, Avatar>
    var monsters: map<int, Mob>
    var items: map<int, Drop>
    var sectors: Cells
    var monsterSectors: Cells
    var itemSectors: Cells
    var logs: map<int, seq<Packet>>           // what was given to sendPost for each session, in order
    ghost var at: Placement
    ghost var shown: Copies                   // what the copies of the monsters at the clients do
    ghost var haunts: map<int, set<Thing>>    // characters a client still shows although they are gone
    ghost var gone: set<Thing>                // characters that were ever removed from play
    ghost var history: seq<Passage>           // who came and went

    var mItemUniqueID: int
    var mTotalRootItemCount: int
    var killJobs: seq<int>                    // the characters for which a kill-count job was queued
    ghost var deaths: nat                     // how often a monster has died
    ghost var looted: set<int>
    ghost var expired: set<int>

    ghost predicate Index()
      reads this`players, this`monsters, this`items, this`sectors, this`monsterSectors, this`itemSectors, this`at
    {
      && Indexed(sectors, PlayerSectors(players))
      && Indexed(monsterSectors, MobSectors(monsters))
      && Indexed(itemSectors, DropSectors(items))
      && Placed(at, players, monsters, items)
    }

    ghost predicate Views()
      reads this`players, this`monsters, this`logs, this`at, this`shown, this`haunts, this`gone
    {
      && shown.moving <= monsters.Keys && shown.facing.Keys <= monsters.Keys
      && AllViews(players, logs, at, shown, haunts, gone)
    }

    /** Every item ever dropped is on the ground, or was looted, or has expired; kills are counted. */
    ghost predicate Ledger()
      reads this`items, this`mItemUniqueID, this`mTotalRootItemCount, this`killJobs, this`deaths, this`looted,
            this`expired
    {
      && Accounted(mItemUniqueID, items.Keys, looted, expired)
      && mTotalRootItemCount == |looted|
      && |killJobs| == deaths
    }

    ghost predicate Valid()
      reads this
    {
      Index() && Views() && Ledger()
    }

    /** An empty field. */
    constructor ()
      ensures Between() && players == map[] && monsters == map[] && items == map[] && gone == {}
    {
      players, monsters, items, logs := map[], map[], map[], map[];
      var cells: Cells := map s | s in GridSectors() :: {};
      sectors, monsterSectors, itemSectors := cells, cells, cells;
      at, shown, haunts, gone, history := map[], Copies({}, map[]), map[], {}, [];
      mItemUniqueID, mTotalRootItemCount, killJobs, deaths, looted, expired := 0, 0, [], 0, {}, {};
    }

    /** A monster of the initial population. */
    method AddMonster(m: int, pos: Position)
      requires Between() && players == map[] && m !in monsters && M.InWorld(pos)
      modifies this`monsters, this`monsterSectors, this`at, this`shown
      ensures Between() && players == map[] && monsters.Keys == old(monsters.Keys) + {m}
    {
      hide Index, Views, Ledger, History, Credit, SectorOf, M.InWorld;
      var s := SectorOf(pos);
      var monster := new M.Monster(pos);
      ShownAreMonsters();
      assert forall n :: n in monsters ==> Resting(n);
      InsertMonster(m, Mob(monster.Value(), s, s, M.Idle, 0));
      assert Resting(m);
    }

    lemma ShownAreMonsters()
      requires Views()
      ensures shown.moving <= monsters.Keys
    {
    }

    method InsertMonster(m: int, mob: Mob)
      requires Index() && Views() && players == map[] && m !in monsters && InGrid(mob.sector)
      modifies this`monsters, this`monsterSectors, this`at, this`shown
      ensures Index() && Views() && monsters == old(monsters)[m := mob]
      ensures shown == Copies(old(shown).moving, old(shown).facing[m := mob.body.direction])
    {
      hide Placed, Indexed, AllViews;
      ViewKeys(players, logs, at, shown, haunts, gone);
      PlacedAfterMonster(at, players, monsters, items, m, mob);
      IndexedCells(monsterSectors, MobSectors(monsters));
      IndexedAfterEntry(monsterSectors, MobSectors(monsters), m, mob.sector);
      monsters := monsters[m := mob];
      monsterSectors := monsterSectors[mob.sector := monsterSectors[mob.sector] + {m}];
      at := at[Thing(Monster, m) := mob.sector];
      shown := shown.(facing := shown.facing[m := mob.body.direction]);
      NoViews(logs, at, shown, haunts, gone);
      assert MobSectors(monsters) == MobSectors(old(monsters))[m := mob.sector];
    }

    /** The inner loop of a broadcast: every player of one sector, but `except`, is sent p. */
    method SendToAll(receivers: set<int>, except: Option<int>, p: Packet)
      requires receivers <= logs.Keys
      modifies this`logs
      ensures logs.Keys == old(logs.Keys)
      ensures forall o :: o in logs ==>
                logs[o] == old(logs[o]) + if o in receivers && Some(o) != except then [p] else []
    {
      var todo := receivers;
      while todo != {}
        invariant todo <= receivers && logs.Keys == old(logs.Keys)
        invariant forall o :: o in logs ==>
                    logs[o] == old(logs[o]) + if o in receivers && o !in todo && Some(o) != except then [p] else []
        decreases |todo|
      {
        var o := AnyOf(todo);
        if Some(o) != except {
          logs := logs[o := logs[o] + [p]];
        }
        todo := todo - {o};
      }
    }

    /** A broadcast: everybody indexed in one of the sectors, but `except`, is sent p. */
    method Broadcast(near: seq<Sector>, except: Option<int>, p: Packet)
      requires Indexed(sectors, PlayerSectors(players)) && players.Keys <= logs.Keys
      requires Distinct(near) && forall s :: s in near ==> InGrid(s)
      modifies this`logs
      ensures logs.Keys == old(logs.Keys)
      ensures forall o :: o in logs ==>
                logs[o] == old(logs[o])
                         + if o in players && players[o].current in near && Some(o) != except then [p] else []
    {
      ghost var where := PlayerSectors(players);
      var i := 0;
      while i < |near|
        invariant 0 <= i <= |near| && logs.Keys == old(logs.Keys)
        invariant forall o :: o in logs ==>
                    logs[o] == old(logs[o])
                             + if o in players && players[o].current in near[..i] && Some(o) != except then [p] else []
      {
        assert near[..i + 1] == near[..i] + [near[i]] && near[i] !in near[..i];
        assert forall o :: o in sectors[near[i]] <==> o in where && where[o] == near[i];
        SendToAll(sectors[near[i]], except, p);
        i := i + 1;
      }
      assert near[..i] == near;
    }

    /** The things of one kind that a sector's index holds, without the target itself. */
    function Cell(kind: Kind, s: Sector, target: int): set<Thing>
      requires s in sectors && s in monsterSectors && s in itemSectors
      requires sectors[s] <= players.Keys
      reads this
    {
      match kind
      case Character => set o | o in sectors[s] && o != target :: Self(players[o])
      case Monster => set m | m in monsterSectors[s] :: Thing(Monster, m)
      case Item => set i | i in itemSectors[s] :: Thing(Item, i)
    }

    lemma CellIs(kind: Kind, s: Sector, target: int)
      requires Index() && target in players && InGrid(s)
      ensures s in sectors && s in monsterSectors && s in itemSectors && sectors[s] <= players.Keys
      ensures Cell(kind, s, target) == OfKind(at, kind, [s], Self(players[target]))
      ensures forall t :: t in Cell(kind, s, target) && t.kind.Monster? ==> t.id in monsters
    {
      MembersOf(sectors, PlayerSectors(players), s);
      MembersOf(monsterSectors, MobSectors(monsters), s);
      MembersOf(itemSectors, DropSectors(items), s);
      hide Indexed;
      assert forall o :: o in sectors[s] ==> o in PlayerSectors(players);
      if kind.Character? { CharactersAt(s, target); } else { ThingsAt(kind, s, target); }
    }

    lemma CharactersAt(s: Sector, target: int)
      requires Placed(at, players, monsters, items) && target in players
      requires s in sectors && s in monsterSectors && s in itemSectors && sectors[s] <= players.Keys
      requires forall o :: o in sectors[s] <==> o in players && players[o].current == s
      ensures Cell(Character, s, target) == OfKind(at, Character, [s], Self(players[target]))
    {
      forall t | t in OfKind(at, Character, [s], Self(players[target]))
        ensures t in Cell(Character, s, target)
      {
        var o :| o in players && players[o].character == t.id;
      }
    }

    lemma ThingsAt(kind: Kind, s: Sector, target: int)
      requires Placed(at, players, monsters, items) && target in players && !kind.Character?
      requires s in sectors && s in monsterSectors && s in itemSectors && sectors[s] <= players.Keys
      requires forall m :: m in monsterSectors[s] <==> m in monsters && monsters[m].sector == s
      requires forall i :: i in itemSectors[s] <==> i in items && items[i].sector == s
      ensures Cell(kind, s, target) == OfKind(at, kind, [s], Self(players[target]))
    {
    }

    /** The inner loop of a batch: the spawn or despawn of each of `cell` is sent to the target. */
    method SendCell(target: int, cell: set<Thing>, spawn: bool)
      requires target in logs && forall t :: t in cell && t.kind.Monster? ==> t.id in monsters
      modifies this`logs
      ensures logs.Keys == old(logs.Keys) && forall o :: o in logs && o != target ==> logs[o] == old(logs[o])
      ensures Fold(logs[target]) == Announced(old(Fold(logs[target])), cell, CopiesOf(monsters), spawn)
    {
      hide Announced, Apply, Fold;
      var todo := cell;
      ghost var v := Fold(logs[target]);
      Nothing(v, CopiesOf(monsters), spawn);
      assert cell - todo == {};
      while todo != {}
        invariant todo <= cell && logs.Keys == old(logs.Keys)
        invariant forall o :: o in logs && o != target ==> logs[o] == old(logs[o])
        invariant Fold(logs[target]) == Announced(v, cell - todo, CopiesOf(monsters), spawn)
        decreases |todo|
      {
        var t := AnyOf(todo);
        var look := if t.kind.Monster? then LookOf(monsters[t.id]) else STILL;
        var p := if spawn then Spawn(t, look) else Despawn(t);
        FoldAppend(logs[target], p);
        OneMore(v, cell - todo, CopiesOf(monsters), spawn, t, look);
        assert cell - (todo - {t}) == cell - todo + {t};
        logs := logs[target := logs[target] + [p]];
        todo := todo - {t};
      }
      assert cell - todo == cell;
    }

    /** sendSpawnBatch, sendMonsterSpawnBatch and sendItemSpawnBatch, and their despawn twins: what is
        indexed in the listed sectors is announced to, or withdrawn from, the target. */
    method SendBatch(target: int, kind: Kind, near: seq<Sector>, spawn: bool)
      requires Index() && target in players && target in logs
      requires Distinct(near) && forall s :: s in near ==> InGrid(s)
      modifies this`logs
      ensures logs.Keys == old(logs.Keys) && forall o :: o in logs && o != target ==> logs[o] == old(logs[o])
      ensures Fold(logs[target]) == Announced(old(Fold(logs[target])), OfKind(at, kind, near, Self(players[target])),
                                              CopiesOf(monsters), spawn)
    {
      hide Announced, Apply, Fold, OfKind, Cell, Placed, Indexed;
      ghost var v, self, copies := Fold(logs[target]), Self(players[target]), CopiesOf(monsters);
      Nothing(v, copies, spawn);
      NoSector(at, kind, near, self);
      var i := 0;
      while i < |near|
        invariant 0 <= i <= |near| && logs.Keys == old(logs.Keys)
        invariant forall o :: o in logs && o != target ==> logs[o] == old(logs[o])
        invariant Fold(logs[target]) == Announced(v, OfKind(at, kind, near[..i], self), copies, spawn)
      {
        CellIs(kind, near[i], target);
        var cell := Cell(kind, near[i], target);
        OneMoreSector(at, kind, near, i, self);
        InTwoParts(v, OfKind(at, kind, near[..i], self), cell, copies, spawn);
        SendCell(target, cell, spawn);
        i := i + 1;
      }
      assert near[..i] == near;
    }

    // ---- players ------------------------------------------------------------------------------------

    /** The three batches of a player that enters: everything in `near` is announced, or withdrawn. */
    method SendBatches(target: int, near: seq<Sector>, spawn: bool)
      requires Index() && target in players && target in logs
      requires Distinct(near) && forall s :: s in near ==> InGrid(s)
      modifies this`logs
      ensures logs.Keys == old(logs.Keys) && forall o :: o in logs && o != target ==> logs[o] == old(logs[o])
      ensures Fold(logs[target]) == Announced(old(Fold(logs[target])), Within(at, near, Self(players[target])),
                                              CopiesOf(monsters), spawn)
    {
      hide Announced, Apply, Fold, OfKind, Placed, Indexed, Within;
      ghost var v, self, copies := Fold(logs[target]), Self(players[target]), CopiesOf(monsters);
      SendBatch(target, Character, near, spawn);
      SendBatch(target, Monster, near, spawn);
      SendBatch(target, Item, near, spawn);
      ThreeKinds(at, near, self);
      InTwoParts(v, OfKind(at, Character, near, self), OfKind(at, Monster, near, self), copies, spawn);
      InTwoParts(v, OfKind(at, Character, near, self) + OfKind(at, Monster, near, self), OfKind(at, Item, near, self),
                 copies, spawn);
    }

    /** The four calls that announce a player in the listed sectors, and what is there to the player;
        or that withdraw both. */
    method Announce(o: int, near: seq<Sector>, spawn: bool)
      requires Index() && o in players && players.Keys <= logs.Keys
      requires Distinct(near) && forall s :: s in near ==> InGrid(s)
      modifies this`logs
      ensures logs.Keys == old(logs.Keys)
      ensures forall p :: p in players && p != o ==>
                logs[p] == old(logs[p])
                         + if players[p].current in near then [OwnPacket(Self(players[o]), spawn)] else []
      ensures Fold(logs[o]) ==
                Announced(old(Fold(logs[o])), Within(at, near, Self(players[o])), CopiesOf(monsters), spawn)
    {
      hide Announced, Apply, Fold, Within, Placed, Indexed;
      Broadcast(near, Some(o), OwnPacket(Self(players[o]), spawn));
      assert old(logs[o]) + [] == old(logs[o]);
      SendBatches(o, near, spawn);
    }

    /** The player is filed under the sector of its position. */
    method EnterSector(o: int, character: int, pos: Position, connected: bool)
      requires Index() && o !in players && forall p :: p in players ==> players[p].character != character
      modifies this`players, this`sectors, this`at
      ensures Index() && Thing(Character, character) !in old(at)
      ensures players == old(players)[o := Entered(character, pos, connected)]
      ensures at == old(at)[Thing(Character, character) := SectorOf(pos)]
      ensures forall p :: p in old(players) ==>
                && Self(players[p]) in old(at) && Self(players[p]) != Thing(Character, character)
                && old(at)[Self(players[p])] == players[p].current && InGrid(players[p].current)
      ensures forall t :: t in old(at) ==> InGrid(old(at)[t])
    {
      hide SectorOf, Indexed, Placed;
      PlacedInGrid(at, players, monsters, items);
      PlacedAfterEntry(at, players, monsters, items, o, Entered(character, pos, connected));
      IndexedCells(sectors, PlayerSectors(players));
      var s := SectorOf(pos);
      players := players[o := Entered(character, pos, connected)];
      assert sectors[s] == old(sectors)[s];
      sectors := sectors[s := sectors[s] + {o}];
      at := at[Thing(Character, character) := s];
      IndexedAfterEntry(old(sectors), PlayerSectors(old(players)), o, s);
      assert PlayerSectors(players) == PlayerSectors(old(players))[o := s];
    }

    /** handleRegisterPlayer. The caller registers a session once, and one session per character. */
    method HandleRegisterPlayer(o: int, character: int, pos: Position, connected: bool)
      requires Index() && Views() && shown == CopiesOf(monsters)
      requires o !in players && Thing(Character, character) !in gone
      requires forall p :: p in players ==> players[p].character != character
      modifies this`players, this`sectors, this`logs, this`at, this`haunts, this`history
      ensures Index() && Views()
      ensures players == old(players)[o := Entered(character, pos, connected)]
      ensures haunts == old(haunts)[o := {}] && history == old(history) + [Enters(o)]
    {
      hide Announced, Apply, Fold, Within, SectorOf, Around, Index, AllViews, Told, CopiesOf, P.Newcomer, Near;
      var s := SectorOf(pos);
      ghost var at0 := at;
      EnterSector(o, character, pos, connected);
      ViewKeys(old(players), logs, at0, shown, haunts, gone);
      logs := logs[o := []];
      haunts, history := haunts[o := {}], history + [Enters(o)];
      AroundIsNear(s);
      FoldNothing();
      Announce(o, Around(s), true);
      OnlySpawned(old(players), old(logs), logs, Self(players[o]), Around(s));
      EntryViews(old(players), old(logs), logs, at0, shown, old(haunts), gone, o, players[o]);
    }

    /** The player is refiled under mDestSector. */
    method RefilePlayer(o: int)
      requires Index() && o in players && players[o].dest != players[o].current
      modifies this`players, this`sectors, this`at
      ensures Index()
      ensures players == old(players)[o := old(players[o]).(current := old(players[o]).dest)]
      ensures at == old(at)[Self(players[o]) := players[o].current]
    {
      hide Placed, Indexed;
      var a := players[o];
      PlacedInGrid(at, players, monsters, items);
      PlacedAfterMove(at, players, monsters, items, o, a.(current := a.dest));
      IndexedCells(sectors, PlayerSectors(players));
      ReindexedIsIndexed(sectors, PlayerSectors(players), o, a.dest);
      at := at[Self(a) := a.dest];
      sectors := Reindexed(sectors, o, a.current, a.dest);
      players := players[o := a.(current := a.dest)];
      assert PlayerSectors(players) == PlayerSectors(old(players))[o := a.dest];
    }

    /** The packets of a sector change, while the index still holds the old sector. */
    method AnnounceMove(o: int) returns (spawn: seq<Sector>, despawn: seq<Sector>)
      requires Index() && o in players && players.Keys <= logs.Keys
      modifies this`logs
      ensures logs.Keys == old(logs.Keys) && Self(players[o]) in at
      ensures Deltas(at, Self(players[o]), players[o].dest, spawn, despawn)
      ensures forall s :: s in spawn || s in despawn ==> InGrid(s)
      ensures Told(players - {o}, old(logs), logs, Self(players[o]), STILL, spawn, despawn)
      ensures var v := Announced(old(Fold(logs[o])), Within(at, spawn, Self(players[o])), CopiesOf(monsters), true);
        Fold(logs[o]) == Announced(v, Within(at, despawn, Self(players[o])), CopiesOf(monsters), false)
    {
      hide Announced, Apply, Fold, Within, Around, Placed, Indexed, Deltas, Told;
      PlacedInGrid(at, players, monsters, items);
      var a := players[o];
      AroundIsNear(a.current);
      AroundIsNear(a.dest);
      spawn, despawn := CalcDespawnAndSpawn(Around(a.dest), Around(a.current));
      MovedDeltas(at, Self(a), a.dest, spawn, despawn);
      Announce(o, spawn, true);
      Announce(o, despawn, false);
      BothTold(players - {o}, old(logs), logs, Self(a), spawn, despawn);
    }

    /** What fieldUpdate does for a player whose mDestSector differs from mCurrentSector. */
    method ChangePlayerSector(o: int)
      requires Index() && Views() && shown == CopiesOf(monsters)
      requires o in players && players[o].dest != players[o].current
      modifies this`players, this`sectors, this`logs, this`at
      ensures Index() && Views()
      ensures players == old(players)[o := old(players[o]).(current := old(players[o]).dest)]
    {
      hide Announced, Apply, Fold, Within, Placed, Indexed, AllViews, Told, Deltas;
      PlacedInGrid(at, players, monsters, items);
      ViewKeys(players, logs, at, shown, haunts, gone);
      var spawn, despawn := AnnounceMove(o);
      ghost var a := players[o].(current := players[o].dest);
      OwnMoveViews(players, old(logs), logs, at, shown, haunts, gone, o, a, spawn, despawn);
      RefilePlayer(o);
    }

    // ---- monsters -----------------------------------------------------------------------------------

    /** Everybody around a sector is sent p. */
    method BroadcastAround(s: Sector, p: Packet)
      requires Index() && InGrid(s) && players.Keys <= logs.Keys
      modifies this`logs
      ensures logs.Keys == old(logs.Keys) && ToldOne(players, old(logs), logs, p, Around(s))
    {
      hide Placed, Around;
      AroundIsNear(s);
      Broadcast(Around(s), None, p);
    }

    /** broadcastMonsterMoveStart, -MoveStop, -Damaged and -Attack. */
    method SendMonsterPacket(m: int, p: Packet)
      requires Index() && Views() && m in monsters
      requires AboutMonster(p, m) && (p.MonsterMoveStart? ==> m !in shown.moving)
      modifies this`logs, this`shown
      ensures Index() && Views() && shown == ShownAfter(old(shown), p)
      ensures ToldOne(players, old(logs), logs, p, Around(monsters[m].sector))
    {
      hide Placed, Indexed, AllViews, Around;
      PlacedAfterUpdate(at, players, monsters, items, m, monsters[m]);
      MobPlace(at, players, monsters, items, m);
      ViewKeys(players, logs, at, shown, haunts, gone);
      BroadcastAround(monsters[m].sector, p);
      PacketViews(players, old(logs), logs, at, shown, haunts, gone, m, p);
      shown := ShownAfter(shown, p);
    }

    /** New values for a monster that stays where it is filed. */
    method SetMonster(m: int, mob: Mob)
      requires Index() && Views() && m in monsters && mob.sector == monsters[m].sector
      modifies this`monsters
      ensures Index() && Views() && monsters == old(monsters)[m := mob]
    {
      hide Placed, Indexed, AllViews;
      PlacedAfterUpdate(at, players, monsters, items, m, mob);
      monsters := monsters[m := mob];
    }

    /** What fieldUpdate does for a monster whose mDestSector differs from mSector. */
    method ChangeMonsterSector(m: int)
      requires Index() && Views() && m in monsters && InGrid(monsters[m].dest) && monsters[m].dest != monsters[m].sector
      requires Fits(shown, m, LookOf(monsters[m]))
      modifies this`logs, this`monsters, this`monsterSectors, this`at
      ensures Index() && Views() && monsters == old(monsters)[m := old(monsters[m]).(sector := old(monsters[m]).dest)]
    {
      hide Placed, Indexed, AllViews, Around, Deltas, Told;
      var mob, t := monsters[m], Thing(Monster, m);
      MobPlace(at, players, monsters, items, m);
      ViewKeys(players, logs, at, shown, haunts, gone);
      AroundIsNear(mob.sector);
      AroundIsNear(mob.dest);
      var spawn, despawn := CalcDespawnAndSpawn(Around(mob.dest), Around(mob.sector));
      MovedDeltas(at, t, mob.dest, spawn, despawn);
      Broadcast(spawn, None, Spawn(t, LookOf(mob)));
      Broadcast(despawn, None, Despawn(t));
      BothBroadcast(players, old(logs), logs, t, LookOf(mob), spawn, despawn);
      MobMoveViews(players, old(logs), logs, at, shown, haunts, gone, m, mob.dest, LookOf(mob), spawn, despawn);
      RefileMonster(m);
    }

    method RefileMonster(m: int)
      requires Index() && m in monsters && InGrid(monsters[m].dest) && monsters[m].dest != monsters[m].sector
      modifies this`monsters, this`monsterSectors, this`at
      ensures Index() && monsters == old(monsters)[m := old(monsters[m]).(sector := old(monsters[m]).dest)]
      ensures at == old(at)[Thing(Monster, m) := monsters[m].sector]
    {
      hide Placed, Indexed;
      var mob := monsters[m].(sector := monsters[m].dest);
      PlacedAfterMobMove(at, players, monsters, items, m, mob);
      IndexedCells(monsterSectors, MobSectors(monsters));
      MobPlace(at, players, monsters, items, m);
      ReindexedIsIndexed(monsterSectors, MobSectors(monsters), m, mob.dest);
      monsterSectors := Reindexed(monsterSectors, m, monsters[m].sector, mob.dest);
      at := at[Thing(Monster, m) := mob.dest];
      monsters := monsters[m := mob];
      assert MobSectors(monsters) == MobSectors(old(monsters))[m := mob.dest];
    }

    /** A monster that has just come back to life: everybody near its sector is told that it is gone,
        it is refiled if its mDestSector differs, and everybody near is told that it is there. */
    method Respawn(m: int)
      requires Index() && Views() && m in monsters && InGrid(monsters[m].dest)
      requires Fits(shown, m, LookOf(monsters[m]))
      modifies this`logs, this`monsters, this`monsterSectors, this`at
      ensures Index() && Views() && monsters == old(monsters)[m := old(monsters[m]).(sector := old(monsters[m]).dest)]
      ensures ToldReturn(players, old(logs), logs, Thing(Monster, m), LookOf(old(monsters[m])),
                         Around(old(monsters[m]).sector), Around(monsters[m].sector))
    {
      hide Placed, Indexed, AllViews, Around, ToldOne, ToldReturn;
      var t, look := Thing(Monster, m), LookOf(monsters[m]);
      ghost var at0, logs0 := at, logs;
      MobPlace(at, players, monsters, items, m);
      ViewKeys(players, logs, at, shown, haunts, gone);
      BroadcastAround(monsters[m].sector, Despawn(t));
      ghost var mid := logs;
      if monsters[m].sector != monsters[m].dest {
        RefileMonster(m);
      }
      assert monsters[m] == old(monsters[m]).(sector := old(monsters[m]).dest);
      assert at == at0[t := monsters[m].sector];
      BroadcastAround(monsters[m].sector, Spawn(t, look));
      RespawnViews(players, logs0, mid, logs, at0, shown, haunts, gone, m, monsters[m].sector, look);
      BothReturned(players, logs0, mid, logs, t, look, Around(old(monsters[m]).sector), Around(monsters[m].sector));
    }

    /** How far a monster is in the current tick, and that its copies at the clients agree. */
    ghost predicate Resting(m: int)
      reads this`monsters, this`shown
    {
      && m in monsters && Settled(monsters[m]) && (m in shown.moving <==> Walks(monsters[m]))
      && m in shown.facing && shown.facing[m] == monsters[m].body.direction
    }

    ghost predicate Stepping(m: int)
      reads this`monsters, this`shown
    {
      && m in monsters && MidTick(monsters[m]) && (m in shown.moving <==> M.Wandering(monsters[m].before))
      && m in shown.facing && shown.facing[m] == monsters[m].beforeDirection
    }

    ghost predicate Refiled(m: int)
      reads this`monsters, this`shown
    {
      && m in monsters && Filed(monsters[m]) && (m in shown.moving <==> M.Wandering(monsters[m].before))
      && if m in shown.facing then shown.facing[m] == monsters[m].beforeDirection
         else monsters[m].body.direction != monsters[m].beforeDirection
    }

    /** possibleChasePlayer: where the target is, if it is in play and alive. */
    method PossibleChasePlayer(target: int) returns (prey: Option<Position>)
      ensures prey == Prey(players, target)
    {
      if target !in players {
        return None;
      }
      if players[target].life.body.state == P.Dead {
        return None;
      }
      return Some(players[target].life.body.pos);
    }

    /** The first monster loop of fieldUpdate, for one monster: it takes one step, and if that has brought
        its attack to the windup frame, the closest living player in reach is hit. */
    method UpdateMonster(m: int, luck: M.Luck) returns (prey: Option<Position>, victim: Option<int>)
      requires Index() && Views() && Resting(m)
      modifies this`players, this`logs, this`monsters
      ensures Index() && Views() && Stepping(m) && prey == Prey(old(players), old(monsters[m]).body.target)
      ensures monsters == old(monsters)[m := Stepped(old(monsters[m]), prey, luck)]
      ensures if M.Strikes(monsters[m].body)
                then IsVictim(old(players), monsters[m].body.pos, monsters[m].sector, victim)
              else victim == None
      ensures players == AfterBlow(old(players), victim, monsters[m].body)
    {
      hide Placed, Indexed, AllViews, M.Updated, M.GivenUp, Settled, MidTick, SectorOf, IsVictim, AfterBlow, Lived;
      var mob := monsters[m];
      victim := None;
      prey := PossibleChasePlayer(mob.body.target);
      StepFromSettled(mob, prey, luck);
      var monster := new M.Monster(mob.body.spawnPos);
      monster.Load(mob.body);
      if mob.body.state == M.Chase {
        if prey.Some? {
          monster.mTargetPos := prey.value;
        } else {
          monster.GiveUpChase();
        }
      }
      monster.Update(luck);
      NoBlow(players, monster.Value());
      if monster.mState == M.Attack && monster.mAnimFrame == M.MONSTER_ATTACK_WINDUP_FRAME {
        MonsterSector(m);
        victim := ProcessMonsterAttackHit(monster.Value(), mob.sector);
      }
      var now := SectorOf(monster.mPos);
      var dest := if now == mob.sector then mob.dest else now;
      SetMonster(m, Mob(monster.Value(), mob.sector, dest, mob.body.state, mob.body.direction));
    }

    lemma MonsterSector(m: int)
      requires Index() && m in monsters
      ensures InGrid(monsters[m].sector)
    {
      MobPlace(at, players, monsters, items, m);
    }

    /** processMonsterAttackHit: the closest of the living players around is hit, if it is in reach, and
        everybody around that player is told. */
    method ProcessMonsterAttackHit(b: M.Body, sector: Sector) returns (victim: Option<int>)
      requires Index() && Views() && InGrid(sector)
      modifies this`players, this`logs
      ensures Index() && Views() && IsVictim(old(players), b.pos, sector, victim)
      ensures players == AfterBlow(old(players), victim, b)
      ensures if victim == None then logs == old(logs)
              else ToldBut(players, old(logs), logs, CharacterDamaged(players[victim.value].character),
                           Around(players[victim.value].current), None)
    {
      hide Index, Views, ToldBut, Around, IsVictim, P.Next;
      victim := ClosestPlayer(b.pos, sector);
      NoBlow(players, b);
      if victim == None {
        return;
      }
      var v := victim.value;
      VictimPlays(players, b.pos, sector, v);
      var player := new P.Player();
      player.Load(players[v].life.body);
      player.TakeDamage(M.MONSTER_ATTACK_DAMAGE, b.pos, b.direction);
      Live(v, Blow(b), player.Value());
      TellOfPlayer(v, CharacterDamaged(players[v].character), None);
    }

    /** The loops over the surrounding sectors and the players indexed there. */
    method ClosestPlayer(pos: Position, sector: Sector) returns (closest: Option<int>)
      requires Index() && InGrid(sector)
      ensures IsVictim(players, pos, sector, closest)
    {
      hide M.SquaredDistance, M.Squared, Around, Placed;
      closest := None;
      var near := Around(sector);
      AroundIsNear(sector);
      ghost var where := PlayerSectors(players);
      var i := 0;
      while i < |near|
        invariant 0 <= i <= |near|
        invariant IsClosest(players, pos, PlayersIn(players, near[..i]), closest)
      {
        assert near[..i + 1] == near[..i] + [near[i]];
        MembersOf(sectors, where, near[i]);
        assert forall o :: o in sectors[near[i]] <==> o in where && where[o] == near[i];
        closest := ClosestIn(pos, sectors[near[i]], PlayersIn(players, near[..i]), closest);
        assert PlayersIn(players, near[..i + 1]) == PlayersIn(players, near[..i]) + sectors[near[i]];
        i := i + 1;
      }
      assert near[..i] == near;
      PlacedInGrid(at, players, monsters, items);
      assert forall o :: o in players ==>
               InGrid(at[Self(players[o])]) && (players[o].current in near <==> Near(sector, players[o].current));
      assert PlayersIn(players, near) == PlayersNear(players, sector);
    }

    /** The inner loop. */
    method ClosestIn(pos: Position, cell: set<int>, ghost seen: set<int>, soFar: Option<int>)
      returns (closest: Option<int>)
      requires cell <= players.Keys && IsClosest(players, pos, seen, soFar)
      ensures IsClosest(players, pos, seen + cell, closest)
    {
      hide M.SquaredDistance, M.Squared;
      closest := soFar;
      var todo := cell;
      assert seen + (cell - todo) == seen;
      while todo != {}
        invariant todo <= cell && IsClosest(players, pos, seen + (cell - todo), closest)
        decreases |todo|
      {
        var o := AnyOf(todo);
        var b := players[o].life.body;
        var bound := if closest == None then M.Squared(M.MONSTER_ATTACK_RANGE)
                     else M.SquaredDistance(pos, players[closest.value].life.body.pos);
        if b.state != P.Dead && M.SquaredDistance(pos, b.pos) <= bound {
          closest := Some(o);
        }
        assert seen + (cell - (todo - {o})) == seen + (cell - todo) + {o};
        todo := todo - {o};
      }
      assert cell - todo == cell;
    }

    /** The second monster loop of fieldUpdate, for one monster. */
    method FileMonster(m: int)
      requires Index() && Views() && Stepping(m)
      modifies this`logs, this`monsters, this`monsterSectors, this`at, this`shown
      ensures Index() && Views() && Refiled(m)
      ensures monsters == old(monsters)[m := AfterFiling(old(monsters[m]))]
      ensures ChangedOnly(old(shown), shown, m)
    {
      hide Placed, Indexed, AllViews, SectorOf, M.InWorld;
      if ChangesSector(monsters[m]) {
        if monsters[m].body.direction != monsters[m].beforeDirection {
          ForgetViews(players, logs, at, shown, haunts, gone, m);
          shown := Forgotten(shown, m);
        }
        ChangeMonsterSector(m);
      }
    }

    /** monsterProc, for one monster: everybody around it is told exactly what the announcement says, or
        that it is gone and back; afterwards every copy moves exactly when the monster does. */
    method MonsterProc(m: int)
      requires Index() && Views() && Refiled(m)
      modifies this`logs, this`monsters, this`monsterSectors, this`at, this`shown
      ensures Index() && Views() && Resting(m)
      ensures monsters == old(monsters)[m := AfterProc(old(monsters[m]))]
      ensures ChangedOnly(old(shown), shown, m)
      ensures var mob := old(monsters[m]);
        if Returns(mob) then ToldReturn(players, old(logs), logs, Thing(Monster, m), LookOf(mob), Around(mob.sector),
                                        Around(mob.dest))
        else ToldAll(players, old(logs), logs, Announcement(m, mob), Around(mob.sector))
    {
      hide Index, Views, SectorOf, M.InWorld, Around, ToldAll, ToldOne, ToldReturn;
      var mob := monsters[m];
      LogKeys();
      ToldNothing(players, logs, Around(mob.sector));
      if mob.body.state == mob.before && mob.body.direction == mob.beforeDirection {
        return;
      }
      match mob.body.state {
        case Move => SendWalk(m);
        case Chase => SendWalk(m);
        case Return => SendWalk(m);
        case Attack => SendStop(m, true);
        case Idle =>
          if mob.before == M.Dead {
            Respawn(m);
          } else {
            SendStop(m, false);
          }
        case Stun =>
        case Dead =>
      }
      SetMonster(m, monsters[m].(before := mob.body.state, beforeDirection := mob.body.direction));
    }

    lemma LogKeys()
      requires Views()
      ensures players.Keys <= logs.Keys
    {
    }

    /** A start for copies that stand, a stop and a start for copies that move already. */
    method SendWalk(m: int)
      requires Index() && Views() && m in monsters && (m in shown.moving <==> M.Wandering(monsters[m].before))
      modifies this`logs, this`shown
      ensures Index() && Views()
      ensures shown == ShownAfter(old(shown), MonsterMoveStart(m, monsters[m].body.direction))
      ensures ToldAll(players, old(logs), logs, Walk(m, monsters[m]), Around(monsters[m].sector))
    {
      hide Index, Views, Around, ToldAll, ToldOne;
      ghost var near, first := Around(monsters[m].sector), logs;
      var stop, start := MonsterMoveStop(m, monsters[m].body.direction), MonsterMoveStart(m,
                                                                                          monsters[m].body.direction);
      LogKeys();
      ToldNothing(players, logs, near);
      assert [] + [stop] == [stop] && [] + [start] == [start];
      if M.Wandering(monsters[m].before) {
        SendMonsterPacket(m, stop);
        ToldMore(players, first, first, logs, [], stop, near);
        ghost var mid := logs;
        SendMonsterPacket(m, start);
        ToldMore(players, first, mid, logs, [stop], start, near);
        assert [stop] + [start] == [stop, start];
      } else {
        SendMonsterPacket(m, start);
        ToldMore(players, first, first, logs, [], start, near);
      }
    }

    /** A stop, and an attack if there is one. */
    method SendStop(m: int, attack: bool)
      requires Index() && Views() && m in monsters
      modifies this`logs, this`shown
      ensures Index() && Views()
      ensures shown == ShownAfter(old(shown), MonsterMoveStop(m, monsters[m].body.direction))
      ensures ToldAll(players, old(logs), logs,
                      StopPackets(m, monsters[m], attack),
                      Around(monsters[m].sector))
    {
      hide Index, Views, Around, ToldAll, ToldOne;
      ghost var near, first := Around(monsters[m].sector), logs;
      var stop := MonsterMoveStop(m, monsters[m].body.direction);
      LogKeys();
      ToldNothing(players, logs, near);
      assert [] + [stop] == [stop];
      SendMonsterPacket(m, stop);
      ToldMore(players, first, first, logs, [], stop, near);
      if attack {
        ghost var mid := logs;
        SendMonsterPacket(m, MonsterAttack(m));
        ToldMore(players, first, mid, logs, [stop], MonsterAttack(m), near);
        assert [stop] + [MonsterAttack(m)] == [stop, MonsterAttack(m)];
      }
    }

    // ---- items --------------------------------------------------------------------------------------

    /** rollDrop over kDropTable, for roll = rand() % 100 (numbers from 32700 on are drawn again): the
        weights add up to 100, so there is always something. */
    method RollDrop(roll: nat) returns (loot: Option<Loot>)
      requires roll < 100
      ensures loot == Some(LootOf(roll))
    {
      var table := [(Loot(Gold, 1), 50), (Loot(Gold, 5), 20), (Loot(Gold, 10), 10), (Loot(Potion, 1), 20)];
      var acc := 0;
      for k := 0 to 4
        invariant acc == (if k == 0 then 0 else if k == 1 then 50 else if k == 2 then 70 else if k == 3 then 80
                          else 100)
        invariant acc <= roll
      {
        acc := acc + table[k].1;
        if roll < acc {
          return Some(table[k].0);
        }
      }
      return None;
    }

    /** dropItem: a new ID, and an item where the monster died. */
    method DropItem(pos: Position, roll: nat)
      requires Valid() && roll < 100
      modifies this`logs, this`items, this`itemSectors, this`at, this`mItemUniqueID
      ensures Valid() && mItemUniqueID == old(mItemUniqueID) + 1 && mItemUniqueID !in old(items)
      ensures items.Keys == old(items.Keys) + {mItemUniqueID}
      ensures forall i :: i in old(items) ==> items[i] == old(items[i])
      ensures items[mItemUniqueID] == Drop(LootOf(roll), pos, SectorOf(pos), 0)
    {
      hide Placed, Indexed, AllViews, Accounted, SectorOf;
      var loot := RollDrop(roll);
      mItemUniqueID := mItemUniqueID + 1;
      NewItem(mItemUniqueID - 1, items.Keys, looted, expired);
      PlaceItem(mItemUniqueID, loot.value, pos);
      assert items.Keys == old(items.Keys) + {mItemUniqueID};
    }

    method PlaceItem(i: int, loot: Loot, pos: Position)
      requires Index() && Views() && i !in items
      modifies this`logs, this`items, this`itemSectors, this`at
      ensures Index() && Views() && items == old(items)[i := Drop(loot, pos, SectorOf(pos), 0)]
    {
      hide Placed, Indexed, AllViews, Around, ToldOne, SectorOf;
      var s := SectorOf(pos);
      ViewKeys(players, logs, at, shown, haunts, gone);
      PlacedAfterDrop(at, players, monsters, items, i, Drop(loot, pos, s, 0));
      IndexedCells(itemSectors, DropSectors(items));
      IndexedAfterEntry(itemSectors, DropSectors(items), i, s);
      ghost var at0, logs0 := at, logs;
      items := items[i := Drop(loot, pos, s, 0)];
      itemSectors := itemSectors[s := itemSectors[s] + {i}];
      at := at[Thing(Item, i) := s];
      assert DropSectors(items) == DropSectors(old(items))[i := s];
      BroadcastAround(s, Spawn(Thing(Item, i), STILL));
      AppearanceViews(players, logs0, logs, at0, shown, haunts, gone, i, s);
    }

    /** An item leaves the ground: despawn around it, both indexes forget it. */
    method RemoveItem(i: int)
      requires Index() && Views() && i in items
      modifies this`logs, this`items, this`itemSectors, this`at
      ensures Index() && Views() && items == old(items) - {i}
    {
      hide Placed, Indexed, AllViews, Around, ToldOne;
      var s := items[i].sector;
      DropPlace(at, players, monsters, items, i);
      ViewKeys(players, logs, at, shown, haunts, gone);
      AroundIsNear(s);
      BroadcastAround(s, Despawn(Thing(Item, i)));
      ItemGoneViews(players, old(logs), logs, at, shown, haunts, gone, i);
      PlacedWithoutItem(at, players, monsters, items, i);
      IndexedWithout(itemSectors, DropSectors(items), i);
      itemSectors := itemSectors[s := itemSectors[s] - {i}];
      items := items - {i};
      at := at - {Thing(Item, i)};
      assert DropSectors(items) == DropSectors(old(items)) - {i};
    }

    /** handleLootReq: an item is looted once, by a player within LOOT_RANGE of it, who gets all of it. */
    method HandleLootReq(o: int, i: int) returns (ok: bool)
      requires Valid() && o in players
      modifies this`players, this`logs, this`items, this`itemSectors, this`at, this`mTotalRootItemCount, this`looted
      ensures Valid()
      ensures ok <==>
                && i in old(items)
                && M.SquaredDistance(old(players[o]).life.body.pos, old(items[i]).pos) <= M.Squared(LOOT_RANGE)
      ensures items == if ok then old(items) - {i} else old(items)
      ensures looted == if ok then old(looted) + {i} else old(looted)
      ensures ok ==> i !in old(looted)
      ensures players == if ok then old(players)[o := Richer(old(players[o]), old(items[i]).loot)] else old(players)
    {
      hide Index, Views, Ledger, Richer, M.SquaredDistance, M.Squared;
      if i !in items {
        return false;
      }
      if M.Squared(LOOT_RANGE) < M.SquaredDistance(players[o].life.body.pos, items[i].pos) {
        return false;
      }
      GiveLoot(o, items[i].loot);
      LootItem(i);
      return true;
    }

    method GiveLoot(o: int, loot: Loot)
      requires Index() && Views() && o in players
      modifies this`players
      ensures Index() && Views() && players == old(players)[o := Richer(old(players[o]), loot)]
    {
      hide Index, Views;
      DestInGrid(o);
      SetPlayer(o, Richer(players[o], loot));
    }

    method LootItem(i: int)
      requires Valid() && i in items
      modifies this`logs, this`items, this`itemSectors, this`at, this`mTotalRootItemCount, this`looted
      ensures Valid() && items == old(items) - {i} && looted == old(looted) + {i} && i !in old(looted)
    {
      hide Placed, Indexed, AllViews, Accounted;
      LeavesGround(mItemUniqueID, items.Keys, looted, expired, i);
      RemoveItem(i);
      looted := looted + {i};
      mTotalRootItemCount := mTotalRootItemCount + 1;
    }

    /** The item loop of fieldUpdate, for one item: Update, and removal when it is expired. */
    method UpdateItem(i: int)
      requires Valid() && i in items
      modifies this`logs, this`items, this`itemSectors, this`at, this`expired
      ensures Valid()
      ensures var d := old(items[i]).(life := old(items[i].life) + 1);
        items == if d.life >= ITEM_DESPAWN_FRAME then old(items) - {i} else old(items)[i := d]
      ensures expired == old(expired) + if old(items[i].life) + 1 >= ITEM_DESPAWN_FRAME then {i} else {}
    {
      hide Placed, Indexed, AllViews, Accounted;
      var d := items[i].(life := items[i].life + 1);
      PlacedAfterAging(at, players, monsters, items, i, d);
      assert items[i := d].Keys == items.Keys;
      items := items[i := d];
      if d.life >= ITEM_DESPAWN_FRAME {
        LeavesGround(mItemUniqueID, items.Keys, looted, expired, i);
        RemoveItem(i);
        expired := expired + {i};
        assert items == old(items) - {i};
      }
    }

    // ---- hits ---------------------------------------------------------------------------------------

    /** New values for a player that stays where it is filed. */
    method SetPlayer(o: int, a: Avatar)
      requires Index() && Views() && o in players
      requires Self(a) == Self(players[o]) && a.current == players[o].current && InGrid(a.dest)
      modifies this`players
      ensures Index() && Views() && players == old(players)[o := a]
    {
      hide Placed, Indexed, ViewOk;
      PlayerPlace(at, players, monsters, items, o);
      PlacedAfterMove(at, players, monsters, items, o, a);
      assert at[Self(a) := a.current] == at;
      OneMoreView(players, logs, at, shown, haunts, gone, o, a);
      players := players[o := a];
      assert PlayerSectors(players) == PlayerSectors(old(players));
    }

    /** New values for a player whose body has changed by event e. */
    method Live(o: int, e: P.Event, b: P.Body)
      requires Index() && Views() && o in players && b == P.After(players[o].life.body, e)
      modifies this`players
      ensures Index() && Views() && players == old(players)[o := Lived(old(players[o]), e)]
    {
      hide Index, Views;
      DestInGrid(o);
      SetPlayer(o, players[o].(life := P.Recorded(players[o].life, e, b)));
    }

    /** broadcastMoveStart, broadcastMoveStop and broadcastPlayerAttack, which leave out the player itself,
        and broadcastCharacterDamaged. */
    method TellOfPlayer(o: int, p: Packet, except: Option<int>)
      requires Index() && Views() && o in players
      requires var c := players[o].character;
        if except == Some(o) then p == CharacterMoveStart(c) || p == CharacterMoveStop(c) || p == CharacterAttack(c)
        else except == None && p == CharacterDamaged(c)
      modifies this`logs
      ensures Index() && Views() && ToldBut(players, old(logs), logs, p, Around(players[o].current), except)
    {
      hide Placed, Indexed, AllViews, Around;
      PlacedInGrid(at, players, monsters, items);
      PlayerPlace(at, players, monsters, items, o);
      ViewKeys(players, logs, at, shown, haunts, gone);
      AroundIsNear(players[o].current);
      Broadcast(Around(players[o].current), except, p);
      CharacterPacketViews(players, old(logs), logs, at, shown, haunts, gone, o, p, except);
    }

    // ---- the messages of players ------------------------------------------------------------------------

    /** handleMoveStart: the player starts to move, and all others around are told; or its message is not
        heard; or it has drifted too far and is disconnected. */
    method HandleMoveStart(o: int, pos: Position, direction: M.Direction, speed: real)
      returns (disconnect: bool, asserted: bool)
      requires Index() && Views() && o in players && players[o].life.body.connected
      modifies this`players, this`logs
      ensures Index() && Views() && players == old(players)[o := Lived(old(players[o]), P.Start(pos, direction))]
      ensures var h := P.Started(old(players[o]).life.body, pos, direction);
        && (disconnect <==> h.verdict == P.Rejected)
        && (asserted <==>
              || (h.verdict == P.Rejected && !P.EarlyInAttack(old(players[o]).life.body))
              || (h.verdict == P.Accepted && speed != P.SPEED))
        && if h.verdict != P.Accepted then logs == old(logs)
           else ToldBut(players, old(logs), logs, CharacterMoveStart(players[o].character),
                        Around(players[o].current), Some(o))
    {
      hide Index, Views, ToldBut, Around, P.Started;
      var player := new P.Player();
      player.Load(players[o].life.body);
      var verdict;
      verdict, asserted := player.HandleMoveStart(pos, direction, speed);
      Live(o, P.Start(pos, direction), player.Value());
      if verdict == P.Accepted {
        TellOfPlayer(o, CharacterMoveStart(players[o].character), Some(o));
      }
      return verdict == P.Rejected, asserted;
    }

    /** handleMoveStop. */
    method HandleMoveStop(o: int, pos: Position, direction: M.Direction) returns (disconnect: bool, asserted: bool)
      requires Index() && Views() && o in players && players[o].life.body.connected
      modifies this`players, this`logs
      ensures Index() && Views() && players == old(players)[o := Lived(old(players[o]), P.Stop(pos, direction))]
      ensures var h := P.Stopped(old(players[o]).life.body, pos, direction);
        && (disconnect <==> h.verdict == P.Rejected)
        && (asserted <==> h.verdict != P.Ignored && !M.InWorld(pos))
        && if h.verdict != P.Accepted then logs == old(logs)
           else ToldBut(players, old(logs), logs, CharacterMoveStop(players[o].character), Around(players[o].current),
                        Some(o))
    {
      hide Index, Views, ToldBut, Around, P.Stopped;
      var player := new P.Player();
      player.Load(players[o].life.body);
      var verdict;
      verdict, asserted := player.HandleMoveStop(pos, direction);
      Live(o, P.Stop(pos, direction), player.Value());
      if verdict == P.Accepted {
        TellOfPlayer(o, CharacterMoveStop(players[o].character), Some(o));
      }
      return verdict == P.Rejected, asserted;
    }

    /** handleAttackReq: a skill that does not exist or more than one target disconnects; an attack that can
        start is announced to all others around, and its targets are remembered. threw: the message holds
        fewer targets than it announces, which is found after that. */
    method HandleAttackReq(o: int, skill: int, targetCnt: int, ids: seq<int>) returns (disconnect: bool, threw: bool)
      requires Index() && Views() && o in players && players[o].life.body.connected
      modifies this`players, this`logs
      ensures Index() && Views() && (disconnect <==> skill != 0 || targetCnt > 1)
      ensures threw <==> !disconnect && P.CanSwing(old(players[o]).life.body) && |ids| < targetCnt
      ensures var a := old(players[o]);
        if disconnect || !P.CanSwing(a.life.body) then players == old(players) && logs == old(logs)
        else
          && players == old(players)[o := Lived(a, P.Swing).(skill := skill, targets := Listed(ids, targetCnt))]
          && ToldBut(players, old(logs), logs, CharacterAttack(a.character), Around(a.current), Some(o))
    {
      hide Index, Views, ToldBut, Around;
      if skill != 0 || targetCnt > 1 {
        return true, false;
      }
      var player := new P.Player();
      player.Load(players[o].life.body);
      var told := player.StartAttack();
      if !told {
        return false, false;
      }
      Live(o, P.Swing, player.Value());
      DestInGrid(o);
      SetPlayer(o, players[o].(skill := skill, targets := Listed(ids, targetCnt)));
      TellOfPlayer(o, CharacterAttack(players[o].character), Some(o));
      return false, |ids| < targetCnt;
    }

    /** onRelease clears mBConnect. */
    method LoseConnection(o: int)
      requires Index() && Views() && o in players
      modifies this`players
      ensures Index() && Views() && players == old(players)[o := Lived(old(players[o]), P.Lost)]
    {
      hide Index, Views;
      Live(o, P.Lost, players[o].life.body.(connected := false));
    }

    // ---- a player's attack ------------------------------------------------------------------------------

    /** One hit of processPlayerAttackHit: the monster is stunned or dies, and everybody around it is
        told. */
    method HitMonster(m: int, o: int)
      requires Index() && Views() && Resting(m) && monsters[m].body.state != M.Dead && o in players
      modifies this`monsters, this`logs, this`shown, this`deaths
      ensures Index() && Views() && Resting(m)
      ensures deaths == old(deaths) + if monsters[m].body.state == M.Dead then 1 else 0
      ensures ToldOne(players, old(logs), logs, MonsterDamaged(m, monsters[m].body.direction),
                      Around(monsters[m].sector))
      ensures monsters == old(monsters)[m := AfterHit(old(monsters[m]), players[o].life.body, o)]
      ensures ChangedOnly(old(shown), shown, m)
    {
      hide Index, Views, SectorOf, Around, ToldOne, M.DirectionTo;
      var mob, b := monsters[m], players[o].life.body;
      var monster := new M.Monster(mob.body.spawnPos);
      monster.Load(mob.body);
      monster.TakeDamage(PLAYER_ATTACK_DAMAGE, b.pos, b.direction, o);
      hide M.DirectionVector;
      SetMonster(m, mob.(body := monster.Value()));
      SendMonsterPacket(m, MonsterDamaged(m, monsters[m].body.direction));
      deaths := deaths + if monsters[m].body.state == M.Dead then 1 else 0;
    }

    /** Between ticks: every monster rests, and the attacks of every player add up. */
    ghost predicate Rest()
      reads this`players, this`monsters, this`shown
    {
      && (forall m :: m in monsters ==> Resting(m))
      && (forall o :: o in players ==> Fit(players[o]))
    }

    /** The validity check of processPlayerAttackHit, which erases targets in place. */
    method ValidTargets(targets: seq<int>) returns (kept: seq<int>)
      ensures kept == StillValid(targets, monsters)
    {
      hide StillValid;
      NoTarget(targets, monsters);
      kept := targets;
      var i, passed := 0, 0;
      while i < |kept|
        invariant 0 <= i <= |kept| && passed <= |targets| && kept[i..] == targets[passed..]
        invariant kept[..i] == StillValid(targets[..passed], monsters)
        decreases |targets| - passed
      {
        assert kept[i] == kept[i..][0] == targets[passed] && kept[i + 1..] == targets[passed + 1..];
        OneMoreTarget(targets, passed, monsters);
        ghost var prior := kept;
        if kept[i] !in monsters || monsters[kept[i]].body.state == M.Dead || monsters[kept[i]].body.state == M.Return {
          kept := Erase(kept, i);
          assert kept[..i] == prior[..i] && kept[i..] == prior[i + 1..];
        } else {
          assert kept[..i + 1] == kept[..i] + [kept[i]];
          i := i + 1;
        }
        passed := passed + 1;
      }
      assert kept[..i] == kept && targets[..passed] == targets;
    }

    /** processPlayerAttackHit: targets that are gone, dead or on their way home are forgotten; the one that
        may be left is hit if it is in range. If that kills it, one kill-count job is queued for the player
        and one item dropped. */
    method ProcessPlayerAttackHit(o: int, roll: nat)
      requires Valid() && Rest() && o in players && roll < 100
      modifies this`players, this`monsters, this`logs, this`shown, this`deaths, this`killJobs,
               this`items, this`itemSectors, this`at, this`mItemUniqueID
      ensures Valid() && Rest() && monsters.Keys == old(monsters.Keys)
      ensures players == old(players)[o := Aimed(old(players[o]), old(monsters))]
      ensures var target := Target(old(players[o]), old(monsters));
        && monsters == (if target == None then old(monsters)
                        else old(monsters)[target.value :=
                                             AfterHit(old(monsters[target.value]), players[o].life.body, o)])
        && killJobs == old(killJobs)
                     + if target != None && monsters[target.value].body.state == M.Dead then [players[o].character]
                       else []
      ensures forall m :: m in monsters ==>
                monsters[m] == if CanHit(old(players[o]), m, old(monsters))
                               then AfterHit(old(monsters[m]), players[o].life.body, o) else old(monsters[m])
      ensures Casualties(old(monsters), monsters, |old(killJobs)|, |killJobs|)
      ensures Fallen(old(items), items, |old(killJobs)|, |killJobs|)
    {
      hide Index, Views, Ledger, Resting, Casualties, Fallen, M.SquaredDistance, M.Squared, AfterHit, P.Balanced,
        CanHit;
      forall m
        ensures Target(players[o], monsters) == Some(m) <==> CanHit(players[o], m, monsters)
      {
        TargetIsExact(players[o], monsters, m);
      }
      NoHit(monsters, |killJobs|);
      NothingFallen(items, |killJobs|);
      if players[o].skill != 0 {
        return;
      }
      var targets := ValidTargets(players[o].targets);
      KeptAreValid(players[o].targets, monsters);
      DestInGrid(o);
      SetPlayer(o, players[o].(targets := targets));
      if |targets| == 0 {
        return;
      }
      var m := targets[0];
      if M.SquaredDistance(players[o].life.body.pos, monsters[m].body.pos) > M.Squared(ATTACK_RANGE) {
        return;
      }
      Strike(o, m, roll);
    }

    /** The hit and, if it kills, the job and the drop. */
    method Strike(o: int, m: int, roll: nat)
      requires Valid() && Rest() && o in players && roll < 100
      requires m in monsters && monsters[m].body.state != M.Dead
      modifies this`monsters, this`logs, this`shown, this`deaths, this`killJobs,
               this`items, this`itemSectors, this`at, this`mItemUniqueID
      ensures Valid() && Rest() && monsters == old(monsters)[m := AfterHit(old(monsters[m]), players[o].life.body, o)]
      ensures killJobs == old(killJobs) + if monsters[m].body.state == M.Dead then [players[o].character] else []
      ensures Casualties(old(monsters), monsters, |old(killJobs)|, |killJobs|)
      ensures Fallen(old(items), items, |old(killJobs)|, |killJobs|)
    {
      hide Valid, Rest, Casualties, Fallen, AfterHit, NewlyDead;
      NothingFallen(items, |killJobs|);
      HitAndCount(o, m);
      OneHit(old(monsters), monsters, m, |old(killJobs)|);
      if monsters[m].body.state == M.Dead {
        DropItem(monsters[m].body.pos, roll);
        OneFallen(old(items), items, mItemUniqueID, |old(killJobs)|);
      }
    }

    /** The hit and, if it kills, the job. */
    method HitAndCount(o: int, m: int)
      requires Valid() && Rest() && o in players && m in monsters && monsters[m].body.state != M.Dead
      modifies this`monsters, this`logs, this`shown, this`deaths, this`killJobs
      ensures Valid() && Rest() && monsters == old(monsters)[m := AfterHit(old(monsters[m]), players[o].life.body, o)]
      ensures killJobs == old(killJobs) + if monsters[m].body.state == M.Dead then [players[o].character] else []
    {
      hide Index, Views, Accounted, Settled, AfterHit, ToldOne, Fit;
      HitMonster(m, o);
      if monsters[m].body.state == M.Dead {
        killJobs := killJobs + [players[o].character];
      }
    }

    // ---- a player's end, and the tick -----------------------------------------------------------------

    /** The end of a player, once its position has been saved: it is taken out of the sector index and
        of the players. No despawn is sent, here or when the disconnection is noticed. */
    method RemovePlayer(o: int)
      requires Index() && Views() && o in players
      modifies this`players, this`sectors, this`at, this`haunts, this`gone, this`history
      ensures Index() && Views() && players == old(players) - {o}
      ensures history == old(history) + [Leaves(old(players), o)] && haunts.Keys == old(haunts.Keys)
      ensures gone == old(gone) + {Self(old(players[o]))}
      ensures forall p :: p in players ==>
                haunts[p] == old(haunts[p])
                           + if Near(players[p].current, old(players[o]).current) then {Self(old(players[o]))} else {}
    {
      hide Placed, Indexed, AllViews;
      ghost var a := players[o];
      PlacedInGrid(at, players, monsters, items);
      ViewKeys(players, logs, at, shown, haunts, gone);
      FewerViews(players, logs, at, shown, haunts, gone, o);
      RemovalViews(players - {o}, logs, at, shown, haunts, gone, a);
      haunts := Haunted(players - {o}, haunts, a);
      gone, history := gone + {Self(a)}, history + [Leaves(players, o)];
      UnfilePlayer(o);
    }

    method UnfilePlayer(o: int)
      requires Index() && o in players
      modifies this`players, this`sectors, this`at
      ensures Index() && players == old(players) - {o} && at == old(at) - {Self(old(players[o]))}
    {
      hide Placed, Indexed;
      var a := players[o];
      PlacedWithoutPlayer(at, players, monsters, items, o);
      IndexedWithout(sectors, PlayerSectors(players), o);
      sectors := sectors[a.current := sectors[a.current] - {o}];
      at := at - {Self(a)};
      players := players - {o};
      assert PlayerSectors(players) == PlayerSectors(old(players)) - {o};
    }

    /** The player's own update; whether it has brought an attack to the windup frame. */
    method AdvancePlayer(o: int) returns (swings: bool)
      requires Valid() && Rest() && o in players
      modifies this`players
      ensures Valid() && Rest() && players == old(players)[o := Lived(old(players[o]), P.Frame)]
      ensures swings <==> P.Lands(players[o].life.body)
    {
      hide Index, Views, Ledger, Resting, Fit, P.After, P.Updated;
      FrameIs(players[o].life);
      FitKept(players[o], P.Frame);
      var player := new P.Player();
      player.Load(players[o].life.body);
      player.Update();
      Live(o, P.Frame, player.Value());
      return player.mState == P.Attack && player.mAnimFrame == P.PLAYER_ATTACK_AWINDUP_FRAME;
    }

    /** updateSectorChechk. */
    method UpdateSectorCheck(o: int)
      requires Valid() && Rest() && o in players && players[o].dest == players[o].current
      modifies this`players
      ensures Valid() && Rest()
      ensures players == old(players)[o := old(players[o]).(dest := SectorOf(old(players[o]).life.body.pos))]
    {
      hide Index, Views, Ledger, Resting, SectorOf, Fit;
      DestInGrid(o);
      var s := SectorOf(players[o].life.body.pos);
      FitAfter(players[o], players[o].(dest := s));
      SetPlayer(o, players[o].(dest := if s == players[o].current then players[o].dest else s));
    }

    /** The first player loop of fieldUpdate, for one player. */
    method UpdatePlayer(o: int, roll: nat)
      requires Valid() && Rest() && Credit() && o in players && players[o].dest == players[o].current && roll < 100
      modifies this`players, this`monsters, this`logs, this`shown, this`deaths, this`killJobs,
               this`items, this`itemSectors, this`at, this`mItemUniqueID
      ensures Valid() && Rest() && Credit() && monsters.Keys == old(monsters.Keys)
      ensures Casualties(old(monsters), monsters, |old(killJobs)|, |killJobs|)
      ensures Fallen(old(items), items, |old(killJobs)|, |killJobs|)
      ensures FramePassed(old(players), players, o)
    {
      hide Valid, Rest, SectorOf, Casualties, Fallen, Credited, Target, AfterHit, Aimed, P.Next;
      NoHit(monsters, |killJobs|);
      NothingFallen(items, |killJobs|);
      CharactersDiffer(o);
      FrameIs(players[o].life);
      ghost var a, b := players[o], Lived(players[o], P.Frame);
      AimedIs(b, monsters);
      var swings := AdvancePlayer(o);
      if swings {
        ProcessPlayerAttackHit(o, roll);
      }
      ghost var job := killJobs[|old(killJobs)|..];
      assert killJobs == old(killJobs) + job;
      UpdateSectorCheck(o);
      CreditEarned(old(players), players, old(killJobs), job, gone, o);
    }

    lemma CharactersDiffer(o: int)
      requires Valid() && o in players
      ensures forall p :: p in players && p != o ==> players[p].character != players[o].character
    {
      PlacedInGrid(at, players, monsters, items);
    }

    lemma DestInGrid(o: int)
      requires Index() && o in players
      ensures InGrid(players[o].dest)
    {
      PlacedInGrid(at, players, monsters, items);
    }

    /** The first player loop of fieldUpdate. */
    method UpdatePlayers(rolls: int -> nat)
      requires Valid() && Rest() && Credit() && forall o :: o in players ==> players[o].dest == players[o].current
      modifies this`players, this`monsters, this`logs, this`shown, this`deaths, this`killJobs,
               this`items, this`itemSectors, this`at, this`mItemUniqueID
      ensures Valid() && Rest() && Credit() && players.Keys == old(players.Keys) && monsters.Keys == old(monsters.Keys)
      ensures Casualties(old(monsters), monsters, |old(killJobs)|, |killJobs|)
      ensures Fallen(old(items), items, |old(killJobs)|, |killJobs|)
      ensures FramesPassed(old(players), players, players.Keys)
    {
      hide *;
      ghost var mobs, ground, jobs := monsters, items, |killJobs|;
      NoHit(mobs, jobs);
      NothingFallen(ground, jobs);
      NoFramePassed(players);
      var todo := players.Keys;
      ghost var done := {};
      while todo != {}
        invariant done <= players.Keys == old(players.Keys) && todo == players.Keys - done
        invariant monsters.Keys == mobs.Keys && Valid() && Rest() && Credit()
        invariant Casualties(mobs, monsters, jobs, |killJobs|) && Fallen(ground, items, jobs, |killJobs|)
        invariant FramesPassed(old(players), players, done)
        decreases |todo|
      {
        var o := AnyOf(todo);
        ghost var mid := players;
        OneFramePasses(old(players), mid, done, o);
        UpdateOne(o, rolls(o) % 100, mobs, ground, jobs);
        done, todo := done + {o}, todo - {o};
      }
      assert done == players.Keys;
    }

    /** A round of the loop: what has died and fallen so far adds up. */
    method UpdateOne(o: int, roll: nat,
                     ghost mobs: map<int, Mob>, ghost ground: map<int, Drop>, ghost jobs: nat)
      requires Valid() && Rest() && Credit() && o in players && players[o].dest == players[o].current && roll < 100
      requires Casualties(mobs, monsters, jobs, |killJobs|) && Fallen(ground, items, jobs, |killJobs|)
      modifies this`players, this`monsters, this`logs, this`shown, this`deaths, this`killJobs,
               this`items, this`itemSectors, this`at, this`mItemUniqueID
      ensures Valid() && Rest() && Credit() && monsters.Keys == old(monsters.Keys)
      ensures Casualties(mobs, monsters, jobs, |killJobs|) && Fallen(ground, items, jobs, |killJobs|)
      ensures FramePassed(old(players), players, o) && players.Keys == old(players.Keys)
    {
      hide Valid, Rest, Credit, FrameOver, Casualties, Fallen;
      ghost var mid, lying, before := monsters, items, |killJobs|;
      UpdatePlayer(o, roll);
      MoreHits(mobs, mid, monsters, jobs, before, |killJobs|);
      MoreFallen(ground, lying, items, jobs, before, |killJobs|);
    }

    /** The second player loop of fieldUpdate, for one player. */
    method MovePlayer(o: int)
      requires Valid() && Rest() && o in players
      modifies this`players, this`sectors, this`logs, this`at
      ensures Valid() && Rest() && players == old(players)[o := old(players[o]).(current := old(players[o]).dest)]
    {
      hide Index, Views, Ledger, Resting;
      if players[o].current != players[o].dest {
        RestingIsShown();
        ChangePlayerSector(o);
      }
    }

    /** The second player loop of fieldUpdate. */
    method MovePlayers()
      requires Valid() && Rest()
      modifies this`players, this`sectors, this`logs, this`at
      ensures Valid() && Rest() && players.Keys == old(players.Keys)
      ensures forall o :: o in players ==> players[o] == old(players[o]).(current := old(players[o]).dest)
    {
      hide Valid, Rest;
      var todo := players.Keys;
      while todo != {}
        invariant todo <= players.Keys == old(players.Keys)
        invariant Valid() && Rest()
        invariant forall o :: o in players ==>
                    players[o] == old(players[o]).(current := if o in todo then old(players[o]).current
                                                              else old(players[o]).dest)
        decreases |todo|
      {
        var o := AnyOf(todo);
        MovePlayer(o);
        todo := todo - {o};
      }
    }

    lemma RestingIsShown()
      requires Views() && forall m :: m in monsters ==> Resting(m)
      ensures shown == CopiesOf(monsters)
    {
      hide Settled;
      forall m | m in monsters
        ensures m in shown.facing && shown.facing[m] == monsters[m].body.direction
        ensures m in shown.moving <==> m in Walking(monsters)
      {
        assert Resting(m);
      }
      assert shown.facing == CopiesOf(monsters).facing;
      assert shown.moving == CopiesOf(monsters).moving;
    }

    lemma RestFacts()
      requires Rest()
      ensures Halfway({}) && forall m :: m in monsters ==> Settled(monsters[m])
      ensures forall o :: o in players ==> Fit(players[o])
    {
    }

    /** During the first monster loop. */
    ghost predicate Halfway(done: set<int>)
      reads this`monsters, this`shown
    {
      forall m :: m in monsters ==> if m in done then Stepping(m) else Resting(m)
    }

    lemma HalfwayEnds()
      requires Halfway(monsters.Keys)
      ensures forall m :: m in monsters ==> Stepping(m)
    {
    }

    /** A round of the first monster loop. */
    method StepMonster(m: int, luck: M.Luck, ghost was: map<int, Avatar>, ghost hits: map<int, seq<P.Event>>,
                       ghost done: set<int>)
      returns (ghost prey: Option<Position>, ghost after: map<int, seq<P.Event>>)
      requires Valid() && m in monsters && m !in done && Halfway(done) && Battered(was, players, hits, monsters, done)
      modifies this`players, this`logs, this`monsters
      ensures Valid() && Halfway(done + {m}) && monsters == old(monsters)[m := Stepped(old(monsters[m]), prey, luck)]
      ensures Battered(was, players, after, monsters, done + {m})
                && SawPrey(prey, old(monsters[m]).body.target, was, after)
      ensures forall p, target :: SawPrey(p, target, was, hits) ==> SawPrey(p, target, was, after)
    {
      hide Index, Views, Ledger, Settled, MidTick, Stepped, SawPrey, Battered, Battering, IsVictim, AfterBlow,
        M.Strikes, Prey;
      var target := monsters[m].body.target;
      SawNow(was, players, hits, monsters, done, target);
      ghost var before, mobs := players, monsters;
      var seen, victim := UpdateMonster(m, luck);
      prey := seen;
      BlowLands(was, before, hits, mobs, done, m, monsters[m], victim);
      after := Battering(hits, victim, monsters[m].body);
      forall p, t | SawPrey(p, t, was, hits)
        ensures SawPrey(p, t, was, after)
      {
        SawStays(p, t, was, hits, victim, monsters[m].body);
      }
    }

    /** The first monster loop of fieldUpdate. prey: where each monster saw its target. hits: the blows that
        each player took, in order. */
    method UpdateMonsters(luck: int -> M.Luck)
      returns (ghost hits: map<int, seq<P.Event>>, ghost prey: map<int, Option<Position>>)
      requires Valid() && Rest()
      modifies this`players, this`logs, this`monsters
      ensures Valid() && monsters.Keys == old(monsters.Keys)
      ensures Battered(old(players), players, hits, monsters, monsters.Keys)
      ensures Walked(old(monsters), monsters, prey, luck, old(players), hits, monsters.Keys)
      ensures forall m :: m in monsters ==> Stepping(m)
    {
      hide *;
      RestFacts();
      hits, prey := map o | o in players :: [], map[];
      NotBattered(players, monsters);
      NoneWalked(monsters, luck, players, hits);
      var todo := monsters.Keys;
      ghost var done := {};
      while todo != {}
        invariant done <= monsters.Keys == old(monsters.Keys) && todo == monsters.Keys - done && Valid()
        invariant Battered(old(players), players, hits, monsters, done)
        invariant Walked(old(monsters), monsters, prey, luck, old(players), hits, done)
        invariant Halfway(done)
        decreases |todo|
      {
        var m := AnyOf(todo);
        ghost var mobs, hits0 := monsters, hits;
        ghost var saw;
        saw, hits := StepMonster(m, luck(m), old(players), hits, done);
        OneWalks(old(monsters), mobs, prey, luck, old(players), hits0, hits, done, m, saw);
        prey := prey[m := saw];
        done, todo := done + {m}, todo - {m};
      }
      assert done == monsters.Keys;
      HalfwayEnds();
    }

    /** The second monster loop of fieldUpdate. */
    method FileMonsters()
      requires Valid() && forall m :: m in monsters ==> Stepping(m)
      modifies this`logs, this`monsters, this`monsterSectors, this`at, this`shown
      ensures Valid() && monsters.Keys == old(monsters.Keys)
      ensures forall m :: m in monsters ==> Refiled(m) && monsters[m] == AfterFiling(old(monsters[m]))
    {
      hide Index, Views, Ledger, AllViews, Accounted, MidTick, Filed, AfterFiling;
      var todo := monsters.Keys;
      while todo != {}
        invariant todo <= monsters.Keys == old(monsters.Keys) && Valid()
        invariant forall m :: m in monsters ==> if m in todo then Stepping(m) else Refiled(m)
        invariant forall m :: m in monsters ==>
                    monsters[m] == if m in todo then old(monsters[m]) else AfterFiling(old(monsters[m]))
        decreases |todo|
      {
        var m := AnyOf(todo);
        FileMonster(m);
        todo := todo - {m};
      }
    }

    /** The item loop of fieldUpdate. */
    method UpdateItems()
      requires Valid()
      modifies this`logs, this`items, this`itemSectors, this`at, this`expired
      ensures Valid() && Aged(old(items), items)
    {
      hide Index, Views, Ledger, AllViews, Accounted;
      var todo := items.Keys;
      while todo != {}
        invariant todo <= old(items.Keys) && Valid()
        invariant forall i :: i in todo ==> i in items && items[i] == old(items[i])
        invariant forall i :: i in items && i !in todo ==>
                    i in old(items) && items[i] == old(items[i]).(life := old(items[i].life) + 1)
        invariant forall i :: i !in todo ==>
                    (i in items <==> i in old(items) && old(items[i].life) + 1 < ITEM_DESPAWN_FRAME)
        decreases |todo|
      {
        var i := AnyOf(todo);
        UpdateItem(i);
        todo := todo - {i};
      }
    }

    /** During monsterProc. */
    ghost predicate Proceeding(todo: set<int>)
      reads this`monsters, this`shown
    {
      forall m :: m in monsters ==> if m in todo then Refiled(m) else Resting(m)
    }

    /** A round of monsterProc. */
    method ProcOne(m: int, ghost todo: set<int>)
      requires Valid() && m in monsters && m in todo && Proceeding(todo)
      modifies this`logs, this`monsters, this`monsterSectors, this`at, this`shown
      ensures Valid() && Proceeding(todo - {m}) && monsters == old(monsters)[m := AfterProc(old(monsters[m]))]
    {
      hide Index, Views, Ledger, Filed, Settled, AfterProc;
      MonsterProc(m);
    }

    /** monsterProc. */
    method ProcMonsters()
      requires Valid() && forall m :: m in monsters ==> Refiled(m)
      modifies this`logs, this`monsters, this`monsterSectors, this`at, this`shown
      ensures Valid() && monsters.Keys == old(monsters.Keys)
      ensures forall m :: m in monsters ==> Resting(m) && monsters[m] == AfterProc(old(monsters[m]))
    {
      hide Valid, Resting, Refiled, AfterProc;
      var todo := monsters.Keys;
      while todo != {}
        invariant todo <= monsters.Keys == old(monsters.Keys) && Valid()
        invariant Proceeding(todo)
        invariant forall m :: m in monsters ==>
                    monsters[m] == if m in todo then old(monsters[m]) else AfterProc(old(monsters[m]))
        decreases |todo|
      {
        var m := AnyOf(todo);
        ProcOne(m, todo);
        todo := todo - {m};
      }
    }

    /** One message of playerProc. */
    method Hear(o: int, r: Request)
      requires Valid() && forall p :: p in players ==> Fit(players[p])
      modifies this`players, this`logs, this`items, this`itemSectors, this`at, this`mTotalRootItemCount, this`looted
      ensures Valid() && players.Keys == old(players.Keys)
      ensures forall p :: p in players ==>
                Fit(players[p]) && Talked(old(players[p]), players[p], if p == o then Meaning(r) else [])
      ensures forall i :: i in items ==> i in old(items) && items[i] == old(items[i])
    {
      hide Index, Views, Ledger, Fit, ToldBut, P.Started, P.Stopped, P.Next, M.SquaredDistance, M.Squared;
      NothingSaid(players);
      if o !in players {
        return;
      }
      ghost var a := players[o];
      Said(a, r);
      if r.ConnectionLost? {
        LoseConnection(o);
      } else if players[o].life.body.connected {
        match r {
          case StartReq(pos, direction, speed) =>
            var disconnect, asserted := HandleMoveStart(o, pos, direction, speed);
          case StopReq(pos, direction) =>
            var disconnect, asserted := HandleMoveStop(o, pos, direction);
          case AttackReq(skill, targetCnt, ids) =>
            var disconnect, threw := HandleAttackReq(o, skill, targetCnt, ids);
            FitAfter(Lived(a, P.Swing), players[o]);
          case LootReq(i) =>
            var ok := HandleLootReq(o, i);
            FitAfter(a, players[o]);
        }
      }
    }

    /** playerProc: the messages of all players that are still connected. */
    method PlayerProc(talk: seq<(int, Request)>)
      requires Valid() && forall o :: o in players ==> Fit(players[o])
      modifies this`players, this`logs, this`items, this`itemSectors, this`at, this`mTotalRootItemCount, this`looted
      ensures Valid() && players.Keys == old(players.Keys)
      ensures forall o :: o in players ==> Fit(players[o]) && Talked(old(players[o]), players[o], EventsOf(o, talk))
      ensures forall i :: i in items ==> i in old(items) && items[i] == old(items[i])
    {
      hide Valid, Fit, Talked, Meaning;
      NothingSaid(players);
      for k := 0 to |talk|
        invariant Valid() && players.Keys == old(players.Keys)
        invariant forall o :: o in players ==>
                    Fit(players[o]) && Talked(old(players[o]), players[o], EventsOf(o, talk[..k]))
        invariant forall i :: i in items ==> i in old(items) && items[i] == old(items[i])
      {
        ghost var mid := players;
        Hear(talk[k].0, talk[k].1);
        assert talk[..k + 1][..k] == talk[..k];
        forall o | o in players
          ensures Talked(old(players[o]), players[o], EventsOf(o, talk[..k + 1]))
        {
          var more := if o == talk[k].0 then Meaning(talk[k].1) else [];
          MoreTalk(old(players[o]), mid[o], players[o], EventsOf(o, talk[..k]), more);
        }
      }
      assert talk[..|talk|] == talk;
    }

    /** fieldUpdate. moved: the players after their own updates and attacks. struck, ground: monsters and
        items after those attacks. hits: the blows that each player took. prey: where each monster saw its
        target. */
    method FieldUpdate(rolls: int -> nat, luck: int -> M.Luck)
      returns (ghost moved: map<int, Avatar>, ghost struck: map<int, Mob>, ghost ground: map<int, Drop>,
               ghost hits: map<int, seq<P.Event>>, ghost prey: map<int, Option<Position>>)
      requires Valid() && Rest() && Credit() && forall o :: o in players ==> players[o].dest == players[o].current
      modifies this`players, this`monsters, this`items, this`sectors, this`monsterSectors, this`itemSectors, this`logs,
               this`at, this`shown, this`deaths, this`killJobs, this`mItemUniqueID, this`expired
      ensures Valid() && Credited(moved, killJobs, gone)
      ensures players.Keys == old(players.Keys) && monsters.Keys == old(monsters.Keys)
      ensures Marched(old(players), moved) && Battered(moved, players, hits, monsters, monsters.Keys)
      ensures Casualties(old(monsters), struck, |old(killJobs)|, |killJobs|)
      ensures Fallen(old(items), ground, |old(killJobs)|, |killJobs|) && Aged(ground, items)
      ensures struck.Keys == old(monsters.Keys) && forall m :: m in struck ==> Settled(struck[m])
      ensures SteppedAll(struck, monsters, prey, luck, moved, hits) && forall m :: m in monsters ==> Refiled(m)
    {
      hide Valid, Rest, Resting, Stepping, Refiled, Halfway, Credited, FrameOver, Stepped, Settled, AfterFiling,
        Casualties, Fallen, Battered, Walked, Aged, SteppedAll;
      UpdatePlayers(rolls);
      ghost var updated := players;
      MovePlayers();
      MarchedOn(old(players), updated, players);
      RestFacts();
      CreditKept(updated, players, killJobs, gone);
      moved, struck, ground := players, monsters, items;
      hits, prey := UpdateMonsters(luck);
      ghost var stepped := monsters;
      FileMonsters();
      AllFiled(struck, stepped, monsters, prey, luck, moved, hits);
      SameBodies(moved, players, hits, stepped, monsters);
      BatteredFit(moved, players, hits, monsters);
      UpdateItems();
    }

    /** playerProc and monsterProc. */
    method Procs(talk: seq<(int, Request)>)
      requires Valid() && forall o :: o in players ==> Fit(players[o])
      requires forall m :: m in monsters ==> Refiled(m)
      modifies this`players, this`monsters, this`items, this`monsterSectors, this`itemSectors, this`logs,
               this`at, this`shown, this`mTotalRootItemCount, this`looted
      ensures Valid() && Rest() && players.Keys == old(players.Keys) && monsters.Keys == old(monsters.Keys)
      ensures forall o :: o in players ==> Talked(old(players[o]), players[o], EventsOf(o, talk))
      ensures forall i :: i in items ==> i in old(items) && items[i] == old(items[i])
      ensures forall m :: m in monsters ==> monsters[m] == AfterProc(old(monsters[m]))
    {
      hide Valid, Resting, Refiled, Fit, AfterProc, Talked;
      PlayerProc(talk);
      ProcMonsters();
    }

    /** One frame: fieldUpdate, playerProc and monsterProc. */
    method Tick(rolls: int -> nat, luck: int -> M.Luck, talk: seq<(int, Request)>)
      returns (ghost moved: map<int, Avatar>, ghost struck: map<int, Mob>, ghost ground: map<int, Drop>,
               ghost hits: map<int, seq<P.Event>>, ghost prey: map<int, Option<Position>>)
      requires Between()
      modifies this
      ensures Between() && gone == old(gone) && haunts == old(haunts) && history == old(history)
      ensures Casualties(old(monsters), struck, |old(killJobs)|, |killJobs|)
      ensures Fallen(old(items), ground, |old(killJobs)|, |killJobs|)
      ensures LeftOver(ground, items)
      ensures Marched(old(players), moved) && PlayersTicked(old(players), players, hits, talk, monsters)
      ensures monsters.Keys == old(monsters.Keys) && MonstersTicked(struck, monsters, prey, luck, moved, hits)
    {
      hide *;
      BetweenIs();
      ghost var ids, haunts0, history0 := players.Keys, haunts, history;
      moved, struck, ground, hits, prey := FieldUpdate(rolls, luck);
      ghost var beaten, filed, aged := players, monsters, items;
      BatteredFit(moved, beaten, hits, monsters);
      Procs(talk);
      SameBodies(moved, beaten, hits, filed, monsters);
      FrameEnds(old(players), moved, beaten, players, hits, talk, monsters, killJobs, gone);
      AgedOnly(ground, aged, items);
      TickEnds(struck, filed, monsters, prey, luck, moved, hits);
      assert players.Keys == ids && haunts == haunts0 && history == history0;
      BetweenAgain();
    }

    lemma BetweenIs()
      requires Between()
      ensures Valid() && Rest() && Credit() && Remembered(players.Keys, haunts, history)
      ensures forall o :: o in players ==> players[o].dest == players[o].current
    {
    }

    lemma BetweenAgain()
      requires Valid() && Rest() && Credited(players, killJobs, gone) && Remembered(players.Keys, haunts, history)
      requires forall o :: o in players ==> players[o].dest == players[o].current
      ensures Between()
    {
    }

    /** Every client's haunt is what the history says. */
    ghost predicate History()
      reads this`players, this`haunts, this`history
    {
      Remembered(players.Keys, haunts, history)
    }

    ghost predicate Credit()
      reads this`players, this`killJobs, this`gone
    {
      Credited(players, killJobs, gone)
    }

    /** Between the steps of the field thread's loop. */
    ghost predicate Between()
      reads this
    {
      Valid() && Rest() && History() && Credit() && forall o :: o in players ==> players[o].dest == players[o].current
    }

    /** No player in play has, or has had, this character ID. */
    ghost predicate Fresh(character: int)
      reads this`players, this`gone
    {
      Thing(Character, character) !in gone && forall p :: p in players ==> players[p].character != character
    }

    /** A REGISTER_PLAYER message of the authentication thread. */
    method Enter(o: int, character: int, pos: Position, connected: bool)
      requires Between() && o !in players && Fresh(character)
      modifies this`players, this`sectors, this`logs, this`at, this`haunts, this`history
      ensures Between() && players == old(players)[o := Entered(character, pos, connected)]
      ensures history == old(history) + [Enters(o)]
    {
      hide Index, Views, Ledger, SectorOf, Credited, Settled, Haunting;
      RestingIsShown();
      HandleRegisterPlayer(o, character, pos, connected);
      NewcomerFits(character, pos, connected);
      CreditAfterEntry(old(players), killJobs, gone, o, players[o]);
      HauntingEnter(old(history), o);
    }

    /** The result of a position save, which was requested because the player had lost its connection. */
    method Leave(o: int)
      requires Between() && o in players
      modifies this`players, this`sectors, this`at, this`haunts, this`gone, this`history
      ensures Between() && players == old(players) - {o} && gone == old(gone) + {Self(old(players[o]))}
      ensures history == old(history) + [Leaves(old(players), o)]
    {
      hide Index, Views, Ledger, Fit, Credited, Settled, Haunting;
      RemovePlayer(o);
      CreditAfterLeave(old(players), killJobs, old(gone), o);
      forall p | p in players
        ensures haunts[p] == Haunting(history, p)
      {
        HauntingLeave(old(history), old(players), o, p);
      }
    }

    /** onRelease of a player on the field, between two frames. */
    method Disconnect(o: int)
      requires Between() && o in players
      modifies this`players
      ensures Between() && players == old(players)[o := Lived(old(players[o]), P.Lost)]
    {
      hide Index, Views, Ledger, Fit, Credited, Settled, P.Next;
      FitKept(players[o], P.Lost);
      LivedOnly(players[o], P.Lost);
      LoseConnection(o);
      CreditKept(old(players), players, killJobs, gone);
    }

    /** fieldThread: any sequence of registrations, lost connections, ends of players and frames.
        mCharacterID is incremented for every login, so every registration brings a new ID. */
    method Loop(inputs: seq<Input>)
      requires Between()
      requires forall k :: 0 <= k < |inputs| && inputs[k].Register? ==> Fresh(inputs[k].character)
      requires forall h, k :: 0 <= h < k < |inputs| && inputs[h].Register? && inputs[k].Register? ==>
                 inputs[h].character != inputs[k].character
      modifies this
      ensures Between() && monsters.Keys == old(monsters.Keys)
    {
      hide Between;
      for k := 0 to |inputs|
        invariant Between() && monsters.Keys == old(monsters.Keys)
        invariant forall h :: k <= h < |inputs| && inputs[h].Register? ==> Fresh(inputs[h].character)
      {
        match inputs[k] {
          case Register(o, character, pos, connected) =>
            if o !in players {
              Enter(o, character, pos, connected);
            }
          case Disconnect(o) =>
            if o in players {
              Disconnect(o);
            }
          case Leave(o) =>
            if o in players && !players[o].life.body.connected {
              Leave(o);
            }
          case Frame(rolls, luck, talk) =>
            ghost var moved, struck, ground, hits, prey := Tick(rolls, luck, talk);
        }
      }
    }

    /** What the invariant says to a reader: between ticks the client of player o shows exactly the
        monsters and items indexed in its 3x3 sectors; the monsters move on its screen exactly when they
        move on the server, and look the same way; of the characters it shows exactly the others in play
        there, and those that have been removed from play since it entered, while they were near it; no assertion of its
        handlers has failed: no spawn for an ID that is already shown, no start for a monster that moves,
        no packet about a monster or character that is not there. */
    lemma ViewIsExact(o: int)
      requires Between() && o in players
      ensures var v := Fold(logs[o]);
        && (forall m :: Thing(Monster, m) in v.seen <==> m in monsters && Near(players[o].current, monsters[m].sector))
        && (forall i :: Thing(Item, i) in v.seen <==> i in items && Near(players[o].current, items[i].sector))
        && (forall c :: Thing(Character, c) in v.seen <==>
              || Thing(Character, c) in Haunting(history, o)
              || exists p :: p in players && p != o && players[p].character == c
                   && Near(players[o].current, players[p].current))
        && Haunting(history, o) <= gone && (forall p :: p in players ==> Self(players[p]) !in gone)
        && (forall m :: m in v.moving <==> Thing(Monster, m) in v.seen && m in monsters && Walks(monsters[m]))
        && (forall m :: m in monsters && Thing(Monster, m) in v.seen ==>
              m in v.facing && v.facing[m] == monsters[m].body.direction)
        && !v.broken && v.doubled == {}
    {
      hide Indexed, Fold, Settled, Fit, Credited, Haunting;
      RestingIsShown();
      assert ViewOk(logs[o], at, shown, Self(players[o]), haunts[o], gone);
    }

    /** For every player on the field: a kill-count job is queued for it at most as often as an attack of it
        landed; while it is connected, that is at most as often as one was accepted. */
    lemma KillsAreEarned(o: int)
      requires Between() && o in players
      ensures var t := players[o].life;
        && Count(killJobs, players[o].character) <= t.hits + t.late && t.hits <= t.swings
        && (t.body.connected ==> Count(killJobs, players[o].character) <= t.swings)
    {
      hide Index, Views, Ledger, Settled, Haunting;
    }
  }
}

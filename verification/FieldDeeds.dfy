/** What blows, attacks, loot and messages come to: the value functions that the operations of `Field` are
    proved against, in numbers and in terms of the rules of the game. */
module FieldDeeds {
  import opened Sectors
  import opened ClientView
  import opened FieldViews
  import opened MonsterStages
  import opened FieldFrames
  import M = Monsters
  import P = Players

  // ---- monsters and players --------------------------------------------------------------------------------

  /** At most 50 units away. */
  predicate AtHand(p: Position, q: Position) {
    (q.x - p.x) * (q.x - p.x) + (q.y - p.y) * (q.y - p.y) <= 50.0 * 50.0
  }

  predicate CanBeHit(players: map<int, Avatar>, pos: Position, s: Sector, o: int) {
    && o in players && players[o].life.body.state != P.Dead
    && Near(s, players[o].current) && AtHand(pos, players[o].life.body.pos)
  }

  /** A monster's blow finds somebody exactly if a living player that is indexed around it is within 50 units
      of it; then it finds one of the nearest of them. */
  lemma VictimIsExact(players: map<int, Avatar>, pos: Position, s: Sector, o: Option<int>)
    requires IsVictim(players, pos, s, o)
    ensures o == None <==> forall p :: !CanBeHit(players, pos, s, p)
    ensures o.Some? ==>
              && CanBeHit(players, pos, s, o.value)
              && forall p :: CanBeHit(players, pos, s, p) ==>
                   M.SquaredDistance(pos, players[o.value].life.body.pos)
                     <= M.SquaredDistance(pos, players[p].life.body.pos)
  {
    var among := PlayersNear(players, s);
    forall p
      ensures CanBeHit(players, pos, s, p) <==> p in among && InReach(players, pos, p)
    {
      if p in players { HandIsReach(pos, players[p].life.body.pos); }
    }
  }

  lemma HandIsReach(p: Position, q: Position)
    ensures AtHand(p, q) <==> M.SquaredDistance(p, q) <= M.Squared(M.MONSTER_ATTACK_RANGE)
  {
    var dx, dy := p.x - q.x, p.y - q.y;
    assert (q.x - p.x) * (q.x - p.x) == dx * dx && (q.y - p.y) * (q.y - p.y) == dy * dy;
  }

  /** A blow costs its victim ten health, turns it to the monster and pushes it away from it as the monster
      looks; a hundred health are gone with the tenth. It does nothing to the others. */
  lemma BlowHurts(players: map<int, Avatar>, v: int, b: M.Body)
    requires v in players && players[v].life.body.state != P.Dead && 0 <= players[v].life.body.hp
    ensures var now := AfterBlow(players, Some(v),
                                 b); var p, facing := players[v].life.body, M.DirectionVector(b.direction);
      && now.Keys == players.Keys && (forall o :: o in players && o != v ==> now[o] == players[o])
      && now[v] == players[v].(life := now[v].life)
      && var q := now[v].life.body;
         && q.hp == (if p.hp <= 10 then 0 else p.hp - 10)
         && q.state == (if p.hp <= 10 then P.Dead else P.Stun)
         && M.IsDirectionTo(p.pos, b.pos, q.direction) && M.Pushed(p.pos, q.pos, 100.0 * facing.x, 100.0 * facing.y)
  {
    P.HitHurts(players[v].life.body, M.MONSTER_ATTACK_DAMAGE, b.pos, b.direction);
    hide P.Damaged, M.IsDirectionTo, M.Pushed, M.DirectionVector, P.CanSwing, P.Lands, P.Pending;
  }

  /** A player's attack costs the monster it hits 35 health, so that the third one kills it, and does nothing
      else to the monster's record. */
  lemma AttackHurts(mob: Mob, attacker: P.Body, id: int)
    requires mob.body.state != M.Dead && 0 <= mob.body.hp
    ensures var n, facing := AfterHit(mob, attacker, id), M.DirectionVector(attacker.direction);
      && n == mob.(body := n.body)
      && n.body.hp == (if mob.body.hp <= 35 then 0 else mob.body.hp - 35)
      && n.body.state == (if mob.body.hp <= 35 then M.Dead else M.Stun)
      && (n.body.state == M.Stun ==> n.body.target == id)
      && M.IsDirectionTo(mob.body.pos, attacker.pos, n.body.direction)
      && M.Pushed(mob.body.pos, n.body.pos, 30.0 * facing.x, 30.0 * facing.y)
  {
    M.HitHurts(mob.body, PLAYER_ATTACK_DAMAGE, attacker.pos, attacker.direction, id);
    hide M.Damaged, M.IsDirectionTo, M.Pushed, M.DirectionVector;
  }

  /** A chasing monster goes for its target where that stands, while it is in play and alive and the
      leash holds; else it gives up. */
  lemma ChasesTheLiving(m: Mob, players: map<int, Avatar>, luck: M.Luck)
    requires m.body.state == M.Chase && InRange(m)
    ensures var n, t := Stepped(m, Prey(players, m.body.target), luck), m.body.target;
      if t in players && players[t].life.body.state != P.Dead
      then n.body.targetPos == players[t].life.body.pos
        && (n.body.state == M.Chase || n.body.state == M.Attack || n.body.state == M.Return)
        && (n.body.state == M.Attack ==> AtHand(m.body.pos, n.body.targetPos))
      else n.body.state == M.Return || n.body.state == M.Idle
  {
    hide SectorOf, M.DirectionVector, M.InWorld;
    var t := m.body.target;
    if t in players && players[t].life.body.state != P.Dead {
      HandIsReach(m.body.pos, players[t].life.body.pos);
      FarFromLeash(m.body.pos, m.body.spawnPos);
    } else {
      GivenUpThenUpdated(m.body, luck);
    }
    hide M.SquaredDistance, M.Squared, AtHand, M.DirectionTo, M.Moved;
  }

  lemma FarFromLeash(p: Position, home: Position)
    ensures M.Squared(M.CHASE_LEASH_RADIUS) < M.SquaredDistance(p, home) ==>
              M.Squared(M.PATROL_RADIUS) < M.SquaredDistance(p, home)
  {
    hide M.SquaredDistance;
  }

  /** A player that enters stands where its login says, idle and with full health, filed there, and has done and
      carries nothing. */
  lemma NewcomerStands(character: int, pos: Position, connected: bool)
    ensures var a := Entered(character, pos, connected); var b := a.life.body;
      && Self(a) == Thing(Character, character) && Holds(a.current, pos) && a.dest == a.current
      && b.pos == pos && b.state == P.Idle && b.hp == 100 && b.connected == connected && b.sync == 0
      && a.life == P.Tally(b, 0, 0, 0, 0) && a.targets == [] && forall item :: Carries(a, item) == 0
  {
    SectorHolds(pos, SectorOf(pos));
    hide SectorOf, Holds;
  }

  // ---- what is announced and what is said -----------------------------------------------------------------

  /** An attack request that is heard announces at most one target: the first that it lists. */
  lemma OneIsListed(ids: seq<int>, targetCnt: int)
    requires targetCnt <= 1
    ensures Listed(ids, targetCnt) == if targetCnt == 1 && 0 < |ids| then [ids[0]] else []
  {
  }

  /** After an attack has landed, the announced targets that are in play, neither dead nor on their way home,
      are still announced, and no others. */
  lemma {:induction false} StillAimedAt(targets: seq<int>, monsters: map<int, Mob>, m: int)
    ensures m in StillValid(targets, monsters) <==>
              m in targets && m in monsters && !monsters[m].body.state.Dead? && !monsters[m].body.state.Return?
  {
    if targets != [] {
      StillAimedAt(targets[..|targets| - 1], monsters, m);
      assert targets == targets[..|targets| - 1] + [targets[|targets| - 1]];
    }
  }

  /** The messages of a player mean something to it alone, in their order: a start, a stop, an attack with the
      only skill and at most one target, the loss of the connection. */
  lemma {:induction false} EventsInOrder(o: int, talk: seq<(int, Request)>, more: seq<(int, Request)>)
    ensures EventsOf(o, talk + more) == EventsOf(o, talk) + EventsOf(o, more)
  {
    if more == [] {
      assert talk + more == talk;
    } else {
      EventsInOrder(o, talk, more[..|more| - 1]);
      assert (talk + more)[..|talk + more| - 1] == talk + more[..|more| - 1];
    }
  }

  lemma OneMessage(o: int, p: int, pos: Position, d: M.Direction, speed: real, skill: int, count: int, ids: seq<int>)
    ensures EventsOf(o, [(p, StartReq(pos, d, speed))]) == if o == p then [P.Start(pos, d)] else []
    ensures EventsOf(o, [(p, StopReq(pos, d))]) == if o == p then [P.Stop(pos, d)] else []
    ensures EventsOf(o, [(p, AttackReq(skill, count, ids))]) ==
              if o == p && skill == 0 && count <= 1 then [P.Swing] else []
    ensures EventsOf(o, [(p, ConnectionLost)]) == if o == p then [P.Lost] else []
    ensures forall i :: EventsOf(o, [(p, LootReq(i))]) == []
  {
    forall r: Request
      ensures EventsOf(o, [(p, r)]) == if o == p then Meaning(r) else []
    {
      assert [(p, r)][..0] == [];
    }
  }

  // ---- loot ------------------------------------------------------------------------------------------------

  /** Looting adds the whole count of the item to what the player carries of it, and changes nothing else. */
  lemma LootAddsUp(a: Avatar, loot: Loot, item: ItemId)
    ensures var b := Richer(a, loot);
      && Carries(b, item) == Carries(a, item) + (if item == loot.item then loot.count else 0)
      && b == a.(inventory := b.inventory)
  {
  }

  /** How many of the rolls from i on below 100 give this loot. */
  function Rolls(loot: Loot, i: nat): nat
    decreases 100 - i
  {
    if i >= 100 then 0 else Rolls(loot, i + 1) + if LootOf(i) == loot then 1 else 0
  }

  /** Rolls in a row that give the same. */
  lemma {:induction false} RollsInRow(loot: Loot, i: nat, j: nat, hit: bool)
    requires i <= j <= 100 && forall k: nat :: i <= k < j ==> (LootOf(k) == loot <==> hit)
    ensures Rolls(loot, i) == Rolls(loot, j) + if hit then j - i else 0
    decreases j - i
  {
    if i < j {
      RollsInRow(loot, i + 1, j, hit);
    }
  }

  /** The odds of kDropTable: of a hundred rolls fifty give one gold, twenty five gold, ten ten gold and twenty a
      potion. */
  lemma DropOdds()
    ensures Rolls(Loot(Gold, 1), 0) == 50 && Rolls(Loot(Gold, 5), 0) == 20
    ensures Rolls(Loot(Gold, 10), 0) == 10 && Rolls(Loot(Potion, 1), 0) == 20
  {
    hide Rolls;
    Quarters(Loot(Gold, 1));
    Quarters(Loot(Gold, 5));
    Quarters(Loot(Gold, 10));
    Quarters(Loot(Potion, 1));
  }

  lemma Quarters(loot: Loot)
    ensures Rolls(loot, 0) == (if LootOf(0) == loot then 50 else 0) + (if LootOf(50) == loot then 20 else 0)
                            + (if LootOf(70) == loot then 10 else 0) + (if LootOf(80) == loot then 20 else 0)
  {
    hide Rolls;
    RollsInRow(loot, 0, 50, LootOf(0) == loot);
    RollsInRow(loot, 50, 70, LootOf(50) == loot);
    RollsInRow(loot, 70, 80, LootOf(70) == loot);
    RollsInRow(loot, 80, 100, LootOf(80) == loot);
    NoMoreRolls(loot, 100);
  }

  lemma NoMoreRolls(loot: Loot, i: nat)
    requires i >= 100
    ensures Rolls(loot, i) == 0
  {
  }
}

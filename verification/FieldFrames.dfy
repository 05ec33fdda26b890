/** What happens to the field thread, and what its operations make of players, monsters, items and the
    ledgers, one value at a time: the specifications that `Field` composes. */
module FieldFrames {
  import opened Sectors
  import opened ClientView
  import opened Aoi
  import opened FieldViews
  import opened MonsterStages
  import M = Monsters
  import P = Players

  const LOOT_RANGE: real := 50.0
  const ITEM_DESPAWN_FRAME: int := 1500
  const PLAYER_ATTACK_DAMAGE: int := 35
  const ATTACK_RANGE: real := 160.0         // skill 0 of getSkillConfig

  /** What a player's message asks for; or its connection is lost (onRelease), so that no further message
      of it is taken out of its queue. */
  datatype Request =
    | StartReq(pos: Position, direction: M.Direction, speed: real)
    | StopReq(pos: Position, direction: M.Direction)
    | AttackReq(skill: int, targetCnt: int, ids: seq<int>)
    | LootReq(item: int)
    | ConnectionLost

  /** What happens to the field thread. Frame: what each kill drops, the monsters' luck, and the messages
      in the order in which playerProc comes to them (the code stops when a handler
      throws; here the run may go on). */
  datatype Input =
    | Register(o: int, character: int, pos: Position, connected: bool)
    | Disconnect(o: int)
    | Leave(o: int)
    | Frame(rolls: int -> nat, luck: int -> M.Luck, talk: seq<(int, Request)>)

  /** The announced targets, as far as the message holds them; a negative number of them is none. */
  function Listed(ids: seq<int>, targetCnt: int): seq<int> {
    if targetCnt < 0 then [] else if targetCnt <= |ids| then ids[..targetCnt] else ids
  }

  /** What a request does to the player that makes it. */
  function Meaning(r: Request): seq<P.Event> {
    match r
    case StartReq(pos, direction, _) => [P.Start(pos, direction)]
    case StopReq(pos, direction) => [P.Stop(pos, direction)]
    case AttackReq(skill, targetCnt, _) => if skill == 0 && targetCnt <= 1 then [P.Swing] else []
    case LootReq(_) => []
    case ConnectionLost => [P.Lost]
  }

  function EventsOf(o: int, talk: seq<(int, Request)>): seq<P.Event> {
    if talk == [] then []
    else
      var last := talk[|talk| - 1];
      EventsOf(o, talk[..|talk| - 1]) + if last.0 == o then Meaning(last.1) else []
  }

  function GridSectors(): (g: set<Sector>)
    ensures forall s :: s in g <==> InGrid(s)
  {
    set x: int, y: int | 0 <= x < SECTOR_COL_CNT && 0 <= y < SECTOR_ROW_CNT :: Sector(x, y)
  }

  /** The items 1 to n ever dropped are each in exactly one of the three sets, and nothing else is. */
  ghost predicate Accounted(n: int, ground: set<int>, looted: set<int>, expired: set<int>) {
    && n >= 0
    && (forall i :: 1 <= i <= n <==> i in ground || i in looted || i in expired)
    && ground !! looted && ground !! expired && looted !! expired
  }

  lemma NewItem(n: int, ground: set<int>, looted: set<int>, expired: set<int>)
    requires Accounted(n, ground, looted, expired)
    ensures n + 1 !in ground && Accounted(n + 1, ground + {n + 1}, looted, expired)
  {
  }

  lemma LeavesGround(n: int, ground: set<int>, looted: set<int>, expired: set<int>, i: int)
    requires Accounted(n, ground, looted, expired) && i in ground
    ensures Accounted(n, ground - {i}, looted + {i}, expired) && Accounted(n, ground - {i}, looted, expired + {i})
    ensures i !in looted && i !in expired && |looted + {i}| == |looted| + 1
  {
  }

  // ---- players and monsters hit each other ----------------------------------------------------------------

  /** Where a monster's target is, if it is in play and alive. */
  function Prey(players: map<int, Avatar>, target: int): Option<Position> {
    if target in players then PreyOf(players[target].life.body) else None
  }

  function PreyOf(b: P.Body): Option<Position> {
    if b.state == P.Dead then None else Some(b.pos)
  }

  function Blow(b: M.Body): P.Event {
    P.Hit(M.MONSTER_ATTACK_DAMAGE, b.pos, b.direction)
  }

  predicate InReach(players: map<int, Avatar>, pos: Position, o: int) {
    && o in players && players[o].life.body.state != P.Dead
    && M.SquaredDistance(pos, players[o].life.body.pos) <= M.Squared(M.MONSTER_ATTACK_RANGE)
  }

  /** Of the listed players, the closest in reach. */
  ghost predicate IsClosest(players: map<int, Avatar>, pos: Position, among: set<int>, o: Option<int>) {
    match o
    case None => forall p :: p in among ==> !InReach(players, pos, p)
    case Some(v) =>
      && v in among && InReach(players, pos, v)
      && forall p :: p in among && InReach(players, pos, p) ==>
           M.SquaredDistance(pos, players[v].life.body.pos) <= M.SquaredDistance(pos, players[p].life.body.pos)
  }

  function PlayersNear(players: map<int, Avatar>, s: Sector): set<int> {
    set o | o in players && Near(s, players[o].current)
  }

  function PlayersIn(players: map<int, Avatar>, near: seq<Sector>): set<int> {
    set o | o in players && players[o].current in near
  }

  /** Whom a monster hits: the closest living player in reach that is indexed around it. */
  ghost predicate IsVictim(players: map<int, Avatar>, pos: Position, sector: Sector, o: Option<int>) {
    IsClosest(players, pos, PlayersNear(players, sector), o)
  }

  lemma VictimPlays(players: map<int, Avatar>, pos: Position, sector: Sector, v: int)
    requires IsVictim(players, pos, sector, Some(v))
    ensures v in players && players[v].life.body.state != P.Dead
  {
  }

  function AfterBlow(players: map<int, Avatar>, victim: Option<int>, b: M.Body): map<int, Avatar> {
    if victim.Some? && victim.value in players
    then players[victim.value := Lived(players[victim.value], Blow(b))]
    else players
  }

  lemma NoBlow(players: map<int, Avatar>, b: M.Body)
    ensures AfterBlow(players, None, b) == players
  {
  }

  /** The monsters among the announced targets that can still be hit. */
  function StillValid(targets: seq<int>, monsters: map<int, Mob>): seq<int> {
    if targets == [] then []
    else StillValid(targets[..|targets| - 1], monsters) + Hittable(targets[|targets| - 1], monsters)
  }

  lemma NoTarget(targets: seq<int>, monsters: map<int, Mob>)
    ensures StillValid(targets[..0], monsters) == []
  {
  }

  lemma OneMoreTarget(targets: seq<int>, n: nat, monsters: map<int, Mob>)
    requires n < |targets|
    ensures StillValid(targets[..n + 1], monsters) == StillValid(targets[..n], monsters) +
              Hittable(targets[n], monsters)
  {
    assert targets[..n + 1][..n] == targets[..n];
  }

  function Hittable(m: int, monsters: map<int, Mob>): seq<int> {
    if m !in monsters || monsters[m].body.state == M.Dead || monsters[m].body.state == M.Return then [] else [m]
  }

  /** The monster that a player's attack hits. (Sorting a list of at most one target changes nothing.) */
  function Target(a: Avatar, monsters: map<int, Mob>): Option<int> {
    var kept := StillValid(a.targets, monsters);
    if a.skill == 0 && |kept| > 0 && kept[0] in monsters
       && M.SquaredDistance(a.life.body.pos, monsters[kept[0]].body.pos) <= M.Squared(ATTACK_RANGE)
    then Some(kept[0]) else None
  }

  /** What an attack may hit: the announced monster, if it is in play, neither dead nor on its way home, and
      at most 160 units away. */
  predicate CanHit(a: Avatar, m: int, monsters: map<int, Mob>) {
    && a.skill == 0 && a.targets == [m] && m in monsters
    && !monsters[m].body.state.Dead? && !monsters[m].body.state.Return?
    && var dx, dy := monsters[m].body.pos.x - a.life.body.pos.x, monsters[m].body.pos.y - a.life.body.pos.y;
       dx * dx + dy * dy <= 160.0 * 160.0
  }

  lemma TargetIsExact(a: Avatar, monsters: map<int, Mob>, m: int)
    requires |a.targets| <= 1
    ensures Target(a, monsters) == Some(m) <==> CanHit(a, m, monsters)
  {
    if a.targets != [] {
      assert a.targets == [a.targets[0]] && a.targets[..0] == [];
      assert StillValid(a.targets, monsters) == StillValid([], monsters) + Hittable(a.targets[0], monsters);
    }
  }

  function AfterHit(mob: Mob, attacker: P.Body, id: int): Mob {
    mob.(body := M.Damaged(mob.body, PLAYER_ATTACK_DAMAGE, attacker.pos, attacker.direction, id))
  }

  /** The pending targets after an attack has landed. */
  function Aimed(a: Avatar, monsters: map<int, Mob>): Avatar {
    if a.skill == 0 then a.(targets := StillValid(a.targets, monsters)) else a
  }

  lemma {:induction false} KeptAreValid(targets: seq<int>, monsters: map<int, Mob>)
    ensures |StillValid(targets, monsters)| <= |targets|
    ensures forall m :: m in StillValid(targets, monsters) ==>
              m in targets && m in monsters && monsters[m].body.state != M.Dead && monsters[m].body.state != M.Return
  {
    if targets != [] {
      KeptAreValid(targets[..|targets| - 1], monsters);
    }
  }

  /** The first player loop, but for the targets of an attack that lands. */
  function FrameOver(a: Avatar): Avatar {
    var b := Lived(a, P.Frame);
    b.(dest := SectorOf(b.life.body.pos))
  }

  ghost predicate FramePassed(was: map<int, Avatar>, now: map<int, Avatar>, o: int) {
    o in was && o in now && now == was[o := FrameOver(was[o]).(targets := now[o].targets)]
  }

  /** The first player loop, for the players that it has done. */
  ghost predicate FramesPassed(was: map<int, Avatar>, now: map<int, Avatar>, done: set<int>) {
    && was.Keys == now.Keys
    && forall o :: o in now ==> now[o] == if o in done then FrameOver(was[o]).(targets := now[o].targets) else was[o]
  }

  lemma NoFramePassed(players: map<int, Avatar>)
    ensures FramesPassed(players, players, {})
  {
  }

  lemma OneFramePasses(was: map<int, Avatar>, mid: map<int, Avatar>, done: set<int>, o: int)
    requires FramesPassed(was, mid, done) && o in mid && o !in done
    requires forall p :: p in was ==> was[p].dest == was[p].current
    ensures mid[o].dest == mid[o].current
    ensures forall now :: FramePassed(mid, now, o) ==> FramesPassed(was, now, done + {o})
  {
    hide FrameOver;
  }

  lemma AimedIs(a: Avatar, monsters: map<int, Mob>)
    ensures Aimed(a, monsters) == a.(targets := Aimed(a, monsters).targets)
  {
  }

  lemma FrameIs(t: P.Tally)
    ensures P.After(t.body, P.Frame) == P.Updated(t.body)
    ensures P.Next(t, P.Frame).body == P.Updated(t.body)
    ensures P.Next(t, P.Frame).hits + P.Next(t, P.Frame).late
         == t.hits + t.late + if P.Lands(P.Updated(t.body)) then 1 else 0
  {
    hide P.Updated;
  }

  /** What holds of every player: at most one announced target, and its attacks add up. */
  predicate Fit(a: Avatar) {
    |a.targets| <= 1 && P.Balanced(a.life)
  }

  lemma FitAfter(a: Avatar, b: Avatar)
    ensures Fit(a) && b.life == a.life && |b.targets| <= 1 ==> Fit(b)
    ensures Fit(a) && b.life == a.life && b.targets == a.targets ==> Fit(b)
  {
  }

  lemma FitKept(a: Avatar, e: P.Event)
    requires Fit(a)
    ensures Fit(Lived(a, e))
  {
    P.NextBalanced(a.life, e);
  }

  // ---- the players during the monsters' loop --------------------------------------------------------------

  function Beaten(a: Avatar, hits: seq<P.Event>): Avatar {
    a.(life := P.Run(a.life, hits))
  }

  /** Every blow is that of a monster that has had its step and strikes. */
  ghost predicate Blows(hits: seq<P.Event>, monsters: map<int, Mob>, done: set<int>) {
    forall e :: e in hits ==>
      exists m :: m in monsters && m in done && M.Strikes(monsters[m].body) && e == Blow(monsters[m].body)
  }

  ghost predicate Battered(was: map<int, Avatar>, now: map<int, Avatar>, hits: map<int, seq<P.Event>>,
                           monsters: map<int, Mob>, done: set<int>) {
    && was.Keys == now.Keys == hits.Keys
    && forall o :: o in was ==> Fit(now[o]) && now[o] == Beaten(was[o], hits[o]) && Blows(hits[o], monsters, done)
  }

  /** A monster sees its target where the blows so far have left it. */
  ghost predicate SawPrey(prey: Option<Position>, target: int, was: map<int, Avatar>, hits: map<int, seq<P.Event>>) {
    if target !in was || target !in hits then prey == None
    else exists j :: 0 <= j <= |hits[target]| && prey == PreyOf(Beaten(was[target], hits[target][..j]).life.body)
  }

  lemma NotBattered(was: map<int, Avatar>, monsters: map<int, Mob>)
    requires forall o :: o in was ==> Fit(was[o])
    ensures Battered(was, was, map o | o in was :: [], monsters, {})
  {
  }

  function Battering(hits: map<int, seq<P.Event>>, victim: Option<int>, b: M.Body): map<int, seq<P.Event>> {
    if victim.Some? && victim.value in hits then hits[victim.value := hits[victim.value] + [Blow(b)]] else hits
  }

  lemma BlowLands(was: map<int, Avatar>, now: map<int, Avatar>, hits: map<int, seq<P.Event>>, monsters: map<int, Mob>,
                  done: set<int>, m: int, mob: Mob, victim: Option<int>)
    requires Battered(was, now, hits, monsters, done) && m !in done && (victim.Some? ==> M.Strikes(mob.body))
    ensures Battered(was, AfterBlow(now, victim, mob.body), Battering(hits, victim, mob.body), monsters[m := mob],
                     done + {m})
  {
    hide M.Strikes, Fit, P.Next;
    var after, mobs := Battering(hits, victim, mob.body), monsters[m := mob];
    forall o | o in was
      ensures Blows(after[o], mobs, done + {m})
    {
      forall e | e in after[o]
        ensures exists n :: n in mobs && n in done + {m} && M.Strikes(mobs[n].body) && e == Blow(mobs[n].body)
      {
        if e in hits[o] {
          var n :| n in monsters && n in done && M.Strikes(monsters[n].body) && e == Blow(monsters[n].body);
          assert mobs[n] == monsters[n];
        } else {
          assert mobs[m] == mob;
        }
      }
    }
    if victim.Some? && victim.value in was {
      var v := victim.value;
      RunMore(was[v].life, hits[v], Blow(mob.body));
      FitKept(now[v], Blow(mob.body));
    }
  }

  lemma RunMore(t: P.Tally, es: seq<P.Event>, e: P.Event)
    ensures P.Run(t, es + [e]) == P.Next(P.Run(t, es), e)
  {
    hide P.Next;
    P.RunInParts(t, es, [e]);
    assert P.Run(P.Run(t, es), [e]) == P.Run(P.Next(P.Run(t, es), e), []);
  }

  lemma SawNow(was: map<int, Avatar>, now: map<int, Avatar>, hits: map<int, seq<P.Event>>, monsters: map<int, Mob>,
               done: set<int>, target: int)
    requires Battered(was, now, hits, monsters, done)
    ensures SawPrey(Prey(now, target), target, was, hits)
  {
    hide Blows, Fit, P.Run;
    if target in was {
      assert hits[target][..|hits[target]|] == hits[target];
    }
  }

  lemma SawStays(prey: Option<Position>, target: int, was: map<int, Avatar>, hits: map<int, seq<P.Event>>,
                 victim: Option<int>, b: M.Body)
    requires SawPrey(prey, target, was, hits)
    ensures SawPrey(prey, target, was, Battering(hits, victim, b))
  {
    hide P.Run;
    var after := Battering(hits, victim, b);
    if target in was && target in hits {
      var j :| 0 <= j <= |hits[target]| && prey == PreyOf(Beaten(was[target], hits[target][..j]).life.body);
      assert after[target][..j] == hits[target][..j];
    }
  }

  /** The monsters that have had their step took it from where they were; the others are as they were. */
  ghost predicate Walked(was: map<int, Mob>, now: map<int, Mob>, prey: map<int, Option<Position>>, luck: int -> M.Luck,
                         players: map<int, Avatar>, hits: map<int, seq<P.Event>>, done: set<int>) {
    && was.Keys == now.Keys && prey.Keys == done <= now.Keys
    && (forall m :: m in now && m !in done ==> now[m] == was[m])
    && (forall m :: m in done ==>
          now[m] == Stepped(was[m], prey[m], luck(m)) && SawPrey(prey[m], was[m].body.target, players, hits))
  }

  lemma NoneWalked(monsters: map<int, Mob>, luck: int -> M.Luck, players: map<int, Avatar>,
                   hits: map<int, seq<P.Event>>)
    ensures Walked(monsters, monsters, map[], luck, players, hits, {})
  {
  }

  lemma OneWalks(was: map<int, Mob>, now: map<int, Mob>, prey: map<int, Option<Position>>, luck: int -> M.Luck,
                 players: map<int, Avatar>, hits: map<int, seq<P.Event>>, after: map<int, seq<P.Event>>, done: set<int>,
                 m: int, saw: Option<Position>)
    requires Walked(was, now, prey, luck, players, hits, done) && m in now && m !in done
    requires SawPrey(saw, now[m].body.target, players, after)
    requires forall p, target :: SawPrey(p, target, players, hits) ==> SawPrey(p, target, players, after)
    ensures Walked(was, now[m := Stepped(now[m], saw, luck(m))], prey[m := saw], luck, players, after, done + {m})
  {
    hide SawPrey, Stepped;
  }

  // ---- who came and went --------------------------------------------------------------------------------

  /** A player was registered; or, of these players, one was removed. */
  datatype Passage = Enters(o: int) | Leaves(players: map<int, Avatar>, who: int)

  /** Session o was near the one that left. */
  predicate Watched(x: Passage, o: int) {
    && x.Leaves? && x.who in x.players && o in x.players && o != x.who
    && Near(x.players[o].current, x.players[x.who].current)
  }

  /** The characters that were removed since o entered, while they were near it. */
  function Haunting(history: seq<Passage>, o: int): set<Thing> {
    if history == [] then {}
    else
      var front, x := history[..|history| - 1], history[|history| - 1];
      if x == Enters(o) then {}
      else Haunting(front, o) + if Watched(x, o) then {Self(x.players[x.who])} else {}
  }

  ghost predicate Remembered(ids: set<int>, haunts: map<int, set<Thing>>, history: seq<Passage>) {
    forall o :: o in ids ==> o in haunts && haunts[o] == Haunting(history, o)
  }

  lemma {:induction false} HauntingIsExact(history: seq<Passage>, o: int, t: Thing)
    ensures t in Haunting(history, o) <==>
              exists k :: 0 <= k < |history| && Watched(history[k], o) && t == Self(history[k].players[history[k].who])
                && Enters(o) !in history[k..]
  {
    if history != [] {
      var front, x := history[..|history| - 1], history[|history| - 1];
      HauntingIsExact(front, o, t);
      assert forall k :: 0 <= k < |front| ==> history[k..] == front[k..] + [x] && history[k] == front[k];
      assert history[|front|..] == [x];
    }
  }

  // ---- kills ----------------------------------------------------------------------------------------------

  function Count(jobs: seq<int>, c: int): nat {
    if jobs == [] then 0 else Count(jobs[..|jobs| - 1], c) + if jobs[|jobs| - 1] == c then 1 else 0
  }

  /** Every kill-count job goes back to a landing of the player it names. */
  ghost predicate Credited(players: map<int, Avatar>, jobs: seq<int>, gone: set<Thing>) {
    && (forall o :: o in players ==> Count(jobs, players[o].character) <= players[o].life.hits + players[o].life.late)
    && (forall c :: c in jobs ==> Thing(Character, c) in gone || exists o :: o in players && players[o].character == c)
  }

  lemma {:induction false} NotCounted(jobs: seq<int>, c: int)
    requires c !in jobs
    ensures Count(jobs, c) == 0
  {
    if jobs != [] {
      NotCounted(jobs[..|jobs| - 1], c);
    }
  }

  /** Credit survives whatever keeps the players and takes back no landing. */
  lemma CreditKept(was: map<int, Avatar>, now: map<int, Avatar>, jobs: seq<int>, gone: set<Thing>)
    requires Credited(was, jobs, gone) && was.Keys == now.Keys
    requires forall o :: o in was ==>
               && now[o].character == was[o].character
               && was[o].life.hits <= now[o].life.hits && was[o].life.late <= now[o].life.late
    ensures Credited(now, jobs, gone)
  {
    forall c | c in jobs && Thing(Character, c) !in gone
      ensures exists o :: o in now && now[o].character == c
    {
      var o :| o in was && was[o].character == c;
      assert now[o].character == c;
    }
  }

  /** A landing, and perhaps a kill. */
  lemma CreditEarned(was: map<int, Avatar>, now: map<int, Avatar>, jobs: seq<int>, job: seq<int>, gone: set<Thing>,
                     o: int)
    requires Credited(was, jobs, gone) && o in was && was.Keys == now.Keys
    requires forall p :: p in was ==> now[p].character == was[p].character
    requires forall p :: p in was && p != o ==> now[p].life == was[p].life && was[p].character != was[o].character
    requires job == [] || job == [was[o].character]
    requires was[o].life.hits + was[o].life.late + |job| <= now[o].life.hits + now[o].life.late
    ensures Credited(now, jobs + job, gone)
  {
    forall c | c in jobs + job && Thing(Character, c) !in gone
      ensures exists p :: p in now && now[p].character == c
    {
      if c in jobs {
        var p :| p in was && was[p].character == c;
        assert now[p].character == c;
      } else {
        assert now[o].character == c;
      }
    }
    forall p | p in now
      ensures Count(jobs + job, now[p].character) <= now[p].life.hits + now[p].life.late
    {
      if job == [] {
        assert jobs + job == jobs;
      } else {
        assert (jobs + job)[..|jobs|] == jobs;
      }
    }
  }

  lemma CreditAfterEntry(players: map<int, Avatar>, jobs: seq<int>, gone: set<Thing>, o: int, a: Avatar)
    requires Credited(players, jobs, gone) && o !in players && Thing(Character, a.character) !in gone
    requires forall p :: p in players ==> players[p].character != a.character
    ensures Credited(players[o := a], jobs, gone)
  {
    var now := players[o := a];
    assert a.character !in jobs;
    NotCounted(jobs, a.character);
    forall c | c in jobs && Thing(Character, c) !in gone
      ensures exists p :: p in now && now[p].character == c
    {
      var p :| p in players && players[p].character == c;
      assert now[p].character == c;
    }
  }

  lemma CreditAfterLeave(players: map<int, Avatar>, jobs: seq<int>, gone: set<Thing>, o: int)
    requires Credited(players, jobs, gone) && o in players
    ensures Credited(players - {o}, jobs, gone + {Self(players[o])})
  {
    var now := players - {o};
    forall c | c in jobs && Thing(Character, c) !in gone + {Self(players[o])}
      ensures exists p :: p in now && now[p].character == c
    {
      var p :| p in players && players[p].character == c;
      assert now[p].character == c;
    }
  }

  /** The next element of an iteration over a set, in whatever order. */
  method AnyOf<T(==)>(s: set<T>) returns (x: T)
    requires s != {}
    ensures x in s
  {
    x :| x in s;
  }

  // ---- a frame in parts ---------------------------------------------------------------------------------

  /** What a player's messages may change: the player itself, the announced attack and the inventory. */
  ghost predicate Talked(a: Avatar, b: Avatar, es: seq<P.Event>) {
    && b.life == P.Run(a.life, es)
    && b.character == a.character && b.current == a.current && b.dest == a.dest
  }

  lemma NothingSaid(players: map<int, Avatar>)
    ensures forall o :: o in players ==> Talked(players[o], players[o], [])
  {
  }

  lemma MoreTalk(a: Avatar, b: Avatar, c: Avatar, es: seq<P.Event>, fs: seq<P.Event>)
    requires Talked(a, b, es) && Talked(b, c, fs)
    ensures Talked(a, c, es + fs)
  {
    P.RunInParts(a.life, es, fs);
  }

  /** What each request makes of the life of a player, and that it stays fit. */
  lemma Said(a: Avatar, r: Request)
    requires Fit(a)
    ensures forall e :: Meaning(r) == [e] ==> P.Run(a.life, Meaning(r)) == P.Next(a.life, e) && Fit(Lived(a, e))
    ensures Meaning(r) == [] ==> P.Run(a.life, Meaning(r)) == a.life
    ensures !a.life.body.connected && !r.ConnectionLost? ==> P.Run(a.life, Meaning(r)) == a.life
    ensures !P.CanSwing(a.life.body) ==> P.Next(a.life, P.Swing) == a.life
  {
    hide P.Started, P.Stopped, P.Updated, Fit;
    if Meaning(r) != [] {
      var e := Meaning(r)[0];
      FitKept(a, e);
      RunMore(a.life, [], e);
      assert [] + [e] == [e];
      if !a.life.body.connected && !r.ConnectionLost? {
        P.Unheard(a.life, e);
      }
    }
  }

  /** The players after their own updates and attacks: filed where the update left them. */
  ghost predicate Marched(was: map<int, Avatar>, now: map<int, Avatar>) {
    && was.Keys == now.Keys
    && forall o :: o in was ==>
         now[o] == FrameOver(was[o]).(targets := now[o].targets, current := FrameOver(was[o]).dest)
  }

  lemma MarchedOn(was: map<int, Avatar>, mid: map<int, Avatar>, now: map<int, Avatar>)
    requires mid.Keys == now.Keys && FramesPassed(was, mid, mid.Keys)
    requires forall o :: o in now ==> now[o] == mid[o].(current := mid[o].dest)
    ensures Marched(was, now)
    ensures forall o :: o in was ==> now[o].character == mid[o].character && now[o].life == mid[o].life
  {
    hide FrameOver;
  }

  /** The items after fieldUpdate. */
  ghost predicate Aged(was: map<int, Drop>, now: map<int, Drop>) {
    && (forall i :: i in now <==> i in was && was[i].life + 1 < ITEM_DESPAWN_FRAME)
    && (forall i :: i in now ==> now[i] == was[i].(life := was[i].life + 1))
  }

  /** The monsters after fieldUpdate. */
  ghost predicate SteppedAll(was: map<int, Mob>, now: map<int, Mob>, prey: map<int, Option<Position>>,
                             luck: int -> M.Luck,
                             players: map<int, Avatar>, hits: map<int, seq<P.Event>>) {
    && was.Keys == now.Keys == prey.Keys
    && forall m :: m in was ==>
         now[m] == AfterFiling(Stepped(was[m], prey[m], luck(m))) && SawPrey(prey[m], was[m].body.target, players, hits)
  }

  lemma AllFiled(was: map<int, Mob>, mid: map<int, Mob>, now: map<int, Mob>, prey: map<int, Option<Position>>,
                 luck: int -> M.Luck, players: map<int, Avatar>, hits: map<int, seq<P.Event>>)
    requires Walked(was, mid, prey, luck, players, hits, mid.Keys)
    requires now.Keys == mid.Keys && forall m :: m in now ==> now[m] == AfterFiling(mid[m])
    ensures SteppedAll(was, now, prey, luck, players, hits)
    ensures forall m :: m in now ==> now[m].body == mid[m].body
  {
    hide Stepped, SawPrey;
  }

  lemma SameBodies(was: map<int, Avatar>, now: map<int, Avatar>, hits: map<int, seq<P.Event>>,
                   monsters: map<int, Mob>, later: map<int, Mob>)
    requires Battered(was, now, hits, monsters, monsters.Keys)
    requires monsters.Keys == later.Keys && forall m :: m in later ==> later[m].body == monsters[m].body
    ensures Battered(was, now, hits, later, later.Keys)
  {
    hide M.Strikes, Fit, Beaten;
    forall o | o in was
      ensures Blows(hits[o], later, later.Keys)
    {
      forall e | e in hits[o]
        ensures exists m :: m in later && m in later.Keys && M.Strikes(later[m].body) && e == Blow(later[m].body)
      {
        var m :| m in monsters && m in monsters.Keys && M.Strikes(monsters[m].body) && e == Blow(monsters[m].body);
        assert later[m].body == monsters[m].body;
      }
    }
  }

  /** Items that nobody looted have aged, and are not expired. */
  ghost predicate LeftOver(was: map<int, Drop>, now: map<int, Drop>) {
    forall i :: i in now ==> i in was && now[i] == was[i].(life := was[i].life + 1) && now[i].life < ITEM_DESPAWN_FRAME
  }

  lemma AgedOnly(was: map<int, Drop>, mid: map<int, Drop>, now: map<int, Drop>)
    requires Aged(was, mid) && forall i :: i in now ==> i in mid && now[i] == mid[i]
    ensures LeftOver(was, now)
  {
  }

  /** A frame of the players: each is updated, then takes the blows of the monsters that strike, then its
      messages are heard; and it is filed where its own update left it, whatever happens to it later. */
  ghost predicate PlayersTicked(was: map<int, Avatar>, now: map<int, Avatar>, hits: map<int, seq<P.Event>>,
                                talk: seq<(int, Request)>, monsters: map<int, Mob>) {
    && was.Keys == now.Keys == hits.Keys
    && forall o :: o in now ==>
         && now[o].life == P.Run(P.Next(was[o].life, P.Frame), hits[o] + EventsOf(o, talk))
         && now[o].current == now[o].dest == SectorOf(P.Updated(was[o].life.body).pos)
         && now[o].character == was[o].character
         && Blows(hits[o], monsters, monsters.Keys)
  }

  lemma FrameEnds(was: map<int, Avatar>, moved: map<int, Avatar>, beaten: map<int, Avatar>, now: map<int, Avatar>,
                  hits: map<int, seq<P.Event>>, talk: seq<(int, Request)>, monsters: map<int, Mob>, jobs: seq<int>,
                  gone: set<Thing>)
    requires Marched(was, moved) && Battered(moved, beaten, hits, monsters, monsters.Keys)
               && Credited(moved, jobs, gone)
    requires now.Keys == beaten.Keys && forall o :: o in now ==> Talked(beaten[o], now[o], EventsOf(o, talk))
    ensures PlayersTicked(was, now, hits, talk, monsters) && Credited(now, jobs, gone)
    ensures forall o :: o in now ==> now[o].dest == now[o].current
  {
    hide P.Run, P.Next, P.Updated, SectorOf, Blows, Fit, EventsOf, Credited;
    forall o | o in now
      ensures now[o].life == P.Run(P.Next(was[o].life, P.Frame), hits[o] + EventsOf(o, talk))
      ensures now[o].current == now[o].dest == SectorOf(P.Updated(was[o].life.body).pos)
      ensures moved[o].life.hits <= now[o].life.hits && moved[o].life.late <= now[o].life.late
    {
      var t := moved[o].life;
      P.RunInParts(t, hits[o], EventsOf(o, talk));
      P.LandingsStay(t, hits[o] + EventsOf(o, talk));
      FrameIs(was[o].life);
    }
    CreditKept(moved, now, jobs, gone);
  }

  /** A tick of the monsters: each takes one step, seeing its target where the blows so far have left it;
      and the living are filed where they stand, but for those that return late. */
  ghost predicate MonstersTicked(was: map<int, Mob>, now: map<int, Mob>, prey: map<int, Option<Position>>,
                                 luck: int -> M.Luck, players: map<int, Avatar>, hits: map<int, seq<P.Event>>) {
    && was.Keys == now.Keys == prey.Keys
    && forall m :: m in now ==>
         && now[m] == Ticked(was[m], prey[m], luck(m)) && SawPrey(prey[m], was[m].body.target, players, hits)
         && (now[m].body.state != M.Dead ==> (now[m].sector == SectorOf(now[m].body.pos) <==> !ReturnsLate(was[m])))
  }

  lemma TickEnds(struck: map<int, Mob>, filed: map<int, Mob>, now: map<int, Mob>, prey: map<int, Option<Position>>,
                 luck: int -> M.Luck, players: map<int, Avatar>, hits: map<int, seq<P.Event>>)
    requires SteppedAll(struck, filed, prey, luck, players, hits) && forall m :: m in struck ==> Settled(struck[m])
    requires now.Keys == filed.Keys && forall m :: m in now ==> now[m] == AfterProc(filed[m])
    ensures MonstersTicked(struck, now, prey, luck, players, hits)
  {
    hide Stepped, Settled, AfterFiling, AfterProc, SawPrey, SectorOf, ReturnsLate;
    forall m | m in now
      ensures now[m].body.state != M.Dead ==> (now[m].sector == SectorOf(now[m].body.pos) <==> !ReturnsLate(struck[m]))
    {
      FilingIsExact(struck[m], prey[m], luck(m));
    }
  }

  lemma BatteredFit(was: map<int, Avatar>, now: map<int, Avatar>, hits: map<int, seq<P.Event>>, monsters: map<int, Mob>)
    requires Battered(was, now, hits, monsters, monsters.Keys)
    ensures was.Keys == now.Keys == hits.Keys
    ensures forall o :: o in now ==> Fit(now[o]) && now[o] == Beaten(was[o], hits[o])
  {
  }

  lemma NewcomerFits(character: int, pos: Position, connected: bool)
    ensures Fit(Entered(character, pos, connected))
  {
    hide SectorOf;
  }

  lemma LivedOnly(a: Avatar, e: P.Event)
    ensures a.life.hits <= Lived(a, e).life.hits && a.life.late <= Lived(a, e).life.late
  {
  }

  lemma HauntingEnter(history: seq<Passage>, o: int)
    ensures Haunting(history + [Enters(o)], o) == {}
    ensures forall p :: p != o ==> Haunting(history + [Enters(o)], p) == Haunting(history, p)
  {
    assert (history + [Enters(o)])[..|history|] == history;
  }

  lemma HauntingLeave(history: seq<Passage>, players: map<int, Avatar>, o: int, p: int)
    requires o in players && p in players && p != o
    ensures Haunting(history + [Leaves(players, o)], p) == Haunting(history, p) +
              if Near(players[p].current, players[o].current) then {Self(players[o])} else {}
  {
    assert (history + [Leaves(players, o)])[..|history|] == history;
  }

  // ---- loot and casualties --------------------------------------------------------------------------------

  /** What kDropTable gives for a roll below 100: 50 to 20 to 10 to 20. */
  function LootOf(roll: nat): Loot {
    if roll < 50 then Loot(Gold, 1)
    else if roll < 70 then Loot(Gold, 5)
    else if roll < 80 then Loot(Gold, 10)
    else Loot(Potion, 1)
  }

  /** The player after it has picked up some loot. */
  function Richer(a: Avatar, loot: Loot): Avatar {
    a.(inventory := a.inventory[loot.item := Carries(a, loot.item) + loot.count])
  }

  function Carries(a: Avatar, item: ItemId): int {
    if item in a.inventory then a.inventory[item] else 0
  }

  function NewlyDead(was: map<int, Mob>, now: map<int, Mob>): set<int> {
    set m | m in was && m in now && was[m].body.state != M.Dead && now[m].body.state == M.Dead
  }

  /** k - j monsters have died, and nobody has come back to life. */
  ghost predicate Casualties(was: map<int, Mob>, now: map<int, Mob>, j: int, k: int) {
    && was.Keys == now.Keys && |NewlyDead(was, now)| == k - j
    && forall m :: m in was && was[m].body.state == M.Dead ==> now[m] == was[m]
  }

  lemma NoHit(monsters: map<int, Mob>, j: int)
    ensures Casualties(monsters, monsters, j, j)
  {
    assert NewlyDead(monsters, monsters) == {};
  }

  lemma OneHit(was: map<int, Mob>, now: map<int, Mob>, m: int, j: int)
    requires m in was && was.Keys == now.Keys && was[m].body.state != M.Dead
    requires forall n :: n in now && n != m ==> now[n] == was[n]
    ensures Casualties(was, now, j, if now[m].body.state == M.Dead then j + 1 else j)
  {
    var died := NewlyDead(was, now);
    forall n | n in died
      ensures n == m
    {
      assert n in now;
    }
    assert died == if now[m].body.state == M.Dead then {m} else {};
  }

  lemma MoreHits(was: map<int, Mob>, mid: map<int, Mob>, now: map<int, Mob>, i: int, j: int, k: int)
    requires Casualties(was, mid, i, j) && Casualties(mid, now, j, k)
    ensures Casualties(was, now, i, k)
  {
    var early, late, all := NewlyDead(was, mid), NewlyDead(mid, now), NewlyDead(was, now);
    forall m | m in was
      ensures m in all <==> m in early + late
      ensures m in early ==> m !in late
    {
    }
    assert all == early + late;
  }

  /** k - j new items lie on the ground, and the others lie as they did. */
  ghost predicate Fallen(was: map<int, Drop>, now: map<int, Drop>, j: int, k: int) {
    && was.Keys <= now.Keys && |now.Keys - was.Keys| == k - j
    && (forall i :: i in was ==> now[i] == was[i])
    && (forall i :: i in now && i !in was ==> now[i].life == 0)
  }

  lemma NothingFallen(items: map<int, Drop>, j: int)
    ensures Fallen(items, items, j, j)
  {
    assert items.Keys - items.Keys == {};
  }

  lemma OneFallen(was: map<int, Drop>, now: map<int, Drop>, i: int, j: int)
    requires i !in was && now.Keys == was.Keys + {i} && now[i].life == 0 && forall k :: k in was ==> now[k] == was[k]
    ensures Fallen(was, now, j, j + 1)
  {
    assert now.Keys - was.Keys == {i};
  }

  lemma MoreFallen(was: map<int, Drop>, mid: map<int, Drop>, now: map<int, Drop>, i: int, j: int, k: int)
    requires Fallen(was, mid, i, j) && Fallen(mid, now, j, k)
    ensures Fallen(was, now, i, k)
  {
    assert now.Keys - was.Keys == (mid.Keys - was.Keys) + (now.Keys - mid.Keys);
  }
}

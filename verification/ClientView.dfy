/** What a client knows about the characters, monsters and items around it: the packet handlers of
    FieldScene, folded over the packets it was sent. */
module ClientView {
  import M = Monsters

  datatype Kind = Character | Monster | Item
  datatype Thing = Thing(kind: Kind, id: int)

  /** What a client draws of a monster. moving: the state in its spawn record is Move, Chase or Return. */
  datatype Look = Look(moving: bool, facing: M.Direction)

  const STILL := Look(false, 0)

  datatype Packet =
    | Spawn(what: Thing, look: Look)
    | Despawn(what: Thing)
    | MonsterMoveStart(id: int, facing: M.Direction)
    | MonsterMoveStop(id: int, facing: M.Direction)
    | MonsterDamaged(id: int, facing: M.Direction)
    | MonsterAttack(id: int)
    | CharacterMoveStart(id: int)
    | CharacterMoveStop(id: int)
    | CharacterAttack(id: int)
    | CharacterDamaged(id: int)

  /** seen: the actor maps. moving: monsters whose mBMove is set. facing: the mDirection of monsters. doubled:
      things whose spawn arrived while they were in the map. broken: another assertion of a handler has
      failed. */
  datatype View = View(seen: set<Thing>, moving: set<int>, facing: map<int, M.Direction>,
                       doubled: set<Thing>, broken: bool)

  const EMPTY := View({}, {}, map[], {}, false)

  /** The copies of monsters at the clients. moving: those that move. facing: where the copies of a monster
      look, if they all look the same way. */
  datatype Copies = Copies(moving: set<int>, facing: map<int, M.Direction>)

  function Facing(cs: Copies, m: int): M.Direction {
    if m in cs.facing then cs.facing[m] else 0
  }

  /** The look fits what is known of the other copies. */
  predicate Fits(cs: Copies, m: int, look: Look) {
    (look.moving <==> m in cs.moving) && (m in cs.facing ==> cs.facing[m] == look.facing)
  }

  function Apply(v: View, p: Packet): View {
    match p
    case Spawn(t, look) =>
      if t in v.seen then v.(doubled := v.doubled + {t})   // insert leaves the old actor in the map
      else if !t.kind.Monster? then v.(seen := v.seen + {t})
      else v.(seen := v.seen + {t}, facing := v.facing[t.id := look.facing],
              moving := if look.moving then v.moving + {t.id} else v.moving)
    case Despawn(t) =>
      v.(seen := v.seen - {t}, moving := if t.kind.Monster? then v.moving - {t.id} else v.moving)
    case MonsterMoveStart(m, d) =>
      v.(moving := v.moving + {m}, facing := v.facing[m := d],
         broken := v.broken || Thing(Monster, m) !in v.seen || m in v.moving)
    case MonsterMoveStop(m, d) =>
      v.(moving := v.moving - {m}, facing := v.facing[m := d], broken := v.broken || Thing(Monster, m) !in v.seen)
    case MonsterDamaged(m, d) =>
      v.(moving := v.moving - {m}, facing := v.facing[m := d], broken := v.broken || Thing(Monster, m) !in v.seen)
    case MonsterAttack(m) =>
      v.(broken := v.broken || Thing(Monster, m) !in v.seen)
    case CharacterMoveStart(c) =>   // the handler does not assert it, but dereferences what it finds
      v.(broken := v.broken || Thing(Character, c) !in v.seen)
    case CharacterMoveStop(c) =>
      v.(broken := v.broken || Thing(Character, c) !in v.seen)
    case CharacterAttack(c) =>
      v.(broken := v.broken || Thing(Character, c) !in v.seen)
    case CharacterDamaged(_) => v
  }

  function Fold(log: seq<Packet>): View {
    if log == [] then EMPTY else Apply(Fold(log[..|log| - 1]), log[|log| - 1])
  }

  lemma FoldNothing()
    ensures Fold([]) == EMPTY
  {
  }

  lemma FoldAppend(log: seq<Packet>, p: Packet)
    ensures Fold(log + [p]) == Apply(Fold(log), p)
  {
    assert (log + [p])[..|log|] == log;
  }

  /** The monsters among things. */
  function MonstersOf(things: set<Thing>): set<int> {
    set t | t in things && t.kind.Monster? :: t.id
  }

  /** Spawns of all of `things`, in whatever order. */
  function AddAll(v: View, things: set<Thing>, cs: Copies): View {
    var news := MonstersOf(things - v.seen);
    View(v.seen + things, v.moving + news * cs.moving,
         map m | m in v.facing.Keys + news :: if m in news then Facing(cs, m) else v.facing[m],
         v.doubled + v.seen * things, v.broken)
  }

  /** Despawns of all of `things`. */
  function RemoveAll(v: View, things: set<Thing>): View {
    v.(seen := v.seen - things, moving := v.moving - MonstersOf(things))
  }

  /** The view after `things` have been announced or withdrawn one by one. */
  function Announced(v: View, things: set<Thing>, cs: Copies, spawn: bool): View {
    if spawn then AddAll(v, things, cs) else RemoveAll(v, things)
  }

  lemma OneMore(v: View, things: set<Thing>, cs: Copies, spawn: bool, t: Thing, look: Look)
    requires t !in things && (t.kind.Monster? ==> t.id in cs.facing && Fits(cs, t.id, look))
    ensures Apply(Announced(v, things, cs, spawn), if spawn then Spawn(t, look) else Despawn(t))
         == Announced(v, things + {t}, cs, spawn)
  {
    if spawn { OneMoreSpawn(v, things, cs, t, look); } else { OneMoreDespawn(v, things, t); }
  }

  lemma OneMoreSpawn(v: View, things: set<Thing>, cs: Copies, t: Thing, look: Look)
    requires t !in things && (t.kind.Monster? ==> t.id in cs.facing && Fits(cs, t.id, look))
    ensures Apply(AddAll(v, things, cs), Spawn(t, look)) == AddAll(v, things + {t}, cs)
  {
    hide MonstersOf;
    var news := MonstersOf(things - v.seen);
    assert (things + {t}) - v.seen == (things - v.seen) + ({t} - v.seen);
    OneMonsterMore(things - v.seen, t);
    var x, y := Apply(AddAll(v, things, cs), Spawn(t, look)), AddAll(v, things + {t}, cs);
    if t in v.seen {
      assert (things + {t}) - v.seen == things - v.seen;
    } else {
      assert {t} - v.seen == {t};
      assert x.moving == y.moving;
    }
    assert x.seen == y.seen && x.doubled == y.doubled;
    assert x.facing == y.facing;
  }

  lemma OneMoreDespawn(v: View, things: set<Thing>, t: Thing)
    requires t !in things
    ensures Apply(RemoveAll(v, things), Despawn(t)) == RemoveAll(v, things + {t})
  {
    hide MonstersOf;
    OneMonsterMore(things, t);
    assert v.seen - (things + {t}) == v.seen - things - {t};
  }

  lemma OneMonsterMore(things: set<Thing>, t: Thing)
    ensures MonstersOf(things + {t}) == MonstersOf(things) + if t.kind.Monster? then {t.id} else {}
    ensures t !in things && t.kind.Monster? ==> t.id !in MonstersOf(things)
  {
    assert t in things + {t};
  }

  lemma InTwoParts(v: View, a: set<Thing>, b: set<Thing>, cs: Copies, spawn: bool)
    requires a !! b
    ensures Announced(Announced(v, a, cs, spawn), b, cs, spawn) == Announced(v, a + b, cs, spawn)
  {
    hide MonstersOf, Facing;
    assert (a + b) - v.seen == (a - v.seen) + (b - (v.seen + a));
    TwoMonsters(a - v.seen, b - (v.seen + a));
    TwoMonsters(a, b);
  }

  lemma TwoMonsters(a: set<Thing>, b: set<Thing>)
    ensures MonstersOf(a + b) == MonstersOf(a) + MonstersOf(b)
  {
    forall m | m in MonstersOf(a) + MonstersOf(b)
      ensures m in MonstersOf(a + b)
    {
      assert Thing(Monster, m) in a + b;
    }
  }

  lemma Nothing(v: View, cs: Copies, spawn: bool)
    ensures Announced(v, {}, cs, spawn) == v
  {
  }
}

/** Spawn batches: the records around a player are cut into packets that fit a Message, and the client
    gets the same records back. */
module Batch {
  import opened RingBuffer
  import opened LittleEndian
  import opened Framing
  import M = Message

  // ---- records ---------------------------------------------------------------------------------------

  /** The widths, in bytes, of the fields of a record, in the order of their << and >>. */
  type Layout = seq<nat>

  /** The fields of a record as unsigned numbers: a float or a name is its bytes. */
  datatype Record = Record(fields: seq<int>)

  // id x y state direction speed animFrame type nickname
  const CHARACTER_LAYOUT: Layout := [8, 4, 4, 1, 1, 4, 4, 1, 20]
  const MONSTER_LAYOUT: Layout := [8, 4, 4, 1, 1, 4, 1, 4]         // id x y state direction hp type animFrame
  const ITEM_LAYOUT: Layout := [8, 1, 4, 4]                        // id itemId x y

  function Size(l: Layout): nat {
    if l == [] then 0 else l[0] + Size(l[1..])
  }

  predicate Fits(l: Layout, r: Record) {
    |r.fields| == |l| && forall i :: 0 <= i < |l| ==> 0 <= r.fields[i] < Power(l[i])
  }

  function Encoded1(l: Layout, r: Record): (b: seq<Byte>)
    requires |r.fields| == |l|
    ensures |b| == Size(l)
  {
    if l == [] then [] else Bytes(r.fields[0], l[0]) + Encoded1(l[1..], Record(r.fields[1..]))
  }

  function Decoded1(l: Layout, b: seq<Byte>): (r: Record)
    requires |b| == Size(l)
    ensures |r.fields| == |l|
  {
    if l == [] then Record([]) else Record([Number(b[..l[0]])] + Decoded1(l[1..], b[l[0]..]).fields)
  }

  /** Reading the fields of a record gives back what was written. */
  lemma {:induction false} RecordRoundTrip(l: Layout, r: Record)
    requires Fits(l, r)
    ensures Decoded1(l, Encoded1(l, r)) == r
  {
    if l != [] {
      var b, rest := Encoded1(l, r), Record(r.fields[1..]);
      assert b[..l[0]] == Bytes(r.fields[0], l[0]) && b[l[0]..] == Encoded1(l[1..], rest);
      NumberOfBytes(r.fields[0], l[0]);
      RecordRoundTrip(l[1..], rest);
    }
  }

  // ---- packets ------------------------------------------------------------------------------------------

  /** maxBatch: what fits beside the header, the type and the count. */
  function MaxBatch(l: Layout): int {
    if Size(l) == 0 then 0 else (M.BUFFER_SIZE - 2 - 2 - HEADER) / Size(l)
  }

  predicate IsBatch(l: Layout) {
    l == CHARACTER_LAYOUT || l == MONSTER_LAYOUT || l == ITEM_LAYOUT
  }

  lemma BatchSizes(l: Layout)
    requires IsBatch(l)
    ensures Size(l) == (if l == CHARACTER_LAYOUT then 47 else if l == MONSTER_LAYOUT then 27 else 17)
    ensures MaxBatch(l) == (if l == CHARACTER_LAYOUT then 127 else if l == MONSTER_LAYOUT then 221 else 352)
  {
    hide Size;
    if l == CHARACTER_LAYOUT { CharacterSize(); } else if l == MONSTER_LAYOUT { MonsterSize(); } else { ItemSize(); }
  }

  lemma CharacterSize()
    ensures Size(CHARACTER_LAYOUT) == 47
  {
    var l := CHARACTER_LAYOUT;
    SizeFrom(l, 9); SizeFrom(l, 8); SizeFrom(l, 7); SizeFrom(l, 6); SizeFrom(l, 5); SizeFrom(l, 4);
    SizeFrom(l, 3); SizeFrom(l, 2); SizeFrom(l, 1); SizeFrom(l, 0);
    assert l[0..] == l;
  }

  lemma MonsterSize()
    ensures Size(MONSTER_LAYOUT) == 27
  {
    var l := MONSTER_LAYOUT;
    SizeFrom(l, 8); SizeFrom(l, 7); SizeFrom(l, 6); SizeFrom(l, 5); SizeFrom(l, 4);
    SizeFrom(l, 3); SizeFrom(l, 2); SizeFrom(l, 1); SizeFrom(l, 0);
    assert l[0..] == l;
  }

  lemma ItemSize()
    ensures Size(ITEM_LAYOUT) == 17
  {
    var l := ITEM_LAYOUT;
    SizeFrom(l, 4); SizeFrom(l, 3); SizeFrom(l, 2); SizeFrom(l, 1); SizeFrom(l, 0);
    assert l[0..] == l;
  }

  lemma SizeFrom(l: Layout, i: nat)
    requires i <= |l|
    ensures Size(l[i..]) == if i == |l| then 0 else l[i] + Size(l[i + 1..])
  {
    if i < |l| {
      assert l[i..][1..] == l[i + 1..];
    }
  }

  function Body(l: Layout, rs: seq<Record>): seq<Byte>
    requires forall r :: r in rs ==> |r.fields| == |l|
  {
    if rs == [] then [] else Body(l, rs[..|rs| - 1]) + Encoded1(l, rs[|rs| - 1])
  }

  lemma {:induction false} BodyLength(l: Layout, rs: seq<Record>)
    requires forall r :: r in rs ==> |r.fields| == |l|
    ensures |Body(l, rs)| == Size(l) * |rs|
  {
    if rs != [] {
      BodyLength(l, rs[..|rs| - 1]);
      OneMoreFactor(Size(l), |rs| - 1);
    }
  }

  lemma OneMoreFactor(a: nat, n: nat)
    ensures a * (n + 1) == a * n + a
  {
  }

  datatype Sent = Sent(bytes: seq<Byte>)

  /** The packet of a batch: Len counts what follows the header, RandKey is 0. */
  function Packet(l: Layout, kind: nat, rs: seq<Record>): Sent
    requires forall r :: r in rs ==> |r.fields| == |l|
  {
    Sent(Preamble(l, kind, |rs|) + Body(l, rs))
  }

  /** Header, type and count of a batch of n records. */
  function Preamble(l: Layout, kind: nat, n: nat): (h: seq<Byte>)
    ensures |h| == HEADER + 4
  {
    Bytes(4 + Size(l) * n, 2) + [0] + Bytes(kind, 2) + Bytes(n, 2)
  }

  /** The packets of a list of records: as many as fit in each. */
  function Packets(l: Layout, kind: nat, cap: nat, rs: seq<Record>): seq<Sent>
    requires cap > 0 && forall r :: r in rs ==> |r.fields| == |l|
    decreases |rs|
  {
    if rs == [] then []
    else
      var n := Least(|rs|, cap);
      [Packet(l, kind, rs[..n])] + Packets(l, kind, cap, rs[n..])
  }

  function Least(a: int, b: int): int {
    if a < b then a else b
  }

  // ---- the server ------------------------------------------------------------------------------------------

  /** One of the things in the sectors around the target. key: its identity, to leave out the target. */
  datatype Entry = Entry(key: int, record: Record)

  function Others(cell: seq<Entry>, target: int): seq<Record> {
    if cell == [] then [] else Others(cell[..|cell| - 1], target) + Own(cell[|cell| - 1], target)
  }

  function Own(e: Entry, target: int): seq<Record> {
    if e.key == target then [] else [e.record]
  }

  /** Everything around the target, sector by sector. */
  function Around(sectors: seq<seq<Entry>>, target: int): seq<Record> {
    if sectors == [] then [] else Around(sectors[..|sectors| - 1], target) + Others(sectors[|sectors| - 1], target)
  }

  predicate Formed(l: Layout, rs: seq<Record>) {
    forall r :: r in rs ==> |r.fields| == |l|
  }

  /** The message being written: its count and Len were fixed when it was begun, for the records in
      it and the batchCnt that are still to come; it is full unless nothing is left. */
  predicate Writing(l: Layout, kind: nat, cap: nat, current: seq<Record>, batchCnt: int, cnt: int, msg: seq<Byte>) {
    && Formed(l, current) && 0 <= batchCnt <= cnt && |current| + batchCnt <= cap
    && (msg == [] ==> current == [] && batchCnt == 0)
    && (msg != [] ==>
          && current != [] && msg == Preamble(l, kind, |current| + batchCnt) + Body(l, current)
          && (batchCnt < cnt ==> |current| + batchCnt == cap))
  }

  /** What is left to send: the current message when it is complete, and then the rest. */
  function ToCome(l: Layout, kind: nat, cap: nat, current: seq<Record>, batchCnt: int, rest: seq<Record>): seq<Sent>
    requires cap > 0 && Formed(l, current) && Formed(l, rest) && 0 <= batchCnt <= |rest|
  {
    if current == [] then Packets(l, kind, cap, rest)
    else [Packet(l, kind, current + rest[..batchCnt])] + Packets(l, kind, cap, rest[batchCnt..])
  }

  class Batcher {
    const layout: Layout
    const kind: nat
    const maxBatch: nat
    var cnt: int                       // records that are still to be written
    var batchCnt: int                  // records that are still to be written into the current message
    var msg: seq<Byte>                 // the current message; [] stands for nullptr
    var packets: seq<Sent>             // what was given to sendPost
    ghost var current: seq<Record>     // the records in the current message

    ghost predicate Valid()
      reads this
    {
      maxBatch > 0 && Writing(layout, kind, maxBatch, current, batchCnt, cnt, msg)
    }

    /** The records `done` of `all` have been written; what is sent and what is to come is right. */
    ghost predicate Progress(all: seq<Record>, done: seq<Record>)
      reads this
    {
      && Valid() && Formed(layout, all) && done <= all && cnt == |all| - |done|
      && packets + ToCome(layout, kind, maxBatch, current, batchCnt, all[|done|..]) ==
           Packets(layout, kind, maxBatch, all)
    }

    constructor (l: Layout, k: nat, n: nat)
      requires IsBatch(l)
      ensures Valid() && layout == l && kind == k && maxBatch == MaxBatch(l) && cnt == n && packets == []
                && current == [] && batchCnt == 0 && msg == []
    {
      BatchSizes(l);
      hide Size;
      layout, kind, maxBatch, cnt, batchCnt, msg, packets, current := l, k, MaxBatch(l), n, 0, [], [], [];
    }

    /** sendPost of the current message, if there is one. */
    method Flush()
      modifies this`msg, this`packets
      ensures msg == [] && packets == old(packets) + if old(msg) == [] then [] else [Sent(old(msg))]
    {
      if msg != [] {
        packets := packets + [Sent(msg)];
        msg := [];
      }
    }

    /** The body of the innermost loop, for a record that is not the target's own; goal: all packets. */
    method Add(r: Record, ghost rest: seq<Record>, ghost goal: seq<Sent>)
      requires Valid() && |r.fields| == |layout| && Formed(layout, rest) && cnt == 1 + |rest|
      requires packets + ToCome(layout, kind, maxBatch, current, batchCnt, [r] + rest) == goal
      modifies this
      ensures Valid() && cnt == |rest|
      ensures packets + ToCome(layout, kind, maxBatch, current, batchCnt, rest) == goal
    {
      hide Preamble, Packets, Packet, Encoded1, Bytes, Size, Writing, ToCome, Body;
      WritingBounds(layout, kind, maxBatch, current, batchCnt, cnt, msg);
      if batchCnt == 0 {
        Begin(r, rest, goal);
      } else {
        Continues(layout, kind, maxBatch, current, batchCnt, msg, r, rest);
        cnt, batchCnt := cnt - 1, batchCnt - 1;
        msg := msg + Encoded1(layout, r);
        current := current + [r];
      }
    }

    /** The branch that sends the complete message and begins the next. */
    method Begin(r: Record, ghost rest: seq<Record>, ghost goal: seq<Sent>)
      requires Valid() && |r.fields| == |layout| && Formed(layout, rest) && cnt == 1 + |rest| && batchCnt == 0
      requires packets + ToCome(layout, kind, maxBatch, current, 0, [r] + rest) == goal
      modifies this
      ensures Valid() && cnt == |rest|
      ensures packets + ToCome(layout, kind, maxBatch, current, batchCnt, rest) == goal
    {
      hide Preamble, Packets, Packet, Encoded1, Bytes, Size, Writing, ToCome, Body;
      SendComplete(r, rest, goal);
      batchCnt := if cnt < maxBatch then cnt else maxBatch;
      msg := Preamble(layout, kind, batchCnt);
      cnt, batchCnt := cnt - 1, batchCnt - 1;
      msg := msg + Encoded1(layout, r);
      current := [r];
    }

    method SendComplete(r: Record, ghost rest: seq<Record>, ghost goal: seq<Sent>)
      requires Valid() && |r.fields| == |layout| && Formed(layout, rest) && cnt == 1 + |rest| && batchCnt == 0
      requires packets + ToCome(layout, kind, maxBatch, current, 0, [r] + rest) == goal
      modifies this`msg, this`packets
      ensures var n := Least(cnt, maxBatch);
        && Writing(layout, kind, maxBatch, [r], n - 1, |rest|, Preamble(layout, kind, n) + Encoded1(layout, r))
        && packets + ToCome(layout, kind, maxBatch, [r], n - 1, rest) == goal
    {
      hide Preamble, Packets, Packet, Encoded1, Bytes, Size, Writing, ToCome, Body;
      Begins(layout, kind, maxBatch, current, msg, r, rest);
      Flush();
    }
  }

  /** A record is added to the message that has been begun. */
  lemma {:induction false} Continues(l: Layout, kind: nat, cap: nat, current: seq<Record>, batchCnt: int,
                                     msg: seq<Byte>, r: Record, rest: seq<Record>)
    requires cap > 0 && |r.fields| == |l| && Formed(l, rest)
               && Writing(l, kind, cap, current, batchCnt, 1 + |rest|, msg) && batchCnt > 0
    ensures Writing(l, kind, cap, current + [r], batchCnt - 1, |rest|, msg + Encoded1(l, r))
    ensures ToCome(l, kind, cap, current + [r], batchCnt - 1, rest) ==
              ToCome(l, kind, cap, current, batchCnt, [r] + rest)
  {
    hide Preamble, Bytes, Size, Encoded1, Packets, Packet, Body;
    BodyMore(l, current, r);
    var all := [r] + rest;
    assert all[..batchCnt] == [r] + rest[..batchCnt - 1] && all[batchCnt..] == rest[batchCnt - 1..];
    assert current + ([r] + rest[..batchCnt - 1]) == current + [r] + rest[..batchCnt - 1];
  }

  lemma WritingBounds(l: Layout, kind: nat, cap: nat, current: seq<Record>, batchCnt: int, cnt: int, msg: seq<Byte>)
    requires Writing(l, kind, cap, current, batchCnt, cnt, msg)
    ensures Formed(l, current) && 0 <= batchCnt <= cnt
  {
  }

  lemma BodyMore(l: Layout, current: seq<Record>, r: Record)
    requires Formed(l, current) && |r.fields| == |l|
    ensures Body(l, current + [r]) == Body(l, current) + Encoded1(l, r)
  {
    assert (current + [r])[..|current + [r]| - 1] == current;
  }

  /** When a message is complete, or none has been begun, the next one starts with r. */
  lemma {:induction false} Begins(l: Layout, kind: nat, cap: nat, current: seq<Record>, msg: seq<Byte>, r: Record,
                                  rest: seq<Record>)
    requires cap > 0 && |r.fields| == |l| && Formed(l, rest) && Writing(l, kind, cap, current, 0, 1 + |rest|, msg)
    ensures var n := Least(1 + |rest|, cap);
      && Writing(l, kind, cap, [r], n - 1, |rest|, Preamble(l, kind, n) + Encoded1(l, r))
      && (if msg == [] then [] else [Sent(msg)]) + ToCome(l, kind, cap, [r], n - 1, rest)
         == ToCome(l, kind, cap, current, 0, [r] + rest)
  {
    hide Preamble, Bytes, Size, Encoded1, Packets, Body;
    var all, n := [r] + rest, Least(1 + |rest|, cap);
    BodyMore(l, [], r);
    assert [] + [r] == [r] && Body(l, []) == [] by { EmptyBody(l); }
    FirstPacket(l, kind, cap, all);
    assert all[..n] == [r] + rest[..n - 1] && all[n..] == rest[n - 1..];
    assert current + all[..0] == current && all[0..] == all;
  }

  lemma EmptyBody(l: Layout)
    ensures Body(l, []) == []
  {
  }

  lemma FirstPacket(l: Layout, kind: nat, cap: nat, rs: seq<Record>)
    requires cap > 0 && rs != [] && forall r :: r in rs ==> |r.fields| == |l|
    ensures var n := Least(|rs|, cap);
      Packets(l, kind, cap, rs) == [Packet(l, kind, rs[..n])] + Packets(l, kind, cap, rs[n..])
  {
    hide Packet;
  }

  // ---- the three loops --------------------------------------------------------------------------------------

  lemma {:induction false} AroundFormed(l: Layout, sectors: seq<seq<Entry>>, target: int)
    requires WellFormed(l, sectors)
    ensures Formed(l, Around(sectors, target))
  {
    if sectors != [] {
      AroundFormed(l, sectors[..|sectors| - 1], target);
      assert sectors[|sectors| - 1] in sectors;
      OthersFormed(l, sectors[|sectors| - 1], target);
    }
  }

  lemma {:induction false} OthersFormed(l: Layout, cell: seq<Entry>, target: int)
    requires FormedCell(l, cell)
    ensures Formed(l, Others(cell, target))
  {
    if cell != [] {
      OthersFormed(l, cell[..|cell| - 1], target);
    }
  }

  predicate FormedCell(l: Layout, cell: seq<Entry>) {
    forall e :: e in cell ==> |e.record.fields| == |l|
  }

  predicate WellFormed(l: Layout, sectors: seq<seq<Entry>>) {
    forall c :: c in sectors ==> FormedCell(l, c)
  }

  /** What the loops have gone through after a whole sectors and k entries of the next. */
  function Passed(sectors: seq<seq<Entry>>, target: int, a: nat, k: nat): seq<Record>
    requires a <= |sectors| && (a == |sectors| ==> k == 0) && (a < |sectors| ==> k <= |sectors[a]|)
  {
    Around(sectors[..a], target) + if a == |sectors| then [] else Others(sectors[a][..k], target)
  }

  lemma PassedNext(sectors: seq<seq<Entry>>, target: int, a: nat, k: nat)
    requires a < |sectors| && k < |sectors[a]|
    ensures Passed(sectors, target, a, k + 1) == Passed(sectors, target, a, k) + Own(sectors[a][k], target)
  {
    assert sectors[a][..k + 1][..k] == sectors[a][..k];
  }

  lemma PassedSector(sectors: seq<seq<Entry>>, target: int, a: nat)
    requires a < |sectors|
    ensures Passed(sectors, target, a + 1, 0) == Passed(sectors, target, a, |sectors[a]|)
  {
    assert sectors[..a + 1][..a] == sectors[..a];
    assert sectors[a][..|sectors[a]|] == sectors[a];
    if a + 1 < |sectors| {
      assert sectors[a + 1][..0] == [];
    }
  }

  lemma {:induction false} PassedIsPrefix(sectors: seq<seq<Entry>>, target: int, a: nat, k: nat)
    requires a <= |sectors| && (a == |sectors| ==> k == 0) && (a < |sectors| ==> k <= |sectors[a]|)
    ensures Passed(sectors, target, a, k) <= Around(sectors, target)
    decreases |sectors| - a, if a < |sectors| then |sectors[a]| - k else 0
  {
    if a == |sectors| {
      assert sectors[..a] == sectors;
    } else if k == |sectors[a]| {
      PassedSector(sectors, target, a);
      PassedIsPrefix(sectors, target, a + 1, 0);
    } else {
      PassedNext(sectors, target, a, k);
      PassedIsPrefix(sectors, target, a, k + 1);
    }
  }

  /** The counting loops. */
  method CountOthers(sectors: seq<seq<Entry>>, target: int) returns (cnt: nat)
    ensures cnt == |Around(sectors, target)|
  {
    hide Around, Passed;
    NothingPassed(sectors, target);
    cnt := 0;
    for a := 0 to |sectors|
      invariant cnt == |Passed(sectors, target, a, 0)|
    {
      for k := 0 to |sectors[a]|
        invariant cnt == |Passed(sectors, target, a, k)|
      {
        PassedNext(sectors, target, a, k);
        if sectors[a][k].key == target {
          continue;
        }
        cnt := cnt + 1;
      }
      PassedSector(sectors, target, a);
    }
    NothingLeft(sectors, target);
  }

  /** One pass of the loops inside `while cnt != 0`. */
  method AddAll(b: Batcher, sectors: seq<seq<Entry>>, target: int)
    requires b.Valid() && WellFormed(b.layout, sectors) && Formed(b.layout, Around(sectors, target))
    requires b.cnt == |Around(sectors, target)| && b.current == [] && b.batchCnt == 0 && b.packets == []
    modifies b
    ensures b.Valid() && b.cnt == 0
    ensures b.packets + ToCome(b.layout, b.kind, b.maxBatch, b.current, b.batchCnt, [])
         == Packets(b.layout, b.kind, b.maxBatch, Around(sectors, target))
  {
    hide Preamble, Packets, Packet, ToCome, Around, Others, Passed, Writing;
    ghost var all := Around(sectors, target);
    NothingBegun(b.layout, b.kind, b.maxBatch, all);
    NothingPassed(sectors, target);
    for a := 0 to |sectors|
      invariant b.Progress(all, Passed(sectors, target, a, 0))
    {
      for k := 0 to |sectors[a]|
        invariant b.Progress(all, Passed(sectors, target, a, k))
      {
        PassedNext(sectors, target, a, k);
        PassedIsPrefix(sectors, target, a, k + 1);
        if sectors[a][k].key == target {
          continue;
        }
        ghost var n := |Passed(sectors, target, a, k)|;
        assert sectors[a] in sectors && sectors[a][k] in sectors[a];
        assert all[n..] == [sectors[a][k].record] + all[n + 1..];
        b.Add(sectors[a][k].record, all[n + 1..], Packets(b.layout, b.kind, b.maxBatch, all));
      }
      PassedSector(sectors, target, a);
    }
    NothingLeft(sectors, target);
    assert all[|all|..] == [];
  }

  lemma NothingBegun(l: Layout, kind: nat, cap: nat, all: seq<Record>)
    requires cap > 0 && Formed(l, all)
    ensures ToCome(l, kind, cap, [], 0, all[0..]) == Packets(l, kind, cap, all)
  {
    assert all[0..] == all;
  }

  lemma NothingPassed(sectors: seq<seq<Entry>>, target: int)
    ensures Passed(sectors, target, 0, 0) == []
  {
    assert sectors[..0] == [];
    if 0 < |sectors| {
      assert sectors[0][..0] == [];
    }
  }

  lemma NothingLeft(sectors: seq<seq<Entry>>, target: int)
    ensures Passed(sectors, target, |sectors|, 0) == Around(sectors, target)
  {
    assert sectors[..|sectors|] == sectors;
  }

  /** The message that is written when nothing is left is complete. */
  lemma FinishedMessage(l: Layout, kind: nat, cap: nat, current: seq<Record>, batchCnt: int, msg: seq<Byte>)
    requires cap > 0 && Writing(l, kind, cap, current, batchCnt, 0, msg)
    ensures Formed(l, current) && batchCnt == 0
    ensures ToCome(l, kind, cap, current, batchCnt, []) == if msg == [] then [] else [Sent(msg)]
  {
    hide Preamble, Body, Size;
    assert current + [][..0] == current;
  }

  /** sendSpawnBatch, sendMonsterSpawnBatch and sendItemSpawnBatch: all records around the target, but
      its own, in the order of the sectors, cut into full packets; the outer loop runs at most once.
      cnt is an int16_t, so there must be fewer than 2^15 records. */
  method SendSpawnBatch(l: Layout, kind: nat, sectors: seq<seq<Entry>>, target: int) returns (packets: seq<Sent>)
    requires IsBatch(l) && WellFormed(l, sectors) && |Around(sectors, target)| < 0x8000
    ensures Formed(l, Around(sectors, target)) && MaxBatch(l) > 0
    ensures packets == Packets(l, kind, MaxBatch(l), Around(sectors, target))
  {
    hide MaxBatch, Size, Preamble, Packets, Packet, ToCome, Around, Writing, WellFormed;
    BatchCapacity(l);
    AroundFormed(l, sectors, target);
    hide IsBatch;
    ghost var all := Around(sectors, target);
    var cnt := CountOthers(sectors, target);
    if cnt == 0 {
      EmptyPackets(l, kind, MaxBatch(l));
      return [];
    }
    var b := new Batcher(l, kind, cnt);
    ghost var passes := 0;
    while b.cnt != 0
      invariant b.Valid() && b.layout == l && b.kind == kind && b.maxBatch == MaxBatch(l)
      invariant passes == 0 ==> b.cnt == |all| && b.current == [] && b.batchCnt == 0 && b.packets == []
      invariant passes == 1 ==> b.cnt == 0 && Complete(l, kind, b.maxBatch, all, b.current, b.batchCnt, b.packets)
      invariant passes <= 1
      decreases b.cnt
    {
      AddAll(b, sectors, target);
      WritingBounds(l, kind, b.maxBatch, b.current, b.batchCnt, b.cnt, b.msg);
      passes := passes + 1;
    }
    FinishedMessage(l, kind, b.maxBatch, b.current, b.batchCnt, b.msg);
    b.Flush();
    packets := b.packets;
    assert b.packets + [] == b.packets;
  }

  lemma BatchCapacity(l: Layout)
    requires IsBatch(l)
    ensures 0 < MaxBatch(l)
  {
    BatchSizes(l);
  }

  lemma EmptyPackets(l: Layout, kind: nat, cap: nat)
    requires cap > 0
    ensures Packets(l, kind, cap, []) == []
  {
  }

  ghost predicate Complete(l: Layout, kind: nat, cap: nat, all: seq<Record>, current: seq<Record>, batchCnt: int,
                           packets: seq<Sent>) {
    && cap > 0 && Formed(l, all) && Formed(l, current) && batchCnt == 0
    && packets + ToCome(l, kind, cap, current, batchCnt, []) == Packets(l, kind, cap, all)
  }

  // ---- what is sent --------------------------------------------------------------------------------------------

  /** Every packet's Len and count are those of its contents, it fits a Message, and the framing layer
      takes it apart as one frame. */
  lemma PacketFits(l: Layout, kind: nat, rs: seq<Record>)
    requires IsBatch(l) && Formed(l, rs) && 0 < |rs| <= MaxBatch(l)
    ensures var p := Packet(l, kind, rs).bytes;
      && |p| == HEADER + 4 + Size(l) * |rs| <= M.BUFFER_SIZE
      && Announced(p) == |p| - HEADER
      && Number(p[HEADER + 2..HEADER + 4]) == |rs|
      && Parse(p, M.BUFFER_SIZE) == Parsed([Frame(0, p[HEADER..])], [], More)
  {
    hide Body, Size, MaxBatch, IsBatch, Parse;
    var p, len := Packet(l, kind, rs).bytes, 4 + Size(l) * |rs|;
    BodyLength(l, rs);
    Product(l, |rs|);
    TwoBytes(len);
    TwoBytes(|rs|);
    assert p[0] == len % 256 && p[1] == len / 256 && p[2] == 0;
    assert p[HEADER + 2..HEADER + 4] == Bytes(|rs|, 2);
    hide Bytes, Preamble, Packet;
    OneFrame(p, len);
  }

  lemma Product(l: Layout, n: nat)
    requires IsBatch(l) && n <= MaxBatch(l)
    ensures MaxBatch(l) < 0x8000 && 4 + Size(l) * n <= M.BUFFER_SIZE - HEADER
  {
    BatchSizes(l);
  }

  lemma TwoBytes(v: nat)
    requires v < 0x8000
    ensures Bytes(v, 2) == [v % 256, v / 256] && Number(Bytes(v, 2)) == v
  {
    assert Power(2) == 256 * (256 * Power(0));
    NumberOfBytes(v, 2);
    assert Bytes(v, 2) == [v % 256] + Bytes(v / 256, 1);
    assert Bytes(v / 256, 1) == [v / 256 % 256] + Bytes(v / 256 / 256, 0);
  }

  lemma OneFrame(p: seq<Byte>, len: int)
    requires 0 < len <= M.BUFFER_SIZE && |p| == HEADER + len && p[0] == len % 256 && p[1] == len / 256 && p[2] == 0
    ensures Announced(p) == len && Parse(p, M.BUFFER_SIZE) == Parsed([Frame(0, p[HEADER..])], [], More)
  {
    assert Whole(p, M.BUFFER_SIZE) && Tail(p) == [] && Framing.Head(p) == Frame(0, p[HEADER..]);
    assert Parse([], M.BUFFER_SIZE) == Parsed([], [], More);
  }

  datatype Chunk = Chunk(records: seq<Record>)

  /** The records of the packets. */
  function Chunks(cap: nat, rs: seq<Record>): seq<Chunk>
    requires cap > 0
    decreases |rs|
  {
    if rs == [] then [] else [Chunk(rs[..Least(|rs|, cap)])] + Chunks(cap, rs[Least(|rs|, cap)..])
  }

  function Joined(cs: seq<Chunk>): seq<Record> {
    if cs == [] then [] else cs[0].records + Joined(cs[1..])
  }

  /** The packets partition the list in order: packet i holds chunk i, the chunks joined are the list,
      none is empty, none exceeds a batch, and all but the last are full. */
  lemma {:induction false} PacketsPartition(l: Layout, kind: nat, cap: nat, rs: seq<Record>)
    requires cap > 0 && Formed(l, rs)
    ensures var cs, ps := Chunks(cap, rs), Packets(l, kind, cap, rs);
      && Joined(cs) == rs && |ps| == |cs|
      && (forall i :: 0 <= i < |cs| ==> 0 < |cs[i].records| <= cap && Formed(l, cs[i].records))
      && (forall i :: 0 <= i < |cs| - 1 ==> |cs[i].records| == cap)
      && (forall i :: 0 <= i < |cs| ==> Formed(l, cs[i].records) && ps[i] == Packet(l, kind, cs[i].records))
    decreases |rs|
  {
    hide Packet;
    if rs != [] {
      var n := Least(|rs|, cap);
      PacketsPartition(l, kind, cap, rs[n..]);
      FirstPacket(l, kind, cap, rs);
      var cs := Chunks(cap, rs);
      assert cs[1..] == Chunks(cap, rs[n..]);
      assert rs == rs[..n] + rs[n..];
    }
  }

  // ---- the client ----------------------------------------------------------------------------------------------

  /** The >> of a record's fields, one after the other. */
  method ReadRecord(l: Layout, msg: M.Message) returns (outcome: M.Outcome, r: Record)
    requires msg.Valid()
    modifies msg`mFrontPtr
    ensures msg.Valid()
    ensures |old(msg.Contents())| >= Size(l) ==>
              outcome == M.Done && r == Decoded1(l, old(msg.Contents())[..Size(l)])
                && msg.Contents() == old(msg.Contents())[Size(l)..]
    ensures |old(msg.Contents())| < Size(l) ==> outcome == M.HasNotData
  {
    if l == [] {
      return M.Done, Record([]);
    }
    ghost var s := msg.Contents();
    var bytes, rest;
    outcome, bytes := msg.GetData(l[0]);
    if outcome != M.Done {
      return outcome, Record([]);
    }
    outcome, rest := ReadRecord(l[1..], msg);
    assert |s| >= Size(l) ==> s[..Size(l)][l[0]..] == s[l[0]..][..Size(l[1..])] && s[..Size(l)][..l[0]] == bytes;
    return outcome, Record([Number(bytes)] + rest.fields);
  }

  /** What is read from some bytes: the records and what is left, or not enough bytes. */
  datatype Read = Failed | Read(records: seq<Record>, rest: seq<Byte>)

  function Prepended(rs: seq<Record>, r: Read): Read {
    if r == Failed then Failed else Read(rs + r.records, r.rest)
  }

  function ReadRecords(l: Layout, b: seq<Byte>, n: nat): Read {
    if n == 0 then Read([], b)
    else if |b| < Size(l) then Failed
    else Prepended([Decoded1(l, b[..Size(l)])], ReadRecords(l, b[Size(l)..], n - 1))
  }

  /** A batch behind its type: an int16_t count and as many records; none if it is negative. */
  function BatchOf(l: Layout, b: seq<Byte>): Read {
    if |b| < 2 then Failed
    else
      var cnt := Int16(b[0], b[1]);
      ReadRecords(l, b[2..], if cnt < 0 then 0 else cnt)
  }

  /** onOtherCharacterSpawnBatch, onMonsterSpawnBatch and onItemSpawnBatch, after the type has been read. */
  method ReadBatch(l: Layout, msg: M.Message) returns (outcome: M.Outcome, rs: seq<Record>)
    requires msg.Valid()
    modifies msg`mFrontPtr
    ensures msg.Valid()
    ensures var r := BatchOf(l, old(msg.Contents()));
      if r == Failed then outcome == M.HasNotData else outcome == M.Done && rs == r.records && msg.Contents() == r.rest
  {
    hide Decoded1, Size, ReadRecords, Prepended;
    ghost var s := msg.Contents();
    var bytes;
    rs := [];
    outcome, bytes := msg.GetData(2);
    if outcome != M.Done {
      return;
    }
    assert s[..2] == bytes && s[2..] == msg.Contents();
    var cnt := Int16(bytes[0], bytes[1]);
    var i := 0;
    ghost var n := if cnt < 0 then 0 else cnt;
    ghost var goal := ReadRecords(l, msg.Contents(), n);
    Prepending([], goal);
    while i < cnt
      invariant 0 <= i <= n && msg.Valid() && outcome == M.Done
      invariant goal == Prepended(rs, ReadRecords(l, msg.Contents(), n - i))
    {
      var r;
      OneRecord(l, msg.Contents(), n - i);
      outcome, r := ReadRecord(l, msg);
      if outcome != M.Done {
        Prepending(rs, Failed);
        return;
      }
      Associative(rs, [r], ReadRecords(l, msg.Contents(), n - i - 1));
      rs, i := rs + [r], i + 1;
    }
    NoRecord(l, msg.Contents());
    Prepending(rs, Read([], msg.Contents()));
  }

  lemma Prepending(rs: seq<Record>, r: Read)
    ensures Prepended([], r) == r && Prepended(rs, Failed) == Failed
    ensures r != Failed && r.records == [] ==> Prepended(rs, r) == Read(rs, r.rest)
  {
  }

  lemma OneRecord(l: Layout, b: seq<Byte>, n: nat)
    requires n > 0
    ensures ReadRecords(l, b, n) == if |b| < Size(l) then Failed
                                    else Prepended([Decoded1(l, b[..Size(l)])], ReadRecords(l, b[Size(l)..], n - 1))
  {
    hide Size, Decoded1;
  }

  lemma NoRecord(l: Layout, b: seq<Byte>)
    ensures ReadRecords(l, b, 0) == Read([], b)
  {
  }

  lemma Associative(a: seq<Record>, b: seq<Record>, r: Read)
    ensures Prepended(a, Prepended(b, r)) == Prepended(a + b, r)
  {
    if r != Failed {
      assert a + (b + r.records) == a + b + r.records;
    }
  }

  /** The part of a body that starts with record i. */
  function BodyFrom(l: Layout, rs: seq<Record>, i: nat): seq<Byte>
    requires i <= |rs| && Formed(l, rs)
    decreases |rs| - i
  {
    if i == |rs| then [] else Encoded1(l, rs[i]) + BodyFrom(l, rs, i + 1)
  }

  lemma {:induction false} BodyIsFrom(l: Layout, rs: seq<Record>, i: nat)
    requires i <= |rs| && Formed(l, rs)
    ensures Body(l, rs) == Body(l, rs[..i]) + BodyFrom(l, rs, i)
    decreases |rs| - i
  {
    hide Encoded1, Size, Bytes;
    if i == |rs| {
      assert rs[..i] == rs;
    } else {
      BodyIsFrom(l, rs, i + 1);
      assert rs[..i + 1][..i] == rs[..i];
    }
  }

  predicate AllFit(l: Layout, rs: seq<Record>) {
    forall r :: r in rs ==> Fits(l, r)
  }

  lemma {:induction false} RecordsRead(l: Layout, rs: seq<Record>, i: nat)
    requires i <= |rs| && Formed(l, rs) && AllFit(l, rs)
    ensures ReadRecords(l, BodyFrom(l, rs, i), |rs| - i) == Read(rs[i..], [])
    decreases |rs| - i
  {
    hide Encoded1, Decoded1, Size, Fits;
    if i < |rs| {
      RecordsRead(l, rs, i + 1);
      RecordRoundTrip(l, rs[i]);
      var b := BodyFrom(l, rs, i);
      assert b[..Size(l)] == Encoded1(l, rs[i]) && b[Size(l)..] == BodyFrom(l, rs, i + 1);
      assert rs[i..] == [rs[i]] + rs[i + 1..];
    }
  }

  /** Whatever records a packet was made of, the client reads exactly those, with nothing left. */
  lemma PacketRead(l: Layout, kind: nat, rs: seq<Record>)
    requires |rs| < 0x8000 && Formed(l, rs) && AllFit(l, rs) && kind < 0x8000
    ensures var p := Packet(l, kind, rs).bytes;
      |p| >= HEADER + 2 && Number(p[HEADER..HEADER + 2]) == kind && BatchOf(l, p[HEADER + 2..]) == Read(rs, [])
  {
    hide Encoded1, Decoded1, Size, Fits, Power, ReadRecords;
    var p := Packet(l, kind, rs).bytes;
    TwoBytes(kind);
    TwoBytes(|rs|);
    BodyIsFrom(l, rs, 0);
    EmptyBody(l);
    RecordsRead(l, rs, 0);
    assert rs[..0] == [] && Body(l, rs) == BodyFrom(l, rs, 0);
    hide Body, Bytes, BodyFrom;
    assert p[HEADER..HEADER + 2] == Bytes(kind, 2);
    var b := p[HEADER + 2..];
    assert b == Bytes(|rs|, 2) + Body(l, rs) && b[2..] == Body(l, rs);
    assert b[0] == |rs| % 256 && b[1] == |rs| / 256 && Int16(b[0], b[1]) == |rs|;
    assert rs[0..] == rs && |rs| - 0 == |rs|;
  }

  // ---- from end to end -------------------------------------------------------------------------------------

  function Wire(ps: seq<Sent>): seq<Byte> {
    if ps == [] then [] else ps[0].bytes + Wire(ps[1..])
  }

  /** What the client makes of the messages: each must be a whole batch of its kind. */
  function Received(l: Layout, kind: nat, frames: seq<Frame>): Read {
    if frames == [] then Read([], [])
    else
      var b := frames[0].payload;
      if |b| < 2 || Number(b[..2]) != kind then Failed
      else
        var r := BatchOf(l, b[2..]);
        if r == Failed || r.rest != [] then Failed else Prepended(r.records, Received(l, kind, frames[1..]))
  }

  /** The bytes of all packets, sent one after the other, are parsed into messages of which the client reads
      exactly the list, in order. */
  lemma {:induction false} PacketsArrive(l: Layout, kind: nat, rs: seq<Record>)
    requires IsBatch(l) && kind < 0x8000 && Formed(l, rs) && AllFit(l, rs) && MaxBatch(l) > 0
    ensures var p := Parse(Wire(Packets(l, kind, MaxBatch(l), rs)), M.BUFFER_SIZE);
      && p.status == More && p.rest == [] && Received(l, kind, p.frames) == Read(rs, [])
    decreases |rs|
  {
    hide IsBatch, MaxBatch, Packet, Parse, BatchOf, Number, Fits;
    var cap := MaxBatch(l);
    if rs == [] {
      EmptyPackets(l, kind, cap);
      NothingParsed();
    } else {
      var n := Least(|rs|, cap);
      var front, later := rs[..n], rs[n..];
      FirstPacket(l, kind, cap, rs);
      PacketsArrive(l, kind, later);
      Product(l, n);
      PacketFits(l, kind, front);
      PacketRead(l, kind, front);
      var bytes, w := Packet(l, kind, front).bytes, Wire(Packets(l, kind, cap, later));
      assert Wire(Packets(l, kind, cap, rs)) == bytes + w by {
        assert Packets(l, kind, cap, rs)[1..] == Packets(l, kind, cap, later);
      }
      ParseSplit(bytes, w, M.BUFFER_SIZE);
      assert [] + w == w;
      var f, q := Frame(0, bytes[HEADER..]), Parse(w, M.BUFFER_SIZE);
      assert f.payload[..2] == bytes[HEADER..HEADER + 2] && f.payload[2..] == bytes[HEADER + 2..];
      assert ([f] + q.frames)[1..] == q.frames;
      assert front + later == rs;
    }
  }

  lemma NothingParsed()
    ensures Parse([], M.BUFFER_SIZE) == Parsed([], [], More)
  {
  }

  /** Round trip of a spawn batch: for everything around a player, the packets that SendSpawnBatch sends are
      read by the client as exactly that, whatever there is. */
  lemma BatchRoundTrip(l: Layout, kind: nat, sectors: seq<seq<Entry>>, target: int)
    requires IsBatch(l) && kind < 0x8000 && WellFormed(l, sectors) && AllFit(l, Around(sectors, target))
    ensures MaxBatch(l) > 0 && Formed(l, Around(sectors, target))
    ensures var p := Parse(Wire(Packets(l, kind, MaxBatch(l), Around(sectors, target))), M.BUFFER_SIZE);
      && p.status == More && p.rest == [] && Received(l, kind, p.frames) == Read(Around(sectors, target), [])
  {
    hide IsBatch, MaxBatch, WellFormed, AllFit, Packets, Parse, Received, Around;
    BatchCapacity(l);
    AroundFormed(l, sectors, target);
    PacketsArrive(l, kind, Around(sectors, target));
  }
}

/** The ring buffer between one producing and one consuming thread. A call reads the other side's
    pointer once and works from that copy while the other thread goes on; each copied byte and each
    pointer store is a step of its own. */
module SpscRing {
  import opened RingBuffer

  /** A running Enqueue: f is its copy of mFront, taken when `removed` bytes had been removed. */
  datatype Producer = Away | Putting(data: seq<Byte>, f: int, removed: nat, k: nat)

  /** A running Dequeue or Peek: r is its copy of mRear, taken when `published` bytes were there. */
  datatype Consumer = Resting | Taking(peek: bool, size: nat, r: int, published: nat, got: seq<Byte>)

  /** head: bytes removed so far. sent: all bytes ever enqueued. taken: all bytes that Dequeue calls
      returned. seen: what the last Peek returned. stopped: an assertion has stopped the program. */
  datatype Ring = Ring(buf: seq<Byte>, front: int, rear: int, failed: bool, stopped: bool,
                       prod: Producer, cons: Consumer,
                       head: nat, sent: seq<Byte>, taken: seq<Byte>, seen: seq<Byte>)

  /** EnqueueNegative: an Enqueue with a negative size. */
  datatype Event = EnqueueCall(data: seq<Byte>) | EnqueueNegative | PutByte | PutDone
                 | DequeueCall(size: int) | PeekCall(size: int) | TakeByte | TakeDone

  /** Where the copying loops have their pointer after k bytes: `direct` bytes fit before the end. */
  function Position(start: int, direct: int, k: int): int {
    if k < direct then start + k else k - direct
  }

  function Fail(x: Ring, stop: bool): Ring {
    x.(failed := true, stopped := stop)
  }

  function Next(x: Ring, e: Event): Ring {
    if x.stopped then x
    else match e
      case EnqueueCall(data) =>
        if !x.prod.Away? then x
        else if GetFreeSize(x.front, x.rear) < |data| then Fail(x, true)
        else x.(prod := Putting(data, x.front, x.head, 0))
      case EnqueueNegative => if x.prod.Away? then Fail(x, false) else x
      case PutByte => PutOne(x)
      case PutDone =>
        if !x.prod.Putting? || x.prod.k < |x.prod.data| then x
        else if x.failed then Fail(x, true)
        else x.(rear := Wrap(x.rear + |x.prod.data|), sent := x.sent + x.prod.data, prod := Away)
      case DequeueCall(size) =>
        if !x.cons.Resting? then x
        else if size < 0 || GetUseSize(x.front, x.rear) < size then Fail(x, true)
        else x.(cons := Taking(false, size, x.rear, |x.sent|, []))
      case PeekCall(size) =>
        if !x.cons.Resting? then x
        else if size < 0 || GetUseSize(x.front, x.rear) < size then Fail(x, size < 0)
        else x.(cons := Taking(true, size, x.rear, |x.sent|, []))
      case TakeByte => TakeOne(x)
      case TakeDone =>
        if !x.cons.Taking? || |x.cons.got| < x.cons.size then x
        else if x.cons.peek then x.(seen := x.cons.got, cons := Resting)
        else if x.failed then x.(taken := x.taken + x.cons.got, cons := Resting)
        else x.(taken := x.taken + x.cons.got, cons := Resting,
                front := Wrap(x.front + x.cons.size), head := x.head + x.cons.size)
  }

  function PutOne(x: Ring): Ring {
    if !x.prod.Putting? || |x.prod.data| <= x.prod.k then x
    else
      var p := Position(x.rear, GetDirectFreeSize(x.prod.f, x.rear), x.prod.k);
      if !(0 <= p < |x.buf|) then x.(stopped := true)
      else x.(buf := x.buf[p := x.prod.data[x.prod.k]], prod := x.prod.(k := x.prod.k + 1))
  }

  function TakeOne(x: Ring): Ring {
    if !x.cons.Taking? || x.cons.size <= |x.cons.got| then x
    else
      var p := Position(x.front, GetDirectUseSize(x.front, x.cons.r), |x.cons.got|);
      if !(0 <= p < |x.buf|) then x.(stopped := true)
      else x.(cons := x.cons.(got := x.cons.got + [x.buf[p]]))
  }

  function Init(): Ring {
    Ring(seq(SIZE, _ => 0), 0, 0, false, false, Away, Resting, 0, [], [], [])
  }

  function Run(es: seq<Event>): Ring {
    if es == [] then Init() else Next(Run(es[..|es| - 1]), es[|es| - 1])
  }

  // ---- the invariant ------------------------------------------------------------------------------

  /** The place of the i-th byte of the stream. */
  function At(i: nat): (p: int)
    ensures Index(p)
  {
    i % SIZE
  }

  lemma AtMoves(i: nat, m: nat)
    requires m <= SIZE
    ensures At(i + m) == Wrap(At(i) + m)
  {
  }

  lemma AtDiffers(i: nat, j: nat)
    requires i < j < i + SIZE
    ensures At(i) != At(j)
  {
  }

  /** The size computed from the places of two stream positions is their distance. */
  lemma UseSizeIs(h: nat, t: nat)
    requires h <= t < h + SIZE
    ensures GetUseSize(At(h), At(t)) == t - h
  {
    AtMoves(h, t - h);
  }

  ghost predicate Placed(x: Ring) {
    && |x.buf| == SIZE
    && x.head <= |x.sent| < x.head + SIZE
    && x.front == At(x.head) && x.rear == At(|x.sent|)
  }

  /** Unread bytes stand in their places. */
  ghost predicate Kept(x: Ring)
    requires |x.buf| == SIZE
  {
    forall i :: x.head <= i < |x.sent| ==> x.buf[At(i)] == x.sent[i]
  }

  ghost predicate ProducerOk(x: Ring)
    requires |x.buf| == SIZE
  {
    x.prod.Putting? ==>
      && x.prod.removed <= x.head && x.prod.f == At(x.prod.removed)
      && |x.sent| + |x.prod.data| < x.prod.removed + SIZE
      && x.prod.k <= |x.prod.data|
      && forall j :: 0 <= j < x.prod.k ==> x.buf[At(|x.sent| + j)] == x.prod.data[j]
  }

  ghost predicate ConsumerOk(x: Ring) {
    x.cons.Taking? ==>
      && x.cons.published <= |x.sent| && x.cons.r == At(x.cons.published)
      && |x.cons.got| <= x.cons.size && x.head + x.cons.size <= x.cons.published
      && x.cons.got == x.sent[x.head..x.head + |x.cons.got|]
  }

  ghost predicate Inv(x: Ring) {
    && Placed(x) && Kept(x) && ProducerOk(x) && ConsumerOk(x)
    && (!x.failed ==> x.taken == x.sent[..x.head])
    && (x.stopped ==> x.failed)
  }

  /** The loop pointer of Enqueue is the place of the byte it writes, in spite of the old mFront. */
  lemma PutPosition(h: nat, t: nat, k: nat)
    requires h <= t && t + k + 1 < h + SIZE
    ensures Position(At(t), GetDirectFreeSize(At(h), At(t)), k) == At(t + k)
  {
    AtMoves(h, t - h);
    AtMoves(t, k);
  }

  lemma TakePosition(h: nat, t: nat, k: nat)
    requires h + k < t < h + SIZE
    ensures Position(At(h), GetDirectUseSize(At(h), At(t)), k) == At(h + k)
  {
    AtMoves(h, t - h);
    AtMoves(h, k);
  }

  lemma PutByteKeeps(x: Ring)
    requires Inv(x) && !x.stopped
    ensures Inv(PutOne(x))
  {
    hide At, GetDirectFreeSize, Position;
    if x.prod.Putting? && x.prod.k < |x.prod.data| {
      var t, k := |x.sent|, x.prod.k;
      PutPosition(x.prod.removed, t, k);
      var y := PutOne(x);
      assert y.buf == x.buf[At(t + k) := x.prod.data[k]];
      hide PutOne;
      forall i | x.head <= i < t
        ensures y.buf[At(i)] == y.sent[i]
      {
        AtDiffers(i, t + k);
      }
      forall j | 0 <= j < k + 1
        ensures y.buf[At(t + j)] == y.prod.data[j]
      {
        if j < k { AtDiffers(t + j, t + k); }
      }
    }
  }

  lemma TakeByteKeeps(x: Ring)
    requires Inv(x) && !x.stopped
    ensures Inv(TakeOne(x))
  {
    if x.cons.Taking? && |x.cons.got| < x.cons.size {
      TakePosition(x.head, x.cons.published, |x.cons.got|);
      hide At;
      assert x.buf[At(x.head + |x.cons.got|)] == x.sent[x.head + |x.cons.got|];
    }
  }

  lemma PutDoneKeeps(x: Ring)
    requires Inv(x)
    ensures Inv(Next(x, PutDone))
  {
    hide At, Kept;
    if !x.stopped && !x.failed && x.prod.Putting? && x.prod.k == |x.prod.data| {
      AtMoves(|x.sent|, |x.prod.data|);
      Published(x);
    } else if !x.stopped && x.prod.Putting? && x.prod.k == |x.prod.data| {
      SameBytes(x, Next(x, PutDone));
    }
  }

  lemma SameBytes(x: Ring, y: Ring)
    requires |x.buf| == SIZE && Kept(x) && y.buf == x.buf && y.head == x.head && y.sent == x.sent
    ensures Kept(y)
  {
  }

  lemma Published(x: Ring)
    requires |x.buf| == SIZE && Kept(x) && ProducerOk(x) && x.prod.Putting? && x.prod.k == |x.prod.data|
    requires x.head <= |x.sent|
    ensures Kept(x.(sent := x.sent + x.prod.data, rear := Wrap(x.rear + |x.prod.data|), prod := Away))
  {
    hide At;
    forall i | x.head <= i < |x.sent| + |x.prod.data|
      ensures x.buf[At(i)] == (x.sent + x.prod.data)[i]
    {
      if i >= |x.sent| {
        assert x.buf[At(|x.sent| + (i - |x.sent|))] == x.prod.data[i - |x.sent|];
      }
    }
  }

  lemma TakeDoneKeeps(x: Ring)
    requires Inv(x)
    ensures Inv(Next(x, TakeDone))
  {
    hide At;
    if x.cons.Taking? {
      AtMoves(x.head, x.cons.size);
    }
  }

  lemma NextKeeps(x: Ring, e: Event)
    requires Inv(x)
    ensures Inv(Next(x, e))
  {
    hide At, Inv;
    match e
    case PutByte => if !x.stopped { PutByteKeeps(x); }
    case TakeByte => if !x.stopped { TakeByteKeeps(x); }
    case PutDone => PutDoneKeeps(x);
    case TakeDone => TakeDoneKeeps(x);
    case EnqueueCall(data) => EnqueueCallKeeps(x, data);
    case EnqueueNegative => FailKeeps(x);
    case DequeueCall(size) => TakeCallKeeps(x, e);
    case PeekCall(size) => TakeCallKeeps(x, e);
  }

  lemma FailKeeps(x: Ring)
    requires Inv(x)
    ensures Inv(Next(x, EnqueueNegative))
  {
    hide At;
  }

  lemma EnqueueCallKeeps(x: Ring, data: seq<Byte>)
    requires Inv(x)
    ensures Inv(Next(x, EnqueueCall(data)))
  {
    hide At, GetFreeSize, GetUseSize;
    UseSizeIs(x.head, |x.sent|);
    SizesAgree(x.front, x.rear);
  }

  lemma TakeCallKeeps(x: Ring, e: Event)
    requires Inv(x) && (e.DequeueCall? || e.PeekCall?)
    ensures Inv(Next(x, e))
  {
    hide At, GetUseSize;
    UseSizeIs(x.head, |x.sent|);
  }

  lemma {:induction false} RunInv(es: seq<Event>)
    ensures Inv(Run(es))
  {
    if es != [] {
      RunInv(es[..|es| - 1]);
      NextKeeps(Run(es[..|es| - 1]), es[|es| - 1]);
    }
  }

  // ---- what every interleaving guarantees ------------------------------------------------------------

  /** As long as no call has failed, what Dequeue calls returned is a prefix of what was enqueued,
      and the rest is exactly what stands in the buffer between the pointers. */
  lemma PrefixDequeued(es: seq<Event>)
    requires !Run(es).failed
    ensures var x := Run(es);
      && Index(x.front) && Index(x.rear) && |x.buf| == SIZE
      && x.sent == x.taken + Window(x.buf, x.front, GetUseSize(x.front, x.rear))
  {
    hide At, Next;
    var x := Run(es);
    RunInv(es);
    Unread(x);
    UseSizeIs(x.head, |x.sent|);
    assert x.sent == x.sent[..x.head] + x.sent[x.head..];
  }

  lemma Unread(x: Ring)
    requires Inv(x)
    ensures Window(x.buf, x.front, GetUseSize(x.front, x.rear)) == x.sent[x.head..]
  {
    hide At;
    UseSizeIs(x.head, |x.sent|);
    var w := Window(x.buf, x.front, GetUseSize(x.front, x.rear));
    forall i | 0 <= i < |w|
      ensures w[i] == x.sent[x.head..][i]
    {
      AtMoves(x.head, i);
    }
  }

  /** Unread bytes are never overwritten: a step changes no byte between the pointers, whatever the
      other thread is doing, whether or not a call has failed. */
  lemma UnreadNeverOverwritten(es: seq<Event>, e: Event)
    ensures var x, y := Run(es), Next(Run(es), e);
      && |x.buf| == |y.buf| == SIZE && Index(x.front) && Index(x.rear)
      && Window(y.buf, x.front, GetUseSize(x.front, x.rear)) == Window(x.buf, x.front, GetUseSize(x.front, x.rear))
  {
    hide At, Next, Window;
    var x := Run(es);
    RunInv(es);
    NextKeeps(x, e);
    UseSizeIs(x.head, |x.sent|);
    StepSpares(x, e);
  }

  lemma StepSpares(x: Ring, e: Event)
    requires Inv(x) && |Next(x, e).buf| == SIZE && GetUseSize(x.front, x.rear) == |x.sent| - x.head
    ensures Window(Next(x, e).buf, x.front, GetUseSize(x.front, x.rear)) ==
              Window(x.buf, x.front, GetUseSize(x.front, x.rear))
  {
    hide At;
    if e == PutByte && !x.stopped && x.prod.Putting? && x.prod.k < |x.prod.data| {
      var t, k := |x.sent|, x.prod.k;
      PutPosition(x.prod.removed, t, k);
      assert PutOne(x).buf == x.buf[At(t + k) := x.prod.data[k]];
      var v, w := Window(PutOne(x).buf, x.front, t - x.head), Window(x.buf, x.front, t - x.head);
      forall i | 0 <= i < t - x.head
        ensures v[i] == w[i]
      {
        AtMoves(x.head, i);
        AtDiffers(x.head + i, t + k);
      }
    }
  }

  /** Sizes computed from an old copy of the other side's pointer are lower bounds: the producer
      finds at least the free room it saw, the consumer at least the bytes it saw. */
  lemma StaleSizesAreSafe(es: seq<Event>)
    ensures var x := Run(es);
      && (x.prod.Putting? ==>
            |x.prod.data| <= GetFreeSize(x.prod.f, x.rear) <= GetFreeSize(x.front, x.rear))
      && (x.cons.Taking? ==>
            x.cons.size <= GetUseSize(x.front, x.cons.r) <= GetUseSize(x.front, x.rear))
  {
    hide At;
    var x := Run(es);
    RunInv(es);
    UseSizeIs(x.head, |x.sent|);
    SizesAgree(x.front, x.rear);
    if x.prod.Putting? {
      UseSizeIs(x.prod.removed, |x.sent|);
      SizesAgree(x.prod.f, x.rear);
    }
    if x.cons.Taking? {
      UseSizeIs(x.head, x.cons.published);
    }
  }

  /** A call that has started never leaves the buffer, and what a Dequeue or Peek has copied so far
      is the beginning of the unread bytes. */
  lemma CopiedSoFar(es: seq<Event>)
    requires Run(es).cons.Taking?
    ensures var x := Run(es);
      && |x.buf| == SIZE && Index(x.front) && Index(x.rear)
      && x.cons.got <= Window(x.buf, x.front, GetUseSize(x.front, x.rear))
  {
    RunInv(es);
    Unread(Run(es));
    UseSizeIs(Run(es).head, |Run(es).sent|);
  }

  /** The program is stopped only by a failed call, never by a pointer that left the buffer. */
  lemma StoppedOnlyByFailure(es: seq<Event>)
    ensures Run(es).stopped ==> Run(es).failed
  {
    RunInv(es);
  }

  /** The call asks for more room, or for more bytes, than the size that it reads; or for less than none. */
  predicate AsksTooMuch(x: Ring, e: Event) {
    match e
    case EnqueueCall(data) => x.prod.Away? && GetFreeSize(x.front, x.rear) < |data|
    case EnqueueNegative => x.prod.Away?
    case DequeueCall(size) => x.cons.Resting? && (size < 0 || GetUseSize(x.front, x.rear) < size)
    case PeekCall(size) => x.cons.Resting? && (size < 0 || GetUseSize(x.front, x.rear) < size)
    case _ => false
  }

  /** Callers that check the size never see a failure: the buffer has failed if and only if some call asked
      for too much when it was made. */
  lemma {:induction false} FailedIfAskedTooMuch(es: seq<Event>)
    ensures Run(es).failed <==> exists n :: 0 <= n < |es| && AsksTooMuch(Run(es[..n]), es[n])
  {
    hide AsksTooMuch, Next, Inv;
    if es != [] {
      var m := |es| - 1;
      var front := es[..m];
      FailedIfAskedTooMuch(front);
      RunInv(front);
      FailsNow(Run(front), es[m]);
      if n :| 0 <= n < |front| && AsksTooMuch(Run(front[..n]), front[n]) {
        assert es[..n] == front[..n] && AsksTooMuch(Run(es[..n]), es[n]);
      }
      if n :| 0 <= n < |es| && AsksTooMuch(Run(es[..n]), es[n]) {
        if n < m {
          assert es[..n] == front[..n] && AsksTooMuch(Run(front[..n]), front[n]);
        }
      }
    }
  }

  lemma FailsNow(x: Ring, e: Event)
    requires Inv(x)
    ensures Next(x, e).failed <==> x.failed || AsksTooMuch(x, e)
  {
    hide Placed, Kept, ProducerOk, ConsumerOk, Position, Wrap, GetFreeSize, GetUseSize;
  }

  // ---- calls take effect ------------------------------------------------------------------------------

  predicate OfProducer(e: Event) {
    e.EnqueueCall? || e.EnqueueNegative? || e.PutByte? || e.PutDone?
  }

  /** How often the event is among them. */
  function Times(es: seq<Event>, e: Event): nat {
    if es == [] then 0 else Times(es[..|es| - 1], e) + if es[|es| - 1] == e then 1 else 0
  }

  function Least(m: nat, n: nat): nat {
    if m < n then m else n
  }

  /** An Enqueue of data that began when `sent` had been enqueued has copied k bytes, unless a call failed. */
  predicate Copying(x: Ring, sent: seq<Byte>, data: seq<Byte>, k: nat) {
    x.failed || (!x.stopped && x.prod.Putting? && x.prod.data == data && x.prod.k == k && x.sent == sent)
  }

  lemma CopyStep(x: Ring, e: Event, sent: seq<Byte>, data: seq<Byte>, n: nat)
    requires Inv(x) && Copying(x, sent, data, Least(n, |data|)) && (OfProducer(e) ==> e == PutByte)
    ensures Copying(Next(x, e), sent, data, Least(if e == PutByte then n + 1 else n, |data|))
  {
    hide At, GetDirectFreeSize, Position, GetUseSize, GetFreeSize, Wrap, GetDirectUseSize;
    NextKeeps(x, e);
    if e == PutByte && !x.failed && n < |data| {
      PutPosition(x.prod.removed, |x.sent|, x.prod.k);
    }
  }

  lemma {:induction false} CopyRun(es: seq<Event>, fs: seq<Event>, sent: seq<Byte>, data: seq<Byte>)
    requires Copying(Run(es), sent, data, 0) && forall e :: e in fs && OfProducer(e) ==> e == PutByte
    ensures Copying(Run(es + fs), sent, data, Least(Times(fs, PutByte), |data|))
  {
    hide Next, Inv, Copying, Least;
    if fs == [] {
      assert es + fs == es;
      LeastIs(0, |data|);
    } else {
      var front, e := fs[..|fs| - 1], fs[|fs| - 1];
      CopyRun(es, front, sent, data);
      assert (es + fs)[..|es + fs| - 1] == es + front;
      RunInv(es + front);
      CopyStep(Run(es + front), e, sent, data, Times(front, PutByte));
    }
  }

  lemma LeastIs(m: nat, n: nat)
    ensures m <= n ==> Least(m, n) == m
    ensures n <= m ==> Least(m, n) == n
  {
  }

  /** An Enqueue for which there is room takes effect, whatever the consumer does in the meantime: once it has
      copied its bytes and stored mRear, they are enqueued. */
  lemma EnqueueTakesEffect(es: seq<Event>, data: seq<Byte>, fs: seq<Event>)
    requires !Run(es).failed && Run(es).prod.Away? && |data| <= GetFreeSize(Run(es).front, Run(es).rear)
    requires (forall e :: e in fs && OfProducer(e) ==> e == PutByte) && |data| <= Times(fs, PutByte)
    ensures var z := Run(es + [EnqueueCall(data)] + fs + [PutDone]);
      z.failed || (z.sent == Run(es).sent + data && z.prod.Away?)
  {
    hide Inv, At, GetFreeSize, Wrap;
    var begun := es + [EnqueueCall(data)];
    RunInv(es);
    StoppedOnlyByFailure(es);
    assert begun[..|es|] == es;
    CopyRun(begun, fs, Run(es).sent, data);
    LeastIs(Times(fs, PutByte), |data|);
    var all := begun + fs + [PutDone];
    assert all[..|all| - 1] == begun + fs;
  }

  /** A Dequeue or Peek of `size` bytes, at position `head`, has copied k of them, unless a call failed. */
  predicate Fetching(x: Ring, peek: bool, size: nat, head: nat, k: nat) {
    || x.failed
    || (!x.stopped && x.cons.Taking? && x.cons.peek == peek && x.cons.size == size && |x.cons.got| == k
        && x.head == head)
  }

  lemma FetchStep(x: Ring, e: Event, peek: bool, size: nat, head: nat, n: nat)
    requires Inv(x) && Fetching(x, peek, size, head, Least(n, size)) && (OfProducer(e) || e == TakeByte)
    ensures Fetching(Next(x, e), peek, size, head, Least(if e == TakeByte then n + 1 else n, size))
  {
    hide At, GetDirectFreeSize, Position, GetUseSize, GetFreeSize, Wrap, GetDirectUseSize;
    NextKeeps(x, e);
    if e == TakeByte && !x.failed && n < size {
      TakePosition(x.head, x.cons.published, |x.cons.got|);
    }
  }

  lemma {:induction false} FetchRun(es: seq<Event>, fs: seq<Event>, peek: bool, size: nat, head: nat)
    requires Fetching(Run(es), peek, size, head, 0) && forall e :: e in fs ==> OfProducer(e) || e == TakeByte
    ensures Fetching(Run(es + fs), peek, size, head, Least(Times(fs, TakeByte), size))
  {
    hide Next, Inv, Fetching, Least;
    if fs == [] {
      assert es + fs == es;
      LeastIs(0, size);
    } else {
      var front, e := fs[..|fs| - 1], fs[|fs| - 1];
      FetchRun(es, front, peek, size, head);
      assert (es + fs)[..|es + fs| - 1] == es + front;
      RunInv(es + front);
      FetchStep(Run(es + front), e, peek, size, head, Times(front, TakeByte));
    }
  }

  /** A Dequeue of bytes that are there takes effect, whatever the producer does in the meantime: once it has
      copied them and stored mFront, it has returned the oldest bytes, which are gone. A Peek returns the same
      bytes, and they stay. */
  lemma TakingTakesEffect(es: seq<Event>, call: Event, fs: seq<Event>)
    requires call.DequeueCall? || call.PeekCall?
    requires !Run(es).failed && Run(es).cons.Resting?
    requires 0 <= call.size <= GetUseSize(Run(es).front, Run(es).rear)
    requires (forall e :: e in fs ==> OfProducer(e) || e == TakeByte) && call.size <= Times(fs, TakeByte)
    ensures var x, z := Run(es), Run(es + [call] + fs + [TakeDone]);
      z.failed ||
        (&& x.head + call.size <= |z.sent| && z.cons.Resting?
         && if call.PeekCall? then z.seen == z.sent[x.head..x.head + call.size] && z.head == x.head
            else z.taken == z.sent[..x.head + call.size] && z.head == x.head + call.size)
  {
    hide At, GetUseSize, Wrap, Placed, Kept, ProducerOk;
    var begun := es + [call];
    RunInv(es);
    StoppedOnlyByFailure(es);
    assert begun[..|es|] == es;
    FetchRun(begun, fs, call.PeekCall?, call.size, Run(es).head);
    LeastIs(Times(fs, TakeByte), call.size);
    var all := begun + fs + [TakeDone];
    assert all[..|all| - 1] == begun + fs;
    RunInv(begun + fs);
    RunInv(all);
  }

  /** Why the callers check the size first: a Peek that asks for too much stops nobody, but from
      then on Dequeue does not move mFront, and the first unread byte b is returned twice. */
  lemma FailedPeekRepeatsBytes(es: seq<Event>, size: int)
    requires var x := Run(es);
      !x.failed && x.cons.Resting? && 0 < GetUseSize(x.front, x.rear) < size
    ensures var x := Run(es);
      && |x.buf| == SIZE && Index(x.front)
      && var b := x.buf[x.front];
      var y := Next(x, PeekCall(size));
      var z := Next(Next(Next(y, DequeueCall(1)), TakeByte), TakeDone);
      Next(Next(Next(z, DequeueCall(1)), TakeByte), TakeDone).taken == x.taken + [b] + [b]
  {
    hide At, GetDirectUseSize, Next;
    var x := Run(es);
    RunInv(es);
    UseSizeIs(x.head, |x.sent|);
    var y := Next(x, PeekCall(size));
    PeekFails(x, size);
    assert x.buf[At(x.head)] == x.sent[x.head];
    OneByteAgain(y);
    OneByteAgain(Next(Next(Next(y, DequeueCall(1)), TakeByte), TakeDone));
  }

  lemma PeekFails(x: Ring, size: int)
    requires !x.stopped && x.cons.Resting? && 0 < GetUseSize(x.front, x.rear) < size
    ensures Next(x, PeekCall(size)) == x.(failed := true)
  {
  }

  lemma OneByteAgain(y: Ring)
    requires Inv(y) && y.failed && !y.stopped && y.cons.Resting? && 0 < GetUseSize(y.front, y.rear)
    ensures y.head < |y.sent|
    ensures Next(Next(Next(y, DequeueCall(1)), TakeByte), TakeDone) == y.(taken := y.taken + [y.sent[y.head]])
  {
    hide At;
    UseSizeIs(y.head, |y.sent|);
    TakePosition(y.head, |y.sent|, 0);
  }
}

/** Cutting the byte stream into messages: the reference parser, the server's completeRecv over its
    ring buffer, and the bot's recvPacketProc over a flat buffer. */
module Framing {
  import opened RingBuffer
  import M = Message

  const HEADER: int := 3   // Len: int16 little-endian, RandKey: one byte

  /** What onRecv or packetProc is given. */
  datatype Frame = Frame(key: Byte, payload: seq<Byte>)

  /** More: wait for bytes. Bad: a header announces no payload. Oversize: a payload that Message
      cannot hold (PutData throws, and nothing catches). */
  datatype Status = More | Bad | Oversize

  datatype Parsed = Parsed(frames: seq<Frame>, rest: seq<Byte>, status: Status)

  function Int16(lo: int, hi: int): int {
    if lo + 256 * hi < 0x8000 then lo + 256 * hi else lo + 256 * hi - 0x10000
  }

  /** The length field of a header. */
  function Announced(s: seq<Byte>): int
    requires |s| >= 2
  {
    Int16(s[0], s[1])
  }

  /** More: the first message is still incomplete or, if Whole, it can be delivered. */
  function Verdict(s: seq<Byte>, cap: int): Status {
    if |s| <= HEADER then More
    else if Announced(s) <= 0 then Bad
    else if |s| < HEADER + Announced(s) then More
    else if Announced(s) > cap then Oversize
    else More
  }

  predicate Whole(s: seq<Byte>, cap: int) {
    |s| > HEADER && 0 < Announced(s) <= cap && HEADER + Announced(s) <= |s|
  }

  function Head(s: seq<Byte>): Frame
    requires |s| > HEADER && 0 < Announced(s) && HEADER + Announced(s) <= |s|
  {
    Frame(s[2], s[HEADER..HEADER + Announced(s)])
  }

  function Tail(s: seq<Byte>): (t: seq<Byte>)
    requires |s| > HEADER && 0 < Announced(s) && HEADER + Announced(s) <= |s|
    ensures |t| < |s|
  {
    s[HEADER + Announced(s)..]
  }

  /** The reference parser of a whole stream; cap is the largest payload that can be stored. */
  function Parse(s: seq<Byte>, cap: int): Parsed
    decreases |s|
  {
    if Whole(s, cap)
    then var p := Parse(Tail(s), cap); p.(frames := [Head(s)] + p.frames)
    else Parsed([], s, Verdict(s, cap))
  }

  function Concat(chunks: seq<seq<Byte>>): seq<Byte> {
    if chunks == [] then [] else Concat(chunks[..|chunks| - 1]) + chunks[|chunks| - 1]
  }

  function Behind(frames: seq<Frame>, p: Parsed): Parsed {
    p.(frames := frames + p.frames)
  }

  /** A receiver that gets one more chunk: it parses what it kept and the chunk. */
  function Feed(p: Parsed, chunk: seq<Byte>, cap: int): Parsed {
    if p.status != More then p
    else Behind(p.frames, Parse(p.rest + chunk, cap))
  }

  function FeedAll(chunks: seq<seq<Byte>>, cap: int): Parsed {
    if chunks == [] then Parsed([], [], More) else Feed(FeedAll(chunks[..|chunks| - 1], cap), chunks[|chunks| - 1], cap)
  }

  /** A frame as it is sent. */
  function Encoded(f: Frame): seq<Byte>
    requires 0 < |f.payload| < 0x8000
  {
    [|f.payload| % 256, |f.payload| / 256, f.key] + f.payload
  }

  function Stream(frames: seq<Frame>): seq<Byte>
    requires forall f :: f in frames ==> 0 < |f.payload| < 0x8000
  {
    if frames == [] then [] else Encoded(frames[0]) + Stream(frames[1..])
  }

  /** The beginning of a frame, but not all of it. (A header alone is not looked at.) */
  predicate Incomplete(s: seq<Byte>) {
    |s| <= HEADER || |s| < HEADER + Announced(s)
  }

  // ---- the reference parser -------------------------------------------------------------------------

  /** Why the parser stops where it stops. */
  predicate StopsRightly(rest: seq<Byte>, status: Status, cap: int) {
    match status
    case More => Incomplete(rest)
    case Bad => |rest| > HEADER && Announced(rest) <= 0
    case Oversize => |rest| > HEADER && cap < Announced(rest) && !Incomplete(rest)
  }

  /** One step of the parser. */
  lemma ParseOnce(s: seq<Byte>, cap: int)
    ensures Whole(s, cap) ==> |Tail(s)| < |s| && Parse(s, cap) == Behind([Head(s)], Parse(Tail(s), cap))
    ensures !Whole(s, cap) ==> Parse(s, cap) == Parsed([], s, Verdict(s, cap))
  {
    hide Announced, Head, Verdict;
  }

  /** The parser loses nothing: the stream is its frames followed by the rest, every frame fits, and
      the rest is why it stopped. */
  lemma {:induction false} ParseIsExact(s: seq<Byte>, cap: int)
    requires cap < 0x8000
    ensures var p := Parse(s, cap);
      && (forall f :: f in p.frames ==> 0 < |f.payload| <= cap)
      && s == Stream(p.frames) + p.rest
      && StopsRightly(p.rest, p.status, cap)
    decreases |s|
  {
    hide Encoded, Announced, StopsRightly, Parse, Stream, Head, Tail, Verdict;
    ParseOnce(s, cap);
    if Whole(s, cap) {
      ParseIsExact(Tail(s), cap);
      HeadFrame(s);
      var q := Parse(Tail(s), cap);
      StreamCons(Head(s), q.frames);
      assert s == Encoded(Head(s)) + (Stream(q.frames) + q.rest);
    } else {
      Stopped(s, cap);
      NoStream(s);
    }
  }

  lemma Stopped(s: seq<Byte>, cap: int)
    requires !Whole(s, cap)
    ensures StopsRightly(s, Verdict(s, cap), cap)
  {
  }

  lemma NoStream(s: seq<Byte>)
    ensures Stream([]) + s == s
  {
  }

  lemma StreamCons(f: Frame, frames: seq<Frame>)
    requires forall g :: g in [f] + frames ==> 0 < |g.payload| < 0x8000
    ensures Stream([f] + frames) == Encoded(f) + Stream(frames)
  {
    hide Encoded;
    assert ([f] + frames)[1..] == frames;
  }

  lemma HeadFrame(s: seq<Byte>)
    requires |s| > HEADER && 0 < Announced(s) && HEADER + Announced(s) <= |s|
    ensures |Head(s).payload| == Announced(s) < 0x8000 && s == Encoded(Head(s)) + Tail(s)
  {
  }

  /** Frames that are sent one after the other are parsed back, whatever incomplete bytes follow. */
  lemma {:induction false} StreamParsesBack(frames: seq<Frame>, tail: seq<Byte>, cap: int)
    requires cap < 0x8000 && (forall f :: f in frames ==> 0 < |f.payload| <= cap) && Incomplete(tail)
    requires |tail| > HEADER ==> Announced(tail) > 0
    ensures Parse(Stream(frames) + tail, cap) == Parsed(frames, tail, More)
  {
    hide Announced, Encoded, Parse;
    if frames == [] {
      assert Stream(frames) + tail == tail;
      StopsAt(tail, cap);
    } else {
      StreamParsesBack(frames[1..], tail, cap);
      hide Incomplete;
      var s, t := Stream(frames) + tail, Stream(frames[1..]) + tail;
      assert s == Encoded(frames[0]) + t;
      ParseFrame(s, frames[0], t, cap);
      assert frames == [frames[0]] + frames[1..];
    }
  }

  lemma StopsAt(tail: seq<Byte>, cap: int)
    requires Incomplete(tail) && (|tail| > HEADER ==> Announced(tail) > 0)
    ensures Parse(tail, cap) == Parsed([], tail, More)
  {
  }

  lemma ParseFrame(s: seq<Byte>, f: Frame, tail: seq<Byte>, cap: int)
    requires 0 < |f.payload| <= cap < 0x8000 && s == Encoded(f) + tail
    ensures Parse(s, cap) == Behind([f], Parse(tail, cap))
  {
    StartsWithFrame(s, f, tail);
    hide Announced, Encoded, Head, Tail;
  }

  lemma StartsWithFrame(s: seq<Byte>, f: Frame, tail: seq<Byte>)
    requires 0 < |f.payload| < 0x8000 && s == Encoded(f) + tail
    ensures |tail| < |s| && |s| >= HEADER + |f.payload| && Announced(s) == |f.payload|
    ensures Head(s) == f && Tail(s) == tail
  {
  }

  predicate Fit(frames: seq<Frame>, cap: int) {
    forall f :: f in frames ==> 0 < |f.payload| <= cap
  }

  /** A payload that a message cannot hold, with all of its bytes there. */
  predicate TooLong(f: Frame, cap: int) {
    cap < |f.payload| < 0x8000
  }

  /** PutData throws if and only if the stream holds, behind frames that fit, a whole frame that does not. */
  lemma OversizeIsExact(s: seq<Byte>, cap: int)
    requires 0 <= cap < 0x8000
    ensures Parse(s, cap).status == Oversize <==>
            exists frames, f, t :: Fit(frames, cap) && TooLong(f, cap) && s == Stream(frames) + (Encoded(f) + t)
  {
    hide Parse, Stream, Encoded, Announced, Head, Tail;
    if Parse(s, cap).status == Oversize {
      ParseIsExact(s, cap);
      var p := Parse(s, cap);
      HeadFrame(p.rest);
      var f, t := Head(p.rest), Tail(p.rest);
      assert Fit(p.frames, cap) && TooLong(f, cap) && s == Stream(p.frames) + (Encoded(f) + t);
    }
    forall frames, f, t | Fit(frames, cap) && TooLong(f, cap) && s == Stream(frames) + (Encoded(f) + t)
      ensures Parse(s, cap).status == Oversize
    {
      StopsAtOversize(frames, f, t, cap);
    }
  }

  lemma {:induction false} StopsAtOversize(frames: seq<Frame>, f: Frame, t: seq<Byte>, cap: int)
    requires 0 <= cap < 0x8000 && Fit(frames, cap) && TooLong(f, cap)
    ensures Parse(Stream(frames) + (Encoded(f) + t), cap).status == Oversize
  {
    hide Parse, Announced, Encoded, Head, Tail;
    var tail := Encoded(f) + t;
    if frames == [] {
      assert Stream(frames) + tail == tail;
      StartsWithFrame(tail, f, t);
      ParseOnce(tail, cap);
    } else {
      StopsAtOversize(frames[1..], f, t, cap);
      var s, rest := Stream(frames) + tail, Stream(frames[1..]) + tail;
      assert s == Encoded(frames[0]) + rest;
      ParseFrame(s, frames[0], rest, cap);
    }
  }

  /** As long as the kept bytes of a stream never fill the ring, PutData throws only for payloads of up to
      29996 bytes: a longer one fills the ring before all of it is there, and disconnects. */
  lemma OversizeFitsRing(s: seq<Byte>, chunk: seq<Byte>)
    requires Parse(s, M.BUFFER_SIZE).status == More && |Parse(s, M.BUFFER_SIZE).rest| + |chunk| <= SIZE - 1
    requires Parse(s + chunk, M.BUFFER_SIZE).status == Oversize
    ensures var rest := Parse(s + chunk, M.BUFFER_SIZE).rest;
      |rest| > HEADER && M.BUFFER_SIZE < Announced(rest) <= SIZE - 1 - HEADER
  {
    hide Parse, Announced;
    ParseSplit(s, chunk, M.BUFFER_SIZE);
    var kept := Parse(s, M.BUFFER_SIZE).rest;
    ParseIsExact(kept + chunk, M.BUFFER_SIZE);
  }

  /** Both bounds are met: a header that announces 6001 bytes, or 29996, throws once they are there. */
  lemma OversizeHappens(n: nat, key: Byte)
    requires M.BUFFER_SIZE < n <= SIZE - 1 - HEADER
    ensures var f := Frame(key, seq(n, _ => 0));
      && |Encoded(f)| <= SIZE - 1 && Parse(Encoded(f), M.BUFFER_SIZE).status == Oversize
      && forall k :: HEADER < k < |Encoded(f)| ==>
           Parse(Encoded(f)[..k], M.BUFFER_SIZE) == Parsed([], Encoded(f)[..k], More)
  {
    var f := Frame(key, seq(n, _ => 0));
    var s := Encoded(f);
    assert Stream([]) + (s + []) == s;
    StopsAtOversize([], f, [], M.BUFFER_SIZE);
    forall k | HEADER < k < |s|
      ensures Parse(s[..k], M.BUFFER_SIZE) == Parsed([], s[..k], More)
    {
      assert Announced(s[..k]) == n;
      StopsAt(s[..k], M.BUFFER_SIZE);
    }
  }

  /** Parsing can stop after a and go on with b. */
  lemma {:induction false} ParseSplit(a: seq<Byte>, b: seq<Byte>, cap: int)
    ensures Parse(a, cap).status == More ==> Parse(a + b, cap) == Feed(Parse(a, cap), b, cap)
    ensures Parse(a, cap).status != More ==>
              Parse(a + b, cap) == Parse(a, cap).(rest := Parse(a, cap).rest + b)
    decreases |a|
  {
    hide Announced, Head, Tail, Parse, Verdict;
    ParseOnce(a, cap);
    if Whole(a, cap) {
      Longer(a, b);
      ParseSplit(Tail(a), b, cap);
      ParseOnce(a + b, cap);
      var p := Parse(Tail(a), cap);
      var q := Parse(p.rest + b, cap);
      assert [Head(a)] + (p.frames + q.frames) == [Head(a)] + p.frames + q.frames;
    } else {
      NotWhole(a, b, cap);
    }
  }

  /** Bytes after a header that stops the parser do not matter. */
  lemma NotWhole(a: seq<Byte>, b: seq<Byte>, cap: int)
    requires !Whole(a, cap)
    ensures Verdict(a, cap) == More ==> Behind([], Parse(a + b, cap)) == Parse(a + b, cap)
    ensures Verdict(a, cap) != More ==> Parse(a + b, cap) == Parsed([], a + b, Verdict(a, cap))
  {
    hide Parse;
    ParseOnce(a + b, cap);
    assert |a| > HEADER ==> Announced(a + b) == Announced(a);
  }

  lemma Longer(a: seq<Byte>, b: seq<Byte>)
    requires |a| > HEADER && 0 < Announced(a) && HEADER + Announced(a) <= |a|
    ensures |a + b| > HEADER && Announced(a + b) == Announced(a)
    ensures Head(a + b) == Head(a) && Tail(a + b) == Tail(a) + b
  {
  }

  /** Framing does not depend on chunking: however the stream is cut, the same frames are delivered
      with the same outcome, and what is kept is what the parser of the whole stream leaves. */
  lemma {:induction false} ChunkingIsIrrelevant(chunks: seq<seq<Byte>>, cap: int)
    ensures var p, q := FeedAll(chunks, cap), Parse(Concat(chunks), cap);
      p.frames == q.frames && p.status == q.status && (q.status == More ==> p.rest == q.rest)
  {
    if chunks != [] {
      var front, last := chunks[..|chunks| - 1], chunks[|chunks| - 1];
      ChunkingIsIrrelevant(front, cap);
      ParseSplit(Concat(front), last, cap);
    }
  }

  /** What is kept leaves room for the next receive if and only if it does not fill the buffer; and
      an incomplete frame can fill it if and only if its header announces at least SIZE - 1 - 2
      bytes. With payloads of at most 6000 bytes at most 6002 bytes are ever kept, and never as many
      as the bot's 40960. */
  lemma RoomForMore(s: seq<Byte>, cap: int)
    requires cap < 0x8000 && Parse(s, cap).status == More
    ensures var kept := Parse(s, cap).rest;
      && (|kept| > HEADER && Announced(kept) <= 6000 ==> |kept| <= 6002)
      && |kept| < 40960
      && (|kept| >= SIZE - 1 ==> Announced(kept) > SIZE - 1 - HEADER)
      && (HEADER < |kept| < SIZE ==>
            (Announced(kept) > SIZE - 1 - HEADER <==>
               exists more :: |kept + more| == SIZE - 1 && Parse(kept + more, cap) == Parsed([], kept + more, More)))
  {
    hide Parse;
    var kept := Parse(s, cap).rest;
    ParseIsExact(s, cap);
    if HEADER < |kept| < SIZE && Announced(kept) > SIZE - 1 - HEADER {
      var more: seq<Byte> := seq(SIZE - 1 - |kept|, _ => 0);
      assert Announced(kept + more) == Announced(kept);
      StopsAt(kept + more, cap);
      assert |kept + more| == SIZE - 1;
    }
    forall more | HEADER < |kept| < SIZE && |kept + more| == SIZE - 1 && Parse(kept + more, cap) ==
             Parsed([], kept + more, More)
      ensures Announced(kept) > SIZE - 1 - HEADER
    {
      assert Announced(kept + more) == Announced(kept);
      StopsShort(kept + more, cap);
    }
  }

  lemma StopsShort(s: seq<Byte>, cap: int)
    requires |s| > HEADER && Parse(s, cap) == Parsed([], s, More)
    ensures |s| < HEADER + Announced(s)
  {
  }

  // ---- the server -------------------------------------------------------------------------------------

  /** Where WSARecv is told to put bytes: at mRear, and from the beginning when the room goes around. */
  datatype Scatter = Full | Into(direct: int, around: int)

  /** registerRecv: no room means disconnection. */
  method RegisterRecv(recvBuffer: MyRingBuffer) returns (w: Scatter)
    requires recvBuffer.Valid()
    ensures w == Full <==> |recvBuffer.Contents()| == SIZE - 1
    ensures w != Full ==>
              && w.direct + w.around == SIZE - 1 - |recvBuffer.Contents()|
              && 0 <= w.direct <= SIZE - recvBuffer.mRear && 0 <= w.around
              && (w.around != 0 ==> w.direct == SIZE - recvBuffer.mRear && w.around < recvBuffer.mFront)
              && w.direct == GetDirectFreeSize(recvBuffer.mFront, recvBuffer.mRear)
  {
    var f, r := recvBuffer.mFront, recvBuffer.mRear;
    SizesAgree(f, r);
    var freeSize := GetFreeSize(f, r);
    if freeSize == 0 {
      return Full;
    }
    var direct := GetDirectFreeSize(f, r);
    return Into(direct, freeSize - direct);
  }

  /** A completion of `chunk`: the operating system has filled the segments in order. */
  method Arrive(recvBuffer: MyRingBuffer, chunk: seq<Byte>, w: Scatter)
    requires recvBuffer.Valid() && w.Into?
    requires w.direct == GetDirectFreeSize(recvBuffer.mFront, recvBuffer.mRear)
    requires |chunk| <= SIZE - 1 - |recvBuffer.Contents()|
    modifies recvBuffer.mBuffer
    ensures recvBuffer.Valid() && recvBuffer.Contents() == old(recvBuffer.Contents())
    ensures Window(recvBuffer.mBuffer[..], recvBuffer.mRear, |chunk|) == chunk
  {
    SizesAgree(recvBuffer.mFront, recvBuffer.mRear);
    recvBuffer.CopyIn(chunk, w.direct);
  }

  /** completeRecv delivers exactly what the reference parser finds in the kept and the new bytes. */
  method CompleteRecv(recvBuffer: MyRingBuffer, transferred: nat) returns (frames: seq<Frame>, status: Status)
    requires recvBuffer.Valid() && recvBuffer.mBFail == {}
    requires transferred <= SIZE - 1 - |recvBuffer.Contents()|
    modifies recvBuffer
    ensures recvBuffer.Valid() && recvBuffer.mBFail == {} && recvBuffer.mBuffer == old(recvBuffer.mBuffer)
    ensures var p := old(Parse(recvBuffer.Contents() + Window(recvBuffer.mBuffer[..], recvBuffer.mRear, transferred),
                               M.BUFFER_SIZE));
      && frames == p.frames && status == p.status
      && (status != Oversize ==> recvBuffer.Contents() == p.rest)
  {
    hide GetUseSize, Window, Head, Tail, Announced;
    ghost var goal := Parse(recvBuffer.Contents() + Window(recvBuffer.mBuffer[..], recvBuffer.mRear, transferred),
                            M.BUFFER_SIZE);
    SizesAgree(recvBuffer.mFront, recvBuffer.mRear);
    recvBuffer.MoveRear(transferred);
    var f, r := recvBuffer.mFront, recvBuffer.mRear;
    var useSize := GetUseSize(f, r);
    frames := [];
    while HEADER < useSize
      invariant recvBuffer.Valid() && recvBuffer.mBFail == {} && recvBuffer.mBuffer == old(recvBuffer.mBuffer)
      invariant useSize == |recvBuffer.Contents()|
      invariant goal == Behind(frames, Parse(recvBuffer.Contents(), M.BUFFER_SIZE))
      decreases useSize
    {
      var next, more := Deliver(recvBuffer, useSize);
      if more != More || next == [] {
        assert frames + [] == frames;
        return frames, more;
      }
      frames := frames + next;
      f, r := recvBuffer.mFront, recvBuffer.mRear;
      useSize := GetUseSize(f, r);
    }
    assert frames + [] == frames;
    return frames, More;
  }

  /** How a connection ends up after some completions: the ring had no room for another receive, the
      operating system would have had to deliver more than it was given room for (which it does not), or
      all has been taken. */
  datatype Ending = NoRoom | TooMuch | Served

  /** The receive chain of one session: registerRecv, the arrival of a chunk, completeRecv, and so on until
      a header stops it. Unless the ring is full at some receive, or a chunk is not what the operating
      system can deliver, the messages and the outcome are those of the whole stream, and the ring keeps
      what the parser leaves; otherwise that holds for the chunks before. */
  method Serve(recvBuffer: MyRingBuffer, chunks: seq<seq<Byte>>)
    returns (frames: seq<Frame>, status: Status, ending: Ending, ghost taken: nat)
    requires recvBuffer.Valid() && recvBuffer.mBFail == {} && recvBuffer.Contents() == []
    modifies recvBuffer, recvBuffer.mBuffer
    ensures recvBuffer.Valid() && taken <= |chunks|
    ensures var p := Parse(Concat(chunks[..taken]), M.BUFFER_SIZE);
      && frames == p.frames && status == p.status && (status == More ==> recvBuffer.Contents() == p.rest)
      && (ending == NoRoom ==> status == More && taken < |chunks| && |p.rest| == SIZE - 1 < HEADER + Announced(p.rest))
      && (ending == TooMuch ==> status == More && taken < |chunks| && |p.rest| + |chunks[taken]| > SIZE - 1)
    ensures ending == Served ==>
              && frames == Parse(Concat(chunks), M.BUFFER_SIZE).frames
                   && status == Parse(Concat(chunks), M.BUFFER_SIZE).status
  {
    hide Parse, Concat, Announced, GetFreeSize, GetUseSize, GetDirectFreeSize, Window;
    frames, status, taken := [], More, 0;
    NothingYet();
    assert chunks[..0] == [];
    var k := 0;
    while k < |chunks| && status == More
      invariant taken == k <= |chunks| && recvBuffer.Valid() && recvBuffer.mBuffer == old(recvBuffer.mBuffer)
      invariant status != Oversize ==> recvBuffer.mBFail == {}
      invariant var p := Parse(Concat(chunks[..k]), M.BUFFER_SIZE);
        frames == p.frames && status == p.status && (status == More ==> recvBuffer.Contents() == p.rest)
    {
      var w := RegisterRecv(recvBuffer);
      if w == Full {
        RoomForMore(Concat(chunks[..k]), M.BUFFER_SIZE);
        return frames, status, NoRoom, taken;
      }
      if |chunks[k]| > w.direct + w.around {
        return frames, status, TooMuch, taken;
      }
      ghost var p := Parse(Concat(chunks[..k]), M.BUFFER_SIZE);
      Arrive(recvBuffer, chunks[k], w);
      var more;
      more, status := CompleteRecv(recvBuffer, |chunks[k]|);
      OneMoreChunk(chunks, k, M.BUFFER_SIZE);
      frames, k, taken := frames + more, k + 1, taken + 1;
    }
    LaterChunks(chunks, k, M.BUFFER_SIZE);
    ending := Served;
  }

  lemma NothingYet()
    ensures Parse(Concat([]), M.BUFFER_SIZE) == Parsed([], [], More)
  {
  }

  lemma OneMoreChunk(chunks: seq<seq<Byte>>, k: nat, cap: int)
    requires k < |chunks| && Parse(Concat(chunks[..k]), cap).status == More
    ensures var p, q := Parse(Concat(chunks[..k]), cap), Parse(Concat(chunks[..k + 1]), cap);
      q == Behind(p.frames, Parse(p.rest + chunks[k], cap))
  {
    hide Parse;
    assert chunks[..k + 1][..k] == chunks[..k];
    ParseSplit(Concat(chunks[..k]), chunks[k], cap);
  }

  /** What follows a header that stops the parser changes neither the messages nor the outcome. */
  lemma {:induction false} LaterChunks(chunks: seq<seq<Byte>>, k: nat, cap: int)
    requires k <= |chunks| && (k < |chunks| ==> Parse(Concat(chunks[..k]), cap).status != More)
    ensures var p, q := Parse(Concat(chunks[..k]), cap), Parse(Concat(chunks), cap);
      p.frames == q.frames && p.status == q.status
    decreases |chunks| - k
  {
    hide Parse;
    if k == |chunks| {
      assert chunks[..k] == chunks;
    } else {
      assert chunks[..k + 1][..k] == chunks[..k];
      ParseSplit(Concat(chunks[..k]), chunks[k], cap);
      if k + 1 < |chunks| {
        LaterChunks(chunks, k + 1, cap);
      } else {
        assert chunks[..k + 1] == chunks;
      }
    }
  }

  /** One round of the loop: at most one message. */
  method Deliver(recvBuffer: MyRingBuffer, useSize: int) returns (frames: seq<Frame>, status: Status)
    requires recvBuffer.Valid() && recvBuffer.mBFail == {} && HEADER < useSize == |recvBuffer.Contents()|
    modifies recvBuffer
    ensures recvBuffer.Valid() && recvBuffer.mBFail == {} && recvBuffer.mBuffer == old(recvBuffer.mBuffer)
    ensures var s := old(recvBuffer.Contents());
      && status == Verdict(s, M.BUFFER_SIZE)
      && (Whole(s, M.BUFFER_SIZE) ==> frames == [Head(s)] && recvBuffer.Contents() == Tail(s))
      && (!Whole(s, M.BUFFER_SIZE) ==> frames == [] && (status != Oversize ==> recvBuffer.Contents() == s))
  {
    hide GetUseSize, GetDirectUseSize, Window;
    ghost var s := recvBuffer.Contents();
    var header := new Byte[HEADER];
    recvBuffer.Peek(header, HEADER);
    assert header[..HEADER] == s[..HEADER];
    var len := Int16(header[0], header[1]);
    assert len == Announced(s);
    if len <= 0 {
      return [], Bad;
    }
    if useSize < len + HEADER {
      return [], More;
    }
    recvBuffer.Dequeue(header, HEADER);
    assert header[..HEADER][2] == s[2];
    ghost var t := recvBuffer.Contents();
    var ok, payload := Copy(recvBuffer, len);
    if !ok {
      return [], Oversize;
    }
    recvBuffer.MoveFront(len);
    assert t[..len] == s[HEADER..HEADER + len] && t[len..] == s[HEADER + len..];
    return [Frame(header[2], payload)], More;
  }

  /** Puts the oldest len bytes into a new message, in one piece or two. */
  method Copy(recvBuffer: MyRingBuffer, len: int) returns (ok: bool, payload: seq<Byte>)
    requires recvBuffer.Valid() && 0 < len <= |recvBuffer.Contents()|
    ensures ok <==> len <= M.BUFFER_SIZE
    ensures ok ==> payload == recvBuffer.Contents()[..len]
  {
    hide GetUseSize, GetDirectUseSize, Window;
    var f, r := recvBuffer.mFront, recvBuffer.mRear;
    var deqSize := GetDirectUseSize(f, r);
    Segments(recvBuffer.mBuffer[..], f, r, len);
    if deqSize < len {
      var first, second := recvBuffer.mBuffer[f..f + deqSize], recvBuffer.mBuffer[..len - deqSize];
      assert first + second == recvBuffer.Contents()[..len];
      ok, payload := Assemble(first, second);
    } else {
      var all := recvBuffer.mBuffer[f..f + len];
      assert all + [] == recvBuffer.Contents()[..len];
      ok, payload := Assemble(all, []);
    }
  }

  /** One PutData, or two when there is a second piece. */
  method Assemble(first: seq<Byte>, second: seq<Byte>) returns (ok: bool, payload: seq<Byte>)
    ensures ok <==> |first| + |second| <= M.BUFFER_SIZE
    ensures ok ==> payload == first + second
  {
    var msg := new M.Message();
    var outcome := msg.PutData(first);
    if outcome == M.Done && second != [] {
      outcome := msg.PutData(second);
    }
    ok := outcome == M.Done;
    payload := msg.mBegin[msg.mFrontPtr..msg.mRearPtr];
  }

  /** The two pieces that completeRecv copies are the oldest len bytes. */
  lemma Segments(buf: seq<Byte>, f: int, r: int, len: int)
    requires |buf| == SIZE && Index(f) && Index(r) && 0 <= len <= GetUseSize(f, r)
    ensures var deq := GetDirectUseSize(f, r);
      && 0 <= deq <= SIZE - f
      && (deq < len ==>
            && len - deq <= SIZE
            && Window(buf, f, GetUseSize(f, r))[..len] == buf[f..f + deq] + buf[..len - deq])
      && (len <= deq ==> Window(buf, f, GetUseSize(f, r))[..len] == buf[f..f + len])
  {
    SizesAgree(f, r);
    var deq, use := GetDirectUseSize(f, r), GetUseSize(f, r);
    var w := Window(buf, f, use)[..len];
    var v := if deq < len then buf[f..f + deq] + buf[..len - deq] else buf[f..f + len];
    hide Window, GetUseSize, GetDirectUseSize;
    forall i | 0 <= i < len
      ensures w[i] == v[i]
    {
      WindowAt(buf, f, use, i);
    }
  }

  // ---- the bot ------------------------------------------------------------------------------------------

  class Bot {
    var mRecvBuffer: array<Byte>
    var mRecvSize: int

    ghost predicate Valid()
      reads this
    {
      0 <= mRecvSize <= mRecvBuffer.Length
    }

    ghost function Contents(): seq<Byte>
      requires Valid()
      reads this, mRecvBuffer
    {
      mRecvBuffer[..mRecvSize]
    }

    constructor (size: nat)
      ensures Valid() && fresh(mRecvBuffer) && Contents() == []
    {
      mRecvBuffer, mRecvSize := new Byte[size](_ => 0), 0;
    }

    /** memmove of everything behind the first packetSize bytes to the front. */
    method Drop(packetSize: nat)
      requires Valid() && packetSize <= mRecvSize
      modifies this`mRecvSize, mRecvBuffer
      ensures Valid() && Contents() == old(Contents())[packetSize..]
    {
      forall i | 0 <= i < mRecvSize - packetSize {
        mRecvBuffer[i] := mRecvBuffer[i + packetSize];
      }
      mRecvSize := mRecvSize - packetSize;
    }

    /** recvPacketProc delivers what the reference parser finds; no payload is too long for it. It is
        the first to notice a bad header: RT_ASSERT stops it at the third byte already. */
    method RecvPacketProc() returns (frames: seq<Frame>, asserted: bool)
      requires Valid()
      modifies this`mRecvSize, mRecvBuffer
      ensures Valid()
      ensures var p := old(Parse(Contents(), 0x7FFF));
        && frames == p.frames && Contents() == p.rest && p.status != Oversize
        && (asserted <==> p.status == Bad || (|p.rest| == HEADER && Announced(p.rest) <= 0))
    {
      hide Whole, Verdict, Head, Tail, Announced, Parse;
      frames := [];
      ghost var goal := Parse(Contents(), 0x7FFF);
      while HEADER <= mRecvSize
        invariant Valid()
        invariant goal == Behind(frames, Parse(Contents(), 0x7FFF))
        decreases mRecvSize
      {
        ghost var s := Contents();
        var next, bad := OnePacket();
        ParseOnce(s, 0x7FFF);
        if next == [] {
          NoPacket(s);
          assert frames + [] == frames;
          return frames, bad;
        }
        frames := frames + next;
      }
      NoPacket(Contents());
      assert frames + [] == frames;
      return frames, false;
    }

    /** One round of the loop. */
    method OnePacket() returns (frames: seq<Frame>, bad: bool)
      requires Valid() && HEADER <= mRecvSize
      modifies this`mRecvSize, mRecvBuffer
      ensures Valid()
      ensures var s := old(Contents());
        && (bad <==> Announced(s) <= 0)
        && (Whole(s, 0x7FFF) ==> frames == [Head(s)] && Contents() == Tail(s))
        && (!Whole(s, 0x7FFF) ==> frames == [] && Contents() == s)
    {
      ghost var s := Contents();
      var len := Int16(mRecvBuffer[0], mRecvBuffer[1]);
      assert s[0] == mRecvBuffer[0] && s[1] == mRecvBuffer[1];
      assert len == Announced(s);
      if len <= 0 {
        return [], true;
      }
      if mRecvSize < HEADER + len {
        return [], false;
      }
      frames := [Frame(mRecvBuffer[2], mRecvBuffer[HEADER..HEADER + len])];
      assert mRecvBuffer[HEADER..HEADER + len] == s[HEADER..HEADER + len];
      Drop(HEADER + len);
      return frames, false;
    }
  }

  lemma NoPacket(s: seq<Byte>)
    requires |s| < HEADER || !Whole(s, 0x7FFF)
    ensures Parse(s, 0x7FFF) == Parsed([], s, Verdict(s, 0x7FFF)) && Verdict(s, 0x7FFF) != Oversize
    ensures |s| >= HEADER ==>
      (Announced(s) <= 0 <==> Verdict(s, 0x7FFF) == Bad || (|s| == HEADER && Announced(s) <= 0))
    ensures |s| < HEADER ==> Verdict(s, 0x7FFF) == More
  {
  }
}

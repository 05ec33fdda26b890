/** The byte ring buffer of the network library (class MyRingBuffer). Pointers into mBuffer are
    indices from mBegin; mEnd is SIZE. */
module RingBuffer {
  const SIZE: int := 30000

  type Byte = b: int | 0 <= b < 256

  datatype FailBit = BufferFull | BufferEmpty | ArgmentSizeInvalid

  function GetDirectFreeSize(f: int, r: int): int {
    if f <= r then (if f == 0 then SIZE - r - 1 else SIZE - r) else f - r - 1
  }

  function GetDirectUseSize(f: int, r: int): int {
    if f <= r then r - f else SIZE - f
  }

  function GetFreeSize(f: int, r: int): int {
    if f <= r then SIZE - r + f - 1 else f - r - 1
  }

  function GetUseSize(f: int, r: int): int {
    if f <= r then r - f else SIZE - f + r
  }

  /** Index i steps after index f, once around at most. */
  function Wrap(i: int): int {
    if i < SIZE then i else i - SIZE
  }

  predicate Index(i: int) {
    0 <= i < SIZE
  }

  /** The bytes at `start`, start + 1, ..., going around the end of the buffer. */
  function Window(buf: seq<Byte>, start: int, len: int): (w: seq<Byte>)
    requires |buf| == SIZE && Index(start) && 0 <= len <= SIZE
    ensures |w| == len
  {
    seq(len, i requires 0 <= i < len => buf[Wrap(start + i)])
  }

  lemma WindowAt(buf: seq<Byte>, start: int, len: int, i: int)
    requires |buf| == SIZE && Index(start) && 0 <= i < len <= SIZE
    ensures Index(Wrap(start + i)) && Window(buf, start, len)[i] == buf[Wrap(start + i)]
  {
  }

  /** The four sizes: used and free bytes add up to SIZE - 1; the direct sizes are what can be
      reached without going around, and never exceed the total; one jump reaches the rest. */
  lemma SizesAgree(f: int, r: int)
    requires Index(f) && Index(r)
    ensures GetUseSize(f, r) + GetFreeSize(f, r) == SIZE - 1
    ensures 0 <= GetUseSize(f, r) && 0 <= GetFreeSize(f, r)
    ensures Wrap(f + GetUseSize(f, r)) == r
    ensures 0 <= GetDirectUseSize(f, r) <= GetUseSize(f, r) && f + GetDirectUseSize(f, r) <= SIZE
    ensures 0 <= GetDirectFreeSize(f, r) <= GetFreeSize(f, r) && r + GetDirectFreeSize(f, r) <= SIZE
    ensures GetDirectUseSize(f, r) < GetUseSize(f, r) ==> f + GetDirectUseSize(f, r) == SIZE
    ensures GetDirectFreeSize(f, r) < GetFreeSize(f, r) ==> r + GetDirectFreeSize(f, r) == SIZE
  {
  }

  class MyRingBuffer {
    var mBuffer: array<Byte>
    var mFront: int
    var mRear: int
    var mBFail: set<FailBit>

    ghost predicate Valid()
      reads this
    {
      mBuffer.Length == SIZE && Index(mFront) && Index(mRear)
    }

    /** The bytes that have been enqueued and not dequeued, oldest first. */
    ghost function Contents(): (s: seq<Byte>)
      requires Valid()
      reads this, mBuffer
      ensures |s| == GetUseSize(mFront, mRear)
    {
      Window(mBuffer[..], mFront, GetUseSize(mFront, mRear))
    }

    constructor ()
      ensures Valid() && fresh(mBuffer) && Contents() == [] && mBFail == {}
    {
      mBuffer := new Byte[SIZE](_ => 0);
      mFront, mRear, mBFail := 0, 0, {};
    }

    method ClearBuffer()
      requires Valid()
      modifies this`mFront, this`mRear, this`mBFail
      ensures Valid() && Contents() == [] && mBFail == {} && mFront == 0
    {
      mFront, mRear, mBFail := 0, 0, {};
    }

    /** Drops the oldest `move` bytes; once a call has failed, nothing moves any more. */
    method MoveFront(move: int)
      requires Valid() && move <= SIZE
      modifies this`mFront, this`mBFail
      ensures Valid()
      ensures mBFail == if old(mBFail) == {} && move < 0 then {ArgmentSizeInvalid} else old(mBFail)
      ensures mFront == if old(mBFail) == {} && move >= 0 then Wrap(old(mFront) + move) else old(mFront)
      ensures mBFail == {} && move <= old(|Contents()|) ==> Contents() == old(Contents())[move..]
    {
      if mBFail != {} {
        return;
      }
      if move < 0 {
        mBFail := mBFail + {ArgmentSizeInvalid};
        return;
      }
      var f := mFront + move;
      if SIZE <= f {
        var distance := f - SIZE;
        mFront := distance;
        WindowDrop(mBuffer[..], old(mFront), old(mRear), move);
        return;
      }
      mFront := f;
      WindowDrop(mBuffer[..], old(mFront), old(mRear), move);
    }

    /** Adds the `move` bytes that already stand after mRear. RINGBUFFER_ASSERT stops a failed buffer. */
    method MoveRear(move: int)
      requires Valid() && move <= SIZE
      modifies this`mRear, this`mBFail
      ensures Valid()
      ensures mBFail == if old(mBFail) == {} && move < 0 then {ArgmentSizeInvalid} else old(mBFail)
      ensures mRear == if old(mBFail) == {} && move >= 0 then Wrap(old(mRear) + move) else old(mRear)
      ensures mBFail == {} && move <= old(GetFreeSize(mFront, mRear)) ==>
                Contents() == old(Contents()) + Window(mBuffer[..], old(mRear), move)
    {
      if mBFail != {} {
        return;
      }
      if move < 0 {
        mBFail := mBFail + {ArgmentSizeInvalid};
        return;
      }
      var r := mRear + move;
      if SIZE <= r {
        var distance := r - SIZE;
        mRear := distance;
        WindowAppend(mBuffer[..], old(mFront), old(mRear), move);
        return;
      }
      mRear := r;
      WindowAppend(mBuffer[..], old(mFront), old(mRear), move);
    }

    /** Copies the oldest `size` bytes without removing them. */
    method Peek(dest: array<Byte>, size: int)
      requires Valid() && size <= dest.Length && dest != mBuffer
      modifies dest, this`mBFail
      ensures Valid() && Contents() == old(Contents())
      ensures mBFail == old(mBFail) + (if size < 0 then {ArgmentSizeInvalid}
                                       else if |Contents()| < size then {BufferEmpty} else {})
      ensures 0 <= size <= |Contents()| ==> dest[..size] == Contents()[..size] && dest[size..] == old(dest[size..])
      ensures size < 0 || |Contents()| < size ==> dest[..] == old(dest[..])
    {
      if size < 0 {
        mBFail := mBFail + {ArgmentSizeInvalid};
        return;
      }
      var f, r := mFront, mRear;
      var useSize := GetUseSize(f, r);
      var directUseSize := GetDirectUseSize(f, r);
      if useSize < size {
        mBFail := mBFail + {BufferEmpty};
        return;
      }
      CopyOut(dest, size, directUseSize);
    }

    /** The copying loops that Peek and Dequeue share. */
    method CopyOut(dest: array<Byte>, size: int, directUseSize: int)
      requires Valid() && dest != mBuffer && 0 <= size <= dest.Length
      requires size <= GetUseSize(mFront, mRear) && directUseSize == GetDirectUseSize(mFront, mRear)
      modifies dest
      ensures dest[..size] == Contents()[..size] && dest[size..] == old(dest[size..])
    {
      var f := mFront;
      var cnt := 0;
      if size <= directUseSize {
        while cnt < size
          invariant 0 <= cnt <= size && f == mFront + cnt
          invariant forall k :: 0 <= k < cnt ==> dest[k] == mBuffer[Wrap(mFront + k)]
          invariant dest[size..] == old(dest[size..])
        {
          dest[cnt] := mBuffer[f];
          f, cnt := f + 1, cnt + 1;
        }
      } else {
        while cnt < directUseSize
          invariant 0 <= cnt <= directUseSize && f == mFront + cnt
          invariant forall k :: 0 <= k < cnt ==> dest[k] == mBuffer[Wrap(mFront + k)]
          invariant dest[size..] == old(dest[size..])
        {
          dest[cnt] := mBuffer[f];
          f, cnt := f + 1, cnt + 1;
        }
        f := 0;
        while cnt < size
          invariant directUseSize <= cnt <= size && f == cnt - directUseSize
          invariant forall k :: 0 <= k < cnt ==> dest[k] == mBuffer[Wrap(mFront + k)]
          invariant dest[size..] == old(dest[size..])
        {
          dest[cnt] := mBuffer[f];
          f, cnt := f + 1, cnt + 1;
        }
      }
    }

    /** Appends the first `size` bytes of src, or fails and changes nothing. */
    method Enqueue(src: seq<Byte>, size: int)
      requires Valid() && size <= |src|
      modifies this`mRear, this`mBFail, mBuffer
      ensures Valid() && mFront == old(mFront)
      ensures mBFail == old(mBFail) + (if size < 0 then {ArgmentSizeInvalid}
                                       else if old(GetFreeSize(mFront, mRear)) < size then {BufferFull} else {})
      ensures Contents() == if mBFail == {} then old(Contents()) + src[..size] else old(Contents())
    {
      if size < 0 {
        mBFail := mBFail + {ArgmentSizeInvalid};
        return;
      }
      var f, r := mFront, mRear;
      var freeSize := GetFreeSize(f, r);
      if freeSize < size {
        mBFail := mBFail + {BufferFull};
        return;
      }
      CopyIn(src[..size], GetDirectFreeSize(f, r));
      MoveRear(size);
    }

    /** One byte of a copying loop: position r is k bytes after mRear. */
    method Store(r: int, k: int, b: Byte)
      requires Valid() && 0 <= k < GetFreeSize(mFront, mRear) && r == Wrap(mRear + k)
      modifies mBuffer
      ensures mBuffer[..] == old(mBuffer[..])[r := b] && Contents() == old(Contents())
    {
      mBuffer[r] := b;
      WindowStore(old(mBuffer[..]), mFront, mRear, k, b);
    }

    /** The copying loops of Enqueue: src stands after mRear, the unread bytes are untouched. */
    method CopyIn(src: seq<Byte>, directFreeSize: int)
      requires Valid() && |src| <= GetFreeSize(mFront, mRear) && directFreeSize == GetDirectFreeSize(mFront, mRear)
      modifies mBuffer
      ensures Contents() == old(Contents())
      ensures Window(mBuffer[..], mRear, |src|) == src
    {
      var size, r, cnt := |src|, mRear, 0;
      if size <= directFreeSize {
        while cnt < size
          invariant 0 <= cnt <= size && r == mRear + cnt
          invariant forall k :: 0 <= k < cnt ==> mBuffer[Wrap(mRear + k)] == src[k]
          invariant Contents() == old(Contents())
        {
          Store(r, cnt, src[cnt]);
          r, cnt := r + 1, cnt + 1;
        }
      } else {
        while cnt < directFreeSize
          invariant 0 <= cnt <= directFreeSize && r == mRear + cnt
          invariant forall k :: 0 <= k < cnt ==> mBuffer[Wrap(mRear + k)] == src[k]
          invariant Contents() == old(Contents())
        {
          Store(r, cnt, src[cnt]);
          r, cnt := r + 1, cnt + 1;
        }
        r := 0;
        while cnt < size
          invariant directFreeSize <= cnt <= size && r == cnt - directFreeSize
          invariant forall k :: 0 <= k < cnt ==> mBuffer[Wrap(mRear + k)] == src[k]
          invariant Contents() == old(Contents())
        {
          Store(r, cnt, src[cnt]);
          r, cnt := r + 1, cnt + 1;
        }
      }
    }

    /** Removes the oldest `size` bytes into dest, or fails and changes nothing. A buffer that had
        failed before still copies, but does not remove. */
    method Dequeue(dest: array<Byte>, size: int)
      requires Valid() && size <= dest.Length && dest != mBuffer
      modifies dest, this`mFront, this`mBFail
      ensures Valid() && mRear == old(mRear)
      ensures mBFail == old(mBFail) + (if size < 0 then {ArgmentSizeInvalid}
                                       else if old(|Contents()|) < size then {BufferEmpty} else {})
      ensures 0 <= size <= old(|Contents()|) ==>
                dest[..size] == old(Contents())[..size] && dest[size..] == old(dest[size..])
      ensures mBFail == {} ==> mFront == Wrap(old(mFront) + size)
      ensures Contents() == if mBFail == {} then old(Contents())[size..] else old(Contents())
    {
      if size < 0 {
        mBFail := mBFail + {ArgmentSizeInvalid};
        return;
      }
      var f, r := mFront, mRear;
      var useSize := GetUseSize(f, r);
      if useSize < size {
        mBFail := mBFail + {BufferEmpty};
        return;
      }
      var directUseSize := GetDirectUseSize(f, r);
      CopyOut(dest, size, directUseSize);
      MoveFront(size);
    }
  }

  lemma WindowDrop(buf: seq<Byte>, f: int, r: int, move: int)
    requires |buf| == SIZE && Index(f) && Index(r) && 0 <= move <= SIZE
    ensures move <= GetUseSize(f, r) ==>
              && Index(Wrap(f + move))
              && GetUseSize(Wrap(f + move), r) == GetUseSize(f, r) - move
              && Window(buf, Wrap(f + move), GetUseSize(f, r) - move) == Window(buf, f, GetUseSize(f, r))[move..]
  {
    if move <= GetUseSize(f, r) {
      var a, b := Window(buf, Wrap(f + move), GetUseSize(f, r) - move), Window(buf, f, GetUseSize(f, r))[move..];
      forall i | 0 <= i < |a| ensures a[i] == b[i] {
        assert Wrap(Wrap(f + move) + i) == Wrap(f + (move + i));
      }
    }
  }

  lemma WindowAppend(buf: seq<Byte>, f: int, r: int, move: int)
    requires |buf| == SIZE && Index(f) && Index(r) && 0 <= move <= SIZE
    ensures move <= GetFreeSize(f, r) ==>
              && Index(Wrap(r + move))
              && GetUseSize(f, Wrap(r + move)) == GetUseSize(f, r) + move
              && Window(buf, f, GetUseSize(f, r) + move) == Window(buf, f, GetUseSize(f, r)) + Window(buf, r, move)
  {
    if move <= GetFreeSize(f, r) {
      var use := GetUseSize(f, r);
      var a, b := Window(buf, f, use + move), Window(buf, f, use) + Window(buf, r, move);
      forall i | 0 <= i < |a| ensures a[i] == b[i] {
        if i >= use {
          assert Wrap(f + i) == Wrap(r + (i - use));
        }
      }
    }
  }

  /** Writing a free byte does not touch the unread ones. */
  lemma WindowStore(buf: seq<Byte>, f: int, r: int, k: int, b: Byte)
    requires |buf| == SIZE && Index(f) && Index(r) && 0 <= k < GetFreeSize(f, r)
    ensures Index(Wrap(r + k))
    ensures Window(buf[Wrap(r + k) := b], f, GetUseSize(f, r)) == Window(buf, f, GetUseSize(f, r))
  {
    var x, y := Window(buf[Wrap(r + k) := b], f, GetUseSize(f, r)), Window(buf, f, GetUseSize(f, r));
    forall i | 0 <= i < |x| ensures x[i] == y[i] {
      assert Wrap(f + i) != Wrap(r + k);
    }
  }
}

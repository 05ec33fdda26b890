/** The send queue of a session and its reset (class Session). */
module SendQueue {
  import opened Interlocked
  import opened SessionSlot
  import opened RingBuffer

  /** _InterlockedIncrement16 and -Decrement16 wrap around. */
  lemma WrapsTwice(a: int, b: int)
    ensures Wrap16(Wrap16(a) + b) == Wrap16(a + b)
  {
  }

  class Session {
    var mSendQ: seq<Msg>
    var mSenqQSize: int
    var mSendMsgs: array<Msg>
    var mMsgCnt: int
    var mSendFlag: bool
    var mAccepted: bool
    const mRecvBuffer: MyRingBuffer
    var mPtr: int                 // 0: nullptr
    var mSockOpen: bool
    ghost var deleted: seq<Msg>   // every message handed to MY_DELETE, in order

    ghost predicate Valid()
      reads this, mRecvBuffer
    {
      && mSendMsgs.Length == SEND_MAX && 0 <= mMsgCnt <= SEND_MAX
      && -0x8000 <= mSenqQSize < 0x8000
      && mRecvBuffer.Valid()
    }

    /** The send side as the slot protocol sees it. */
    ghost function View(): Out
      requires Valid()
      reads this, mSendMsgs, mRecvBuffer
    {
      Out(mSendFlag, mSendQ, mSenqQSize, mSendMsgs[..mMsgCnt], mMsgCnt)
    }

    constructor ()
      ensures Valid() && fresh(mSendMsgs)
      ensures View() == Out(false, [], 0, [], 0) && !mAccepted && deleted == []
      ensures fresh(mRecvBuffer) && mRecvBuffer.Contents() == [] && mPtr == 0
    {
      mRecvBuffer := new MyRingBuffer();
      mPtr, mSockOpen := 0, false;
      mSendQ, mSenqQSize, mMsgCnt, mSendFlag, mAccepted, deleted := [], 0, 0, false, false, [];
      mSendMsgs := new Msg[SEND_MAX](_ => Msg(0, 0));
    }

    /** Under mSendQlock: the steps Pushing and Counting of the protocol in one. */
    method EnQueueMsg(msg: Msg)
      requires Valid()
      modifies this`mSendQ, this`mSenqQSize
      ensures Valid()
      ensures View() == old(View()).(queue := old(mSendQ) + [msg], size := Wrap16(old(mSenqQSize) + 1))
    {
      mSendQ := mSendQ + [msg];
      mSenqQSize := Wrap16(mSenqQSize + 1);
    }

    /** Under mSendQlock: the first message, and its removal from queue and counter. */
    method DeQueueMsgOrNull() returns (found: bool, msg: Msg)
      requires Valid()
      modifies this`mSendQ, this`mSenqQSize
      ensures Valid()
      ensures found <==> old(mSendQ) != []
      ensures found ==> old(mSendQ) == [msg] + mSendQ && mSenqQSize == Wrap16(old(mSenqQSize) - 1)
      ensures !found ==> mSendQ == old(mSendQ) && mSenqQSize == old(mSenqQSize)
      ensures Wrap16(mSenqQSize - |mSendQ|) == old(Wrap16(mSenqQSize - |mSendQ|))
    {
      if mSendQ == [] {
        return false, Msg(0, 0);
      }
      WrapsTwice(mSenqQSize - 1, 1 - |mSendQ|);
      msg := mSendQ[0];
      mSendQ := mSendQ[1..];
      mSenqQSize := Wrap16(mSenqQSize - 1);
      found := true;
    }

    /** The first loop of ReleaseSession. */
    method Drain()
      requires Valid()
      modifies this`mSendQ, this`mSenqQSize, this`deleted
      ensures Valid() && mSendQ == [] && deleted == old(deleted + mSendQ)
      ensures mSenqQSize == old(Wrap16(mSenqQSize - |mSendQ|))
    {
      hide Wrap16;
      var more, msg := DeQueueMsgOrNull();
      while more
        invariant Valid()
        invariant deleted + (if more then [msg] else []) + mSendQ == old(deleted + mSendQ)
        invariant Wrap16(mSenqQSize - |mSendQ|) == old(Wrap16(mSenqQSize - |mSendQ|))
        invariant !more ==> mSendQ == []
        decreases |mSendQ|, more
      {
        deleted := deleted + [msg];
        more, msg := DeQueueMsgOrNull();
      }
      InRange(mSenqQSize);
    }

    lemma InRange(v: int)
      requires -0x8000 <= v < 0x8000
      ensures Wrap16(v) == v
    {
    }

    /** Everything queued, then everything in flight, is deleted exactly once, in order, and the
        slot is as the constructor left it. drained tells whether RT_ASSERT(mSenqQSize == 0) held. */
    method ReleaseSession() returns (drained: bool)
      requires Valid()
      modifies this, mRecvBuffer
      ensures Valid() && mSendMsgs == old(mSendMsgs)
      ensures deleted == old(deleted + mSendQ + mSendMsgs[..mMsgCnt])
      ensures drained <==> old(Wrap16(mSenqQSize - |mSendQ|)) == 0
      ensures drained ==> View() == Out(false, [], 0, [], 0)
      ensures !mAccepted && mSendQ == [] && mMsgCnt == 0 && !mSendFlag
      ensures mRecvBuffer.Contents() == [] && mRecvBuffer.mBFail == {} && mPtr == 0 && !mSockOpen
    {
      hide Wrap16, GetUseSize, Window;
      Drain();
      drained := mSenqQSize == 0;
      var cnt := 0;
      while cnt < mMsgCnt
        invariant 0 <= cnt <= mMsgCnt == old(mMsgCnt)
        invariant Valid() && mSendMsgs == old(mSendMsgs) && mSendMsgs[..] == old(mSendMsgs[..])
        invariant mSendQ == [] && mSenqQSize == old(Wrap16(mSenqQSize - |mSendQ|))
        invariant deleted == old(deleted + mSendQ) + mSendMsgs[..cnt]
      {
        deleted := deleted + [mSendMsgs[cnt]];
        cnt := cnt + 1;
      }
      mMsgCnt := 0;
      mSendFlag := false;
      mRecvBuffer.ClearBuffer();
      mPtr := 0;
      mAccepted := false;
      mSockOpen := false;
    }
  }
}

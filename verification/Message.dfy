/** The serialization buffer (class Message). mEnd is always mBegin + BUFFER_SIZE: since BUFFER_SIZE
    equals MaxSize, operator<< never takes its Resize branch. */
module Message {
  import opened RingBuffer

  const BUFFER_SIZE: int := 6000

  /** What the source throws as a MessageException. */
  datatype Outcome = Done | NotEnoughSpace | HasNotData

  class Message {
    var mBegin: array<Byte>
    var mFrontPtr: int
    var mRearPtr: int
    var mOwnerID: int
    var mRandKey: Byte

    ghost predicate Valid()
      reads this
    {
      mBegin.Length == BUFFER_SIZE && 0 <= mFrontPtr <= mRearPtr <= BUFFER_SIZE
    }

    /** What has been put in and not been taken out. */
    ghost function Contents(): seq<Byte>
      requires Valid()
      reads this, mBegin
    {
      mBegin[mFrontPtr..mRearPtr]
    }

    constructor ()
      ensures Valid() && fresh(mBegin) && Contents() == [] && mFrontPtr == 0
    {
      mBegin := new Byte[BUFFER_SIZE](_ => 0);
      mFrontPtr, mRearPtr, mOwnerID, mRandKey := 0, 0, 0, 0;
    }

    method InitMessage(sessionID: int, randKey: Byte)
      requires Valid()
      modifies this
      ensures Valid() && mBegin == old(mBegin) && mBegin[..] == old(mBegin[..])
      ensures Contents() == [] && mFrontPtr == 0 && mOwnerID == sessionID && mRandKey == randKey
    {
      mOwnerID, mRandKey := sessionID, randKey;
      mFrontPtr, mRearPtr := 0, 0;
    }

    /** Appends src, or throws and changes nothing. Also operator<<, with the bytes of its operand. */
    method PutData(src: seq<Byte>) returns (outcome: Outcome)
      requires Valid()
      modifies this`mRearPtr, mBegin
      ensures Valid() && (outcome == Done || outcome == NotEnoughSpace)
      ensures outcome == NotEnoughSpace <==> BUFFER_SIZE < old(mRearPtr) + |src|
      ensures mRearPtr == old(mRearPtr) + if outcome == Done then |src| else 0
      ensures Contents() == old(Contents()) + if outcome == Done then src else []
    {
      if mRearPtr + |src| > BUFFER_SIZE {
        return NotEnoughSpace;
      }
      forall i | 0 <= i < |src| {
        mBegin[mRearPtr + i] := src[i];
      }
      mRearPtr := mRearPtr + |src|;
      assert mBegin[old(mRearPtr)..mRearPtr] == src;
      assert mBegin[mFrontPtr..old(mRearPtr)] == old(Contents());
      return Done;
    }

    /** Takes the oldest `size` bytes, or throws and changes nothing. Also operator>>. */
    method GetData(size: nat) returns (outcome: Outcome, bytes: seq<Byte>)
      requires Valid()
      modifies this`mFrontPtr
      ensures Valid() && (outcome == Done || outcome == HasNotData)
      ensures outcome == HasNotData <==> old(|Contents()|) < size
      ensures outcome == Done ==> |bytes| == size && old(Contents()) == bytes + Contents()
      ensures outcome != Done ==> bytes == [] && Contents() == old(Contents())
    {
      if mFrontPtr + size > mRearPtr {
        return HasNotData, [];
      }
      bytes := mBegin[mFrontPtr..mFrontPtr + size];
      mFrontPtr := mFrontPtr + size;
      return Done, bytes;
    }

    /** The case mFrontPtr > mRearPtr of the source cannot occur. */
    method GetUseSize() returns (size: nat)
      requires Valid()
      ensures size == |Contents()|
    {
      return mRearPtr - mFrontPtr;
    }
  }
}

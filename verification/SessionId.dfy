/** The packed session ID (SeqAndIdx): two signed bit fields, 17 bits of index below 47 bits of
    sequence number, compared as one 64-bit value. */
module SessionId {
  const IDX: int := 0x2_0000                  // 2^17
  const SEQ: int := 0x8000_0000_0000          // 2^47

  /** What assigning both fields leaves in Value, as an unsigned number. */
  function Pack(idx: int, seqNo: int): (v: int)
    ensures 0 <= v < IDX * SEQ
  {
    idx % IDX + IDX * (seqNo % SEQ)
  }

  /** Reading a signed field of the given size back. */
  function SignExtend(bits: int, size: int): int {
    if bits < size / 2 then bits else bits - size
  }

  function IdxOf(v: int): int {
    SignExtend(v % IDX, IDX)
  }

  function SeqOf(v: int): int {
    SignExtend(v / IDX, SEQ)
  }

  lemma Fields(idx: int, seqNo: int)
    ensures Pack(idx, seqNo) % IDX == idx % IDX && Pack(idx, seqNo) / IDX == seqNo % SEQ
  {
  }

  /** An index and a sequence number are read back as they were written exactly when they fit their
      signed fields: with indices below 65536, and sequence numbers below 2^46, nothing is lost. */
  lemma FieldsReadBack(idx: int, seqNo: int)
    ensures IdxOf(Pack(idx, seqNo)) == idx <==> -IDX / 2 <= idx < IDX / 2
    ensures SeqOf(Pack(idx, seqNo)) == seqNo <==> -SEQ / 2 <= seqNo < SEQ / 2
  {
    Fields(idx, seqNo);
  }

  /** operator==: two IDs are equal as values exactly when both fields are equal; and a sequence number
      that is never used twice makes IDs differ, whatever the slot, for 2^47 IDs in a row. */
  lemma EqualMeansSameFields(i: int, s: int, j: int, t: int)
    requires 0 <= i < IDX && 0 <= j < IDX
    ensures Pack(i, s) == Pack(j, t) <==> i == j && s % SEQ == t % SEQ
    ensures 0 < t - s < SEQ ==> Pack(i, s) != Pack(j, t)
  {
    Fields(i, s);
    Fields(j, t);
  }
}

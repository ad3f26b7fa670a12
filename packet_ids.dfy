/**
 * The session's packet-id sequence: a wrapping counter over the MQTT packet ids 1..65535,
 * seeded from the persisted context when processing starts.
 */
module PacketIds {
  const MaxPacketId: int := 65535

  /** The id nextMsgId hands out after `last`: one more, wrapping from 65535 back to 1. */
  function NextId(last: int): (id: int)
    ensures 1 <= id <= MaxPacketId
    ensures 0 <= last < MaxPacketId ==> id == last + 1
    ensures last == MaxPacketId ==> id == 1
  {
    last % MaxPacketId + 1
  }

  /** The id after n calls of nextMsgId on a sequence whose last id is `last`. */
  function IdAfter(last: int, n: nat): int
    decreases n
  {
    if n == 0 then last else NextId(IdAfter(last, n - 1))
  }

  /** Drawing one id and then n more is drawing n + 1 ids. */
  lemma {:induction false} IdAfterShift(last: int, n: nat)
    ensures IdAfter(NextId(last), n) == IdAfter(last, n + 1)
    decreases n
  {
    if n > 0 {
      IdAfterShift(last, n - 1);
    }
  }

  /** The n-th id drawn, in closed form. */
  lemma {:induction false} IdAfterClosedForm(last: int, n: nat)
    requires n >= 1
    ensures IdAfter(last, n) == (last + n - 1) % MaxPacketId + 1
    decreases n
  {
    if n > 1 {
      IdAfterClosedForm(last, n - 1);
      var a := last + n - 2;
      var q := a % MaxPacketId;
      assert a == MaxPacketId * (a / MaxPacketId) + q;
      if q < MaxPacketId - 1 {
        assert a + 1 == MaxPacketId * (a / MaxPacketId) + (q + 1);
      } else {
        assert a + 1 == MaxPacketId * (a / MaxPacketId + 1);
      }
    }
  }

  /** No two of 65535 consecutively drawn ids collide. */
  lemma FreshIdsDistinct(last: int, i: nat, j: nat)
    requires 1 <= i < j <= MaxPacketId
    ensures IdAfter(last, i) != IdAfter(last, j)
  {
    IdAfterClosedForm(last, i);
    IdAfterClosedForm(last, j);
  }

  /** The per-session sequence object (ClientSessionCtx.getMsgIdSeq()). */
  class MsgIdSeq {
    var last: int

    constructor ()
      ensures last == 0
    {
      last := 0;
    }

    /** updateMsgIdSequence: continue after the last id of the persisted context. */
    method UpdateMsgIdSequence(lastPacketId: int)
      modifies this
      ensures last == lastPacketId
    {
      last := lastPacketId;
    }

    /** nextMsgId: advance the counter and hand out the new id. */
    method NextMsgId() returns (id: int)
      modifies this
      ensures id == NextId(old(last)) && last == id
    {
      id := NextId(last);
      last := id;
    }
  }
}

/**
 * Building one delivery round from a polled batch: every polled record becomes a PUBLISH
 * message whose packet id is the one recorded for its offset (then marked duplicate) or the
 * next id of the session sequence; the PUBLISH messages, by offset, are followed by the
 * carried-over PUBREL messages, by offset.
 */
module RoundBuild {
  import opened Wrappers
  import opened Messages
  import opened PacketIds
  import opened Ordering

  /** ProtoConverter.convertToPublishMsg followed by the builder's packetId and isDup. */
  function ToPublishMsg(proto: PublishProto, packetId: int, isDup: bool): PublishMsg {
    PublishMsg(proto.topic, proto.qos, proto.payload, packetId, isDup)
  }

  /** How many records of a batch have no packet id recorded for their offset. */
  function FreshCount(msgs: seq<LogMsg>, stored: map<int, int>): nat {
    if msgs == [] then 0
    else (if msgs[0].offset in stored then 0 else 1) + FreshCount(msgs[1..], stored)
  }

  /**
   * The mapping stage of round building, in poll order: the PUBLISH messages and the last id
   * of the session sequence afterwards. `stored` is the persisted offset-to-packet-id map.
   */
  function AssignPacketIds(msgs: seq<LogMsg>, stored: map<int, int>, last: int): (r: (seq<PersistedMsg>, int))
    ensures |r.0| == |msgs|
  {
    if msgs == [] then ([], last)
    else
      var m := msgs[0];
      var reused := m.offset in stored;
      var id := if reused then stored[m.offset] else NextId(last);
      var rest := AssignPacketIds(msgs[1..], stored, if reused then last else id);
      ([PersistedPublish(ToPublishMsg(m.value, id, reused), m.offset)] + rest.0, rest.1)
  }

  /** Building from position i on: record i's message is followed by the messages built from i + 1 on. */
  lemma AssignPacketIdsFrom(msgs: seq<LogMsg>, stored: map<int, int>, last: int, i: nat)
    requires i < |msgs|
    ensures var reused := msgs[i].offset in stored;
      var id := if reused then stored[msgs[i].offset] else NextId(last);
      var rest := AssignPacketIds(msgs[i + 1..], stored, if reused then last else id);
      AssignPacketIds(msgs[i..], stored, last)
        == ([PersistedPublish(ToPublishMsg(msgs[i].value, id, reused), msgs[i].offset)] + rest.0, rest.1)
  {
    assert msgs[i..][1..] == msgs[i + 1..];
  }

  lemma {:induction false} FreshCountAppend(a: seq<LogMsg>, b: seq<LogMsg>, stored: map<int, int>)
    ensures FreshCount(a + b, stored) == FreshCount(a, stored) + FreshCount(b, stored)
  {
    if a == [] {
      assert a + b == b;
    } else {
      assert (a + b)[0] == a[0];
      assert (a + b)[1..] == a[1..] + b;
      FreshCountAppend(a[1..], b, stored);
    }
  }

  /**
   * The i-th PUBLISH message of a round: it carries the i-th record's offset and content;
   * its packet id is the recorded one when the offset has one, and then exactly then it is
   * a duplicate; otherwise it is the id drawn after the fresh records before it.
   */
  lemma {:induction false} AssignPacketIdsAt(msgs: seq<LogMsg>, stored: map<int, int>, last: int, i: nat)
    requires i < |msgs|
    ensures var m := AssignPacketIds(msgs, stored, last).0[i];
      && m.PersistedPublish?
      && m.packetOffset == msgs[i].offset
      && m.publishMsg.topic == msgs[i].value.topic
      && m.publishMsg.qos == msgs[i].value.qos
      && m.publishMsg.payload == msgs[i].value.payload
      && (m.publishMsg.isDup <==> msgs[i].offset in stored)
      && m.publishMsg.packetId == (if msgs[i].offset in stored then stored[msgs[i].offset]
                                   else IdAfter(last, FreshCount(msgs[..i], stored) + 1))
    decreases i
  {
    if i > 0 {
      var reused := msgs[0].offset in stored;
      var last' := if reused then last else NextId(last);
      AssignPacketIdsAt(msgs[1..], stored, last', i - 1);
      assert msgs[..i] == [msgs[0]] + msgs[1..][..i - 1];
      assert msgs[..i][1..] == msgs[1..][..i - 1];
      if !reused {
        IdAfterShift(last, FreshCount(msgs[1..][..i - 1], stored) + 1);
      }
    }
  }

  /** After the batch the sequence has advanced by exactly one id per fresh record. */
  lemma {:induction false} AssignPacketIdsLastId(msgs: seq<LogMsg>, stored: map<int, int>, last: int)
    ensures AssignPacketIds(msgs, stored, last).1 == IdAfter(last, FreshCount(msgs, stored))
  {
    if msgs != [] {
      var reused := msgs[0].offset in stored;
      AssignPacketIdsLastId(msgs[1..], stored, if reused then last else NextId(last));
      if !reused {
        IdAfterShift(last, FreshCount(msgs[1..], stored));
      }
    }
  }

  /** Two fresh records of one batch never share an id unless the batch wraps the 16-bit space. */
  lemma FreshPacketIdsDistinct(msgs: seq<LogMsg>, stored: map<int, int>, last: int, i: nat, j: nat)
    requires i < j < |msgs|
    requires msgs[i].offset !in stored && msgs[j].offset !in stored
    requires FreshCount(msgs, stored) <= MaxPacketId
    ensures AssignPacketIds(msgs, stored, last).0[i].PacketId() != AssignPacketIds(msgs, stored, last).0[j].PacketId()
  {
    AssignPacketIdsAt(msgs, stored, last, i);
    AssignPacketIdsAt(msgs, stored, last, j);
    FreshCountGrows(msgs, stored, i, j);
    FreshIdsDistinct(last, FreshCount(msgs[..i], stored) + 1, FreshCount(msgs[..j], stored) + 1);
  }

  /** A fresh record at i counts among the fresh records before a later one at j, and that one among all. */
  lemma FreshCountGrows(msgs: seq<LogMsg>, stored: map<int, int>, i: nat, j: nat)
    requires i < j < |msgs|
    requires msgs[i].offset !in stored && msgs[j].offset !in stored
    ensures FreshCount(msgs[..i], stored) < FreshCount(msgs[..j], stored) < FreshCount(msgs, stored)
  {
    assert msgs[..j] == msgs[..i] + msgs[i..j];
    FreshCountAppend(msgs[..i], msgs[i..j], stored);
    assert msgs[i..j] == [msgs[i]] + msgs[i + 1..j];
    assert msgs == msgs[..j] + msgs[j..];
    FreshCountAppend(msgs[..j], msgs[j..], stored);
    assert msgs[j..] == [msgs[j]] + msgs[j + 1..];
  }

  /**
   * Replaying a batch whose offsets all have recorded ids (a retry after reconnect) draws
   * no id and gives every message its recorded id, marked duplicate.
   */
  lemma {:induction false} ReplayIsStable(msgs: seq<LogMsg>, stored: map<int, int>, last: int)
    requires forall i :: 0 <= i < |msgs| ==> msgs[i].offset in stored
    ensures AssignPacketIds(msgs, stored, last).1 == last
    ensures forall i :: 0 <= i < |msgs| ==>
      && AssignPacketIds(msgs, stored, last).0[i].PersistedPublish?
      && AssignPacketIds(msgs, stored, last).0[i].PacketId() == stored[msgs[i].offset]
      && AssignPacketIds(msgs, stored, last).0[i].publishMsg.isDup
  {
    if msgs != [] {
      ReplayIsStable(msgs[1..], stored, last);
      forall i | 0 <= i < |msgs|
        ensures AssignPacketIds(msgs, stored, last).0[i].PersistedPublish?
        ensures AssignPacketIds(msgs, stored, last).0[i].PacketId() == stored[msgs[i].offset]
        ensures AssignPacketIds(msgs, stored, last).0[i].publishMsg.isDup
      {
        if i > 0 {
          assert msgs[1..][i - 1] == msgs[i];
        }
      }
    }
  }

  /** The list handed to submitStrategy.init: PUBLISH messages by offset, then PUBREL messages by offset. */
  function RoundMessages(publishes: seq<PersistedMsg>, pubRels: seq<PersistedMsg>): (r: seq<PersistedMsg>)
    ensures |r| == |publishes| + |pubRels|
  {
    SortByOffset(publishes) + SortByOffset(pubRels)
  }

  /**
   * The round list holds exactly the given PUBLISH and PUBREL messages, all PUBLISH messages
   * first, each part in non-decreasing offset.
   */
  lemma RoundMessagesLayout(publishes: seq<PersistedMsg>, pubRels: seq<PersistedMsg>)
    requires forall m :: m in publishes ==> m.PersistedPublish?
    requires forall m :: m in pubRels ==> m.PersistedPubRel?
    ensures var r := RoundMessages(publishes, pubRels);
      && |r| == |publishes| + |pubRels|
      && multiset(r) == multiset(publishes) + multiset(pubRels)
      && multiset(r[..|publishes|]) == multiset(publishes)
      && multiset(r[|publishes|..]) == multiset(pubRels)
      && SortedByOffset(r[..|publishes|])
      && SortedByOffset(r[|publishes|..])
      && (forall i :: 0 <= i < |publishes| ==> r[i].PersistedPublish?)
      && (forall i :: |publishes| <= i < |r| ==> r[i].PersistedPubRel?)
  {
    var a, b := SortByOffset(publishes), SortByOffset(pubRels);
    SortByOffsetCorrect(publishes);
    SortByOffsetCorrect(pubRels);
    var r := a + b;
    assert r[..|publishes|] == a;
    assert r[|publishes|..] == b;
    forall i | 0 <= i < |publishes|
      ensures r[i].PersistedPublish?
    {
      assert a[i] in multiset(a);
    }
    forall i | |publishes| <= i < |r|
      ensures r[i].PersistedPubRel?
    {
      assert b[i - |publishes|] in multiset(b);
    }
  }

  /** s lists the PUBREL obligations of `ids` (offset to packet id), each exactly once. */
  predicate EnumeratesPubRels(s: seq<PersistedMsg>, ids: map<int, int>) {
    && |s| == |ids|
    && (forall i :: 0 <= i < |s| ==>
          s[i].PersistedPubRel? && s[i].packetOffset in ids && s[i].relPacketId == ids[s[i].packetOffset])
    && (forall i, j :: 0 <= i < j < |s| ==> s[i].packetOffset != s[j].packetOffset)
    && (forall offset :: offset in ids ==> PersistedPubRel(ids[offset], offset) in s)
  }

  /**
   * The PUBREL messages built from the persisted context's entry set, one per entry, in the
   * map's (unspecified) iteration order.
   */
  method PubRelMessages(ids: map<int, int>) returns (s: seq<PersistedMsg>)
    ensures EnumeratesPubRels(s, ids)
  {
    s := [];
    var rest, done := ids.Keys, {};
    while rest != {}
      invariant rest == ids.Keys - done && done <= ids.Keys
      invariant |s| == |done|
      invariant forall i :: 0 <= i < |s| ==>
        s[i].PersistedPubRel? && s[i].packetOffset in done && s[i].relPacketId == ids[s[i].packetOffset]
      invariant forall i, j :: 0 <= i < j < |s| ==> s[i].packetOffset != s[j].packetOffset
      invariant forall offset :: offset in done ==> PersistedPubRel(ids[offset], offset) in s
      decreases |rest|
    {
      // the guard says rest != {}; this dead branch lets the verifier see it has an element to pick
      if forall k :: k !in rest {
        assert false;
      }
      var key :| key in rest;
      s := s + [PersistedPubRel(ids[key], key)];
      rest, done := rest - {key}, done + {key};
    }
    assert done == ids.Keys;
  }
}

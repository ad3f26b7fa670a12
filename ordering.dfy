/**
 * Ordering of round messages by log offset, the `sorted(Comparator.comparingLong(...getPacketOffset))`
 * stage of round building. Java's sort of an ordered stream is stable; so is this insertion sort.
 */
module Ordering {
  import opened Messages

  predicate SortedByOffset(s: seq<PersistedMsg>) {
    forall i, j :: 0 <= i < j < |s| ==> s[i].packetOffset <= s[j].packetOffset
  }

  /** Insert m before the first element whose offset is not smaller than m's. */
  function InsertByOffset(m: PersistedMsg, s: seq<PersistedMsg>): (r: seq<PersistedMsg>)
    ensures |r| == |s| + 1
  {
    if s == [] then [m]
    else if m.packetOffset <= s[0].packetOffset then [m] + s
    else [s[0]] + InsertByOffset(m, s[1..])
  }

  function SortByOffset(s: seq<PersistedMsg>): (r: seq<PersistedMsg>)
    ensures |r| == |s|
  {
    if s == [] then [] else InsertByOffset(s[0], SortByOffset(s[1..]))
  }

  /** Inserting into an ordered list keeps it ordered; the new head is m or the old head. */
  lemma {:induction false} InsertByOffsetSorted(m: PersistedMsg, s: seq<PersistedMsg>)
    requires SortedByOffset(s)
    ensures SortedByOffset(InsertByOffset(m, s))
    ensures InsertByOffset(m, s)[0] == m || (s != [] && InsertByOffset(m, s)[0] == s[0])
  {
    if s != [] && s[0].packetOffset < m.packetOffset {
      var t := InsertByOffset(m, s[1..]);
      assert SortedByOffset(s[1..]);
      InsertByOffsetSorted(m, s[1..]);
      assert s[0].packetOffset <= t[0].packetOffset;
      assert InsertByOffset(m, s) == [s[0]] + t;
    }
  }

  /** Inserting adds exactly m. */
  lemma {:induction false} InsertByOffsetAdds(m: PersistedMsg, s: seq<PersistedMsg>)
    ensures multiset(InsertByOffset(m, s)) == multiset(s) + multiset{m}
  {
    if s != [] && s[0].packetOffset < m.packetOffset {
      InsertByOffsetAdds(m, s[1..]);
      assert s == [s[0]] + s[1..];
    }
  }

  /** The sorted list is ordered by offset and holds exactly the messages it was given. */
  lemma {:induction false} SortByOffsetCorrect(s: seq<PersistedMsg>)
    ensures SortedByOffset(SortByOffset(s))
    ensures multiset(SortByOffset(s)) == multiset(s)
  {
    if s != [] {
      SortByOffsetCorrect(s[1..]);
      InsertByOffsetSorted(s[0], SortByOffset(s[1..]));
      InsertByOffsetAdds(s[0], SortByOffset(s[1..]));
      assert s == [s[0]] + s[1..];
    }
  }

  /** Messages already in offset order (a poll returns the log in order) keep their order. */
  lemma {:induction false} SortByOffsetKeepsSorted(s: seq<PersistedMsg>)
    requires SortedByOffset(s)
    ensures SortByOffset(s) == s
  {
    if s != [] {
      assert SortedByOffset(s[1..]);
      SortByOffsetKeepsSorted(s[1..]);
      assert s == [s[0]] + s[1..];
    }
  }

  /** The messages of s with offset k, in their order in s. */
  function WithOffset(s: seq<PersistedMsg>, k: int): (r: seq<PersistedMsg>)
    ensures forall m :: m in r <==> m in s && m.packetOffset == k
  {
    if s == [] then []
    else OwnOffset(s[0], k) + WithOffset(s[1..], k)
  }

  /** One step of WithOffset on a list with a given first element. */
  lemma WithOffsetCons(x: PersistedMsg, t: seq<PersistedMsg>, k: int)
    ensures WithOffset([x] + t, k) == OwnOffset(x, k) + WithOffset(t, k)
  {
    assert ([x] + t)[0] == x;
    assert ([x] + t)[1..] == t;
  }

  /** The messages of one offset, as a list of at most one element. */
  function OwnOffset(m: PersistedMsg, k: int): (r: seq<PersistedMsg>)
    ensures r == [] || r == [m]
  {
    if m.packetOffset == k then [m] else []
  }

  /** Two lists of which one is empty commute in front of a third. */
  lemma SwapFront(x: seq<PersistedMsg>, y: seq<PersistedMsg>, w: seq<PersistedMsg>)
    requires x == [] || y == []
    ensures x + (y + w) == y + (x + w)
  {
    if x == [] {
      assert x + (y + w) == y + w == y + (x + w);
    } else {
      assert x + (y + w) == x + w == y + (x + w);
    }
  }

  /** Inserting m adds it in front of every element of its own offset, and moves nothing else. */
  lemma {:induction false} InsertByOffsetWithOffset(m: PersistedMsg, s: seq<PersistedMsg>, k: int)
    ensures WithOffset(InsertByOffset(m, s), k) == OwnOffset(m, k) + WithOffset(s, k)
  {
    if s == [] {
      WithOffsetCons(m, [], k);
    } else if m.packetOffset <= s[0].packetOffset {
      WithOffsetCons(m, s, k);
    } else {
      var t := InsertByOffset(m, s[1..]);
      var w := WithOffset(s[1..], k);
      InsertByOffsetWithOffset(m, s[1..], k);
      WithOffsetCons(s[0], t, k);
      assert InsertByOffset(m, s) == [s[0]] + t;
      assert WithOffset(InsertByOffset(m, s), k) == OwnOffset(s[0], k) + (OwnOffset(m, k) + w);
      SwapFront(OwnOffset(s[0], k), OwnOffset(m, k), w);
      assert WithOffset(s, k) == OwnOffset(s[0], k) + w;
    }
  }

  /**
   * The sort is stable: the messages of any one offset come out in the order they went in,
   * as with Java's sort of an ordered stream.
   */
  lemma {:induction false} SortByOffsetStable(s: seq<PersistedMsg>, k: int)
    ensures WithOffset(SortByOffset(s), k) == WithOffset(s, k)
  {
    if s != [] {
      SortByOffsetStable(s[1..], k);
      InsertByOffsetWithOffset(s[0], SortByOffset(s[1..]), k);
    }
  }
}

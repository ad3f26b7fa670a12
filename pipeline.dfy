/**
 * One run of processPersistedMessages as a state machine over values. The outer
 * "while connected: poll" loop and the inner "while connected: deliver, await, decide" loop
 * become three steps, each taken when its phase is current:
 *   Polling    --PollNext-->    Polling | Delivering | Stopped
 *   Delivering --DeliverNext--> Awaiting | Polling
 *   Awaiting   --DecideNext-->  Polling | Delivering
 * Each isClientConnected call is a boolean argument, the poll outcome and the ack
 * strategy's decision are arguments too.
 */
module Pipeline {
  import opened Wrappers
  import opened Messages
  import opened PacketIds
  import opened Ordering
  import opened RoundBuild

  datatype Phase = Polling | Delivering | Awaiting | Stopped

  /** The log consumer: committed offset, offset of the last record polled, closed. */
  datatype ConsumerState = ConsumerState(committed: Option<int>, lastPolled: Option<int>, closed: bool)

  /** What consumer.poll gave: a (possibly empty) batch, or an exception. */
  datatype PollResult = Polled(msgs: seq<LogMsg>) | PollFailed

  /** The ack strategy's decision: commit, or re-deliver the messages of `reprocess` (keyed by packet id). */
  datatype Decision = Decision(commit: bool, reprocess: map<int, PersistedMsg>)

  /**
   * The run's state: its phase, the consumer, the last id of the session sequence, the
   * PUBREL messages waiting to enter a round (persistedPubRelMessages), isFirstMsgCommitted
   * and the submit strategy's pending list.
   */
  datatype RunState = RunState(
    phase: Phase,
    consumer: ConsumerState,
    lastId: int,
    pubRels: seq<PersistedMsg>,
    firstCommitted: bool,
    pending: seq<PersistedMsg>)

  /** What one step did: the new state and the packets it handed to the delivery service. */
  datatype Step = Step(state: RunState, sent: seq<Packet>)

  /**
   * The committed offset once processing has started: a consumer group without a committed
   * offset is moved to the end of the log, an existing committed offset is kept.
   */
  function StartCommitted(committed: Option<int>, endOffset: int): (r: Option<int>)
    ensures r.Some?
    ensures committed.Some? ==> r == committed
    ensures committed.None? ==> r.value == endOffset
  {
    if committed.None? then Some(endOffset) else committed
  }

  /** The consumer after a poll: it remembers the last record read. */
  function AfterPoll(c: ConsumerState, msgs: seq<LogMsg>): ConsumerState {
    if msgs == [] then c else c.(lastPolled := Some(msgs[|msgs| - 1].offset))
  }

  /** consumer.commit(): commit the position after the last record read. */
  function CommitAll(c: ConsumerState): (r: ConsumerState)
    ensures r.lastPolled == c.lastPolled && r.closed == c.closed
    ensures c.lastPolled.Some? ==> r.committed == Some(c.lastPolled.value + 1)
    ensures c.lastPolled.None? ==> r == c
  {
    if c.lastPolled.Some? then c.(committed := Some(c.lastPolled.value + 1)) else c
  }

  /** Round building: ids assigned, the merged list handed to init, the carry-over emptied. */
  function BuildRound(s: RunState, msgs: seq<LogMsg>, stored: map<int, int>): RunState {
    var built := AssignPacketIds(msgs, stored, s.lastId);
    s.(lastId := built.1, pending := RoundMessages(built.0, s.pubRels), pubRels := [], phase := Delivering)
  }

  /** Leaving the round loop: consumer.commit() when the session is (again) seen connected. */
  function LeaveRounds(s: RunState, commitConnected: bool): (r: RunState)
    ensures r.phase == Polling
    ensures !commitConnected ==> r == s.(phase := Polling)
    ensures commitConnected ==> r.consumer == CommitAll(s.consumer)
    ensures r.consumer.committed != s.consumer.committed ==>
      commitConnected && s.consumer.lastPolled.Some? && r.consumer.committed == Some(s.consumer.lastPolled.value + 1)
    ensures r.consumer.lastPolled == s.consumer.lastPolled && r.consumer.closed == s.consumer.closed
    ensures r.pending == s.pending && r.pubRels == s.pubRels && r.lastId == s.lastId && r.firstCommitted == s.firstCommitted
  {
    s.(consumer := if commitConnected then CommitAll(s.consumer) else s.consumer, phase := Polling)
  }

  /**
   * One iteration of the outer loop, as the source is written: a disconnected session stops
   * the run and closes the consumer; a failed poll, or an empty poll with no PUBREL waiting,
   * changes nothing. Before anything is committed, get(0) takes the first record of the
   * batch: on an empty batch with PUBREL messages waiting it throws, and the catch block
   * only backs off, so that step too changes nothing. Otherwise the first record ever read
   * is committed and a round is built.
   */
  function PollNext(s: RunState, connected: bool, poll: PollResult, stored: map<int, int>): (r: RunState)
    requires s.phase == Polling
    ensures !connected ==> r == s.(phase := Stopped, consumer := s.consumer.(closed := true))
    ensures connected && (poll.PollFailed? || (poll.msgs == [] && (s.pubRels == [] || !s.firstCommitted))) ==> r == s
    ensures connected && poll.Polled? && (poll.msgs != [] || (s.pubRels != [] && s.firstCommitted)) ==> r.phase == Delivering
    ensures connected && poll.Polled? && poll.msgs != [] && !s.firstCommitted ==>
      r.firstCommitted && r.consumer.committed == Some(poll.msgs[0].offset)
    ensures connected && poll.Polled? ==>
      && r.consumer.lastPolled == (if poll.msgs == [] then s.consumer.lastPolled else Some(poll.msgs[|poll.msgs| - 1].offset))
      && r.consumer.closed == s.consumer.closed
    ensures s.firstCommitted ==> r.firstCommitted && r.consumer.committed == s.consumer.committed
    ensures r.consumer.committed != s.consumer.committed ==>
      && !s.firstCommitted && r.firstCommitted && poll.Polled? && poll.msgs != []
      && r.consumer.committed == Some(poll.msgs[0].offset)
    ensures r.phase == Delivering ==>
      && poll.Polled? && r.pubRels == []
      && r.pending == RoundMessages(AssignPacketIds(poll.msgs, stored, s.lastId).0, s.pubRels)
      && r.lastId == IdAfter(s.lastId, FreshCount(poll.msgs, stored))
    ensures r.phase != Delivering ==> r.lastId == s.lastId && r.pubRels == s.pubRels && r.pending == s.pending
  {
    AssignPacketIdsLastId(if poll.Polled? then poll.msgs else [], stored, s.lastId);
    if !connected then s.(phase := Stopped, consumer := s.consumer.(closed := true))
    else match poll
      case PollFailed => s
      case Polled(msgs) =>
        var s1 := s.(consumer := AfterPoll(s.consumer, msgs));
        if msgs == [] && s.pubRels == [] then s1
        else if !s.firstCommitted && msgs == [] then s1
        else
          var s2 := if !s.firstCommitted
                    then s1.(consumer := s1.consumer.(committed := Some(msgs[0].offset)), firstCommitted := true)
                    else s1;
          BuildRound(s2, msgs, stored)
  }

  /**
   * One iteration of the outer loop as evidently intended (see the findings): the
   * first-message commit is skipped for a batch that has no record, so an empty poll with
   * PUBREL messages waiting builds a round of them whether or not anything was committed.
   */
  function PollNextFixed(s: RunState, connected: bool, poll: PollResult, stored: map<int, int>): (r: RunState)
    requires s.phase == Polling
    ensures !connected ==> r == s.(phase := Stopped, consumer := s.consumer.(closed := true))
    ensures connected && (poll.PollFailed? || (poll.msgs == [] && s.pubRels == [])) ==> r == s
    ensures connected && poll.Polled? && (poll.msgs != [] || s.pubRels != []) ==> r.phase == Delivering
    ensures connected && poll.Polled? && poll.msgs != [] && !s.firstCommitted ==>
      r.firstCommitted && r.consumer.committed == Some(poll.msgs[0].offset)
    ensures connected && poll.Polled? ==>
      && r.consumer.lastPolled == (if poll.msgs == [] then s.consumer.lastPolled else Some(poll.msgs[|poll.msgs| - 1].offset))
      && r.consumer.closed == s.consumer.closed
    ensures s.firstCommitted ==> r.firstCommitted && r.consumer.committed == s.consumer.committed
    ensures r.consumer.committed != s.consumer.committed ==>
      && !s.firstCommitted && r.firstCommitted && poll.Polled? && poll.msgs != []
      && r.consumer.committed == Some(poll.msgs[0].offset)
    ensures r.phase == Delivering ==>
      && poll.Polled? && r.pubRels == []
      && r.pending == RoundMessages(AssignPacketIds(poll.msgs, stored, s.lastId).0, s.pubRels)
      && r.lastId == IdAfter(s.lastId, FreshCount(poll.msgs, stored))
    ensures r.phase != Delivering ==> r.lastId == s.lastId && r.pubRels == s.pubRels && r.pending == s.pending
  {
    AssignPacketIdsLastId(if poll.Polled? then poll.msgs else [], stored, s.lastId);
    if !connected then s.(phase := Stopped, consumer := s.consumer.(closed := true))
    else match poll
      case PollFailed => s
      case Polled(msgs) =>
        var s1 := s.(consumer := AfterPoll(s.consumer, msgs));
        if msgs == [] && s.pubRels == [] then s1
        else
          var s2 := if !s.firstCommitted && msgs != []
                    then s1.(consumer := s1.consumer.(committed := Some(msgs[0].offset)), firstCommitted := true)
                    else s1;
          BuildRound(s2, msgs, stored)
  }

  /** The two steps differ only where get(0) throws: an empty poll, PUBRELs waiting, nothing committed. */
  lemma PollNextFixedDiffers(s: RunState, connected: bool, poll: PollResult, stored: map<int, int>)
    requires s.phase == Polling
    ensures PollNext(s, connected, poll, stored) != PollNextFixed(s, connected, poll, stored)
        <==> connected && poll == Polled([]) && s.pubRels != [] && !s.firstCommitted
  {
  }

  /**
   * The outer loop stops exactly when isClientConnected fails: the interrupt flag was set,
   * the client has moved to another session, or its session is not CONNECTED.
   */
  lemma PollStopsIffDisconnected(s: RunState, sessionId: SessionId, probe: ClientProbe, poll: PollResult, stored: map<int, int>)
    requires s.phase == Polling
    ensures PollNext(s, IsClientConnected(sessionId, probe), poll, stored).phase == Stopped
        <==> probe.interrupted || probe.currentSessionId != sessionId || probe.currentState != Connected
  {
  }

  /** The packets the delivery callback sends for the round list, one per message, in list order. */
  function Deliveries(msgs: seq<PersistedMsg>): (r: seq<Packet>)
    ensures |r| == |msgs|
    ensures forall i :: 0 <= i < |msgs| ==> r[i] == Delivery(msgs[i])
  {
    if msgs == [] then [] else [Delivery(msgs[0])] + Deliveries(msgs[1..])
  }

  /**
   * The top of the inner loop: while connected, every pending message is delivered once,
   * in order, and the round awaits its acknowledgements; otherwise the loop is left, and
   * consumer.commit() runs if the re-check after the loop sees the session connected.
   */
  function DeliverNext(s: RunState, loopConnected: bool, commitConnected: bool): (r: Step)
    requires s.phase == Delivering
    ensures loopConnected ==> r.state == s.(phase := Awaiting)
    ensures loopConnected ==> |r.sent| == |s.pending|
                              && forall i :: 0 <= i < |s.pending| ==> r.sent[i] == Delivery(s.pending[i])
    ensures !loopConnected ==> r.sent == [] && r.state.phase == Polling && r.state.pending == s.pending
    ensures r.state.consumer.committed != s.consumer.committed ==> !loopConnected && commitConnected
    ensures !loopConnected && commitConnected ==> r.state.consumer == CommitAll(s.consumer)
    ensures !(!loopConnected && commitConnected) ==> r.state.consumer == s.consumer
    ensures r.state.firstCommitted == s.firstCommitted && r.state.pubRels == s.pubRels && r.state.lastId == s.lastId
  {
    if loopConnected then Step(s.(phase := Awaiting), Deliveries(s.pending))
    else Step(LeaveRounds(s, commitConnected), [])
  }

  /**
   * submitStrategy.update: keep, in their order, the pending messages whose packet id the
   * decision asks to re-deliver.
   */
  function Retained(pending: seq<PersistedMsg>, ids: set<int>): (r: seq<PersistedMsg>)
    ensures |r| <= |pending|
    ensures forall m :: m in r <==> m in pending && m.PacketId() in ids
  {
    if pending == [] then []
    else Kept(pending[0], ids) + Retained(pending[1..], ids)
  }

  /** m itself if its packet id is among ids, nothing otherwise. */
  function Kept(m: PersistedMsg, ids: set<int>): seq<PersistedMsg> {
    if m.PacketId() in ids then [m] else []
  }

  /** Concatenation is associative. */
  lemma AppendAssoc(x: seq<PersistedMsg>, y: seq<PersistedMsg>, z: seq<PersistedMsg>)
    ensures x + (y + z) == (x + y) + z
  {
  }

  /** The head and tail of a concatenation with a non-empty front. */
  lemma AppendTail(a: seq<PersistedMsg>, b: seq<PersistedMsg>)
    requires a != []
    ensures (a + b)[0] == a[0] && (a + b)[1..] == a[1..] + b
  {
  }

  /** Narrowing distributes over the two parts of a round list. */
  lemma {:induction false} RetainedAppend(a: seq<PersistedMsg>, b: seq<PersistedMsg>, ids: set<int>)
    ensures Retained(a + b, ids) == Retained(a, ids) + Retained(b, ids)
  {
    if a == [] {
      assert a + b == b;
    } else {
      RetainedAppend(a[1..], b, ids);
      AppendTail(a, b);
      AppendAssoc(Kept(a[0], ids), Retained(a[1..], ids), Retained(b, ids));
    }
  }

  /** Narrowing keeps offset order. */
  lemma {:induction false} RetainedKeepsSorted(a: seq<PersistedMsg>, ids: set<int>)
    requires SortedByOffset(a)
    ensures SortedByOffset(Retained(a, ids))
  {
    if a != [] {
      assert SortedByOffset(a[1..]);
      RetainedKeepsSorted(a[1..], ids);
      var t := Retained(a[1..], ids);
      forall j | 0 <= j < |t|
        ensures a[0].packetOffset <= t[j].packetOffset
      {
        assert t[j] in a[1..];
        var i :| 0 <= i < |a[1..]| && a[1..][i] == t[j];
        assert a[i + 1] == t[j];
      }
    }
  }

  /**
   * A re-delivered round keeps the layout of the first: its PUBLISH messages, then its
   * PUBREL messages, each part in offset order.
   */
  lemma RetryRoundKeepsLayout(publishes: seq<PersistedMsg>, pubRels: seq<PersistedMsg>, ids: set<int>)
    ensures var p, q := Retained(SortByOffset(publishes), ids), Retained(SortByOffset(pubRels), ids);
      && Retained(RoundMessages(publishes, pubRels), ids) == p + q
      && SortedByOffset(p) && SortedByOffset(q)
  {
    RetainedAppend(SortByOffset(publishes), SortByOffset(pubRels), ids);
    SortByOffsetCorrect(publishes);
    SortByOffsetCorrect(pubRels);
    RetainedKeepsSorted(SortByOffset(publishes), ids);
    RetainedKeepsSorted(SortByOffset(pubRels), ids);
  }

  /**
   * After the await: a commit decision leaves the round loop (consumer.commit() if the
   * session is still connected); any other decision narrows the next round to exactly the
   * decision's messages, with their packet ids, without polling again and without a commit.
   */
  function DecideNext(s: RunState, d: Decision, commitConnected: bool): (r: RunState)
    requires s.phase == Awaiting
    ensures d.commit ==> r.phase == Polling && r.pending == s.pending
    ensures d.commit && commitConnected ==> r.consumer == CommitAll(s.consumer)
    ensures !commitConnected ==> r.consumer == s.consumer
    ensures !d.commit ==> r.phase == Delivering && r.consumer == s.consumer
    ensures !d.commit ==> forall m :: m in r.pending <==> m in s.pending && m.PacketId() in d.reprocess
    ensures r.firstCommitted == s.firstCommitted && r.pubRels == s.pubRels && r.lastId == s.lastId
  {
    if d.commit then LeaveRounds(s, commitConnected)
    else s.(pending := Retained(s.pending, d.reprocess.Keys), phase := Delivering)
  }

  /**
   * A connected poll of a non-empty batch, a connected delivery and a commit decision seen
   * connected commit everything up to and including the batch's last record.
   */
  lemma CommittedRoundCommitsBatch(s: RunState, msgs: seq<LogMsg>, stored: map<int, int>, d: Decision)
    requires s.phase == Polling && msgs != [] && d.commit
    ensures var polled := PollNext(s, true, Polled(msgs), stored);
      && polled.phase == Delivering
      && var delivered := DeliverNext(polled, true, true);
      && delivered.sent == Deliveries(polled.pending)
      && DecideNext(delivered.state, d, true).consumer.committed == Some(msgs[|msgs| - 1].offset + 1)
  {
  }

  /**
   * When the session looks disconnected at the top of the round loop but connected at the
   * re-check after it (an interrupt that the first check has cleared), the polled batch is
   * committed although none of its messages was sent.
   */
  lemma UndeliveredBatchCommitted(s: RunState, msgs: seq<LogMsg>, stored: map<int, int>)
    requires s.phase == Polling && msgs != []
    ensures var polled := PollNext(s, true, Polled(msgs), stored);
      && polled.phase == Delivering
      && var left := DeliverNext(polled, false, true);
      && left.sent == []
      && left.state.phase == Polling
      && left.state.consumer.committed == Some(msgs[|msgs| - 1].offset + 1)
  {
  }

  /** What the environment does next: a poll, the top of a round, or the ack strategy's verdict. */
  datatype RunEvent =
    | PollEvent(connected: bool, result: PollResult)
    | DeliverEvent(loopConnected: bool, commitConnected: bool)
    | DecideEvent(decision: Decision, commitConnected: bool)

  /** One step; an event that does not belong to the current phase is not a step of the loop. */
  function Apply(s: RunState, e: RunEvent, stored: map<int, int>): Step {
    match e
    case PollEvent(c, p) => if s.phase == Polling then Step(PollNext(s, c, p, stored), []) else Step(s, [])
    case DeliverEvent(l, c) => if s.phase == Delivering then DeliverNext(s, l, c) else Step(s, [])
    case DecideEvent(d, c) => if s.phase == Awaiting then Step(DecideNext(s, d, c), []) else Step(s, [])
  }

  /** A run over a sequence of events: the final state and every packet sent. */
  function Run(s: RunState, evs: seq<RunEvent>, stored: map<int, int>): Step
    decreases |evs|
  {
    if evs == [] then Step(s, [])
    else
      var first := Apply(s, evs[0], stored);
      var rest := Run(first.state, evs[1..], stored);
      Step(rest.state, first.sent + rest.sent)
  }

  /** The number of steps of a run that commit the first message (flip isFirstMsgCommitted). */
  function FirstMsgCommits(s: RunState, evs: seq<RunEvent>, stored: map<int, int>): nat
    decreases |evs|
  {
    if evs == [] then 0
    else
      var next := Apply(s, evs[0], stored).state;
      (if !s.firstCommitted && next.firstCommitted then 1 else 0) + FirstMsgCommits(next, evs[1..], stored)
  }

  /** The number of rounds of a run whose list handed to init holds carried-over PUBREL messages. */
  function CarriedPubRelInits(s: RunState, evs: seq<RunEvent>, stored: map<int, int>): nat
    decreases |evs|
  {
    if evs == [] then 0
    else
      var next := Apply(s, evs[0], stored).state;
      (if s.phase == Polling && next.phase == Delivering && s.pubRels != [] then 1 else 0)
        + CarriedPubRelInits(next, evs[1..], stored)
  }

  /** A stopped run does nothing more: no commit, no id, no delivery. */
  lemma {:induction false} StoppedIsFinal(s: RunState, evs: seq<RunEvent>, stored: map<int, int>)
    requires s.phase == Stopped
    ensures Run(s, evs, stored) == Step(s, [])
    decreases |evs|
  {
    if evs != [] {
      StoppedIsFinal(s, evs[1..], stored);
    }
  }

  /** The first message is committed at most once per run, and not at all once it has been. */
  lemma {:induction false} FirstMsgCommittedOnce(s: RunState, evs: seq<RunEvent>, stored: map<int, int>)
    ensures FirstMsgCommits(s, evs, stored) <= if s.firstCommitted then 0 else 1
    decreases |evs|
  {
    if evs != [] {
      var next := Apply(s, evs[0], stored).state;
      FirstMsgCommittedOnce(next, evs[1..], stored);
      assert s.firstCommitted ==> next.firstCommitted;
    }
  }

  /**
   * The PUBREL messages carried into a run enter the list handed to init in at most one
   * round: the first round built empties the carry-over and no step of the loop refills it.
   */
  lemma {:induction false} CarriedPubRelsInitOnce(s: RunState, evs: seq<RunEvent>, stored: map<int, int>)
    ensures CarriedPubRelInits(s, evs, stored) <= if s.pubRels == [] then 0 else 1
    decreases |evs|
  {
    if evs != [] {
      var next := Apply(s, evs[0], stored).state;
      CarriedPubRelsInitOnce(next, evs[1..], stored);
      assert s.pubRels == [] ==> next.pubRels == [];
      assert s.phase == Polling && next.phase == Delivering ==> next.pubRels == [];
    }
  }

  /** n connected polls of an empty batch. */
  function EmptyPolls(s: RunState, n: nat, stored: map<int, int>): RunState
    requires s.phase == Polling
    decreases n
  {
    if n == 0 then s
    else
      var next := PollNext(s, true, Polled([]), stored);
      if next.phase == Polling then EmptyPolls(next, n - 1, stored) else next
  }

  /**
   * As written: a run that starts with PUBREL obligations and finds no new record in its
   * log never builds a round, however often it polls, so the PUBRELs are never sent.
   */
  lemma {:induction false} PubRelsStuckAsWritten(s: RunState, n: nat, stored: map<int, int>)
    requires s.phase == Polling && !s.firstCommitted && s.pubRels != []
    ensures EmptyPolls(s, n, stored) == s
    decreases n
  {
    if n > 0 {
      PubRelsStuckAsWritten(s, n - 1, stored);
    }
  }

  /**
   * Once the first message is committed, an empty connected poll with PUBREL messages
   * waiting builds a round of just those messages.
   */
  lemma EmptyPollBuildsPubRelRound(s: RunState, stored: map<int, int>)
    requires s.phase == Polling && s.pubRels != [] && s.firstCommitted
    ensures var r := PollNext(s, true, Polled([]), stored);
      r == s.(phase := Delivering, pending := SortByOffset(s.pubRels), pubRels := [])
  {
  }

  /** Corrected: an empty connected poll with PUBREL messages waiting always builds a round of them. */
  lemma EmptyPollBuildsPubRelRoundFixed(s: RunState, stored: map<int, int>)
    requires s.phase == Polling && s.pubRels != []
    ensures var r := PollNextFixed(s, true, Polled([]), stored);
      r == s.(phase := Delivering, pending := SortByOffset(s.pubRels), pubRels := [])
  {
  }

  /**
   * Corrected: the first connected poll of a run with PUBREL messages carried over builds
   * a round of exactly those messages, and the next round delivery sends a PUBREL for each
   * without touching the consumer.
   */
  lemma PubRelsRedelivered(s: RunState, stored: map<int, int>, commitConnected: bool)
    requires s.phase == Polling && s.pubRels != []
    ensures var r := PollNextFixed(s, true, Polled([]), stored);
      && r.phase == Delivering
      && var d := DeliverNext(r, true, commitConnected);
      && d.sent == Deliveries(SortByOffset(s.pubRels))
      && (forall m :: m in s.pubRels ==> Delivery(m) in d.sent)
      && d.state.consumer == s.consumer
  {
    var sorted := SortByOffset(s.pubRels);
    EmptyPollBuildsPubRelRoundFixed(s, stored);
    var s1 := s.(phase := Delivering, pending := sorted, pubRels := []);
    var last := DeliverNext(s1, true, commitConnected);
    assert last == Step(s1.(phase := Awaiting), Deliveries(sorted));
    SortByOffsetCorrect(s.pubRels);
    forall m | m in s.pubRels
      ensures Delivery(m) in Deliveries(sorted)
    {
      assert m in multiset(sorted);
      var i :| 0 <= i < |sorted| && sorted[i] == m;
      assert Deliveries(sorted)[i] == Delivery(m);
    }
  }
}

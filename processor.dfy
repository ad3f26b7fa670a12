/**
 * ApplicationPersistenceProcessorImpl and the objects it drives: the registry of per-client
 * round contexts and processing tasks with its acknowledgement dispatch and lifecycle
 * operations, and one run of processPersistedMessages as an object whose three step methods
 * follow the state machine of module Pipeline.
 */
module PersistenceProcessor {
  import opened Wrappers
  import opened Messages
  import opened PacketIds
  import opened RoundBuild
  import opened Pipeline

  /** What a round context holds when it is handed to the context store. */
  datatype ContextView = ContextView(
    pendingPublish: map<int, PersistedMsg>,
    pendingPubRel: map<int, PersistedMsg>,
    recordedPubRels: seq<PersistedMsg>)

  /** A handle of a submitted processing task (a Future). */
  datatype TaskId = TaskId(n: nat)

  datatype DisconnectReasonType = OnError
  datatype DisconnectReason = DisconnectReason(kind: DisconnectReasonType, message: string)

  /** Calls into the collaborators other than the delivery service, in the order they are made. */
  datatype Call =
    | SaveContext(clientId: ClientId, context: Option<ContextView>)
    | ClearContext(clientId: ClientId)
    | DeleteConsumerGroupOf(clientId: ClientId)
    | CancelTask(clientId: ClientId, task: TaskId)
    | Disconnect(clientId: ClientId, sessionId: SessionId, reason: DisconnectReason)
    | ShutdownExecutor

  /** A collection with set semantics: adding a present message changes nothing. */
  function Recorded(msgs: seq<PersistedMsg>, m: PersistedMsg): seq<PersistedMsg> {
    if m in msgs then msgs else msgs + [m]
  }

  /** The PUBLISH messages of a round, by packet id (a later message with the same id wins). */
  function PublishPending(msgs: seq<PersistedMsg>): (r: map<int, PersistedMsg>)
    ensures forall id :: id in r ==> r[id] in msgs && r[id].PersistedPublish? && r[id].PacketId() == id
    ensures forall m :: m in msgs && m.PersistedPublish? ==> m.PacketId() in r
    decreases |msgs|
  {
    if msgs == [] then map[]
    else
      var m := msgs[|msgs| - 1];
      var rest := PublishPending(msgs[..|msgs| - 1]);
      assert msgs == msgs[..|msgs| - 1] + [m];
      if m.PersistedPublish? then rest[m.PacketId() := m] else rest
  }

  /** The PUBREL messages of a round, by packet id (a later message with the same id wins). */
  function PubRelPending(msgs: seq<PersistedMsg>): (r: map<int, PersistedMsg>)
    ensures forall id :: id in r ==> r[id] in msgs && r[id].PersistedPubRel? && r[id].PacketId() == id
    ensures forall m :: m in msgs && m.PersistedPubRel? ==> m.PacketId() in r
    decreases |msgs|
  {
    if msgs == [] then map[]
    else
      var m := msgs[|msgs| - 1];
      var rest := PubRelPending(msgs[..|msgs| - 1]);
      assert msgs == msgs[..|msgs| - 1] + [m];
      if m.PersistedPubRel? then rest[m.PacketId() := m] else rest
  }

  /** The delivery-service calls for a sequence of packets to one session. */
  function SentTo(session: SessionRef, packets: seq<Packet>): (r: seq<Sent>)
    ensures |r| == |packets|
    ensures forall i :: 0 <= i < |packets| ==> r[i] == Sent(session, packets[i])
  {
    if packets == [] then [] else [Sent(session, packets[0])] + SentTo(session, packets[1..])
  }

  /** persistedPubRelMessages: where the PUBREL obligations of the next round are collected. */
  class PubRelSink {
    var msgs: seq<PersistedMsg>

    constructor (msgs: seq<PersistedMsg>)
      ensures this.msgs == msgs
    {
      this.msgs := msgs;
    }

    method Add(m: PersistedMsg)
      modifies this
      ensures msgs == Recorded(old(msgs), m)
    {
      if m !in msgs {
        msgs := msgs + [m];
      }
    }
  }

  /**
   * ApplicationPackProcessingContext: the messages of one round still waiting for their
   * acknowledgement, and the collection PUBRECs record new PUBREL obligations in.
   */
  class PackContext {
    var pendingPublish: map<int, PersistedMsg>
    var pendingPubRel: map<int, PersistedMsg>
    const sink: PubRelSink

    constructor (pending: seq<PersistedMsg>, sink: PubRelSink)
      ensures pendingPublish == PublishPending(pending) && pendingPubRel == PubRelPending(pending)
      ensures this.sink == sink
    {
      pendingPublish := PublishPending(pending);
      pendingPubRel := PubRelPending(pending);
      this.sink := sink;
    }

    function View(): ContextView
      reads this, sink
    {
      ContextView(pendingPublish, pendingPubRel, sink.msgs)
    }

    /** PUBACK resolves the PUBLISH with that id; an unknown id is ignored. */
    method OnPubAck(packetId: int)
      modifies this
      ensures pendingPublish == old(pendingPublish) - {packetId}
      ensures pendingPubRel == old(pendingPubRel)
    {
      pendingPublish := pendingPublish - {packetId};
    }

    /** PUBREC resolves the PUBLISH with that id and records its PUBREL obligation. */
    method OnPubRec(packetId: int)
      modifies this, sink
      ensures pendingPublish == old(pendingPublish) - {packetId}
      ensures pendingPubRel == old(pendingPubRel)
      ensures packetId in old(pendingPublish) ==>
        sink.msgs == Recorded(old(sink.msgs), PersistedPubRel(packetId, old(pendingPublish)[packetId].packetOffset))
      ensures packetId !in old(pendingPublish) ==> sink.msgs == old(sink.msgs)
    {
      if packetId in pendingPublish {
        var m := pendingPublish[packetId];
        sink.Add(PersistedPubRel(packetId, m.packetOffset));
        pendingPublish := pendingPublish - {packetId};
      }
    }

    /** PUBCOMP resolves the PUBREL with that id; an unknown id is ignored. */
    method OnPubComp(packetId: int)
      modifies this
      ensures pendingPubRel == old(pendingPubRel) - {packetId}
      ensures pendingPublish == old(pendingPublish)
    {
      pendingPubRel := pendingPubRel - {packetId};
    }

    /** clear(): the committed round releases what it still tracks. */
    method Clear()
      modifies this
      ensures pendingPublish == map[] && pendingPubRel == map[]
    {
      pendingPublish, pendingPubRel := map[], map[];
    }
  }

  /** The views of all registered contexts, as a save would hand them to the store. */
  function ViewsOf(contexts: map<ClientId, PackContext>): map<ClientId, ContextView>
    reads set c | c in contexts :: contexts[c]
    reads set c | c in contexts :: contexts[c].sink
  {
    map c | c in contexts :: contexts[c].View()
  }

  /** The calls destroy() makes for the clients in the order it visits them. */
  function ShutdownCalls(order: seq<ClientId>, futures: map<ClientId, TaskId>, views: map<ClientId, ContextView>): seq<Call>
    requires forall c :: c in order ==> c in futures
    decreases |order|
  {
    if order == [] then []
    else
      var c := order[|order| - 1];
      ShutdownCalls(order[..|order| - 1], futures, views)
        + [CancelTask(c, futures[c]), SaveContext(c, if c in views then Some(views[c]) else None)]
  }

  /** Visiting one more client appends its cancel and its save to the shutdown calls. */
  lemma ShutdownCallsSnoc(order: seq<ClientId>, c: ClientId, futures: map<ClientId, TaskId>, views: map<ClientId, ContextView>)
    requires forall k :: k in order ==> k in futures
    requires c in futures
    ensures ShutdownCalls(order + [c], futures, views)
         == ShutdownCalls(order, futures, views) + [CancelTask(c, futures[c]), SaveContext(c, if c in views then Some(views[c]) else None)]
  {
    assert (order + [c])[..|order|] == order;
  }

  /**
   * How far destroy() has got: the clients visited so far, each once, have lost their round
   * contexts, and the calls made so far are their cancels and saves in visiting order.
   */
  ghost predicate ShutdownProgress(order: seq<ClientId>, rest: set<ClientId>, done: set<ClientId>, futures: map<ClientId, TaskId>,
                                   views: map<ClientId, ContextView>, contexts0: map<ClientId, PackContext>,
                                   contexts: map<ClientId, PackContext>, calls0: seq<Call>, calls: seq<Call>)
  {
    && (forall c :: c in order <==> c in done)
    && done <= futures.Keys && rest == futures.Keys - done
    && (forall i, j :: 0 <= i < j < |order| ==> order[i] != order[j])
    && contexts == contexts0 - done
    && calls == calls0 + ShutdownCalls(order, futures, views)
  }

  /** Before destroy() visits anyone, nothing is done and every registered client remains. */
  lemma ShutdownProgressStart(futures: map<ClientId, TaskId>, views: map<ClientId, ContextView>,
                              contexts: map<ClientId, PackContext>, calls: seq<Call>)
    ensures ShutdownProgress([], futures.Keys, {}, futures, views, contexts, contexts, calls, calls)
  {
    assert contexts - {} == contexts;
    assert calls + [] == calls;
  }

  /** Once no registered client remains, every one of them has been visited. */
  lemma ShutdownProgressDone(order: seq<ClientId>, rest: set<ClientId>, done: set<ClientId>, futures: map<ClientId, TaskId>,
                             views: map<ClientId, ContextView>, contexts0: map<ClientId, PackContext>,
                             contexts: map<ClientId, PackContext>, calls0: seq<Call>, calls: seq<Call>)
    requires ShutdownProgress(order, rest, done, futures, views, contexts0, contexts, calls0, calls)
    requires rest == {}
    ensures done == futures.Keys
  {
    assert forall c :: c in futures.Keys ==> c in rest || c in done;
  }

  /** Visiting one more registered client keeps the progress of destroy() accurate. */
  lemma ShutdownProgressStep(order: seq<ClientId>, rest: set<ClientId>, done: set<ClientId>, c: ClientId, futures: map<ClientId, TaskId>,
                             views: map<ClientId, ContextView>, contexts0: map<ClientId, PackContext>,
                             contexts: map<ClientId, PackContext>, calls0: seq<Call>, calls: seq<Call>)
    requires ShutdownProgress(order, rest, done, futures, views, contexts0, contexts, calls0, calls)
    requires c in rest
    ensures ShutdownProgress(order + [c], rest - {c}, done + {c}, futures, views, contexts0, contexts - {c}, calls0,
                             calls + [CancelTask(c, futures[c]), SaveContext(c, if c in views then Some(views[c]) else None)])
  {
    ShutdownCallsSnoc(order, c, futures, views);
    assert (contexts0 - done) - {c} == contexts0 - (done + {c});
  }

  /** The per-client log consumer (partition 0 of the client's topic). */
  class Consumer {
    var committed: Option<int>
    var lastPolled: Option<int>
    var closed: bool

    constructor (committed: Option<int>)
      ensures State() == ConsumerState(committed, None, false)
    {
      this.committed := committed;
      lastPolled := None;
      closed := false;
    }

    function State(): ConsumerState
      reads this
    {
      ConsumerState(committed, lastPolled, closed)
    }

    method Poll(msgs: seq<LogMsg>)
      modifies this
      ensures State() == AfterPoll(old(State()), msgs)
    {
      if msgs != [] {
        lastPolled := Some(msgs[|msgs| - 1].offset);
      }
    }

    /** commit(partition, offset) */
    method CommitAt(offset: int)
      modifies this
      ensures State() == old(State()).(committed := Some(offset))
    {
      committed := Some(offset);
    }

    /** commit(): everything read so far */
    method Commit()
      modifies this
      ensures State() == CommitAll(old(State()))
    {
      if lastPolled.Some? {
        committed := Some(lastPolled.value + 1);
      }
    }

    method UnsubscribeAndClose()
      modifies this
      ensures State() == old(State()).(closed := true)
    {
      closed := true;
    }
  }

  /**
   * The processor: processingContextMap, processingFutures, and the traces of its calls
   * into the delivery service (`sent`) and into its other collaborators (`calls`).
   */
  class Processor {
    var contexts: map<ClientId, PackContext>
    var futures: map<ClientId, TaskId>
    var nextTask: nat
    var sent: seq<Sent>
    var calls: seq<Call>

    constructor ()
      ensures contexts == map[] && futures == map[] && sent == [] && calls == []
    {
      contexts, futures, nextTask, sent, calls := map[], map[], 0, [], [];
    }

    /** processPubAck: route a PUBACK to the client's round context; without one, nothing happens. */
    method ProcessPubAck(clientId: ClientId, packetId: int)
      modifies if clientId in contexts then {contexts[clientId]} else {}
      ensures clientId in contexts ==>
        && contexts[clientId].pendingPublish == old(contexts[clientId].pendingPublish) - {packetId}
        && contexts[clientId].pendingPubRel == old(contexts[clientId].pendingPubRel)
    {
      if clientId in contexts {
        contexts[clientId].OnPubAck(packetId);
      }
    }

    /**
     * processPubRec: route a PUBREC to the client's round context; without one, send the
     * client exactly one PUBREL for that packet id so its QoS 2 exchange can complete.
     */
    method ProcessPubRec(session: SessionRef, packetId: int)
      modifies this
      modifies if session.clientId in contexts then {contexts[session.clientId], contexts[session.clientId].sink} else {}
      ensures contexts == old(contexts) && futures == old(futures) && calls == old(calls) && nextTask == old(nextTask)
      ensures session.clientId !in contexts ==> sent == old(sent) + [Sent(session, PubRelPacket(packetId))]
      ensures session.clientId in contexts ==>
        var ctx := contexts[session.clientId];
        && sent == old(sent)
        && ctx.pendingPublish == old(ctx.pendingPublish) - {packetId}
        && ctx.pendingPubRel == old(ctx.pendingPubRel)
        && ctx.sink.msgs == (if packetId in old(ctx.pendingPublish)
                             then Recorded(old(ctx.sink.msgs), PersistedPubRel(packetId, old(ctx.pendingPublish)[packetId].packetOffset))
                             else old(ctx.sink.msgs))
    {
      if session.clientId in contexts {
        contexts[session.clientId].OnPubRec(packetId);
      } else {
        sent := sent + [Sent(session, PubRelPacket(packetId))];
      }
    }

    /** processPubComp: route a PUBCOMP to the client's round context; without one, nothing happens. */
    method ProcessPubComp(clientId: ClientId, packetId: int)
      modifies if clientId in contexts then {contexts[clientId]} else {}
      ensures clientId in contexts ==>
        && contexts[clientId].pendingPubRel == old(contexts[clientId].pendingPubRel) - {packetId}
        && contexts[clientId].pendingPublish == old(contexts[clientId].pendingPublish)
    {
      if clientId in contexts {
        contexts[clientId].OnPubComp(packetId);
      }
    }

    /**
     * submitStrategy.process with the delivery callback: every message of the round goes to
     * the delivery service once, in the order of the round list, as a PUBLISH or a PUBREL.
     */
    method Deliver(session: SessionRef, msgs: seq<PersistedMsg>)
      modifies this
      ensures sent == old(sent) + SentTo(session, Deliveries(msgs))
      ensures contexts == old(contexts) && futures == old(futures) && calls == old(calls) && nextTask == old(nextTask)
    {
      var i := 0;
      while i < |msgs|
        invariant 0 <= i <= |msgs|
        invariant |sent| == |old(sent)| + i
        invariant sent[..|old(sent)|] == old(sent)
        invariant forall k :: 0 <= k < i ==> sent[|old(sent)| + k] == Sent(session, Delivery(msgs[k]))
        invariant contexts == old(contexts) && futures == old(futures) && calls == old(calls)
        invariant nextTask == old(nextTask)
      {
        sent := sent + [Sent(session, Delivery(msgs[i]))];
        i := i + 1;
      }
      assert sent == old(sent) + SentTo(session, Deliveries(msgs));
    }

    /** startProcessingPersistedMessages: submit the client's processing task and register it. */
    method StartProcessing(session: SessionRef) returns (task: TaskId)
      modifies this
      ensures task == TaskId(old(nextTask)) && nextTask == old(nextTask) + 1
      ensures futures == old(futures)[session.clientId := task]
      ensures contexts == old(contexts) && sent == old(sent) && calls == old(calls)
    {
      task := TaskId(nextTask);
      nextTask := nextTask + 1;
      futures := futures[session.clientId := task];
    }

    /** The task's catch block: a run that fails to start disconnects the session with a reason. */
    method FailStartup(session: SessionRef)
      modifies this
      ensures calls == old(calls) + [Disconnect(session.clientId, session.sessionId,
                                        DisconnectReason(OnError, "Failed to start processing persisted messages"))]
      ensures contexts == old(contexts) && futures == old(futures) && sent == old(sent) && nextTask == old(nextTask)
    {
      calls := calls + [Disconnect(session.clientId, session.sessionId,
                                   DisconnectReason(OnError, "Failed to start processing persisted messages"))];
    }

    /**
     * stopProcessingPersistedMessages: forget the client's task (cancelling it if there was
     * one) and its round context, and hand the removed context to the store.
     */
    method StopProcessing(clientId: ClientId)
      modifies this
      ensures futures == old(futures) - {clientId}
      ensures contexts == old(contexts) - {clientId}
      ensures calls == old(calls)
        + (if clientId in old(futures) then [CancelTask(clientId, old(futures)[clientId])] else [])
        + [SaveContext(clientId, if clientId in old(contexts) then Some(old(contexts[clientId].View())) else None)]
      ensures sent == old(sent) && nextTask == old(nextTask)
    {
      if clientId in futures {
        calls := calls + [CancelTask(clientId, futures[clientId])];
        futures := futures - {clientId};
      }
      var removed: Option<ContextView> := None;
      if clientId in contexts {
        removed := Some(contexts[clientId].View());
        contexts := contexts - {clientId};
      }
      calls := calls + [SaveContext(clientId, removed)];
    }

    /** clearPersistedMsgs: delete the client's consumer group, then clear its persisted context. */
    method ClearPersistedMsgs(clientId: ClientId)
      modifies this
      ensures calls == old(calls) + [DeleteConsumerGroupOf(clientId), ClearContext(clientId)]
      ensures contexts == old(contexts) && futures == old(futures) && sent == old(sent) && nextTask == old(nextTask)
    {
      calls := calls + [DeleteConsumerGroupOf(clientId), ClearContext(clientId)];
    }

    /** The body of destroy() for one client: cancel its task, remove its round context and save it. */
    method ShutdownClient(c: ClientId)
      requires c in futures
      modifies this
      ensures contexts == old(contexts) - {c}
      ensures calls == old(calls) + [CancelTask(c, old(futures)[c]),
                                     SaveContext(c, if c in old(contexts) then Some(old(contexts[c].View())) else None)]
      ensures futures == old(futures) && sent == old(sent) && nextTask == old(nextTask)
    {
      calls := calls + [CancelTask(c, futures[c])];
      var removed: Option<ContextView> := None;
      if c in contexts {
        removed := Some(contexts[c].View());
        contexts := contexts - {c};
      }
      calls := calls + [SaveContext(c, removed)];
    }

    /**
     * The loop of destroy(): for every registered task, in some order, cancel it, remove the
     * client's round context and save it (`views` are the contexts as they were at the start).
     */
    method ShutdownAll(ghost views: map<ClientId, ContextView>) returns (ghost order: seq<ClientId>)
      requires views == ViewsOf(contexts)
      modifies this
      ensures ShutdownProgress(order, {}, old(futures).Keys, old(futures), views, old(contexts), contexts, old(calls), calls)
      ensures futures == old(futures) && sent == old(sent) && nextTask == old(nextTask)
    {
      ghost var contexts0 := contexts;
      var rest, done := futures.Keys, {};
      order := [];
      ShutdownProgressStart(futures, views, contexts, calls);
      while rest != {}
        invariant ShutdownProgress(order, rest, done, futures, views, contexts0, contexts, old(calls), calls)
        invariant futures == old(futures) && sent == old(sent) && nextTask == old(nextTask)
        decreases |rest|
      {
        // the guard says rest != {}; this dead branch lets the verifier see it has an element to pick
        if forall k :: k !in rest {
          assert false;
        }
        var c :| c in rest;
        assert c in contexts ==> contexts[c] == contexts0[c] && unchanged(contexts0[c], contexts0[c].sink);
        assert (if c in views then Some(views[c]) else None)
            == if c in contexts then Some(contexts[c].View()) else None;
        ShutdownProgressStep(order, rest, done, c, futures, views, contexts0, contexts, old(calls), calls);
        ShutdownClient(c);
        order := order + [c];
        rest, done := rest - {c}, done + {c};
      }
      ShutdownProgressDone(order, rest, done, futures, views, contexts0, contexts, old(calls), calls);
    }

    /** destroy: shut every client down (see ShutdownAll), then shut the executor down. */
    method Destroy() returns (ghost order: seq<ClientId>)
      modifies this
      ensures forall c :: c in order <==> c in old(futures)
      ensures forall i, j :: 0 <= i < j < |order| ==> order[i] != order[j]
      ensures contexts == old(contexts) - old(futures).Keys
      ensures futures == old(futures) && sent == old(sent) && nextTask == old(nextTask)
      ensures calls == old(calls) + ShutdownCalls(order, old(futures), old(ViewsOf(contexts))) + [ShutdownExecutor]
    {
      order := ShutdownAll(ViewsOf(contexts));
      calls := calls + [ShutdownExecutor];
    }
  }

  /** One run of processPersistedMessages for one client session. */
  class PersistedMsgsRun {
    const processor: Processor
    const session: SessionRef
    const msgIdSeq: MsgIdSeq
    const consumer: Consumer
    const persistedMsgCtx: PersistedMsgCtx
    var phase: Phase
    var pubRels: PubRelSink
    var firstCommitted: bool
    var pending: seq<PersistedMsg>
    var ctx: PackContext?

    ghost predicate Valid()
      reads this
    {
      phase == Awaiting ==> ctx != null
    }

    /** The run's state as module Pipeline describes it. */
    function View(): RunState
      reads this, consumer, msgIdSeq, pubRels
    {
      RunState(phase, consumer.State(), msgIdSeq.last, pubRels.msgs, firstCommitted, pending)
    }

    /**
     * Start of processPersistedMessages: seed the session sequence from the loaded context,
     * open the consumer, move an uncommitted consumer group to the end of the log, and
     * collect the persisted PUBREL obligations.
     */
    constructor Start(processor: Processor, session: SessionRef, msgIdSeq: MsgIdSeq,
                      loaded: PersistedMsgCtx, committed: Option<int>, endOffset: int)
      modifies msgIdSeq
      ensures Valid()
      ensures this.processor == processor && this.session == session && this.msgIdSeq == msgIdSeq
      ensures persistedMsgCtx == loaded
      ensures fresh(consumer) && fresh(pubRels)
      ensures consumer.State() == ConsumerState(StartCommitted(committed, endOffset), None, false)
      ensures msgIdSeq.last == loaded.lastPacketId
      ensures EnumeratesPubRels(pubRels.msgs, loaded.pubRelMsgIds)
      ensures phase == Polling && !firstCommitted && pending == [] && ctx == null
    {
      msgIdSeq.UpdateMsgIdSequence(loaded.lastPacketId);
      var c := new Consumer(committed);
      if committed.None? {
        c.CommitAt(endOffset);
      }
      var rels := PubRelMessages(loaded.pubRelMsgIds);
      this.processor := processor;
      this.session := session;
      this.msgIdSeq := msgIdSeq;
      consumer := c;
      persistedMsgCtx := loaded;
      pubRels := new PubRelSink(rels);
      phase := Polling;
      firstCommitted := false;
      pending := [];
      ctx := null;
    }

    /** The mapping stage of round building, drawing fresh ids from the session sequence. */
    method BuildPublishes(msgs: seq<LogMsg>) returns (publishes: seq<PersistedMsg>)
      modifies msgIdSeq
      ensures (publishes, msgIdSeq.last) == AssignPacketIds(msgs, persistedMsgCtx.offsetToPacketId, old(msgIdSeq.last))
    {
      var stored := persistedMsgCtx.offsetToPacketId;
      ghost var goal := AssignPacketIds(msgs, stored, msgIdSeq.last);
      ghost var tail := goal;
      publishes := [];
      var i := 0;
      while i < |msgs|
        invariant 0 <= i <= |msgs|
        invariant tail == AssignPacketIds(msgs[i..], stored, msgIdSeq.last)
        invariant publishes + tail.0 == goal.0 && tail.1 == goal.1
      {
        AssignPacketIdsFrom(msgs, stored, msgIdSeq.last, i);
        var m := msgs[i];
        var msgPacketId := persistedMsgCtx.MsgPacketId(m.offset);
        var packetId: int;
        if msgPacketId.Some? {
          packetId := msgPacketId.value;
        } else {
          packetId := msgIdSeq.NextMsgId();
        }
        var isDup := msgPacketId.Some?;
        var built := PersistedPublish(ToPublishMsg(m.value, packetId, isDup), m.offset);
        ghost var next := AssignPacketIds(msgs[i + 1..], stored, msgIdSeq.last);
        assert tail == ([built] + next.0, next.1);
        assert publishes + [built] + next.0 == publishes + ([built] + next.0);
        publishes, tail := publishes + [built], next;
        i := i + 1;
      }
      assert tail == ([], msgIdSeq.last);
      assert publishes + [] == publishes;
    }

    /** One iteration of the outer loop (see Pipeline.PollNext). */
    method PollStep(probe: ClientProbe, poll: PollResult)
      requires Valid() && phase == Polling
      modifies this, consumer, msgIdSeq
      ensures Valid()
      ensures View() == PollNext(old(View()), IsClientConnected(session.sessionId, probe), poll, persistedMsgCtx.offsetToPacketId)
      ensures ctx == old(ctx)
      ensures pubRels == old(pubRels) || fresh(pubRels)
    {
      if !IsClientConnected(session.sessionId, probe) {
        consumer.UnsubscribeAndClose();
        phase := Stopped;
        return;
      }
      match poll
      case PollFailed =>
      case Polled(msgs) =>
        consumer.Poll(msgs);
        if msgs == [] && pubRels.msgs == [] {
          return;
        }
        if !firstCommitted {
          if msgs == [] {
            // get(0) on the empty batch throws; the catch block only backs off
            return;
          }
          consumer.CommitAt(msgs[0].offset);
          firstCommitted := true;
        }
        var publishes := BuildPublishes(msgs);
        pending := RoundMessages(publishes, pubRels.msgs);
        pubRels := new PubRelSink([]);
        phase := Delivering;
    }

    /** The top of the inner loop (see Pipeline.DeliverNext): register a new round context and deliver. */
    method DeliverStep(loopProbe: ClientProbe, commitProbe: ClientProbe)
      requires Valid() && phase == Delivering
      modifies this, consumer, processor
      ensures Valid()
      ensures var st := DeliverNext(old(View()), IsClientConnected(session.sessionId, loopProbe),
                                    IsClientConnected(session.sessionId, commitProbe));
        && View() == st.state
        && processor.sent == old(processor.sent) + SentTo(session, st.sent)
      ensures IsClientConnected(session.sessionId, loopProbe) ==>
        && fresh(ctx) && ctx.sink == pubRels
        && ctx.pendingPublish == PublishPending(old(pending))
        && ctx.pendingPubRel == PubRelPending(old(pending))
        && processor.contexts == old(processor.contexts)[session.clientId := ctx]
      ensures !IsClientConnected(session.sessionId, loopProbe) ==>
        ctx == old(ctx) && processor.contexts == old(processor.contexts)
      ensures processor.futures == old(processor.futures) && processor.calls == old(processor.calls)
      ensures processor.nextTask == old(processor.nextTask)
      ensures pubRels == old(pubRels)
    {
      if !IsClientConnected(session.sessionId, loopProbe) {
        if IsClientConnected(session.sessionId, commitProbe) {
          consumer.Commit();
        }
        phase := Polling;
        return;
      }
      var roundCtx := new PackContext(pending, pubRels);
      processor.contexts := processor.contexts[session.clientId := roundCtx];
      ctx := roundCtx;
      processor.Deliver(session, pending);
      phase := Awaiting;
    }

    /** After the await (see Pipeline.DecideNext): commit and leave the round loop, or narrow the round. */
    method DecideStep(decision: Decision, commitProbe: ClientProbe)
      requires Valid() && phase == Awaiting
      modifies this, consumer, ctx
      ensures Valid()
      ensures View() == DecideNext(old(View()), decision, IsClientConnected(session.sessionId, commitProbe))
      ensures ctx == old(ctx) && pubRels == old(pubRels)
      ensures decision.commit ==> ctx.pendingPublish == map[] && ctx.pendingPubRel == map[]
      ensures !decision.commit ==>
        ctx.pendingPublish == old(ctx.pendingPublish) && ctx.pendingPubRel == old(ctx.pendingPubRel)
    {
      if decision.commit {
        ctx.Clear();
        if IsClientConnected(session.sessionId, commitProbe) {
          consumer.Commit();
        }
        phase := Polling;
      } else {
        pending := Retained(pending, decision.reprocess.Keys);
        phase := Delivering;
      }
    }
  }
}

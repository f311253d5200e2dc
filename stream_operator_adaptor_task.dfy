/**
 * `StreamOperatorAdaptorTask` of samza-operator: the `StreamTask` that wraps
 * a user's operator task. `init` creates one input stream per assigned
 * partition, grouped by system stream, lets the user wire the operators,
 * replaces each system stream's input by the merge of its partitions'
 * streams, and builds one operator chain per partition; `process` routes an
 * envelope to the chain of its own partition.
 */
module StreamOperatorAdaptorTasks {
  import opened Common

  /** The user's task: which of the optional task interfaces it implements. */
  datatype UserTask = UserTask(name: string, initable: bool, windowable: bool)

  /**
   * A `MessageStream`: the input stream created for one partition, or the
   * merge of one stream with a list of others.
   */
  datatype MessageStream =
    | PartitionInput(systemStreamPartition: SystemStreamPartition)
    | Merged(base: MessageStream, others: seq<MessageStream>)

  /** The root of an operator chain, built from one input stream in one task context. */
  datatype OperatorChain = OperatorChain(input: MessageStream, context: TaskContext)

  /** The calls the adaptor makes into the user task, the stream builder and the chains. */
  datatype Event =
    | UserInit(config: Config, context: TaskContext)
    | InputStreamCreated(systemStreamPartition: SystemStreamPartition)
    | Transform
    | SwapInputStream(systemStream: SystemStream, input: MessageStream)
    | ChainOnNext(chain: OperatorChain, envelope: IncomingMessageEnvelope)
    | UserWindow

  /** The message streams keyed by partition, as built for one system stream. */
  type PartitionStreams = map<Partition, MessageStream>

  /** The system streams of a set of partitions. */
  function StreamsOf(ssps: set<SystemStreamPartition>): (r: set<SystemStream>)
    ensures forall ssp :: ssp in ssps ==> ssp.systemStream in r
  {
    set ssp | ssp in ssps :: ssp.systemStream
  }

  /** The partitions of one system stream within a set of partitions. */
  function PartitionsOf(ssps: set<SystemStreamPartition>, ss: SystemStream): (r: set<Partition>)
    ensures forall p :: p in r <==> SystemStreamPartition(ss, p) in ssps
  {
    set ssp | ssp in ssps && ssp.systemStream == ss :: ssp.partition
  }

  /** The input streams of a set of partitions, grouped by system stream and then by partition. */
  function GroupBySystemStream(ssps: set<SystemStreamPartition>): map<SystemStream, PartitionStreams>
  {
    map ss | ss in StreamsOf(ssps) ::
      map p | p in PartitionsOf(ssps, ss) :: PartitionInput(SystemStreamPartition(ss, p))
  }

  /**
   * One step of the grouping loop: the partition's stream goes into the
   * inner map of its system stream, which is created only when the system
   * stream has none yet.
   */
  function AddPartition(grouped: map<SystemStream, PartitionStreams>, ssp: SystemStreamPartition)
    : (r: map<SystemStream, PartitionStreams>)
    ensures r.Keys == grouped.Keys + {ssp.systemStream}
    ensures r[ssp.systemStream] ==
      (if ssp.systemStream in grouped then grouped[ssp.systemStream] else map[])[ssp.partition := PartitionInput(ssp)]
    ensures forall ss :: ss in grouped && ss != ssp.systemStream ==> r[ss] == grouped[ss]
  {
    var withInner := if ssp.systemStream !in grouped then grouped[ssp.systemStream := map[]] else grouped;
    withInner[ssp.systemStream := withInner[ssp.systemStream][ssp.partition := PartitionInput(ssp)]]
  }

  /** An existing inner map is never replaced: every entry already grouped survives a step. */
  lemma AddPartitionKeepsInnerMaps(grouped: map<SystemStream, PartitionStreams>, ssp: SystemStreamPartition,
                                   ss: SystemStream, p: Partition)
    requires ss in grouped && p in grouped[ss]
    requires grouped[ss][p] == PartitionInput(SystemStreamPartition(ss, p))
    ensures var r := AddPartition(grouped, ssp); ss in r && p in r[ss] && r[ss][p] == grouped[ss][p]
  {
  }

  lemma StreamsOfAdd(done: set<SystemStreamPartition>, ssp: SystemStreamPartition)
    ensures StreamsOf(done + {ssp}) == StreamsOf(done) + {ssp.systemStream}
  {
  }

  lemma PartitionsOfAdd(done: set<SystemStreamPartition>, ssp: SystemStreamPartition, ss: SystemStream)
    ensures PartitionsOf(done + {ssp}, ss)
      == if ss == ssp.systemStream then PartitionsOf(done, ss) + {ssp.partition} else PartitionsOf(done, ss)
  {
  }

  /** The inner map of a system stream after one more of its partitions is grouped. */
  lemma InnerMapAdd(done: set<SystemStreamPartition>, ssp: SystemStreamPartition)
    ensures var ss := ssp.systemStream;
      (map p | p in PartitionsOf(done + {ssp}, ss) :: PartitionInput(SystemStreamPartition(ss, p)))
      == (if ss in StreamsOf(done)
          then map p | p in PartitionsOf(done, ss) :: PartitionInput(SystemStreamPartition(ss, p))
          else map[])[ssp.partition := PartitionInput(ssp)]
  {
    var ss := ssp.systemStream;
    PartitionsOfAdd(done, ssp, ss);
    if ss !in StreamsOf(done) {
      assert PartitionsOf(done, ss) == {};
    }
  }

  /** Grouping one more partition is one more step of the loop. */
  lemma {:induction false} GroupByAddPartition(done: set<SystemStreamPartition>, ssp: SystemStreamPartition)
    ensures GroupBySystemStream(done + {ssp}) == AddPartition(GroupBySystemStream(done), ssp)
  {
    var g := GroupBySystemStream(done);
    var lhs := GroupBySystemStream(done + {ssp});
    var rhs := AddPartition(g, ssp);
    StreamsOfAdd(done, ssp);
    assert lhs.Keys == rhs.Keys;
    forall ss | ss in lhs.Keys
      ensures lhs[ss] == rhs[ss]
    {
      if ss == ssp.systemStream {
        InnerMapAdd(done, ssp);
      } else {
        PartitionsOfAdd(done, ssp, ss);
      }
    }
  }

  /** Every assigned partition has its own input stream under its system stream. */
  lemma GroupByCoversPartitions(ssps: set<SystemStreamPartition>, ssp: SystemStreamPartition)
    requires ssp in ssps
    ensures var g := GroupBySystemStream(ssps);
      ssp.systemStream in g && ssp.partition in g[ssp.systemStream]
      && g[ssp.systemStream][ssp.partition] == PartitionInput(ssp)
  {
  }

  /** The grouping has an entry for exactly the system streams of the partitions. */
  lemma GroupByKeys(ssps: set<SystemStreamPartition>)
    ensures GroupBySystemStream(ssps).Keys == StreamsOf(ssps)
  {
  }

  /** Every system stream of the grouping holds at least one partition's stream. */
  lemma GroupByInnerNonEmpty(ssps: set<SystemStreamPartition>, ss: SystemStream)
    requires ss in GroupBySystemStream(ssps)
    ensures |GroupBySystemStream(ssps)[ss]| > 0
  {
    var ssp :| ssp in ssps && ssp.systemStream == ss;
    assert ssp.partition in GroupBySystemStream(ssps)[ss];
  }

  /**
   * `merged` is what `merge` returns for a system stream whose partitions
   * have the input streams `streams`: the one stream itself when there is
   * only one, otherwise one of them merged with all the others, each once.
   */
  predicate IsMergeOf(merged: MessageStream, streams: set<MessageStream>)
  {
    streams == {merged}
    || (merged.Merged? && |merged.others| > 0 && Enumerates([merged.base] + merged.others, streams))
  }

  /** The chains `init` builds: one per partition, from that partition's own input stream. */
  function ChainsFor(ssps: set<SystemStreamPartition>, context: TaskContext): (r: map<SystemStreamPartition, OperatorChain>)
    ensures r.Keys == ssps
    ensures forall ssp :: ssp in r ==> r[ssp] == OperatorChain(PartitionInput(ssp), context)
  {
    map ssp | ssp in ssps :: OperatorChain(PartitionInput(ssp), context)
  }

  /** The input streams created for the partitions, in the order they were created. */
  function CreationEvents(order: seq<SystemStreamPartition>): (r: seq<Event>)
    ensures |r| == |order|
  {
    if order == [] then []
    else CreationEvents(order[..|order| - 1]) + [InputStreamCreated(order[|order| - 1])]
  }

  lemma CreationEventsAppend(order: seq<SystemStreamPartition>, ssp: SystemStreamPartition)
    ensures CreationEvents(order + [ssp]) == CreationEvents(order) + [InputStreamCreated(ssp)]
  {
    assert (order + [ssp])[..|order|] == order;
  }

  /** One creation call per partition, in order, and nothing else. */
  lemma {:induction false} CreationEventsAt(order: seq<SystemStreamPartition>, i: int)
    requires 0 <= i < |order|
    ensures CreationEvents(order)[i] == InputStreamCreated(order[i])
    decreases |order|
  {
    if i < |order| - 1 {
      CreationEventsAt(order[..|order| - 1], i);
    }
  }

  /** A system stream with a single partition gets that partition's own stream back, unmerged. */
  lemma MergeOfSingle(merged: MessageStream, stream: MessageStream)
    requires IsMergeOf(merged, {stream})
    ensures merged == stream
  {
    if merged.Merged? && merged != stream {
      EnumeratesSize([merged.base] + merged.others, {stream});
    }
  }

  /** With k > 1 partitions, one of their streams is merged with the other k - 1. */
  lemma MergeOfMany(merged: MessageStream, streams: set<MessageStream>)
    requires |streams| > 1 && IsMergeOf(merged, streams)
    ensures merged.Merged? && merged.base in streams && merged.base !in merged.others
    ensures |merged.others| == |streams| - 1
    ensures forall m :: m in streams <==> m == merged.base || m in merged.others
  {
    assert streams != {merged};
    var order := [merged.base] + merged.others;
    EnumeratesSize(order, streams);
    assert order[0] == merged.base;
    forall i | 0 <= i < |merged.others|
      ensures merged.others[i] != merged.base && merged.others[i] in streams
    {
      assert order[i + 1] == merged.others[i];
    }
    forall m | m in streams
      ensures m == merged.base || m in merged.others
    {
      var k :| 0 <= k < |order| && order[k] == m;
      if k > 0 {
        assert merged.others[k - 1] == m;
      }
    }
  }

  /**
   * `swaps` are the swap calls made for the system streams of `grouped`,
   * taken in `streamOrder`: each with the merge of that stream's partitions.
   */
  predicate SwapsFor(swaps: seq<Event>, streamOrder: seq<SystemStream>, grouped: map<SystemStream, PartitionStreams>)
  {
    |swaps| == |streamOrder|
    && forall i :: 0 <= i < |swaps| ==>
      swaps[i].SwapInputStream? && swaps[i].systemStream == streamOrder[i] && streamOrder[i] in grouped
      && IsMergeOf(swaps[i].input, grouped[streamOrder[i]].Values)
  }

  lemma SwapsForAppend(swaps: seq<Event>, streamOrder: seq<SystemStream>, grouped: map<SystemStream, PartitionStreams>,
                       ss: SystemStream, merged: MessageStream)
    requires SwapsFor(swaps, streamOrder, grouped)
    requires ss in grouped && IsMergeOf(merged, grouped[ss].Values)
    ensures SwapsFor(swaps + [SwapInputStream(ss, merged)], streamOrder + [ss], grouped)
  {
  }

  /**
   * `merge`: the first stream of the map, merged with the rest when there
   * are more, in the map's iteration order. The source calls it only on
   * non-empty maps: on an empty one `Iterator.next` would fail.
   */
  method Merge(ss: SystemStream, parMap: PartitionStreams) returns (merged: MessageStream)
    requires |parMap| > 0
    ensures IsMergeOf(merged, parMap.Values)
  {
    var remaining := parMap.Values;
    assert exists p :: p in parMap;
    var first :| first in remaining;
    remaining := remaining - {first};
    var moreInputs: seq<MessageStream> := [];
    while remaining != {}
      invariant first !in remaining && first !in moreInputs
      invariant NoDuplicates(moreInputs)
      invariant forall m :: m in remaining ==> m !in moreInputs
      invariant forall m :: m in parMap.Values <==> m == first || m in remaining || m in moreInputs
    {
      var m :| m in remaining;
      moreInputs := moreInputs + [m];
      remaining := remaining - {m};
    }
    merged := first;
    if |moreInputs| > 0 {
      merged := Merged(merged, moreInputs);
    } else {
      assert parMap.Values == {first};
    }
  }

  /**
   * The grouping loop of `init`: a new input stream for every partition,
   * filed under its system stream; `created` lists the creations in order.
   */
  method GroupInputs(ssps: set<SystemStreamPartition>)
    returns (inputBySystemStream: map<SystemStream, PartitionStreams>, created: seq<Event>,
             ghost partitionOrder: seq<SystemStreamPartition>)
    ensures Enumerates(partitionOrder, ssps)
    ensures inputBySystemStream == GroupBySystemStream(ssps)
    ensures created == CreationEvents(partitionOrder)
  {
    inputBySystemStream := map[];
    created := [];
    var todo := ssps;
    ghost var done: set<SystemStreamPartition> := {};
    partitionOrder := [];
    while todo != {}
      invariant done + todo == ssps && done !! todo
      invariant Enumerates(partitionOrder, done)
      invariant inputBySystemStream == GroupBySystemStream(done)
      invariant created == CreationEvents(partitionOrder)
    {
      var ssp :| ssp in todo;
      GroupByAddPartition(done, ssp);
      EnumeratesAppend(partitionOrder, done, ssp);
      inputBySystemStream := AddPartition(inputBySystemStream, ssp);
      CreationEventsAppend(partitionOrder, ssp);
      created := created + [InputStreamCreated(ssp)];
      partitionOrder := partitionOrder + [ssp];
      done := done + {ssp};
      todo := todo - {ssp};
    }
    assert done == ssps;
  }

  /** `StreamOperatorAdaptorTask`. */
  class StreamOperatorAdaptorTask {
    const userTask: UserTask
    var operatorChains: map<SystemStreamPartition, OperatorChain>
    var events: seq<Event>

    constructor (userTask: UserTask)
      ensures this.userTask == userTask
      ensures operatorChains == map[] && events == []
    {
      this.userTask := userTask;
      operatorChains := map[];
      events := [];
    }

    /**
     * `init`. The orders are those of the task's partition set and of the
     * grouping map, which the source leaves unspecified. `userInit` and
     * `transform` are how the user task's `init` and `transform` complete:
     * an exception from either ends `init` at once, before the swaps and
     * before any chain is built.
     */
    method Init(config: Config, context: TaskContext, userInit: Outcome, transform: Outcome)
      returns (outcome: Outcome, ghost partitionOrder: seq<SystemStreamPartition>,
               ghost streamOrder: seq<SystemStream>, ghost swaps: seq<Event>)
      modifies this
      ensures userTask.initable && userInit.Raised? ==>
        outcome == userInit && events == old(events) + [UserInit(config, context)]
        && operatorChains == old(operatorChains)
      ensures !userTask.initable || userInit.Done? ==>
        Enumerates(partitionOrder, context.systemStreamPartitions)
      ensures (!userTask.initable || userInit.Done?) && transform.Raised? ==>
        outcome == transform
        && events == old(events)
          + (if userTask.initable then [UserInit(config, context)] else [])
          + CreationEvents(partitionOrder)
          + [Transform]
        && operatorChains == old(operatorChains)
      ensures (!userTask.initable || userInit.Done?) && transform.Done? ==>
        outcome == Done
        && Enumerates(streamOrder, StreamsOf(context.systemStreamPartitions))
        && SwapsFor(swaps, streamOrder, GroupBySystemStream(context.systemStreamPartitions))
        && events == old(events)
          + (if userTask.initable then [UserInit(config, context)] else [])
          + CreationEvents(partitionOrder)
          + [Transform]
          + swaps
        && operatorChains == old(operatorChains) + ChainsFor(context.systemStreamPartitions, context)
    {
      partitionOrder, streamOrder, swaps := [], [], [];
      ghost var userInitCalls := if userTask.initable then [UserInit(config, context)] else [];
      if userTask.initable {
        events := events + [UserInit(config, context)];
        if userInit.Raised? {
          return userInit, partitionOrder, streamOrder, swaps;
        }
      } else {
        assert events == old(events) + userInitCalls;
      }
      ghost var afterUserInit := events;
      var ssps := context.systemStreamPartitions;
      var inputBySystemStream, created;
      inputBySystemStream, created, partitionOrder := GroupInputs(ssps);
      events := events + created;
      events := events + [Transform];
      ghost var afterTransform := events;
      assert afterTransform == afterUserInit + CreationEvents(partitionOrder) + [Transform];
      if transform.Raised? {
        return transform, partitionOrder, streamOrder, swaps;
      }
      GroupByKeys(ssps);
      forall ss | ss in inputBySystemStream
        ensures |inputBySystemStream[ss]| > 0
      {
        GroupByInnerNonEmpty(ssps, ss);
      }
      streamOrder, swaps := SwapInputs(inputBySystemStream);
      BuildChains(inputBySystemStream, context);
      outcome := Done;
    }

    /** The swap loop of `init`: each system stream's input replaced by the merge of its partitions' streams. */
    method SwapInputs(inputBySystemStream: map<SystemStream, PartitionStreams>)
      returns (ghost streamOrder: seq<SystemStream>, ghost swaps: seq<Event>)
      requires forall ss :: ss in inputBySystemStream ==> |inputBySystemStream[ss]| > 0
      modifies this
      ensures Enumerates(streamOrder, inputBySystemStream.Keys)
      ensures SwapsFor(swaps, streamOrder, inputBySystemStream)
      ensures events == old(events) + swaps
      ensures operatorChains == old(operatorChains)
    {
      var streamsLeft := inputBySystemStream.Keys;
      streamOrder := [];
      swaps := [];
      while streamsLeft != {}
        invariant streamsLeft <= inputBySystemStream.Keys
        invariant NoDuplicates(streamOrder)
        invariant forall i :: 0 <= i < |streamOrder| ==> streamOrder[i] !in streamsLeft
        invariant forall ss :: ss in inputBySystemStream.Keys ==> ss in streamsLeft || ss in streamOrder
        invariant SwapsFor(swaps, streamOrder, inputBySystemStream)
        invariant events == old(events) + swaps
        invariant operatorChains == old(operatorChains)
      {
        var ss :| ss in streamsLeft;
        var merged := Merge(ss, inputBySystemStream[ss]);
        AppendAssociative(old(events), swaps, [SwapInputStream(ss, merged)]);
        events := events + [SwapInputStream(ss, merged)];
        SwapsForAppend(swaps, streamOrder, inputBySystemStream, ss, merged);
        swaps := swaps + [SwapInputStream(ss, merged)];
        streamOrder := streamOrder + [ss];
        streamsLeft := streamsLeft - {ss};
      }
    }

    /** The chain loop of `init`: one chain per partition, rooted at that partition's own input stream. */
    method BuildChains(inputBySystemStream: map<SystemStream, PartitionStreams>, context: TaskContext)
      requires inputBySystemStream == GroupBySystemStream(context.systemStreamPartitions)
      modifies this
      ensures operatorChains == old(operatorChains) + ChainsFor(context.systemStreamPartitions, context)
      ensures events == old(events)
    {
      var chainsLeft := context.systemStreamPartitions;
      while chainsLeft != {}
        invariant chainsLeft <= context.systemStreamPartitions
        invariant forall ssp :: ssp in operatorChains <==>
          (ssp in old(operatorChains) || (ssp in context.systemStreamPartitions && ssp !in chainsLeft))
        invariant forall ssp :: ssp in operatorChains ==>
          operatorChains[ssp] == if ssp in context.systemStreamPartitions && ssp !in chainsLeft
            then OperatorChain(PartitionInput(ssp), context) else old(operatorChains)[ssp]
        invariant events == old(events)
      {
        var ssp :| ssp in chainsLeft;
        GroupByCoversPartitions(context.systemStreamPartitions, ssp);
        operatorChains := operatorChains[ssp := OperatorChain(inputBySystemStream[ssp.systemStream][ssp.partition], context)];
        chainsLeft := chainsLeft - {ssp};
      }
    }

    /**
     * `process`: the envelope goes to the chain of its own partition and to
     * no other. A partition without a chain makes the lookup `null`, and the
     * call on it a `NullPointerException`. `delivered` is how the chain's
     * `onNext` completes, which `process` passes on.
     */
    method Process(envelope: IncomingMessageEnvelope, delivered: Outcome) returns (outcome: Outcome)
      modifies this
      ensures operatorChains == old(operatorChains)
      ensures envelope.systemStreamPartition in operatorChains ==>
        outcome == delivered
        && events == old(events) + [ChainOnNext(operatorChains[envelope.systemStreamPartition], envelope)]
      ensures envelope.systemStreamPartition !in operatorChains ==>
        outcome == Raised(NullPointerException) && events == old(events)
    {
      if envelope.systemStreamPartition in operatorChains {
        events := events + [ChainOnNext(operatorChains[envelope.systemStreamPartition], envelope)];
        outcome := delivered;
      } else {
        outcome := Raised(NullPointerException);
      }
    }

    /**
     * `window`: passed on to the user task only when it is a `WindowableTask`;
     * `windowed` is how the user's `window` completes.
     */
    method Window(windowed: Outcome) returns (outcome: Outcome)
      modifies this
      ensures operatorChains == old(operatorChains)
      ensures events == old(events) + (if userTask.windowable then [UserWindow] else [])
      ensures outcome == if userTask.windowable then windowed else Done
    {
      if userTask.windowable {
        events := events + [UserWindow];
        outcome := windowed;
      } else {
        outcome := Done;
      }
    }
  }

  lemma EmptyUnion(chains: map<SystemStreamPartition, OperatorChain>)
    ensures map[] + chains == chains
  {
  }

  /**
   * After `init` on a new adaptor, the chains are keyed by exactly the
   * task's partitions, and a message of an assigned partition reaches the
   * chain built from that partition's stream.
   */
  method InitThenProcess(userTask: UserTask, config: Config, context: TaskContext, envelope: IncomingMessageEnvelope)
    returns (task: StreamOperatorAdaptorTask, outcome: Outcome)
    requires envelope.systemStreamPartition in context.systemStreamPartitions
    ensures task.operatorChains.Keys == context.systemStreamPartitions
    ensures outcome == Done && |task.events| > 0
    ensures task.events[|task.events| - 1]
      == ChainOnNext(OperatorChain(PartitionInput(envelope.systemStreamPartition), context), envelope)
  {
    task := new StreamOperatorAdaptorTask(userTask);
    var initialised;
    ghost var partitionOrder, streamOrder, swaps;
    initialised, partitionOrder, streamOrder, swaps := task.Init(config, context, Done, Done);
    EmptyUnion(ChainsFor(context.systemStreamPartitions, context));
    assert task.operatorChains == ChainsFor(context.systemStreamPartitions, context);
    outcome := task.Process(envelope, Done);
  }
}

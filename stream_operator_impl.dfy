/**
 * The runtime operator of a linear stream operator spec: on each message it
 * applies the spec's flat-map transform once and propagates every output,
 * in the order the transform returned them.
 */
module StreamOperatorImpls {
  import opened StreamOperatorSpecs

  /** The `StreamContext` an operator hands to its transform, known only by its identity. */
  datatype StreamContext = StreamContext(contextId: int)

  /** A flat-map transform with context: one input to a collection of outputs. */
  type FlatMapFn<!M, RM> = (M, StreamContext) -> seq<RM>

  /** What a transform emits for a run of messages, one call per message, in order. */
  function Emitted<M, RM>(fn: FlatMapFn<M, RM>, messages: seq<M>, context: StreamContext): seq<RM>
  {
    if messages == [] then []
    else Emitted(fn, messages[..|messages| - 1], context) + fn(messages[|messages| - 1], context)
  }

  /** Emitting two runs one after the other is emitting their concatenation. */
  lemma {:induction false} EmittedConcat<M, RM>(fn: FlatMapFn<M, RM>, first: seq<M>, second: seq<M>, context: StreamContext)
    ensures Emitted(fn, first + second, context) == Emitted(fn, first, context) + Emitted(fn, second, context)
    decreases |second|
  {
    if second == [] {
      assert first + second == first;
    } else {
      var last := second[|second| - 1];
      var init := second[..|second| - 1];
      assert (first + second)[..|first + second| - 1] == first + init;
      assert (first + second)[|first + second| - 1] == last;
      EmittedConcat(fn, first, init, context);
    }
  }

  /** Through the merge transform, a run of messages comes out exactly as it went in. */
  lemma {:induction false} MergeEmitsItsInput<M>(messages: seq<M>, context: StreamContext)
    ensures Emitted((m: M, c: StreamContext) => MergeTransform(m), messages, context) == messages
    decreases |messages|
  {
    if messages != [] {
      MergeEmitsItsInput(messages[..|messages| - 1], context);
      assert messages[..|messages| - 1] + [messages[|messages| - 1]] == messages;
    }
  }

  /**
   * `StreamOperatorImpl`. The transform is read from the spec once, when the
   * operator is built; `transformCalls` records each call of the transform
   * and `propagated` every result handed to `propagateResult`.
   */
  class StreamOperatorImpl<M, RM> {
    const transformFn: FlatMapFn<M, RM>
    const source: MessageStreamRef
    const context: StreamContext
    var transformCalls: seq<(M, StreamContext)>
    var propagated: seq<RM>

    constructor (spec: StreamOperatorSpec<FlatMapFn<M, RM>>, source: MessageStreamRef, opContext: StreamContext)
      ensures transformFn == spec.GetTransformFn()
      ensures this.source == source && context == opContext
      ensures transformCalls == [] && propagated == []
    {
      transformFn := spec.GetTransformFn();
      this.source := source;
      context := opContext;
      transformCalls := [];
      propagated := [];
    }

    /** `propagateResult`: hands one output to the operators downstream. */
    method PropagateResult(result: RM)
      modifies this
      ensures propagated == old(propagated) + [result]
      ensures transformCalls == old(transformCalls)
    {
      propagated := propagated + [result];
    }

    /**
     * `onNext`: one call of the transform with the message and this
     * operator's context, then every output propagated once, in order.
     */
    method OnNext(message: M)
      modifies this
      ensures transformCalls == old(transformCalls) + [(message, context)]
      ensures propagated == old(propagated) + transformFn(message, context)
    {
      var results := transformFn(message, context);
      transformCalls := transformCalls + [(message, context)];
      var i := 0;
      while i < |results|
        invariant 0 <= i <= |results|
        invariant transformCalls == old(transformCalls) + [(message, context)]
        invariant propagated == old(propagated) + results[..i]
      {
        PropagateResult(results[i]);
        assert results[..i + 1] == results[..i] + [results[i]];
        i := i + 1;
      }
      assert results[..i] == results;
    }
  }

  /**
   * Two messages through one operator: the transform sees both, in order,
   * and the operator propagates what the transform emits for that run.
   */
  method OnNextTwice<M, RM>(op: StreamOperatorImpl<M, RM>, first: M, second: M)
    requires op.transformCalls == [] && op.propagated == []
    modifies op
    ensures op.transformCalls == [(first, op.context), (second, op.context)]
    ensures op.propagated == Emitted(op.transformFn, [first, second], op.context)
  {
    op.OnNext(first);
    op.OnNext(second);
    assert [first, second][..1] == [first];
    assert [first][..0] == [];
    assert Emitted(op.transformFn, [first], op.context) == op.transformFn(first, op.context);
  }
}

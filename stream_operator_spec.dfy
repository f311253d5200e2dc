/**
 * The linear stream operator spec of samza-operator: an immutable record
 * of a flat-map transform, its output stream, and its `(opCode, opId)`
 * identity; `init` hands the configuration and the task context to the
 * transform's own `init`.
 */
module StreamOperatorSpecs {
  import opened Common
  import opened OperatorSpecs

  /** A `MessageStreamImpl` handle, known only by its identity. */
  datatype MessageStreamRef = MessageStreamRef(streamId: int)

  /**
   * One call of a user function's `init(config, context)`. `F` is the type
   * of the function, so the call records which function received it.
   */
  datatype FunctionInit<F> = FunctionInit(fn: F, config: Config, context: TaskContext)

  /**
   * `StreamOperatorSpec`. `F` is the type of its transform: in the model the
   * record holds whatever function it was built with and hands it back.
   */
  datatype StreamOperatorSpec<F> = StreamOperatorSpec(
    transformFn: F,
    outputStream: MessageStreamRef,
    opCode: OpCode,
    opId: int)
  {
    function GetTransformFn(): F
    {
      transformFn
    }

    function GetOutputStream(): MessageStreamRef
    {
      outputStream
    }

    function GetOpCode(): OpCode
    {
      opCode
    }

    function GetOpId(): int
    {
      opId
    }

    /**
     * `init(config, context)`: the calls it makes, in order. It calls the
     * transform's `init` once, with both arguments, and does nothing else.
     */
    function Init(config: Config, context: TaskContext): (calls: seq<FunctionInit<F>>)
      ensures |calls| == 1
      ensures calls[0].fn == transformFn && calls[0].config == config && calls[0].context == context
    {
      [FunctionInit(transformFn, config, context)]
    }
  }

  /** The transform of a merge operator: each message becomes a collection of itself alone. */
  function MergeTransform<M>(message: M): (r: seq<M>)
    ensures |r| == 1 && r[0] == message
  {
    [message]
  }

  /** Every getter returns what the record was built with; none of them can differ later. */
  lemma GettersReturnConstructorArguments<F>(fn: F, out: MessageStreamRef, code: OpCode, id: int)
    ensures var spec := StreamOperatorSpec(fn, out, code, id);
      spec.GetTransformFn() == fn && spec.GetOutputStream() == out
      && spec.GetOpCode() == code && spec.GetOpId() == id
  {
  }
}

/**
 * `StreamOperatorTask` of samza-core: the task that runs a stream
 * application's operator graph. `init` sets up the per-task context manager
 * and builds the operator graph and IO graph; `process` and `onWatermark`
 * go to the input operator of the message's system stream, `window` to
 * every input operator, and `close` shuts the context manager and then the
 * graph down.
 */
module StreamOperatorTasks {
  import opened Common

  /** A user's `ContextManager`, known by its identity. */
  datatype ContextManager = ContextManager(managerId: int)

  /** The `IOGraph` of a stream graph, known by its identity. */
  datatype IOGraph = IOGraph(graphId: int)

  /**
   * The parts of a `StreamGraphImpl` the task reads: the per-task context
   * manager (possibly `null`), its input streams and its IO graph.
   */
  datatype StreamGraph = StreamGraph(contextManagerPerTask: Option<ContextManager>,
                                     inputStreams: set<SystemStream>, ioGraph: IOGraph)

  /** A `StreamApplicationInternal`, which hands out its stream graph. */
  datatype StreamApplication = StreamApplication(streamGraph: StreamGraph)

  /** A `Clock`: the system clock, or one the caller supplies. */
  datatype Clock = SystemClock | CustomClock(clockId: int)

  /** An `InputOperatorImpl`: the entry of the operator graph for one system stream. */
  datatype InputOperator = InputOperator(systemStream: SystemStream, context: TaskContext)

  /** A `Watermark`, known by its timestamp. */
  datatype Watermark = Watermark(timestamp: int)

  /**
   * An `OperatorImplGraph`, built from a stream graph with a config, a task
   * context and a clock; it keys its input operators by system stream.
   */
  datatype OperatorImplGraph = OperatorImplGraph(streamGraph: StreamGraph, config: Config, context: TaskContext,
                                                 clock: Clock, inputOperators: map<SystemStream, InputOperator>)
  {
    /** `getInputOperator(systemStream)`: the input operator, or `null` for a stream the graph does not read. */
    function GetInputOperator(systemStream: SystemStream): (r: Option<InputOperator>)
      ensures r.Some? <==> systemStream in inputOperators
      ensures r.Some? ==> r.value == inputOperators[systemStream]
    {
      if systemStream in inputOperators then Some(inputOperators[systemStream]) else None
    }

    /** `getAllInputOperators()`. */
    function AllInputOperators(): set<InputOperator>
    {
      inputOperators.Values
    }
  }

  /**
   * The graph the operator-graph compiler builds: one input operator per
   * input stream of the stream graph. The compiler itself is not part of
   * this model.
   */
  function BuildOperatorImplGraph(streamGraph: StreamGraph, config: Config, context: TaskContext, clock: Clock)
    : (g: OperatorImplGraph)
    ensures g.inputOperators.Keys == streamGraph.inputStreams
    ensures forall ss :: ss in g.inputOperators ==> g.inputOperators[ss] == InputOperator(ss, context)
  {
    OperatorImplGraph(streamGraph, config, context, clock,
      map ss | ss in streamGraph.inputStreams :: InputOperator(ss, context))
  }

  /** The calls the task makes into the context manager, the input operators and the graph. */
  datatype Event =
    | ContextManagerInit(manager: ContextManager, config: Config, context: TaskContext)
    | OnMessage(operator: InputOperator, key: Payload, message: Payload)
    | OnTimer(operator: InputOperator)
    | OnWatermark(operator: InputOperator, watermark: Watermark)
    | ContextManagerClose(manager: ContextManager)
    | GraphClose(graph: OperatorImplGraph)

  /** The timer calls for the input operators taken in `order`. */
  function TimerEvents(order: seq<InputOperator>): (r: seq<Event>)
    ensures |r| == |order|
  {
    if order == [] then [] else TimerEvents(order[..|order| - 1]) + [OnTimer(order[|order| - 1])]
  }

  lemma TimerEventsAppend(order: seq<InputOperator>, op: InputOperator)
    ensures TimerEvents(order + [op]) == TimerEvents(order) + [OnTimer(op)]
  {
    assert (order + [op])[..|order|] == order;
  }

  /** Timer calls reach exactly the operators of the order, each as often as it occurs there. */
  lemma {:induction false} TimerEventsCount(order: seq<InputOperator>, op: InputOperator)
    ensures multiset(TimerEvents(order))[OnTimer(op)] == multiset(order)[op]
    decreases |order|
  {
    if order != [] {
      var init := order[..|order| - 1];
      TimerEventsCount(init, op);
      assert order == init + [order[|order| - 1]];
    }
  }

  /** The timer log holds nothing but timer calls, the i-th one on the i-th operator of the order. */
  lemma {:induction false} TimerEventsAreTimers(order: seq<InputOperator>)
    ensures forall i :: 0 <= i < |order| ==> TimerEvents(order)[i] == OnTimer(order[i])
    decreases |order|
  {
    if order != [] {
      var init := order[..|order| - 1];
      TimerEventsAreTimers(init);
      assert forall i :: 0 <= i < |init| ==> init[i] == order[i];
    }
  }

  /** When every input operator occurs once in the order, every one gets exactly one timer call. */
  lemma TimerEventsOncePerOperator(order: seq<InputOperator>, operators: set<InputOperator>, op: InputOperator)
    requires Enumerates(order, operators)
    ensures multiset(TimerEvents(order))[OnTimer(op)] == if op in operators then 1 else 0
  {
    TimerEventsCount(order, op);
    MultisetOfDistinct(order, op);
  }

  /** In a sequence without duplicates an element occurs once or not at all. */
  lemma {:induction false} MultisetOfDistinct<T>(s: seq<T>, x: T)
    requires NoDuplicates(s)
    ensures multiset(s)[x] == if x in s then 1 else 0
    decreases |s|
  {
    if s != [] {
      var init := s[..|s| - 1];
      assert s == init + [s[|s| - 1]];
      assert NoDuplicates(init);
      MultisetOfDistinct(init, x);
      if x == s[|s| - 1] {
        assert x !in init;
      }
    }
  }

  /**
   * The timer calls on `operators`, in an order the source leaves
   * unspecified. `raises` holds the operators whose `onTimer` throws, with
   * the exception: the first such call ends the iteration.
   */
  method TimerCalls(operators: set<InputOperator>, raises: map<InputOperator, Exception>)
    returns (outcome: Outcome, timers: seq<Event>, ghost order: seq<InputOperator>)
    ensures NoDuplicates(order) && forall i :: 0 <= i < |order| ==> order[i] in operators
    ensures timers == TimerEvents(order)
    ensures forall i :: 0 <= i < |order| - 1 ==> order[i] !in raises
    ensures outcome.Done? <==> operators !! raises.Keys
    ensures outcome.Done? ==> Enumerates(order, operators)
    ensures outcome.Raised? ==>
      |order| > 0 && order[|order| - 1] in raises && outcome.error == raises[order[|order| - 1]]
  {
    order := [];
    timers := [];
    var left := operators;
    while left != {}
      invariant left <= operators
      invariant NoDuplicates(order)
      invariant forall i :: 0 <= i < |order| ==> order[i] in operators && order[i] !in left && order[i] !in raises
      invariant forall op :: op in operators ==> op in left || op in order
      invariant timers == TimerEvents(order)
    {
      var op :| op in left;
      TimerEventsAppend(order, op);
      timers := timers + [OnTimer(op)];
      order := order + [op];
      left := left - {op};
      if op in raises {
        return Raised(raises[op]), timers, order;
      }
    }
    outcome := Done;
  }

  /** `StreamOperatorTask`. */
  class StreamOperatorTask {
    const streamApplication: StreamApplication
    const clock: Clock
    var operatorImplGraph: Option<OperatorImplGraph>
    var contextManager: Option<ContextManager>
    var ioGraph: Option<IOGraph>
    var events: seq<Event>

    /** `StreamOperatorTask(application, clock)`. */
    constructor WithClock(streamApplication: StreamApplication, clock: Clock)
      ensures this.streamApplication == streamApplication && this.clock == clock
      ensures operatorImplGraph.None? && contextManager.None? && ioGraph.None? && events == []
    {
      this.streamApplication := streamApplication;
      this.clock := clock;
      operatorImplGraph := None;
      contextManager := None;
      ioGraph := None;
      events := [];
    }

    /** `StreamOperatorTask(application)`: the system clock. */
    constructor (streamApplication: StreamApplication)
      ensures this.streamApplication == streamApplication && clock == SystemClock
      ensures operatorImplGraph.None? && contextManager.None? && ioGraph.None? && events == []
    {
      this.streamApplication := streamApplication;
      clock := SystemClock;
      operatorImplGraph := None;
      contextManager := None;
      ioGraph := None;
      events := [];
    }

    /**
     * `init`: the per-task context manager is initialised only when there
     * is one; the operator graph and the IO graph are built once each.
     * `managerInit` is how the context manager's `init` completes: when it
     * throws, the exception ends `init` before either graph is built.
     */
    method Init(config: Config, context: TaskContext, managerInit: Outcome) returns (outcome: Outcome)
      modifies this
      ensures contextManager == streamApplication.streamGraph.contextManagerPerTask
      ensures events == old(events) +
        match contextManager
        case Some(cm) => [ContextManagerInit(cm, config, context)]
        case None => []
      ensures contextManager.Some? && managerInit.Raised? ==>
        outcome == managerInit && operatorImplGraph == old(operatorImplGraph) && ioGraph == old(ioGraph)
      ensures contextManager.None? || managerInit.Done? ==>
        outcome == Done
        && operatorImplGraph == Some(BuildOperatorImplGraph(streamApplication.streamGraph, config, context, clock))
        && ioGraph == Some(streamApplication.streamGraph.ioGraph)
    {
      var streamGraph := streamApplication.streamGraph;
      contextManager := streamGraph.contextManagerPerTask;
      if contextManager.Some? {
        events := events + [ContextManagerInit(contextManager.value, config, context)];
        if managerInit.Raised? {
          return managerInit;
        }
      }
      operatorImplGraph := Some(BuildOperatorImplGraph(streamGraph, config, context, clock));
      ioGraph := Some(streamGraph.ioGraph);
      outcome := Done;
    }

    /**
     * `process`: the key and message go to the input operator of the
     * envelope's system stream; a stream without one drops the message.
     * Before `init` the graph is `null` and the call fails. `delivered` is
     * how the input operator's `onMessage` completes, which `process` passes on.
     */
    method Process(envelope: IncomingMessageEnvelope, delivered: Outcome) returns (outcome: Outcome)
      modifies this
      ensures operatorImplGraph == old(operatorImplGraph) && contextManager == old(contextManager)
      ensures ioGraph == old(ioGraph)
      ensures operatorImplGraph.None? ==> outcome == Raised(NullPointerException) && events == old(events)
      ensures operatorImplGraph.Some? ==>
        match operatorImplGraph.value.GetInputOperator(envelope.systemStreamPartition.systemStream)
        case Some(op) => outcome == delivered && events == old(events) + [OnMessage(op, envelope.key, envelope.message)]
        case None => outcome == Done && events == old(events)
    {
      if operatorImplGraph.None? {
        return Raised(NullPointerException);
      }
      var systemStream := envelope.systemStreamPartition.systemStream;
      var inputOpImpl := operatorImplGraph.value.GetInputOperator(systemStream);
      if inputOpImpl.Some? {
        events := events + [OnMessage(inputOpImpl.value, envelope.key, envelope.message)];
        outcome := delivered;
      } else {
        outcome := Done;
      }
    }

    /**
     * `window`: one timer call on every input operator, in the graph's
     * iteration order, which the source leaves unspecified, up to the first
     * operator in `raises`, whose exception `window` passes on.
     */
    method Window(raises: map<InputOperator, Exception>) returns (outcome: Outcome, ghost order: seq<InputOperator>)
      modifies this
      ensures operatorImplGraph == old(operatorImplGraph) && contextManager == old(contextManager)
      ensures ioGraph == old(ioGraph)
      ensures operatorImplGraph.None? ==> outcome == Raised(NullPointerException) && events == old(events)
      ensures operatorImplGraph.Some? ==>
        var operators := operatorImplGraph.value.AllInputOperators();
        NoDuplicates(order) && (forall i :: 0 <= i < |order| ==> order[i] in operators)
        && events == old(events) + TimerEvents(order)
        && (forall i :: 0 <= i < |order| - 1 ==> order[i] !in raises)
        && (outcome.Done? <==> operators !! raises.Keys)
        && (outcome.Done? ==> Enumerates(order, operators))
        && (outcome.Raised? ==> |order| > 0 && order[|order| - 1] in raises && outcome.error == raises[order[|order| - 1]])
    {
      order := [];
      if operatorImplGraph.None? {
        return Raised(NullPointerException), order;
      }
      var timers;
      outcome, timers, order := TimerCalls(operatorImplGraph.value.AllInputOperators(), raises);
      events := events + timers;
    }

    /** `getIOGraph`. */
    function GetIOGraph(): (r: Option<IOGraph>)
      reads this
      ensures r == ioGraph
    {
      ioGraph
    }

    /**
     * `onWatermark`: the watermark goes to the input operator of the given
     * stream only; a stream without one is ignored. `delivered` is how the
     * input operator's `onWatermark` completes.
     */
    method OnWatermarkFor(watermark: Watermark, systemStream: SystemStream, delivered: Outcome) returns (outcome: Outcome)
      modifies this
      ensures operatorImplGraph == old(operatorImplGraph) && contextManager == old(contextManager)
      ensures ioGraph == old(ioGraph)
      ensures operatorImplGraph.None? ==> outcome == Raised(NullPointerException) && events == old(events)
      ensures operatorImplGraph.Some? ==>
        match operatorImplGraph.value.GetInputOperator(systemStream)
        case Some(op) => outcome == delivered && events == old(events) + [OnWatermark(op, watermark)]
        case None => outcome == Done && events == old(events)
    {
      if operatorImplGraph.None? {
        return Raised(NullPointerException);
      }
      var inputOpImpl := operatorImplGraph.value.GetInputOperator(systemStream);
      if inputOpImpl.Some? {
        events := events + [OnWatermark(inputOpImpl.value, watermark)];
        outcome := delivered;
      } else {
        outcome := Done;
      }
    }

    /**
     * `close`: the context manager first, only when there is one, then the
     * operator graph (so before `init` the second step fails).
     * `managerClose` and `graphClose` are how the two `close` calls
     * complete; a throwing context manager ends `close` before the graph is
     * closed.
     */
    method Close(managerClose: Outcome, graphClose: Outcome) returns (outcome: Outcome)
      modifies this
      ensures operatorImplGraph == old(operatorImplGraph) && contextManager == old(contextManager)
      ensures ioGraph == old(ioGraph)
      ensures contextManager.Some? && managerClose.Raised? ==>
        outcome == managerClose && events == old(events) + [ContextManagerClose(contextManager.value)]
      ensures contextManager.None? || managerClose.Done? ==>
        events == old(events)
          + (match contextManager case Some(cm) => [ContextManagerClose(cm)] case None => [])
          + (match operatorImplGraph case Some(g) => [GraphClose(g)] case None => [])
        && outcome == if operatorImplGraph.Some? then graphClose else Raised(NullPointerException)
    {
      ghost var managerCalls: seq<Event> := if contextManager.Some? then [ContextManagerClose(contextManager.value)] else [];
      if contextManager.Some? {
        events := events + [ContextManagerClose(contextManager.value)];
        if managerClose.Raised? {
          return managerClose;
        }
      } else {
        assert events == old(events) + managerCalls;
      }
      if operatorImplGraph.None? {
        assert events == old(events) + managerCalls + [];
        return Raised(NullPointerException);
      }
      events := events + [GraphClose(operatorImplGraph.value)];
      outcome := graphClose;
    }
  }

  /**
   * A task's life: after `init`, `getIOGraph` returns the stream graph's IO
   * graph, a message of a stream the graph reads reaches that stream's input
   * operator, and `close` ends with the graph's own close.
   */
  method Lifecycle(app: StreamApplication, config: Config, context: TaskContext, envelope: IncomingMessageEnvelope)
    returns (task: StreamOperatorTask, processed: Outcome, closed: Outcome)
    requires envelope.systemStreamPartition.systemStream in app.streamGraph.inputStreams
    ensures task.GetIOGraph() == Some(app.streamGraph.ioGraph)
    ensures processed == Done && closed == Done
    ensures |task.events| >= 2
    ensures task.events[|task.events| - 2] == (match app.streamGraph.contextManagerPerTask
      case Some(cm) => ContextManagerClose(cm)
      case None => OnMessage(InputOperator(envelope.systemStreamPartition.systemStream, context), envelope.key, envelope.message))
    ensures task.events[|task.events| - 1]
      == GraphClose(BuildOperatorImplGraph(app.streamGraph, config, context, SystemClock))
  {
    task := new StreamOperatorTask(app);
    var initialised := task.Init(config, context, Done);
    processed := task.Process(envelope, Done);
    closed := task.Close(Done, Done);
  }
}

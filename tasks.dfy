/**
 * The tasks and task factories of samza-core's task package, as values.
 * A factory is a closure in the source; here it is the description of what
 * its `createInstance` does, which `TaskFactoryUtil` gives a meaning to.
 */
module Tasks {
  import opened Common

  /** An `OperatorSpecGraph`, known by its identity. */
  datatype OperatorSpecGraph = OperatorSpecGraph(graphId: int)

  /** A user's `ContextManager`, known by its identity. */
  datatype ContextManagerRef = ContextManagerRef(managerId: int)

  /** An `ExecutorService`, known by its identity. */
  datatype ThreadPool = ThreadPool(poolId: int)

  /** A task instance a factory hands out. */
  datatype Task =
    | LoadedStreamTask(className: string)          // a `StreamTask` class instantiated by name
    | LoadedAsyncStreamTask(className: string)     // an `AsyncStreamTask` class instantiated by name
    | StreamOperatorTask(specGraph: OperatorSpecGraph, contextManager: Option<ContextManagerRef>)
    | AsyncStreamTaskAdapter(wrapped: Task, executor: Option<ThreadPool>)
    | ProvidedTask(taskId: int)                    // from a factory the application supplied itself

  /** What the `createInstance` of a `StreamTaskFactory` does. */
  datatype StreamTaskSource =
    | LoadStreamTaskClass(className: string)
    | NewStreamOperatorTask(specGraph: OperatorSpecGraph, contextManager: Option<ContextManagerRef>)
    | ProvidedStreamTasks(taskId: int)

  /** What the `createInstance` of an `AsyncStreamTaskFactory` does. */
  datatype AsyncStreamTaskSource =
    | LoadAsyncStreamTaskClass(className: string)
    | AdaptStreamTasks(source: StreamTaskSource, threadPool: Option<ThreadPool>)
    | ProvidedAsyncStreamTasks(taskId: int)

  /**
   * A `TaskFactory`: a `StreamTaskFactory`, an `AsyncStreamTaskFactory`, or
   * a factory of some other class, which the runtime does not support.
   */
  datatype TaskFactory =
    | StreamTaskFactory(streamSource: StreamTaskSource)
    | AsyncStreamTaskFactory(asyncSource: AsyncStreamTaskSource)
    | OtherTaskFactory(className: string)

  /** What `Class.forName` finds for a task class name. */
  datatype TaskClass = TaskClass(isStreamTask: bool, isAsyncStreamTask: bool, instantiable: bool)

  /** The classes the class loader can resolve, by fully qualified name. */
  type ClassRegistry = map<string, TaskClass>
}

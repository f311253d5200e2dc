/**
 * `TaskFactoryUtil` of samza-core: the task factory of an application
 * descriptor, the task factory named by `task.class`, and the final check
 * that matches a factory to the thread mode, wrapping a synchronous factory
 * for multi-thread runs.
 */
module TaskFactoryUtil {
  import opened Common
  import opened Tasks
  import opened ApplicationDescriptors

  /** The configuration key `TaskConfig.getTaskClass` reads. */
  const TaskClassKey: string := "task.class"

  /**
   * `getTaskFactory(appDesc)`: a task application's own factory (which may
   * be `null`), or, for a stream application, a stream factory whose tasks
   * are `StreamOperatorTask`s over the descriptor's graph and context
   * manager; another descriptor kind is rejected by `forType`.
   */
  function GetTaskFactory(appDesc: ApplicationDescriptorImpl): (r: Result<Option<TaskFactory>>)
    ensures appDesc.TaskApplicationDescriptorImpl? ==> r == Ok(appDesc.GetTaskFactory())
    ensures appDesc.StreamApplicationDescriptorImpl? ==>
      r == Ok(Some(StreamTaskFactory(NewStreamOperatorTask(appDesc.GetOperatorSpecGraph(), appDesc.GetContextManager()))))
    ensures appDesc.OtherApplicationDescriptorImpl? ==> r.Err? && r.error.IllegalArgumentException?
  {
    ForType<Option<TaskFactory>>(
      (d: ApplicationDescriptorImpl) => if d.TaskApplicationDescriptorImpl? then d.GetTaskFactory() else None,
      (d: ApplicationDescriptorImpl) =>
        if d.StreamApplicationDescriptorImpl?
        then Some(StreamTaskFactory(NewStreamOperatorTask(d.GetOperatorSpecGraph(), d.GetContextManager())))
        else None,
      appDesc)
  }

  /**
   * The `createInstance` of a stream factory. A class loaded by name must
   * resolve, be a `StreamTask` and be instantiable; any failure is a
   * `SamzaException`.
   */
  function CreateStreamTask(source: StreamTaskSource, registry: ClassRegistry): (r: Result<Task>)
    ensures source.LoadStreamTaskClass? ==>
      (r.Ok? <==> source.className in registry && registry[source.className].isStreamTask
                  && registry[source.className].instantiable)
    ensures source.LoadStreamTaskClass? && r.Ok? ==> r.value == LoadedStreamTask(source.className)
    ensures r.Err? ==> source.LoadStreamTaskClass? && r.error == SamzaException("Error loading StreamTask class: " + source.className, Some(ReflectionFailure(source.className)))
  {
    match source
    case LoadStreamTaskClass(className) =>
      if className in registry && registry[className].isStreamTask && registry[className].instantiable
      then Ok(LoadedStreamTask(className))
      else Err(SamzaException("Error loading StreamTask class: " + className, Some(ReflectionFailure(className))))
    case NewStreamOperatorTask(specGraph, contextManager) => Ok(StreamOperatorTask(specGraph, contextManager))
    case ProvidedStreamTasks(taskId) => Ok(ProvidedTask(taskId))
  }

  /**
   * The `createInstance` of an async factory. An adapter factory creates a
   * task of the wrapped stream factory and pairs it with the thread pool.
   */
  function CreateAsyncStreamTask(source: AsyncStreamTaskSource, registry: ClassRegistry): (r: Result<Task>)
    ensures source.LoadAsyncStreamTaskClass? ==>
      (r.Ok? <==> source.className in registry && registry[source.className].isAsyncStreamTask
                  && registry[source.className].instantiable)
    ensures source.LoadAsyncStreamTaskClass? ==>
      (r.Ok? ==> r.value == LoadedAsyncStreamTask(source.className))
      && (r.Err? ==> r.error == SamzaException("Error loading AsyncStreamTask class: " + source.className, Some(ReflectionFailure(source.className))))
    ensures source.AdaptStreamTasks? ==>
      match CreateStreamTask(source.source, registry)
      case Ok(task) => r == Ok(AsyncStreamTaskAdapter(task, source.threadPool))
      case Err(e) => r == Err(e)
  {
    match source
    case LoadAsyncStreamTaskClass(className) =>
      if className in registry && registry[className].isAsyncStreamTask && registry[className].instantiable
      then Ok(LoadedAsyncStreamTask(className))
      else Err(SamzaException("Error loading AsyncStreamTask class: " + className, Some(ReflectionFailure(className))))
    case AdaptStreamTasks(inner, threadPool) =>
      (match CreateStreamTask(inner, registry)
       case Ok(task) => Ok(AsyncStreamTaskAdapter(task, threadPool))
       case Err(e) => Err(e))
    case ProvidedAsyncStreamTasks(taskId) => Ok(ProvidedTask(taskId))
  }

  /**
   * `getTaskFactoryFromConfig(config)`: a `ConfigException` when
   * `task.class` is unset or does not resolve; otherwise an async factory
   * when the class is an `AsyncStreamTask` and a stream factory when it is
   * not, each loading that class by name.
   */
  function GetTaskFactoryFromConfig(config: Config, registry: ClassRegistry): (r: Result<TaskFactory>)
    ensures TaskClassKey !in config ==> r == Err(ConfigException("No task class defined in the configuration.", None))
    ensures TaskClassKey in config && config[TaskClassKey] !in registry ==>
      r == Err(ConfigException("Invalid configuration for AsyncStreamTask class: " + config[TaskClassKey],
                               Some(ReflectionFailure(config[TaskClassKey]))))
    ensures r.Ok? <==> TaskClassKey in config && config[TaskClassKey] in registry
    ensures r.Ok? ==>
      (r.value.AsyncStreamTaskFactory? <==> registry[config[TaskClassKey]].isAsyncStreamTask)
      && (r.value.StreamTaskFactory? <==> !registry[config[TaskClassKey]].isAsyncStreamTask)
    ensures r.Ok? && r.value.AsyncStreamTaskFactory? ==>
      r.value.asyncSource == LoadAsyncStreamTaskClass(config[TaskClassKey])
    ensures r.Ok? && r.value.StreamTaskFactory? ==> r.value.streamSource == LoadStreamTaskClass(config[TaskClassKey])
  {
    if TaskClassKey !in config then Err(ConfigException("No task class defined in the configuration.", None))
    else
      var taskClassName := config[TaskClassKey];
      if taskClassName !in registry then
        Err(ConfigException("Invalid configuration for AsyncStreamTask class: " + taskClassName,
                            Some(ReflectionFailure(taskClassName))))
      else if registry[taskClassName].isAsyncStreamTask then
        Ok(AsyncStreamTaskFactory(LoadAsyncStreamTaskClass(taskClassName)))
      else
        Ok(StreamTaskFactory(LoadStreamTaskClass(taskClassName)))
  }

  const MissingFactoryMessage: string := "Either the task class name or the task factory instance is required."

  const SingleThreadAsyncMessage: string := "AsyncStreamTask cannot run on single thread mode."

  const OnlyStreamAndAsyncFactories: string := "TaskFactory must be either StreamTaskFactory or AsyncStreamTaskFactory. class "

  function UnsupportedFactoryMessage(className: string): string
  {
    OnlyStreamAndAsyncFactories + className + " is not supported"
  }

  /**
   * `validateFactory(factory)`: a `null` factory, or one that is neither a
   * stream nor an async factory, is rejected with a `SamzaException`.
   */
  function ValidateFactory(factory: Option<TaskFactory>): (r: Outcome)
    ensures r == Done <==> factory.Some? && !factory.value.OtherTaskFactory?
    ensures r.Raised? ==> r.error.SamzaException?
    ensures factory.None? ==>
      r == Raised(SamzaException(MissingFactoryMessage, None))
    ensures factory.Some? && factory.value.OtherTaskFactory? ==>
      r == Raised(SamzaException(UnsupportedFactoryMessage(factory.value.className), None))
  {
    match factory
    case None => Raised(SamzaException(MissingFactoryMessage, None))
    case Some(OtherTaskFactory(className)) =>
      Raised(SamzaException(UnsupportedFactoryMessage(className), None))
    case Some(_) => Done
  }

  /**
   * `finalizeTaskFactory(factory, singleThreadMode, taskThreadPool)`: after
   * validation, an async factory in single-thread mode is an error, a
   * stream factory in multi-thread mode is wrapped in an adapter factory
   * over the thread pool, and the two other cases return the factory as is.
   */
  function FinalizeTaskFactory(factory: Option<TaskFactory>, singleThreadMode: bool, taskThreadPool: Option<ThreadPool>)
    : (r: Result<TaskFactory>)
    ensures ValidateFactory(factory).Raised? ==> r == Err(ValidateFactory(factory).error)
    ensures ValidateFactory(factory) == Done ==>
      var f := factory.value;
      (singleThreadMode && f.AsyncStreamTaskFactory? ==>
        r == Err(SamzaException(SingleThreadAsyncMessage, None)))
      && (!singleThreadMode && f.StreamTaskFactory? ==>
        r == Ok(AsyncStreamTaskFactory(AdaptStreamTasks(f.streamSource, taskThreadPool))))
      && (singleThreadMode == f.StreamTaskFactory? ==> r == Ok(f))
    ensures r.Err? ==> r.error.SamzaException?
  {
    match ValidateFactory(factory)
    case Raised(e) => Err(e)
    case Done =>
      var isAsyncTaskClass := factory.value.AsyncStreamTaskFactory?;
      if singleThreadMode && isAsyncTaskClass then
        Err(SamzaException(SingleThreadAsyncMessage, None))
      else if !singleThreadMode && !isAsyncTaskClass then
        Ok(AsyncStreamTaskFactory(AdaptStreamTasks(factory.value.streamSource, taskThreadPool)))
      else
        Ok(factory.value)
  }

  /**
   * A finalized factory suits its thread mode: it is an async factory
   * exactly in multi-thread mode, and finalizing it again with the same
   * mode and pool returns it unchanged.
   */
  lemma FinalizedFactoryMatchesMode(factory: Option<TaskFactory>, singleThreadMode: bool, pool: Option<ThreadPool>)
    requires FinalizeTaskFactory(factory, singleThreadMode, pool).Ok?
    ensures var f := FinalizeTaskFactory(factory, singleThreadMode, pool).value;
      (f.AsyncStreamTaskFactory? <==> !singleThreadMode)
      && (f.StreamTaskFactory? <==> singleThreadMode)
      && FinalizeTaskFactory(Some(f), singleThreadMode, pool) == Ok(f)
  {
    var f := FinalizeTaskFactory(factory, singleThreadMode, pool).value;
    assert ValidateFactory(Some(f)) == Done;
  }

  /** A factory finalization accepts is unchanged unless it needed wrapping. */
  lemma FinalizeChangesOnlyMultiThreadStreamFactories(factory: TaskFactory, singleThreadMode: bool, pool: Option<ThreadPool>)
    requires FinalizeTaskFactory(Some(factory), singleThreadMode, pool).Ok?
    ensures FinalizeTaskFactory(Some(factory), singleThreadMode, pool) != Ok(factory)
      <==> !singleThreadMode && factory.StreamTaskFactory?
  {
  }

  /**
   * The instances of a wrapped factory are adapters around a fresh instance
   * of the original factory, each holding the supplied thread pool.
   */
  lemma WrappedFactoryCreatesAdapters(source: StreamTaskSource, pool: Option<ThreadPool>, registry: ClassRegistry)
    requires CreateStreamTask(source, registry).Ok?
    ensures var wrapped := FinalizeTaskFactory(Some(StreamTaskFactory(source)), false, pool);
      wrapped.Ok? && wrapped.value.AsyncStreamTaskFactory?
      && CreateAsyncStreamTask(wrapped.value.asyncSource, registry)
         == Ok(AsyncStreamTaskAdapter(CreateStreamTask(source, registry).value, pool))
  {
  }

  /**
   * The factory from `task.class` creates instances of exactly that class
   * when the class can be instantiated as the kind it was detected as.
   */
  lemma ConfigFactoryCreatesTheConfiguredClass(config: Config, registry: ClassRegistry)
    requires TaskClassKey in config && config[TaskClassKey] in registry
    requires registry[config[TaskClassKey]].instantiable
    requires registry[config[TaskClassKey]].isAsyncStreamTask || registry[config[TaskClassKey]].isStreamTask
    ensures var name := config[TaskClassKey];
      match GetTaskFactoryFromConfig(config, registry)
      case Ok(StreamTaskFactory(source)) => CreateStreamTask(source, registry) == Ok(LoadedStreamTask(name))
      case Ok(AsyncStreamTaskFactory(source)) => CreateAsyncStreamTask(source, registry) == Ok(LoadedAsyncStreamTask(name))
      case _ => false
  {
  }

  /** The tasks of a stream application's factory are `StreamOperatorTask`s over its own graph. */
  lemma StreamAppFactoryCreatesOperatorTasks(userApp: SamzaApplication, config: Config, registry: ClassRegistry)
    requires userApp.isStreamApplication
    ensures var desc := GetAppDescriptor(userApp, config);
      desc.Ok?
      && var factory := GetTaskFactory(desc.value);
      factory.Ok? && factory.value.Some? && factory.value.value.StreamTaskFactory?
      && CreateStreamTask(factory.value.value.streamSource, registry)
         == Ok(StreamOperatorTask(userApp.description.specGraph, userApp.description.contextManager))
  {
  }

  /**
   * The factory of a task application passes finalization in single-thread
   * mode exactly when it is a stream factory.
   */
  lemma TaskAppFactoryInSingleThreadMode(userApp: SamzaApplication, config: Config, pool: Option<ThreadPool>)
    requires !userApp.isStreamApplication && userApp.isTaskApplication
    ensures var factory := GetTaskFactory(GetAppDescriptor(userApp, config).value);
      factory.Ok?
      && (FinalizeTaskFactory(factory.value, true, pool).Ok?
          <==> factory.value.Some? && factory.value.value.StreamTaskFactory?)
  {
  }
}

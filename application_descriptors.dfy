/**
 * `ApplicationDescriptors` of samza-core: the descriptor of a user
 * application is chosen by the application's kind, and `forType` dispatches
 * on the kind of a descriptor.
 */
module ApplicationDescriptors {
  import opened Common
  import opened Tasks

  /**
   * What an application's `describe` registers on its descriptor: the task
   * factory of a task application, the operator graph and context manager of
   * a stream application. `describe` itself is not part of this model.
   */
  datatype AppDescription = AppDescription(taskFactory: Option<TaskFactory>, specGraph: OperatorSpecGraph,
                                           contextManager: Option<ContextManagerRef>)

  /**
   * A `SamzaApplication`: its class name, which of the two application
   * interfaces its class implements (possibly both, possibly neither), and
   * what it describes.
   */
  datatype SamzaApplication = SamzaApplication(className: string, isStreamApplication: bool,
                                               isTaskApplication: bool, description: AppDescription)

  /** An `ApplicationDescriptorImpl`: one of the two supported kinds, or a class of another kind. */
  datatype ApplicationDescriptorImpl =
    | StreamApplicationDescriptorImpl(app: SamzaApplication, config: Config)
    | TaskApplicationDescriptorImpl(app: SamzaApplication, config: Config)
    | OtherApplicationDescriptorImpl(className: string)
  {
    /** `TaskApplicationDescriptorImpl.getTaskFactory`. */
    function GetTaskFactory(): Option<TaskFactory>
      requires TaskApplicationDescriptorImpl?
    {
      app.description.taskFactory
    }

    /** `StreamApplicationDescriptorImpl.getOperatorSpecGraph`. */
    function GetOperatorSpecGraph(): OperatorSpecGraph
      requires StreamApplicationDescriptorImpl?
    {
      app.description.specGraph
    }

    /** `StreamApplicationDescriptorImpl.getContextManager`. */
    function GetContextManager(): Option<ContextManagerRef>
      requires StreamApplicationDescriptorImpl?
    {
      app.description.contextManager
    }
  }

  const OnlyStreamAndTaskApplications: string := " is not supported. Only StreamApplication and TaskApplication are supported."

  const OnlyStreamAndTaskDescriptors: string := "AppDescriptorImpl has to be either TaskAppDescriptorImpl or StreamAppDescriptorImpl. class "

  function UnsupportedApplicationMessage(className: string): string
  {
    "User application class " + className + OnlyStreamAndTaskApplications
  }

  function UnsupportedDescriptorMessage(className: string): string
  {
    OnlyStreamAndTaskDescriptors + className + " is not supported"
  }

  /**
   * `getAppDescriptor(userApp, config)`: a stream descriptor for a stream
   * application (even one that is also a task application), a task
   * descriptor for a task application, and an `IllegalArgumentException`
   * for anything else.
   */
  function GetAppDescriptor(userApp: SamzaApplication, config: Config): (r: Result<ApplicationDescriptorImpl>)
    ensures userApp.isStreamApplication ==> r == Ok(StreamApplicationDescriptorImpl(userApp, config))
    ensures !userApp.isStreamApplication && userApp.isTaskApplication ==>
      r == Ok(TaskApplicationDescriptorImpl(userApp, config))
    ensures !userApp.isStreamApplication && !userApp.isTaskApplication ==>
      r == Err(IllegalArgumentException(UnsupportedApplicationMessage(userApp.className)))
    ensures r.Ok? ==> !r.value.OtherApplicationDescriptorImpl? && r.value.app == userApp && r.value.config == config
  {
    if userApp.isStreamApplication then Ok(StreamApplicationDescriptorImpl(userApp, config))
    else if userApp.isTaskApplication then Ok(TaskApplicationDescriptorImpl(userApp, config))
    else Err(IllegalArgumentException(UnsupportedApplicationMessage(userApp.className)))
  }

  /**
   * `forType(forTaskApp, forStreamApp, desc)`: the function for the
   * descriptor's kind applied to it, or an `IllegalArgumentException` for
   * a descriptor of neither kind.
   */
  function ForType<T>(forTaskApp: ApplicationDescriptorImpl -> T, forStreamApp: ApplicationDescriptorImpl -> T,
                      desc: ApplicationDescriptorImpl): (r: Result<T>)
    ensures desc.TaskApplicationDescriptorImpl? ==> r == Ok(forTaskApp(desc))
    ensures desc.StreamApplicationDescriptorImpl? ==> r == Ok(forStreamApp(desc))
    ensures desc.OtherApplicationDescriptorImpl? ==>
      r == Err(IllegalArgumentException(UnsupportedDescriptorMessage(desc.className)))
  {
    match desc
    case TaskApplicationDescriptorImpl(_, _) => Ok(forTaskApp(desc))
    case StreamApplicationDescriptorImpl(_, _) => Ok(forStreamApp(desc))
    case OtherApplicationDescriptorImpl(className) =>
      Err(IllegalArgumentException(UnsupportedDescriptorMessage(className)))
  }

  /**
   * Exactly one of the two functions is applied: swapping the function for
   * the other kind never changes what `forType` returns.
   */
  lemma ForTypeAppliesOnlyItsKind<T>(f: ApplicationDescriptorImpl -> T, f': ApplicationDescriptorImpl -> T,
                                     g: ApplicationDescriptorImpl -> T, g': ApplicationDescriptorImpl -> T,
                                     desc: ApplicationDescriptorImpl)
    ensures desc.TaskApplicationDescriptorImpl? ==> ForType(f, g, desc) == ForType(f, g', desc)
    ensures desc.StreamApplicationDescriptorImpl? ==> ForType(f, g, desc) == ForType(f', g, desc)
    ensures desc.OtherApplicationDescriptorImpl? ==> ForType(f, g, desc) == ForType(f', g', desc)
  {
  }

  /** A descriptor made by `getAppDescriptor` never sends `forType` down its error path. */
  lemma ForTypeOfAppDescriptor<T>(forTaskApp: ApplicationDescriptorImpl -> T, forStreamApp: ApplicationDescriptorImpl -> T,
                                  userApp: SamzaApplication, config: Config)
    requires GetAppDescriptor(userApp, config).Ok?
    ensures ForType(forTaskApp, forStreamApp, GetAppDescriptor(userApp, config).value).Ok?
    ensures userApp.isStreamApplication ==>
      ForType(forTaskApp, forStreamApp, GetAppDescriptor(userApp, config).value)
      == Ok(forStreamApp(StreamApplicationDescriptorImpl(userApp, config)))
  {
  }
}

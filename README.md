# Samza application and operator core, modelled in Dafny

This project models the core of an early Samza "fluent API" snapshot and proves properties of that model:

- **Operator specs** (`OperatorSpecs`, `StreamOperatorSpecs`). An operator spec has a fixed opcode and id. It keeps an ordered, duplicate-free set of downstream specs and is named `<opcode>-<id>`. `isClone` relates specs of assignable classes. The source location is picked from the creation stack trace.
- **Operator implementations** (`StreamOperatorImpls`). A stream operator applies its flat-map transform to every message. It propagates each output in order.
- **Tasks** (`StreamOperatorAdaptorTasks`, `StreamOperatorTasks`). The adaptor task groups its input partitions by system stream and merges the partitions of each stream. It swaps the merged streams into the user's DAG, builds one operator chain per partition and routes messages and window calls. The operator task drives an operator-impl graph through init, process, window, watermark and close.
- **Application glue** (`ApplicationDescriptors`, `TaskFactoryUtil`, `StreamApplications`):
  - type dispatch on application descriptors;
  - task factories from descriptors or from configuration, and their finalisation for single- or multi-thread mode;
  - the application's name, id, global id and runner class from configuration.
- **Remote runner** (`RemoteApplicationRunners`). `run` and `kill` loop over the planned jobs. `status` aggregates the job statuses into one application status.
- **REST configuration** (`SamzaRestConfigs`). Comma-separated class lists are split with `String.split("\\s*,\\s*")`, using Java's exact rules; the monitor interval has a default. The installation path's leading `~` is replaced with `replaceFirst`, which reads the home directory as a replacement string; the literal replacement the documentation describes is modelled next to it (see Findings).
- **YARN container launch** (`ContainerUtils`). This covers the command-builder class, the framework path and version, and the escaped environment. It also covers the launch command, built by `String.format` over a fixed template, and the application-state bookkeeping after each start.

`Common` holds the shared pieces:

- `Option`, `Result` and `Outcome`. Java exceptions are values of `Exception`; a `SamzaException` or `ConfigException` carries the throwable it wraps as its cause (`getCause()`), or none.
- Configuration as a `map<string, string>`.
- Decimal text for `Integer.parseInt`.
- The system-stream and envelope records.

State that the Java code changes in place is modelled as Dafny `class` fields with `modifies` clauses:

- the downstream specs;
- the adaptor task's chain map;
- the operator task's graph, context manager and IO graph;
- the application state's counters and running-container map.

Calls into collaborators (user task `init`/`window`, input operator `onMessage`/`onTimer`/`onWatermark`, context manager `init`/`close`, the runner's job submissions and kills, container launches) are appended to an `events`, `calls` or `launches` log. How each such call completes, normally or with an exception, is a parameter. Contracts state the exact new log, which ends at the first call that throws, and the exception the operation then passes on. Iteration over a Java `HashMap` or `Set` is a choice (`:|`) over a Dafny set. Where the order matters, the chosen order is returned as a ghost sequence that enumerates the set.

## Model

| member | source | states |
|---|---|---|
| OperatorSpecs.OperatorSpec.constructor | samza-core/src/main/java/org/apache/samza/operators/spec/OperatorSpec.java:90-94 | A new spec keeps the given opcode, id, class and trace and has no downstream specs (the set starts empty, line 70). |
| OperatorSpecs.OperatorSpec.RegisterNextOperatorSpec | samza-core/src/main/java/org/apache/samza/operators/spec/OperatorSpec.java:70-78 | Registering a spec already present leaves the downstream set unchanged. A new one is appended at the end. The set stays duplicate-free. |
| OperatorSpecs.OperatorSpec.GetRegisteredOperatorSpecs | samza-core/src/main/java/org/apache/samza/operators/spec/OperatorSpec.java:85-87 | Returns the downstream specs in first-registration order, without duplicates. |
| OperatorSpecs.RegisterTwiceKeepsOrder | samza-core/src/main/java/org/apache/samza/operators/spec/OperatorSpec.java:70-87 | Registering two distinct specs on a fresh spec yields exactly those two, in registration order. |
| OperatorSpecs.IdentityIsFixed | samza-core/src/main/java/org/apache/samza/operators/spec/OperatorSpec.java:90-94 | A spec built with an opcode and an id reports exactly those from `getOpCode` and `getOpId` (lines 109-119), and the name made of them, after downstream specs are registered on it. |
| OperatorSpecs.OperatorSpec.GetOpCode | samza-core/src/main/java/org/apache/samza/operators/spec/OperatorSpec.java:109-111 | The opcode the spec holds. |
| OperatorSpecs.OperatorSpec.GetOpId | samza-core/src/main/java/org/apache/samza/operators/spec/OperatorSpec.java:117-119 | The id the spec holds. |
| OperatorSpecs.OperatorSpec.GetOpName | samza-core/src/main/java/org/apache/samza/operators/spec/OperatorSpec.java:156-158 | The name is the lower-cased opcode name, then a '-' that is the name's first dash, then the id in decimal. |
| OperatorSpecs.OperatorSpec.IsClone | samza-core/src/main/java/org/apache/samza/operators/spec/OperatorSpec.java:162-164 | A clone has a class at or below this spec's class, the same opcode and the same id, and so the same name. Both directions hold. |
| OperatorSpecs.ToLowerAscii | samza-core/src/main/java/org/apache/samza/operators/spec/OperatorSpec.java:156-158 | Lower-casing keeps the length and maps each character on its own. |
| OperatorSpecs.LowerNameHasNoDash | samza-core/src/main/java/org/apache/samza/operators/spec/OperatorSpec.java:156-158 | No lower-cased opcode name contains '-'. The opcodes are the enum at lines 47-59. |
| OperatorSpecs.LowerNameInjective | samza-core/src/main/java/org/apache/samza/operators/spec/OperatorSpec.java:156-158 | Distinct opcodes have distinct lower-cased names. The opcodes are the enum at lines 47-59. |
| OperatorSpecs.SplitAtFirstDash | samza-core/src/main/java/org/apache/samza/operators/spec/OperatorSpec.java:156-158 | A dash-free head joined by "-" to a tail determines both parts. |
| OperatorSpecs.OpNameIdentifiesOperator | samza-core/src/main/java/org/apache/samza/operators/spec/OperatorSpec.java:156-158 | Two specs with the same op name have the same opcode and the same id. |
| OperatorSpecs.IsCloneReflexive | samza-core/src/main/java/org/apache/samza/operators/spec/OperatorSpec.java:162-164 | Every spec is a clone of itself. |
| OperatorSpecs.IsCloneNotSymmetric | samza-core/src/main/java/org/apache/samza/operators/spec/OperatorSpec.java:162-164 | `isClone` is not symmetric: a spec whose class is assignable from another's is its clone, and not the reverse. |
| OperatorSpecs.MutualClonesShareClass | samza-core/src/main/java/org/apache/samza/operators/spec/OperatorSpec.java:162-164 | Specs that are clones of each other have the same class, opcode and id. |
| OperatorSpecs.IsCloneTransitive | samza-core/src/main/java/org/apache/samza/operators/spec/OperatorSpec.java:162-164 | `isClone` is transitive. |
| OperatorSpecs.OperatorSpec.GetSourceLocation | samza-core/src/main/java/org/apache/samza/operators/spec/OperatorSpec.java:125-150 | A trace of five frames or fewer raises an index error at line 134. Otherwise the result is the "file:line" of the first frame at index 5 or later outside `MessageStreamImpl`/`MessageStream`, and frame 5's when there is no such frame. |
| StreamOperatorSpecs.GettersReturnConstructorArguments | samza-operator/src/main/java/org/apache/samza/operators/spec/StreamOperatorSpec.java:50-72 | The transform, output stream, opcode and id getters return exactly the constructor's arguments. |
| StreamOperatorSpecs.StreamOperatorSpec.Init | samza-operator/src/main/java/org/apache/samza/operators/spec/StreamOperatorSpec.java:74-77 | `init` makes exactly one call, to the transform's `init`, with the given config and context. |
| StreamOperatorSpecs.MergeTransform | samza-operator/src/test/java/org/apache/samza/operators/spec/TestOperatorSpecs.java:105-115 | The merge transform maps a message to the one-element collection holding it. |
| StreamOperatorImpls.StreamOperatorImpl.constructor | samza-operator/src/main/java/org/apache/samza/operators/impl/StreamOperatorImpl.java:40-43 | The transform is taken from the spec once, at construction. Nothing has been called or propagated yet. |
| StreamOperatorImpls.StreamOperatorImpl.PropagateResult | samza-operator/src/main/java/org/apache/samza/operators/impl/StreamOperatorImpl.java:48 | Propagating appends one result and does not call the transform. |
| StreamOperatorImpls.StreamOperatorImpl.OnNext | samza-operator/src/main/java/org/apache/samza/operators/impl/StreamOperatorImpl.java:46-49 | `onNext` calls the transform exactly once, with the message and the operator's context. It propagates exactly the transform's outputs, in order; an empty output propagates nothing. |
| StreamOperatorImpls.EmittedConcat | samza-operator/src/main/java/org/apache/samza/operators/impl/StreamOperatorImpl.java:46-49 | The outputs for two message batches in a row are the outputs of the first, then of the second. |
| StreamOperatorImpls.MergeEmitsItsInput | samza-operator/src/main/java/org/apache/samza/operators/impl/StreamOperatorImpl.java:46-49 | A merge operator emits exactly the messages it receives, in order. |
| StreamOperatorImpls.OnNextTwice | samza-operator/src/main/java/org/apache/samza/operators/impl/StreamOperatorImpl.java:46-49 | Two `onNext` calls make two transform calls and propagate the outputs of both messages, in order. |
| StreamOperatorAdaptorTasks.StreamsOf | samza-operator/src/main/java/org/apache/samza/operators/StreamOperatorAdaptorTask.java:89-94 | Every partition's system stream is among the grouped streams. |
| StreamOperatorAdaptorTasks.PartitionsOf | samza-operator/src/main/java/org/apache/samza/operators/StreamOperatorAdaptorTask.java:89-94 | The partitions grouped under a stream are exactly the partitions assigned for that stream. |
| StreamOperatorAdaptorTasks.AddPartition | samza-operator/src/main/java/org/apache/samza/operators/StreamOperatorAdaptorTask.java:90-93 | One grouping step adds the partition's stream key. It puts the partition's stream into that stream's inner map and leaves every other stream's map as it was. |
| StreamOperatorAdaptorTasks.AddPartitionKeepsInnerMaps | samza-operator/src/main/java/org/apache/samza/operators/StreamOperatorAdaptorTask.java:90-93 | A later grouping step never replaces an existing entry of an inner map. |
| StreamOperatorAdaptorTasks.GroupByAddPartition | samza-operator/src/main/java/org/apache/samza/operators/StreamOperatorAdaptorTask.java:89-94 | Grouping one more partition equals one grouping step on the earlier grouping, in any order. |
| StreamOperatorAdaptorTasks.GroupByCoversPartitions | samza-operator/src/main/java/org/apache/samza/operators/StreamOperatorAdaptorTask.java:89-94 | After grouping, every assigned partition has its own stream under its system stream. |
| StreamOperatorAdaptorTasks.GroupByKeys | samza-operator/src/main/java/org/apache/samza/operators/StreamOperatorAdaptorTask.java:89-94 | The grouped keys are exactly the system streams of the assigned partitions. |
| StreamOperatorAdaptorTasks.GroupByInnerNonEmpty | samza-operator/src/main/java/org/apache/samza/operators/StreamOperatorAdaptorTask.java:89-94 | Every grouped stream has at least one partition. |
| StreamOperatorAdaptorTasks.GroupInputs | samza-operator/src/main/java/org/apache/samza/operators/StreamOperatorAdaptorTask.java:88-94 | The grouping loop visits every assigned partition once. It builds the grouping of all of them and creates one input stream per partition, in visiting order. |
| StreamOperatorAdaptorTasks.CreationEventsAt | samza-operator/src/main/java/org/apache/samza/operators/StreamOperatorAdaptorTask.java:93 | The i-th stream created is the one for the i-th partition visited. |
| StreamOperatorAdaptorTasks.Merge | samza-operator/src/main/java/org/apache/samza/operators/StreamOperatorAdaptorTask.java:103-116 | `merge` of a non-empty partition map returns a merge of all of its streams. |
| StreamOperatorAdaptorTasks.MergeOfSingle | samza-operator/src/main/java/org/apache/samza/operators/StreamOperatorAdaptorTask.java:109-115 | With a single partition the stream itself is returned, unmerged. |
| StreamOperatorAdaptorTasks.MergeOfMany | samza-operator/src/main/java/org/apache/samza/operators/StreamOperatorAdaptorTask.java:107-115 | With k > 1 partitions, one of the streams is merged with the other k-1. Every stream takes part exactly once. |
| StreamOperatorAdaptorTasks.ChainsFor | samza-operator/src/main/java/org/apache/samza/operators/StreamOperatorAdaptorTask.java:99-100 | There is one chain per assigned partition, each built on that partition's own stream. |
| StreamOperatorAdaptorTasks.StreamOperatorAdaptorTask.constructor | samza-operator/src/main/java/org/apache/samza/operators/StreamOperatorAdaptorTask.java:78-80 | A new adaptor wraps the user task and has no chains. |
| StreamOperatorAdaptorTasks.StreamOperatorAdaptorTask.Init | samza-operator/src/main/java/org/apache/samza/operators/StreamOperatorAdaptorTask.java:83-101 | The steps and their log, in order: (1) the user `init`, only for an initable task; (2) one stream created per partition; (3) `transform` once; (4) one swap per distinct system stream, to a merge of its partitions; then one chain per partition. A throwing user `init` ends `init` after step 1, and a throwing `transform` after step 3, with that exception and no chain added. |
| StreamOperatorAdaptorTasks.StreamOperatorAdaptorTask.SwapInputs | samza-operator/src/main/java/org/apache/samza/operators/StreamOperatorAdaptorTask.java:98 | The swap loop swaps each grouped system stream once, to a merge of its partition streams. |
| StreamOperatorAdaptorTasks.StreamOperatorAdaptorTask.BuildChains | samza-operator/src/main/java/org/apache/samza/operators/StreamOperatorAdaptorTask.java:99-100 | The chain loop adds exactly the per-partition chains and logs nothing. |
| StreamOperatorAdaptorTasks.StreamOperatorAdaptorTask.Process | samza-operator/src/main/java/org/apache/samza/operators/StreamOperatorAdaptorTask.java:119-122 | The wrapped envelope goes only to the chain of its own partition, and the chain's completion is passed on. An unknown partition raises a null-pointer error. |
| StreamOperatorAdaptorTasks.StreamOperatorAdaptorTask.Window | samza-operator/src/main/java/org/apache/samza/operators/StreamOperatorAdaptorTask.java:125-129 | `window` reaches the user task only if it is windowable, passing on how that call completes, and otherwise does nothing. |
| StreamOperatorAdaptorTasks.InitThenProcess | samza-operator/src/main/java/org/apache/samza/operators/StreamOperatorAdaptorTask.java:83-122 | After `init`, the chain keys are exactly the assigned partitions. Processing an envelope of one of them succeeds and reaches that partition's chain. |
| StreamOperatorTasks.OperatorImplGraph.GetInputOperator | samza-core/src/main/java/org/apache/samza/task/StreamOperatorTask.java:111 | The lookup finds an input operator exactly for the graph's input streams. The same lookup is made by `onWatermark` at line 133. |
| StreamOperatorTasks.BuildOperatorImplGraph | samza-core/src/main/java/org/apache/samza/task/StreamOperatorTask.java:93 | The impl graph has one input operator per input stream of the stream graph, bound to the task context. |
| StreamOperatorTasks.TimerEventsCount | samza-core/src/main/java/org/apache/samza/task/StreamOperatorTask.java:118-121 | Each operator gets as many `onTimer` calls as it occurs in the order. |
| StreamOperatorTasks.TimerEventsAreTimers | samza-core/src/main/java/org/apache/samza/task/StreamOperatorTask.java:118-121 | The timer log holds nothing but `onTimer` calls, the i-th one on the i-th operator visited. |
| StreamOperatorTasks.TimerEventsOncePerOperator | samza-core/src/main/java/org/apache/samza/task/StreamOperatorTask.java:118-121 | Over an enumeration of the input operators, each one gets `onTimer` exactly once and no other operator gets it. |
| StreamOperatorTasks.TimerCalls | samza-core/src/main/java/org/apache/samza/task/StreamOperatorTask.java:119-120 | The `forEach` calls `onTimer` on distinct input operators until one throws. It completes normally exactly when no operator throws, and has then called every operator once; otherwise its last call is the throwing one and its exception is passed on. |
| StreamOperatorTasks.StreamOperatorTask.WithClock | samza-core/src/main/java/org/apache/samza/task/StreamOperatorTask.java:55-58 | A new task keeps the application and the clock. It has no graphs and no context manager yet. |
| StreamOperatorTasks.StreamOperatorTask.constructor | samza-core/src/main/java/org/apache/samza/task/StreamOperatorTask.java:60-62 | The one-argument constructor uses the system clock. |
| StreamOperatorTasks.StreamOperatorTask.Init | samza-core/src/main/java/org/apache/samza/task/StreamOperatorTask.java:77-95 | `init` takes the per-task context manager and initialises it only when it is present. When that `init` throws, the exception is passed on and neither graph is built; otherwise the impl graph and the IO graph are built exactly once. |
| StreamOperatorTasks.StreamOperatorTask.Process | samza-core/src/main/java/org/apache/samza/task/StreamOperatorTask.java:109-115 | For a known stream, `onMessage` is called once on that stream's input operator with (key, message), and its completion is passed on. For an unknown stream nothing happens. Before `init`, a null-pointer error. |
| StreamOperatorTasks.StreamOperatorTask.Window | samza-core/src/main/java/org/apache/samza/task/StreamOperatorTask.java:118-121 | `window` calls `onTimer` once on each input operator until one throws. With no throwing operator every operator is called once; otherwise the first throwing call ends `window` with its exception. Before `init`, a null-pointer error. |
| StreamOperatorTasks.StreamOperatorTask.GetIOGraph | samza-core/src/main/java/org/apache/samza/task/StreamOperatorTask.java:124-126 | Returns the IO graph that `init` stored. |
| StreamOperatorTasks.StreamOperatorTask.OnWatermarkFor | samza-core/src/main/java/org/apache/samza/task/StreamOperatorTask.java:129-137 | The watermark goes only to the matching input operator, whose completion is passed on. Unknown streams are ignored. |
| StreamOperatorTasks.StreamOperatorTask.Close | samza-core/src/main/java/org/apache/samza/task/StreamOperatorTask.java:140-145 | `close` first closes the context manager, only if there is one. When that close throws, the exception is passed on and the impl graph is not closed. Otherwise the impl graph is closed and its completion passed on; before `init` that step is a null-pointer error. |
| StreamOperatorTasks.Lifecycle | samza-core/src/main/java/org/apache/samza/task/StreamOperatorTask.java:77-145 | init, process on a known stream, then close, with every collaborator completing normally: every step succeeds, `getIOGraph` is the application's IO graph, and the log ends with the context-manager close (when present) followed by the graph close. |
| ApplicationDescriptors.GetAppDescriptor | samza-core/src/main/java/org/apache/samza/application/ApplicationDescriptors.java:40-49 | A stream application gets a stream descriptor of the same app and config. A task-only application gets a task descriptor. Anything else raises `IllegalArgumentException`. |
| ApplicationDescriptors.ForType | samza-core/src/main/java/org/apache/samza/application/ApplicationDescriptors.java:51-61 | `forType` gives `forTaskApp(desc)` for a task descriptor and `forStreamApp(desc)` for a stream descriptor, and otherwise `IllegalArgumentException`. |
| ApplicationDescriptors.ForTypeAppliesOnlyItsKind | samza-core/src/main/java/org/apache/samza/application/ApplicationDescriptors.java:53-57 | Only the function for the descriptor's own kind influences the result. |
| ApplicationDescriptors.ForTypeOfAppDescriptor | samza-core/src/main/java/org/apache/samza/application/ApplicationDescriptors.java:40-61 | `forType` never fails on a descriptor that `getAppDescriptor` built. For a stream application it applies `forStreamApp`. |
| TaskFactoryUtil.GetTaskFactory | samza-core/src/main/java/org/apache/samza/task/TaskFactoryUtil.java:49-54 | A task descriptor's own factory is returned unchanged. A stream descriptor gets a stream-task factory of `StreamOperatorTask`s over its spec graph and context manager. |
| TaskFactoryUtil.CreateStreamTask | samza-core/src/main/java/org/apache/samza/task/TaskFactoryUtil.java:91-98 | A configured class is instantiated exactly when it can be, and otherwise fails with the "Error loading StreamTask class" `SamzaException`, caused by the reflection failure on that class. An operator-task source always succeeds. Line 125 wraps such a task in the async adapter. |
| TaskFactoryUtil.CreateAsyncStreamTask | samza-core/src/main/java/org/apache/samza/task/TaskFactoryUtil.java:80-88 | A configured async class is instantiated or fails with the "Error loading AsyncStreamTask class" error, caused by the reflection failure on that class. An adapter source wraps a created stream task together with the thread pool. The adapter is built at line 125. |
| TaskFactoryUtil.GetTaskFactoryFromConfig | samza-core/src/main/java/org/apache/samza/task/TaskFactoryUtil.java:64-99 | A missing task class raises `ConfigException` with no cause, and an unresolvable one a `ConfigException` caused by the reflection failure on that class. The factory is async exactly when the class is an `AsyncStreamTask`, and a stream factory otherwise. |
| TaskFactoryUtil.ValidateFactory | samza-core/src/main/java/org/apache/samza/task/TaskFactoryUtil.java:131-140 | Validation passes exactly for a present stream or async factory. Otherwise it raises `SamzaException`. |
| TaskFactoryUtil.FinalizeTaskFactory | samza-core/src/main/java/org/apache/samza/task/TaskFactoryUtil.java:110-129 | An invalid factory fails, and so does an async factory in single-thread mode. A stream factory in multi-thread mode is wrapped, with the pool, in an async adapter factory. Every other factory is returned unchanged. Every failure is a `SamzaException`. |
| TaskFactoryUtil.FinalizedFactoryMatchesMode | samza-core/src/main/java/org/apache/samza/task/TaskFactoryUtil.java:110-129 | A finalised factory is async exactly in multi-thread mode. Finalising it again changes nothing. |
| TaskFactoryUtil.FinalizeChangesOnlyMultiThreadStreamFactories | samza-core/src/main/java/org/apache/samza/task/TaskFactoryUtil.java:123-128 | Finalising changes a factory exactly when it is a stream factory in multi-thread mode. |
| TaskFactoryUtil.WrappedFactoryCreatesAdapters | samza-core/src/main/java/org/apache/samza/task/TaskFactoryUtil.java:123-126 | The wrapped factory creates an adapter around the stream task the original factory creates, with the supplied pool. |
| TaskFactoryUtil.ConfigFactoryCreatesTheConfiguredClass | samza-core/src/main/java/org/apache/samza/task/TaskFactoryUtil.java:80-98 | A factory from configuration creates an instance of exactly the configured class. |
| TaskFactoryUtil.StreamAppFactoryCreatesOperatorTasks | samza-core/src/test/java/org/apache/samza/task/TestTaskFactoryUtil.java:131-139 | A stream application's factory is a stream-task factory, and its instances are `StreamOperatorTask`s. |
| TaskFactoryUtil.TaskAppFactoryInSingleThreadMode | samza-core/src/test/java/org/apache/samza/task/TestTaskFactoryUtil.java:145-151 | A task application's factory passes single-thread finalisation exactly when it is a stream-task factory. |
| RemoteApplicationRunners.LastUnsuccessful | samza-core/src/main/java/org/apache/samza/runtime/RemoteApplicationRunner.java:129-131 | There is an unsuccessful status to report exactly when some job finished unsuccessfully. It is one of the job statuses. |
| RemoteApplicationRunners.AggregateStatus | samza-core/src/main/java/org/apache/samza/runtime/RemoteApplicationRunner.java:139-150 | The application is New exactly when some job is New, and Running exactly when no job is New and some job is Running. |
| RemoteApplicationRunners.AggregateStatusReflectsJobs | samza-core/src/main/java/org/apache/samza/runtime/RemoteApplicationRunner.java:139-151 | The result is SuccessfulFinish exactly when every job finished successfully, which includes no jobs. Any other code is the code of some job. An unsuccessful result is one of the job statuses. |
| RemoteApplicationRunners.AggregateWithNewJob | samza-core/src/main/java/org/apache/samza/runtime/RemoteApplicationRunner.java:123-125 | Any New job makes the application New, wherever it is in the plan. The New result is returned at lines 139-141. |
| RemoteApplicationRunners.CollectStatuses | samza-core/src/main/java/org/apache/samza/runtime/RemoteApplicationRunner.java:117-137 | The statuses are collected one per job in plan order. The collection fails exactly when some job's status lookup fails, with the exception of the first lookup that fails. |
| RemoteApplicationRunners.StatusOf | samza-core/src/main/java/org/apache/samza/runtime/RemoteApplicationRunner.java:109-155 | `status` fails, and only with the runner's `SamzaException`, exactly when planning or some job's lookup fails. Its cause is the planner's exception, or that of the first lookup that fails. |
| RemoteApplicationRunners.Status | samza-core/src/main/java/org/apache/samza/runtime/RemoteApplicationRunner.java:109-155 | The flag-updating loop and its branches compute the result of New before Running before the last unsuccessful status before SuccessfulFinish. |
| RemoteApplicationRunners.StatusStep | samza-core/src/main/java/org/apache/samza/runtime/RemoteApplicationRunner.java:122-131 | One loop step updates the New flag, the Running flag and the last unsuccessful status exactly as the three branches do. |
| RemoteApplicationRunners.CollectStatusesErrPersists | samza-core/src/main/java/org/apache/samza/runtime/RemoteApplicationRunner.java:117-137 | A failure on an earlier job fails the whole status call with that job's exception. It is wrapped at lines 152-154. |
| RemoteApplicationRunners.FirstRaised | samza-core/src/main/java/org/apache/samza/runtime/RemoteApplicationRunner.java:78-85 | Gives the index of the first job whose call throws: every earlier job succeeded. |
| RemoteApplicationRunners.JobCalls | samza-core/src/main/java/org/apache/samza/runtime/RemoteApplicationRunner.java:78-82 | One call per job, in plan order. The kill loop at lines 98-102 has the same shape. |
| RemoteApplicationRunners.CallEachJob | samza-core/src/main/java/org/apache/samza/runtime/RemoteApplicationRunner.java:78-82 | The job loop calls jobs in order up to and including the first that throws. It succeeds exactly when every call does, and otherwise passes on the exception of the first call that throws. The kill loop at lines 98-102 has the same shape. |
| RemoteApplicationRunners.FirstRaisedAt | samza-core/src/main/java/org/apache/samza/runtime/RemoteApplicationRunner.java:78-85 | When job i is the first to throw, the loop stops after exactly i + 1 calls and fails. |
| RemoteApplicationRunners.Run | samza-core/src/main/java/org/apache/samza/runtime/RemoteApplicationRunner.java:67-86 | `run` writes the plan JSON, then creates the intermediate streams, then submits the jobs in order. It stops at the first failure, which is reported as the runner's `SamzaException` with that failure's exception as its cause. It succeeds exactly when every step does. |
| RemoteApplicationRunners.Kill | samza-core/src/main/java/org/apache/samza/runtime/RemoteApplicationRunner.java:93-106 | `kill` kills the planned jobs in order and stops at the first failure, which becomes a `SamzaException` caused by that failure's exception. It succeeds exactly when every kill does. |
| RemoteApplicationRunners.RunSubmitsEveryJob | samza-core/src/main/java/org/apache/samza/runtime/RemoteApplicationRunner.java:78-82 | When every submission succeeds, every job is submitted, once each, in plan order. |
| RemoteApplicationRunners.WaitForFinish | samza-core/src/main/java/org/apache/samza/runtime/RemoteApplicationRunner.java:61-64 | Always raises `UnsupportedOperationException`. |
| RemoteApplicationRunners.RunTask | samza-core/src/main/java/org/apache/samza/runtime/RemoteApplicationRunner.java:56-59 | Always raises `UnsupportedOperationException`. |
| StreamApplications.AppConfig.GetAppName | samza-api/src/main/java/org/apache/samza/application/StreamApplication.java:119-121 | `app.name` if set, else `job.name`, else null. |
| StreamApplications.AppConfig.GetAppId | samza-api/src/main/java/org/apache/samza/application/StreamApplication.java:123-125 | `app.id`, else `job.id`, else "1"; never null. |
| StreamApplications.AppConfig.GetAppClass | samza-api/src/main/java/org/apache/samza/application/StreamApplication.java:127-129 | `app.class`, or null exactly when it is unset. |
| StreamApplications.AppConfig.GetApplicationRunnerClass | samza-api/src/main/java/org/apache/samza/application/StreamApplication.java:131-133 | `app.runner.class`, defaulting to the remote application runner. The default class name is at line 110. |
| StreamApplications.AppConfig.GetGlobalAppId | samza-api/src/main/java/org/apache/samza/application/StreamApplication.java:139-141 | The global id is "app-" + name + "-" + id. A null name prints as "null". |
| StreamApplications.GlobalAppId | samza-api/src/main/java/org/apache/samza/application/StreamApplication.java:140 | The global id starts with "app-", and its length is 5 plus those of the name and the id. |
| StreamApplications.StreamApplication.GetGlobalAppId | samza-api/src/main/java/org/apache/samza/application/StreamApplication.java:161-163 | The application's global id is that of the `AppConfig` over its configuration. |
| StreamApplications.DashIndex | samza-api/src/main/java/org/apache/samza/application/StreamApplication.java:140 | Gives the position of the first '-' (or the length when there is none). |
| StreamApplications.GlobalAppIdRoundTrip | samza-api/src/main/java/org/apache/samza/application/StreamApplication.java:139-141 | For a name without '-', splitting the global id at its first dash after "app-" gives back the name and the id. |
| StreamApplications.GlobalAppIdInjective | samza-api/src/main/java/org/apache/samza/application/StreamApplication.java:139-141 | Applications whose names have no '-' share a global id only when they share name and id. |
| StreamApplications.EmptyConfigDefaults | samza-api/src/main/java/org/apache/samza/application/StreamApplication.java:119-141 | With no keys set: the global id is "app-null-1", the runner is the remote runner, and there is no app class. The default runner class is at line 110. |
| SamzaRestConfigs.Split | samza-rest/src/main/java/org/apache/samza/rest/SamzaRestConfig.java:126 | Java `split("\\s*,\\s*")`: a value with no comma is one item, itself. Otherwise the trimmed comma pieces, with trailing empty items removed. |
| SamzaRestConfigs.DropTrailingEmpty | samza-rest/src/main/java/org/apache/samza/rest/SamzaRestConfig.java:126 | Removes exactly the trailing empty items, so the last item kept is non-empty. |
| SamzaRestConfigs.SplitItemsAreTrimmedAtCommas | samza-rest/src/main/java/org/apache/samza/rest/SamzaRestConfig.java:126 | No item contains a comma. Whitespace next to a comma is removed, while leading whitespace of the first item and trailing whitespace of the last are kept. Lines 136 and 146 use the same split. |
| SamzaRestConfigs.SplitJoinRoundTrip | samza-rest/src/main/java/org/apache/samza/rest/SamzaRestConfig.java:126 | Joining splittable items with commas padded by any whitespace, then splitting, gives back the items. Lines 136 and 146 use the same split. |
| SamzaRestConfigs.SamzaRestConfig.ClassList | samza-rest/src/main/java/org/apache/samza/rest/SamzaRestConfig.java:124-147 | A list getter gives the empty list when its key is absent, and otherwise the split of its value. |
| SamzaRestConfigs.SamzaRestConfig.GetResourceFactoryClassNames | samza-rest/src/main/java/org/apache/samza/rest/SamzaRestConfig.java:124-127 | The empty list when `rest.resource.factory.classes` is unset, else the split of its value. The key is declared at line 61. |
| SamzaRestConfigs.SamzaRestConfig.GetResourceClassNames | samza-rest/src/main/java/org/apache/samza/rest/SamzaRestConfig.java:134-137 | The empty list when `rest.resource.classes` is unset, else the split of its value. The key is declared at line 66. |
| SamzaRestConfigs.SamzaRestConfig.GetConfigMonitorClassList | samza-rest/src/main/java/org/apache/samza/rest/SamzaRestConfig.java:144-147 | The empty list when `monitor.class.list` is unset, else the split of its value. The key is declared at line 73. |
| SamzaRestConfigs.ClassListRoundTrip | samza-rest/src/main/java/org/apache/samza/rest/SamzaRestConfig.java:124-147 | Storing a ", "-joined list of splittable class names under a key makes that key's getter return exactly those names. |
| SamzaRestConfigs.SamzaRestConfig.GetConfigMonitorIntervalMs | samza-rest/src/main/java/org/apache/samza/rest/SamzaRestConfig.java:153-155 | 60000 when unset, otherwise `Integer.parseInt` of the value, including its `NumberFormatException`. The key is declared at line 83. |
| SamzaRestConfigs.MonitorIntervalRoundTrip | samza-rest/src/main/java/org/apache/samza/rest/SamzaRestConfig.java:153-155 | A stored 32-bit interval reads back as itself. |
| SamzaRestConfigs.SamzaRestConfig.GetInstallationsPath | samza-rest/src/main/java/org/apache/samza/rest/SamzaRestConfig.java:106-108 | null when `job.installations.path` is unset, and a null-pointer error when the home is null. A path without a leading "~" is returned as it is. Otherwise the "~" is replaced by the home read as a replacement string (line 167), and that reading's error is passed on. |
| SamzaRestConfigs.SamzaRestConfig.GetInstallationsPathIntended | samza-rest/src/main/java/org/apache/samza/rest/SamzaRestConfig.java:157-162 | As the documentation intends: a leading "~" of the configured path is replaced by the home directory taken literally. |
| SamzaRestConfigs.InstallationsPathAgreesOnPlainHome | samza-rest/src/main/java/org/apache/samza/rest/SamzaRestConfig.java:106-108 | For a home without '\\' or '$', the getter as written returns the intended path. |
| SamzaRestConfigs.WindowsInstallationsPath | samza-rest/src/main/java/org/apache/samza/rest/SamzaRestConfig.java:106-108 | With path "~/j" and home "C:\\sam" the getter gives "C:sam/j" as written and "C:\\sam/j" as intended. |
| SamzaRestConfigs.DollarHomeFails | samza-rest/src/main/java/org/apache/samza/rest/SamzaRestConfig.java:106-108 | With home "$H" the getter as written raises `IllegalArgumentException`, while the intended one gives "$H" + rest. |
| SamzaRestConfigs.ExpandReplacement | samza-rest/src/main/java/org/apache/samza/rest/SamzaRestConfig.java:167 | Expanding the home as a replacement string fails only with an illegal-argument or index error, and never lengthens it. |
| Common.ParseInt | samza-rest/src/main/java/org/apache/samza/rest/SamzaRestConfig.java:153-155 | `Integer.parseInt`: succeeds exactly on an optionally signed run of ASCII digits whose value is a 32-bit `int`, with that value; otherwise a `NumberFormatException`. |
| SamzaRestConfigs.PlainReplacementIsLiteral | samza-rest/src/main/java/org/apache/samza/rest/SamzaRestConfig.java:167 | A replacement without '\\' or '$' is inserted literally. |
| SamzaRestConfigs.EscapedCharacter | samza-rest/src/main/java/org/apache/samza/rest/SamzaRestConfig.java:167 | In a replacement, "\\c" stands for the character c alone. |
| SamzaRestConfigs.PlainPrefix | samza-rest/src/main/java/org/apache/samza/rest/SamzaRestConfig.java:167 | A plain head of a replacement is copied unchanged in front of the expansion of the rest. |
| SamzaRestConfigs.SanitizePathAsWritten | samza-rest/src/main/java/org/apache/samza/rest/SamzaRestConfig.java:163-168 | As written: a null path stays null, a null home raises a null-pointer error, and a path not starting with "~" is unchanged. Otherwise the "~" becomes the home read as a replacement string, and that reading's error is passed on. |
| SamzaRestConfigs.BackslashIsDropped | samza-rest/src/main/java/org/apache/samza/rest/SamzaRestConfig.java:167 | A home directory holding "\\c" loses the backslash when used as the replacement. |
| SamzaRestConfigs.WindowsHomeLosesBackslash | samza-rest/src/main/java/org/apache/samza/rest/SamzaRestConfig.java:167 | With home "C:\\sam", "~" + rest becomes "C:sam" + rest as written, but "C:\\sam" + rest when corrected. |
| SamzaRestConfigs.SanitizePath | samza-rest/src/main/java/org/apache/samza/rest/SamzaRestConfig.java:157-168 | Corrected: only a leading "~" is replaced, by the home directory taken literally. A null path stays null, and any other path is unchanged. |
| SamzaRestConfigs.SanitizePathAgreesOnPlainHome | samza-rest/src/main/java/org/apache/samza/rest/SamzaRestConfig.java:163-168 | For a home without '\\' or '$', the code as written and the corrected path agree. |
| ContainerUtils.FormatText | samza-yarn/src/main/java/org/apache/samza/job/yarn/ContainerUtil.java:247-249 | In `String.format`, text without '%' is copied in front of the rest's result. |
| ContainerUtils.Format | samza-yarn/src/main/java/org/apache/samza/job/yarn/ContainerUtil.java:247-249 | `String.format` fails only with an `IllegalArgumentException`. |
| ContainerUtils.FormatPlainText | samza-yarn/src/main/java/org/apache/samza/job/yarn/ContainerUtil.java:247-249 | A template without '%' formats to itself, whatever the arguments. |
| ContainerUtils.FormatArgument | samza-yarn/src/main/java/org/apache/samza/job/yarn/ContainerUtil.java:247-249 | In `String.format`, "%s" is replaced by the next argument. |
| ContainerUtils.FormatTemplate | samza-yarn/src/main/java/org/apache/samza/job/yarn/ContainerUtil.java:247-249 | Formatting a template of percent-free texts joined by "%s" puts the arguments between the texts, in order. |
| ContainerUtils.FormattedCommand | samza-yarn/src/main/java/org/apache/samza/job/yarn/ContainerUtil.java:237-250 | The command fills the template with the log dir, the job lib (prefixed with "&& " only when it is non-empty), the log dir again, the command, stdout and stderr. |
| ContainerUtils.CommandBuilderClass | samza-yarn/src/main/java/org/apache/samza/job/yarn/ContainerUtil.java:95-100 | The configured `task.command.class`, else the shell command builder. |
| ContainerUtils.FrameworkVersion | samza-yarn/src/main/java/org/apache/samza/job/yarn/ContainerUtil.java:107-110 | The configured version, or "STABLE" when it is null or empty; never empty. |
| ContainerUtils.ChooseLaunchPaths | samza-yarn/src/main/java/org/apache/samza/job/yarn/ContainerUtil.java:103-114 | With no framework path: "./__package/" and an empty job lib. Otherwise path + separator + version, and the `JOB_LIB_DIR` export. |
| ContainerUtils.EscapedEnvironment | samza-yarn/src/main/java/org/apache/samza/job/yarn/ContainerUtil.java:128-133 | The launch environment has exactly the builder's keys, each with its escaped value. |
| ContainerUtils.BuildEnvironment | samza-yarn/src/main/java/org/apache/samza/job/yarn/ContainerUtil.java:128-133 | The entry loop builds exactly that escaped environment. |
| ContainerUtils.SamzaAppState.constructor | samza-yarn/src/main/java/org/apache/samza/job/yarn/ContainerUtil.java:152-155 | New application state: no requests, the given number of needed containers, not healthy, nothing running. These are the counters updated at lines 83 and 87. |
| ContainerUtils.SamzaAppState.ContainerStarted | samza-yarn/src/main/java/org/apache/samza/job/yarn/ContainerUtil.java:152-155 | After a start, one fewer container is needed. The job becomes healthy when the count reaches 0 and stays so. The container is recorded as running under its id. |
| ContainerUtils.ContainerUtil.constructor | samza-yarn/src/main/java/org/apache/samza/job/yarn/ContainerUtil.java:64-76 | Keeps the config and the state; no launches yet. |
| ContainerUtils.ContainerUtil.IncrementContainerRequests | samza-yarn/src/main/java/org/apache/samza/job/yarn/ContainerUtil.java:82-84 | `containerRequests` rises by exactly one, and nothing else changes. |
| ContainerUtils.ContainerUtil.BuilderSetup | samza-yarn/src/main/java/org/apache/samza/job/yarn/ContainerUtil.java:117-122 | The command builder gets the chosen class, the config, the container id, the coordinator URL and the command path. |
| ContainerUtils.ContainerUtil.LaunchFor | samza-yarn/src/main/java/org/apache/samza/job/yarn/ContainerUtil.java:124-150 | A launch uses the package path, the container, the escaped builder environment and the formatted command with the chosen job lib. |
| ContainerUtils.ContainerUtil.RunContainer | samza-yarn/src/main/java/org/apache/samza/job/yarn/ContainerUtil.java:91-167 | When the command builder cannot be loaded (`Util.getObj`, line 117), `runContainer` passes that exception on with no launch and no state change. Otherwise it makes exactly one launch. The bookkeeping is done only when the start succeeds; a failed start changes no counter and is passed on. |
| ContainerUtils.ContainerUtil.RunMatchedContainer | samza-yarn/src/main/java/org/apache/samza/job/yarn/ContainerUtil.java:86-89 | `matchedContainerRequests` rises by one, then the container is run. The count stays raised when loading the builder or starting the container throws. |
| ContainerUtils.StartAllNeeded | samza-yarn/src/main/java/org/apache/samza/job/yarn/ContainerUtil.java:86-89 | A client of `runMatchedContainer`, not a source loop: successfully starting as many containers as are needed leaves none needed and the job healthy (lines 152-155). Every container is recorded under its id. |

## Left out

- Logging, `System.out` output and the log-message strings are not modelled.
- Undefined names:
  - The configuration key classes (`JobConfig`, `TaskConfig`, `YarnConfig`) are not part of this model, and neither is `ApplicationConstants`.
  - The key strings used for `samza.fwk.path`, `samza.fwk.version`, `task.command.class`, `task.class` and `yarn.package.path` follow Samza's own naming.
  - The values `<LOG_DIR>`, `stdout`, `stderr` follow YARN's.
- Java reflection on task classes (`Class.forName`, `newInstance` and `isAssignableFrom`) becomes a registry parameter. `Util.getObj` on the command builder class becomes the `loadBuilder` outcome of `RunContainer`. The command builder's answers (`buildCommand`, `buildEnvironment`) and `Util.envVarEscape` are function parameters.
- Environment inputs become parameters:
  - `File.separator`;
  - `System.getProperty("user.home")`;
  - `Thread.getStackTrace()`, passed as the creation trace;
  - the clock;
  - the JVM's default locale, which `String.toLowerCase()` follows. It is taken to have no special casing rules: in a Turkish or Azeri locale 'I' lower-cases to a dotless 'ı', so Java's op names would read "ınput-1" where the model gives "input-1".
- `startContainer` is not modelled: file status, credentials, tokens and the NodeManager client. Its outcome is the `started` parameter of `RunContainer`.
- `new Path(yarnConfig.getPackagePath())` on a null package path (an error in Hadoop) is not modelled. The launch records the optional path.
- `ContainerUtil.setNmClient` and the YARN configuration are left out.
- The runner's planner, stream manager, `JobRunner`s and coordinator-stream consumer are inputs. They appear as the plan (`Result<ExecutionPlan>`) and the job outcome or status functions.
- `LocalContainerRunner`, `ApplicationRunner.fromConfig` and `ApplicationRunners` are not modelled, nor are the stubs and example applications. `StreamApplication`'s `openInput`/`openOutput`/`run`/`kill`/`status` only delegate to a graph or runner that is not shown.
- `OperatorSpec.copy()` is Java serialisation and is not modelled. `SamzaRestConfig.getJobProxyFactory` and `getPort` are plain lookups outside the modelled getters.
- The `OperatorImplGraph` compiler, window and join operators and `WindowPane` are not shown. The impl graph is reduced to its input operators, one per input stream, and its close.
- Building the `OperatorImplGraph` and the `IOGraph` in `StreamOperatorTask.init`, and, in the adaptor's `init`, `swapInputStream` (line 98 of `StreamOperatorAdaptorTask.java`), `MessageStream.merge` (line 112) and creating the operator chains, are taken to complete normally: their code is not shown.
- OperatorSpecs.OperatorSpec.GetRegisteredOperatorSpecs: Java returns the live `LinkedHashSet`, so a caller that changes it changes the spec. The model returns the sequence's value, and that aliasing is not captured.
- OperatorSpecs.OperatorSpec.GetSourceLocation: the index error for a short trace carries the message "5" that Java 8 gives; later JDKs word it differently.
- Reflection failures (`ReflectionFailure` in `Common`): the reflection error that `Class.forName`, the cast or `newInstance` throws is one kind of exception, known by its class name. Which Java class it is (`ClassNotFoundException`, `ClassCastException`, `InstantiationException`, ...) and its message are not modelled.
- StreamOperatorImpls.StreamOperatorImpl.OnNext: the transform is a total function here. An exception thrown by it, which would end `onNext` before any output is propagated, is not modelled.
- samza-core's `StreamOperatorSpec` duplicates the samza-operator record and is modelled once.
- StreamOperatorAdaptorTasks.Merge: which partition's stream becomes the merge base follows `HashMap` order, which is unspecified. The model proves only that some stream is the base and all the others are merged into it.
- ContainerUtils.SamzaAppState.ContainerStarted: the `AtomicInteger` counters are unbounded integers here. Their 32-bit wrap-around is not modelled, and neither is concurrent access.
- ContainerUtils.ContainerUtil.IncrementContainerRequests: 32-bit wrap-around of the counter is not modelled.
- ContainerUtils.Format: only the `%s` and `%%` conversions of `String.format` are modelled. Every other conversion gives one generic `IllegalArgumentException`, and the messages differ from the JDK's.
- ContainerUtils.FormattedCommand: the template is stated as the sequence of its texts; its doc comment quotes the whole format string.
- SamzaRestConfigs.ExpandReplacement: named groups `${name}` raise the exceptions the JDK raises for a pattern without groups. Their exact messages are simplified.
- Common.ParseInt: only ASCII digits are accepted. `Integer.parseInt` reads digits with `Character.digit`, so Java also accepts other Unicode decimal digits, such as fullwidth "１２", which the model rejects with a `NumberFormatException`.
- Task factories (`TaskFactory` in `Tasks`): a factory is exactly one of a stream factory, an async factory or another class. A Java class that implements both `StreamTaskFactory` and `AsyncStreamTaskFactory` (validated at line 136 of `TaskFactoryUtil.java` and treated as async at line 114) cannot be represented.
- SamzaRestConfigs.SamzaRestConfig.GetConfigMonitorIntervalMs: `Integer.parseInt` is modelled for ASCII digits with an optional sign only.
- OperatorSpecs.ToLowerAscii: `String.toLowerCase()` is modelled as ASCII lower-casing, which is what it does on every opcode name in a default locale without special casing rules. The Turkish and Azeri locales, which lower-case 'I' to a dotless 'ı', are not modelled.

## Findings

| source | as written | input that shows it | evidently intended | confidence | as-written member | corrected member |
|---|---|---|---|---|---|---|
| samza-rest/src/main/java/org/apache/samza/rest/SamzaRestConfig.java:167 | `replaceFirst("^~", home)` treats the home directory as a replacement string, so '\\' and '$' in it are special | path "~/jobs" with home "C:\\sam" gives "C:sam/jobs"; a home containing "$" without a group raises an exception | the leading "~" is replaced by the home directory taken literally | not executed | SamzaRestConfigs.SanitizePathAsWritten, SamzaRestConfigs.SamzaRestConfig.GetInstallationsPath, SamzaRestConfigs.WindowsHomeLosesBackslash, SamzaRestConfigs.WindowsInstallationsPath, SamzaRestConfigs.DollarHomeFails, SamzaRestConfigs.BackslashIsDropped | SamzaRestConfigs.SanitizePath, SamzaRestConfigs.SamzaRestConfig.GetInstallationsPathIntended, SamzaRestConfigs.SanitizePathAgreesOnPlainHome, SamzaRestConfigs.InstallationsPathAgreesOnPlainHome |

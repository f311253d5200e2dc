/**
 * `ContainerUtil` of the YARN job: how the application master launches a
 * Samza container in a YARN container it was granted — the command path
 * and job library directory, the escaped launch environment, the shell
 * command line — and the bookkeeping of `SamzaAppState` that follows.
 */
module ContainerUtils {
  import opened Common

  const FwkPathKey: string := "samza.fwk.path"
  const FwkVersionKey: string := "samza.fwk.version"
  const CommandClassKey: string := "task.command.class"
  const PackagePathKey: string := "yarn.package.path"
  const ShellCommandBuilderClass: string := "org.apache.samza.job.ShellCommandBuilder"
  const DefaultFwkVersion: string := "STABLE"
  const DefaultCommandPath: string := "./__package/"
  const SeparateJobLib: string := "export JOB_LIB_DIR=./__package/lib"

  /** `ApplicationConstants.LOG_DIR_EXPANSION_VAR`, `STDOUT` and `STDERR` of YARN. */
  const LogDirExpansionVar: string := "<LOG_DIR>"
  const StdOut: string := "stdout"
  const StdErr: string := "stderr"

  // ---------------------------------------------------------------------
  // `String.format` with `%s` conversions.

  const UnsupportedConversion: string := "Unsupported format conversion"
  const MissingArgument: string := "Format specifier '%s'"

  /**
   * `String.format(template, args...)`: each `%s` takes the next argument,
   * `%%` is a percent sign, text is copied; a `%s` without an argument
   * left and any other conversion fail. Surplus arguments are ignored.
   */
  function Format(template: string, args: seq<string>): (r: Result<string>)
    ensures r.Err? ==> r.error.IllegalArgumentException?
    decreases |template|
  {
    if template == [] then Ok([])
    else if template[0] != '%' then Prefixed([template[0]], Format(template[1..], args))
    else if |template| > 1 && template[1] == '%' then Prefixed("%", Format(template[2..], args))
    else if |template| > 1 && template[1] == 's' then
      if args == [] then Err(IllegalArgumentException(MissingArgument))
      else Prefixed(args[0], Format(template[2..], args[1..]))
    else Err(IllegalArgumentException(UnsupportedConversion))
  }

  predicate NoPercent(s: string)
  {
    forall i :: 0 <= i < |s| ==> s[i] != '%'
  }

  /** Text without a percent sign is copied as it is. */
  lemma {:induction false} FormatText(text: string, rest: string, args: seq<string>)
    requires NoPercent(text)
    ensures Format(text + rest, args) == Prefixed(text, Format(rest, args))
    decreases |text|
  {
    if text == [] {
      assert text + rest == rest;
      match Format(rest, args) {
        case Ok(r) => assert text + r == r;
        case Err(_) =>
      }
    } else {
      assert (text + rest)[0] == text[0];
      assert (text + rest)[1..] == text[1..] + rest;
      assert NoPercent(text[1..]) by {
        assert forall i :: 0 <= i < |text| - 1 ==> text[1..][i] == text[i + 1];
      }
      FormatText(text[1..], rest, args);
      assert [text[0]] + text[1..] == text;
      match Format(rest, args) {
        case Ok(r) => AppendAssociative([text[0]], text[1..], r);
        case Err(_) =>
      }
    }
  }

  /** A template without a percent sign formats to itself, whatever the arguments. */
  lemma FormatPlainText(text: string, args: seq<string>)
    requires NoPercent(text)
    ensures Format(text, args) == Ok(text)
  {
    FormatText(text, [], args);
    assert text + [] == text;
  }

  /** A `%s` puts the next argument in its place. */
  lemma FormatArgument(rest: string, arg: string, args: seq<string>)
    ensures Format("%s" + rest, [arg] + args) == Prefixed(arg, Format(rest, args))
  {
    assert ("%s" + rest)[2..] == rest;
    assert ([arg] + args)[1..] == args;
  }

  /** Fixed texts with a `%s` between each two of them. */
  function Template(texts: seq<string>): string
    requires |texts| > 0
  {
    if |texts| == 1 then texts[0] else texts[0] + ("%s" + Template(texts[1..]))
  }

  /** Fixed texts with one argument between each two of them. */
  function Filled(texts: seq<string>, args: seq<string>): string
    requires |texts| == |args| + 1
  {
    if |texts| == 1 then texts[0] else texts[0] + (args[0] + Filled(texts[1..], args[1..]))
  }

  /** Formatting a template of texts without percent signs puts the arguments between the texts. */
  lemma {:induction false} FormatTemplate(texts: seq<string>, args: seq<string>)
    requires |texts| == |args| + 1
    requires forall i :: 0 <= i < |texts| ==> NoPercent(texts[i])
    ensures Format(Template(texts), args) == Ok(Filled(texts, args))
    decreases |texts|
  {
    if |texts| == 1 {
      FormatText(texts[0], "", args);
      assert texts[0] + "" == texts[0];
      assert Format("", args) == Ok("");
    } else {
      var rest := Template(texts[1..]);
      FormatTemplate(texts[1..], args[1..]);
      FormatText(texts[0], "%s" + rest, args);
      assert args == [args[0]] + args[1..];
      FormatArgument(rest, args[0], args[1..]);
    }
  }

  // ---------------------------------------------------------------------
  // The launch command.

  const LogDirText: string := "export SAMZA_LOG_DIR="
  const LinkText: string := " && ln -sfn "
  const ExecText: string := " logs && exec "
  const StdOutText: string := " 1>logs/"
  const StdErrText: string := " 2>logs/"
  const CommandTexts: seq<string> := [LogDirText, " ", LinkText, ExecText, StdOutText, StdErrText, ""]

  /**
   * The command line template,
   * "export SAMZA_LOG_DIR=%s %s && ln -sfn %s logs && exec %s 1>logs/%s 2>logs/%s".
   */
  const CommandTemplate: string := Template(CommandTexts)

  /**
   * `getFormattedCommand`: the job library step joins the command line with
   * "&& " in front only when there is one; then the template is filled.
   */
  function FormattedCommand(logDir: string, jobLib: string, command: string, stdOut: string, stdErr: string): (r: string)
    ensures var lib := if jobLib == "" then "" else "&& " + jobLib;
      r == LogDirText + (logDir + (" " + (lib + (LinkText + (logDir + (ExecText + (command
        + (StdOutText + (stdOut + (StdErrText + (stdErr + "")))))))))))
  {
    var lib := if jobLib != "" then "&& " + jobLib else jobLib;
    var args := [logDir, lib, logDir, command, stdOut, stdErr];
    CommandTextsArePlain();
    FormatTemplate(CommandTexts, args);
    FilledCommand(logDir, lib, logDir, command, stdOut, stdErr);
    Format(CommandTemplate, args).value
  }

  lemma CommandTextsArePlain()
    ensures forall i :: 0 <= i < |CommandTexts| ==> NoPercent(CommandTexts[i])
  {
  }

  /** Seven texts filled with six arguments, spelled out. */
  lemma FilledSeven(t0: string, t1: string, t2: string, t3: string, t4: string, t5: string, t6: string,
                    a0: string, a1: string, a2: string, a3: string, a4: string, a5: string)
    ensures Filled([t0, t1, t2, t3, t4, t5, t6], [a0, a1, a2, a3, a4, a5])
      == t0 + (a0 + (t1 + (a1 + (t2 + (a2 + (t3 + (a3 + (t4 + (a4 + (t5 + (a5 + t6)))))))))))
  {
    assert [t0, t1, t2, t3, t4, t5, t6][1..] == [t1, t2, t3, t4, t5, t6];
    assert [t1, t2, t3, t4, t5, t6][1..] == [t2, t3, t4, t5, t6];
    assert [t2, t3, t4, t5, t6][1..] == [t3, t4, t5, t6];
    assert [t3, t4, t5, t6][1..] == [t4, t5, t6];
    assert [t4, t5, t6][1..] == [t5, t6];
    assert [t5, t6][1..] == [t6];
    assert [a0, a1, a2, a3, a4, a5][1..] == [a1, a2, a3, a4, a5];
    assert [a1, a2, a3, a4, a5][1..] == [a2, a3, a4, a5];
    assert [a2, a3, a4, a5][1..] == [a3, a4, a5];
    assert [a3, a4, a5][1..] == [a4, a5];
    assert [a4, a5][1..] == [a5];
    assert [a5][1..] == [];
    assert Filled([t5, t6], [a5]) == t5 + (a5 + t6);
    assert Filled([t4, t5, t6], [a4, a5]) == t4 + (a4 + Filled([t5, t6], [a5]));
    assert Filled([t3, t4, t5, t6], [a3, a4, a5]) == t3 + (a3 + Filled([t4, t5, t6], [a4, a5]));
    assert Filled([t2, t3, t4, t5, t6], [a2, a3, a4, a5]) == t2 + (a2 + Filled([t3, t4, t5, t6], [a3, a4, a5]));
    assert Filled([t1, t2, t3, t4, t5, t6], [a1, a2, a3, a4, a5])
      == t1 + (a1 + Filled([t2, t3, t4, t5, t6], [a2, a3, a4, a5]));
  }

  /** The filled command line, spelled out. */
  lemma FilledCommand(a0: string, a1: string, a2: string, a3: string, a4: string, a5: string)
    ensures Filled(CommandTexts, [a0, a1, a2, a3, a4, a5])
      == LogDirText + (a0 + (" " + (a1 + (LinkText + (a2 + (ExecText + (a3
        + (StdOutText + (a4 + (StdErrText + (a5 + "")))))))))))
  {
    FilledSeven(LogDirText, " ", LinkText, ExecText, StdOutText, StdErrText, "", a0, a1, a2, a3, a4, a5);
  }

  // ---------------------------------------------------------------------
  // Command path and job library.

  /** The framework version to run: the configured one, or "STABLE" when it is unset or empty. */
  function FrameworkVersion(config: Config): (v: string)
    ensures v != ""
    ensures FwkVersionKey in config && config[FwkVersionKey] != "" ==> v == config[FwkVersionKey]
    ensures FwkVersionKey !in config || config[FwkVersionKey] == "" ==> v == DefaultFwkVersion
  {
    match Get(config, FwkVersionKey)
    case Some(version) => if version == "" then DefaultFwkVersion else version
    case None => DefaultFwkVersion
  }

  /** Where the container's start script lives, and how its job libraries are found. */
  datatype LaunchPaths = LaunchPaths(cmdPath: string, jobLib: string)

  /**
   * With a framework path configured, the scripts come from that path's
   * directory for the framework version and the job libraries from the
   * package; otherwise everything comes from the package.
   */
  function ChooseLaunchPaths(config: Config, separator: string): (p: LaunchPaths)
    ensures FwkPathKey !in config || config[FwkPathKey] == "" ==> p == LaunchPaths(DefaultCommandPath, "")
    ensures FwkPathKey in config && config[FwkPathKey] != "" ==>
      p == LaunchPaths(config[FwkPathKey] + separator + FrameworkVersion(config), SeparateJobLib)
  {
    var fwkVersion := FrameworkVersion(config);
    match Get(config, FwkPathKey)
    case Some(fwkPath) =>
      if fwkPath != "" then LaunchPaths(fwkPath + separator + fwkVersion, SeparateJobLib)
      else LaunchPaths(DefaultCommandPath, "")
    case None => LaunchPaths(DefaultCommandPath, "")
  }

  /** The class that builds the container's command: the configured one, or `ShellCommandBuilder`. */
  function CommandBuilderClass(config: Config): (c: string)
    ensures CommandClassKey in config ==> c == config[CommandClassKey]
    ensures CommandClassKey !in config ==> c == ShellCommandBuilderClass
  {
    Get(config, CommandClassKey).GetOr(ShellCommandBuilderClass)
  }

  /**
   * Everything a `CommandBuilder` is given before it builds the command and
   * the environment: its class, the config, the container id, the
   * coordinator URL and the command path.
   */
  datatype CommandBuilderSetup =
    CommandBuilderSetup(className: string, config: Config, id: int, url: string, commandPath: string)

  // ---------------------------------------------------------------------
  // The launch environment.

  /** The builder's environment with every value escaped for the shell. */
  function EscapedEnvironment(builderEnv: map<string, string>, escape: string -> string): (env: map<string, string>)
    ensures env.Keys == builderEnv.Keys
    ensures forall k :: k in env ==> env[k] == escape(builderEnv[k])
  {
    map k | k in builderEnv :: escape(builderEnv[k])
  }

  /** The loop that copies the builder's environment into a new map, escaping each value. */
  method BuildEnvironment(builderEnv: map<string, string>, escape: string -> string) returns (env: map<string, string>)
    ensures env == EscapedEnvironment(builderEnv, escape)
  {
    env := map[];
    var remaining := builderEnv.Keys;
    while remaining != {}
      invariant remaining <= builderEnv.Keys
      invariant env.Keys == builderEnv.Keys - remaining
      invariant forall k :: k in env ==> env[k] == escape(builderEnv[k])
      decreases remaining
    {
      var key :| key in remaining;
      env := env[key := escape(builderEnv[key])];
      remaining := remaining - {key};
    }
  }

  // ---------------------------------------------------------------------
  // The application master's state and the launcher.

  /** A container YARN granted: its id and its node. */
  datatype Container = Container(containerId: string, nodeHost: string, nodeHttpAddress: string)

  /** A `YarnContainer`: the running-container record kept per Samza container id. */
  datatype YarnContainer = YarnContainer(container: Container)

  /** What `startContainer` is asked to launch. */
  datatype Launch = Launch(packagePath: Option<string>, container: Container, env: map<string, string>, command: string)

  /** The parts of `SamzaAppState` that launching a container reads and updates. */
  class SamzaAppState {
    var containerRequests: int
    var matchedContainerRequests: int
    var neededContainers: int
    var jobHealthy: bool
    var runningContainers: map<int, YarnContainer>
    const coordinatorUrl: string

    constructor (neededContainers: int, coordinatorUrl: string)
      ensures this.containerRequests == 0 && this.matchedContainerRequests == 0
      ensures this.neededContainers == neededContainers && !this.jobHealthy
      ensures this.runningContainers == map[] && this.coordinatorUrl == coordinatorUrl
    {
      this.containerRequests := 0;
      this.matchedContainerRequests := 0;
      this.neededContainers := neededContainers;
      this.jobHealthy := false;
      this.runningContainers := map[];
      this.coordinatorUrl := coordinatorUrl;
    }

    /**
     * The bookkeeping after a container started: one needed container less,
     * the job healthy once none is needed, the container running under its
     * Samza id; the request counters stay as they are.
     */
    method ContainerStarted(samzaContainerId: int, container: Container)
      modifies this
      ensures neededContainers == old(neededContainers) - 1
      ensures jobHealthy == (old(jobHealthy) || neededContainers == 0)
      ensures runningContainers == old(runningContainers)[samzaContainerId := YarnContainer(container)]
      ensures containerRequests == old(containerRequests) && matchedContainerRequests == old(matchedContainerRequests)
    {
      neededContainers := neededContainers - 1;
      if neededContainers == 0 {
        jobHealthy := true;
      }
      runningContainers := runningContainers[samzaContainerId := YarnContainer(container)];
    }
  }

  /**
   * `ContainerUtil`: launches containers for one job. `launches` logs the
   * `startContainer` calls; the node manager's answer to each is a parameter.
   */
  class ContainerUtil {
    const config: Config
    const state: SamzaAppState
    const separator: string
    var launches: seq<Launch>

    constructor (config: Config, state: SamzaAppState, separator: string)
      ensures this.config == config && this.state == state && this.separator == separator
      ensures launches == []
    {
      this.config := config;
      this.state := state;
      this.separator := separator;
      launches := [];
    }

    /** `incrementContainerRequests`: one more container requested, nothing else changes. */
    method IncrementContainerRequests()
      modifies state
      ensures state.containerRequests == old(state.containerRequests) + 1
      ensures state.matchedContainerRequests == old(state.matchedContainerRequests)
      ensures state.neededContainers == old(state.neededContainers)
      ensures state.jobHealthy == old(state.jobHealthy)
      ensures state.runningContainers == old(state.runningContainers)
    {
      state.containerRequests := state.containerRequests + 1;
    }

    /** The setup `runContainer` gives the command builder for a container id. */
    function BuilderSetup(samzaContainerId: int): (s: CommandBuilderSetup)
      ensures s.className == CommandBuilderClass(config) && s.config == config && s.id == samzaContainerId
      ensures s.url == state.coordinatorUrl && s.commandPath == ChooseLaunchPaths(config, separator).cmdPath
    {
      CommandBuilderSetup(CommandBuilderClass(config), config, samzaContainerId, state.coordinatorUrl,
        ChooseLaunchPaths(config, separator).cmdPath)
    }

    /**
     * What `runContainer` hands to `startContainer`: the configured package
     * path, the container, the builder's environment with escaped values,
     * and the builder's command behind the job library step.
     */
    function LaunchFor(samzaContainerId: int, container: Container,
                       buildCommand: CommandBuilderSetup -> string,
                       buildEnvironment: CommandBuilderSetup -> map<string, string>,
                       escape: string -> string): (l: Launch)
      ensures var setup := BuilderSetup(samzaContainerId);
        && l.packagePath == Get(config, PackagePathKey) && l.container == container
        && l.env == EscapedEnvironment(buildEnvironment(setup), escape)
        && l.command == FormattedCommand(LogDirExpansionVar, ChooseLaunchPaths(config, separator).jobLib,
          buildCommand(setup), StdOut, StdErr)
    {
      var setup := BuilderSetup(samzaContainerId);
      Launch(Get(config, PackagePathKey), container, EscapedEnvironment(buildEnvironment(setup), escape),
        FormattedCommand(LogDirExpansionVar, ChooseLaunchPaths(config, separator).jobLib, buildCommand(setup), StdOut, StdErr))
    }

    /**
     * `runContainer`: loads the command builder, builds the command and the
     * environment, asks for the container to be started and, once it is,
     * does the state's bookkeeping (`ContainerStarted`). `loadBuilder` is how
     * `Util.getObj` ends on the builder class, `buildCommand` and
     * `buildEnvironment` are the builder's answers, `escape` is the shell
     * escaping of values, and `started` is how `startContainer` ends.
     */
    method RunContainer(samzaContainerId: int, container: Container,
                        buildCommand: CommandBuilderSetup -> string,
                        buildEnvironment: CommandBuilderSetup -> map<string, string>,
                        escape: string -> string, loadBuilder: Outcome, started: Outcome)
      returns (o: Outcome)
      modifies this, state
      ensures loadBuilder.Raised? ==> o == loadBuilder && launches == old(launches)
      ensures loadBuilder.Done? ==>
        o == started
        && launches == old(launches) + [LaunchFor(samzaContainerId, container, buildCommand, buildEnvironment, escape)]
      ensures state.containerRequests == old(state.containerRequests)
      ensures state.matchedContainerRequests == old(state.matchedContainerRequests)
      ensures loadBuilder.Done? && started.Done? ==> (
        && state.neededContainers == old(state.neededContainers) - 1
        && state.jobHealthy == (old(state.jobHealthy) || state.neededContainers == 0)
        && state.runningContainers == old(state.runningContainers)[samzaContainerId := YarnContainer(container)])
      ensures loadBuilder.Raised? || started.Raised? ==> (
        && state.neededContainers == old(state.neededContainers)
        && state.jobHealthy == old(state.jobHealthy)
        && state.runningContainers == old(state.runningContainers))
    {
      if loadBuilder.Raised? {
        return loadBuilder;
      }
      var setup := BuilderSetup(samzaContainerId);
      var paths := ChooseLaunchPaths(config, separator);
      var command := buildCommand(setup);
      var env := BuildEnvironment(buildEnvironment(setup), escape);
      var cmd := FormattedCommand(LogDirExpansionVar, paths.jobLib, command, StdOut, StdErr);
      launches := launches + [Launch(Get(config, PackagePathKey), container, env, cmd)];
      if started.Raised? {
        return started;
      }
      state.ContainerStarted(samzaContainerId, container);
      return Done;
    }

    /**
     * `runMatchedContainer`: one more matched request, then `runContainer`;
     * the count stays raised even when `runContainer` throws.
     */
    method RunMatchedContainer(samzaContainerId: int, container: Container,
                               buildCommand: CommandBuilderSetup -> string,
                               buildEnvironment: CommandBuilderSetup -> map<string, string>,
                               escape: string -> string, loadBuilder: Outcome, started: Outcome)
      returns (o: Outcome)
      modifies this, state
      ensures loadBuilder.Raised? ==> o == loadBuilder && launches == old(launches)
      ensures loadBuilder.Done? ==>
        o == started
        && launches == old(launches) + [LaunchFor(samzaContainerId, container, buildCommand, buildEnvironment, escape)]
      ensures state.containerRequests == old(state.containerRequests)
      ensures state.matchedContainerRequests == old(state.matchedContainerRequests) + 1
      ensures loadBuilder.Done? && started.Done? ==> (
        && state.neededContainers == old(state.neededContainers) - 1
        && state.jobHealthy == (old(state.jobHealthy) || state.neededContainers == 0)
        && state.runningContainers == old(state.runningContainers)[samzaContainerId := YarnContainer(container)])
      ensures loadBuilder.Raised? || started.Raised? ==> (
        && state.neededContainers == old(state.neededContainers)
        && state.jobHealthy == old(state.jobHealthy)
        && state.runningContainers == old(state.runningContainers))
    {
      state.matchedContainerRequests := state.matchedContainerRequests + 1;
      o := RunContainer(samzaContainerId, container, buildCommand, buildEnvironment, escape, loadBuilder, started);
    }
  }

  /**
   * A client of `runMatchedContainer`, not a loop of the source: starting
   * as many containers as are needed, each successfully, leaves none
   * needed, marks the job healthy and records every one as running.
   */
  method StartAllNeeded(util: ContainerUtil, containers: seq<Container>,
                        buildCommand: CommandBuilderSetup -> string,
                        buildEnvironment: CommandBuilderSetup -> map<string, string>,
                        escape: string -> string)
    requires |containers| > 0 && util.state.neededContainers == |containers|
    modifies util, util.state
    ensures util.state.neededContainers == 0 && util.state.jobHealthy
    ensures forall i :: 0 <= i < |containers| ==>
      i in util.state.runningContainers && util.state.runningContainers[i] == YarnContainer(containers[i])
  {
    var i := 0;
    while i < |containers|
      invariant 0 <= i <= |containers|
      invariant util.state.neededContainers == |containers| - i
      invariant i == |containers| ==> util.state.jobHealthy
      invariant forall j :: 0 <= j < i ==>
        j in util.state.runningContainers && util.state.runningContainers[j] == YarnContainer(containers[j])
    {
      ghost var running := util.state.runningContainers;
      var _ := util.RunMatchedContainer(i, containers[i], buildCommand, buildEnvironment, escape, Done, Done);
      assert util.state.runningContainers == running[i := YarnContainer(containers[i])];
      i := i + 1;
    }
  }
}

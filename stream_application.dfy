/**
 * `StreamApplication.AppConfig` of samza-api: the application's name, id,
 * class and runner class read from the configuration with their fallbacks,
 * and the global application id built from the name and the id.
 */
module StreamApplications {
  import opened Common

  const AppNameKey: string := "app.name"
  const AppIdKey: string := "app.id"
  const AppClassKey: string := "app.class"
  const RunnerConfigKey: string := "app.runner.class"
  const DefaultRunnerClass: string := "org.apache.samza.runtime.RemoteApplicationRunner"
  const JobNameKey: string := "job.name"
  const JobIdKey: string := "job.id"
  const DefaultAppId: string := "1"

  /** `AppConfig`: a view of a `Config`. */
  datatype AppConfig = AppConfig(config: Config)
  {
    /** `getAppName`: `app.name`, else `job.name`, else `null`. */
    function GetAppName(): (r: Option<string>)
      ensures AppNameKey in config ==> r == Some(config[AppNameKey])
      ensures AppNameKey !in config && JobNameKey in config ==> r == Some(config[JobNameKey])
      ensures r.None? <==> AppNameKey !in config && JobNameKey !in config
    {
      GetOrDefault(config, AppNameKey, Get(config, JobNameKey))
    }

    /** `getAppId`: `app.id`, else `job.id`, else "1"; never `null`. */
    function GetAppId(): (r: Option<string>)
      ensures AppIdKey in config ==> r == Some(config[AppIdKey])
      ensures AppIdKey !in config && JobIdKey in config ==> r == Some(config[JobIdKey])
      ensures AppIdKey !in config && JobIdKey !in config ==> r == Some(DefaultAppId)
      ensures r.Some?
    {
      GetOrDefault(config, AppIdKey, GetOrDefault(config, JobIdKey, Some(DefaultAppId)))
    }

    /** `getAppClass`: `app.class`, or `null` when unset. */
    function GetAppClass(): (r: Option<string>)
      ensures r.Some? <==> AppClassKey in config
      ensures r.Some? ==> r.value == config[AppClassKey]
    {
      GetOrDefault(config, AppClassKey, None)
    }

    /** `getApplicationRunnerClass`: `app.runner.class`, else the remote runner. */
    function GetApplicationRunnerClass(): (r: string)
      ensures RunnerConfigKey in config ==> r == config[RunnerConfigKey]
      ensures RunnerConfigKey !in config ==> r == DefaultRunnerClass
    {
      GetOrDefault(config, RunnerConfigKey, Some(DefaultRunnerClass)).value
    }

    /** `getGlobalAppId`: `String.format("app-%s-%s", name, id)`. */
    function GetGlobalAppId(): (r: string)
      ensures r == GlobalAppId(GetAppName(), GetAppId().value)
    {
      "app-" + FormatArg(GetAppName()) + "-" + FormatArg(GetAppId())
    }
  }

  /** The global id of an application with the given name and id. */
  function GlobalAppId(appName: Option<string>, appId: string): (r: string)
    ensures |r| == 5 + |FormatArg(appName)| + |appId|
    ensures r[..4] == "app-"
  {
    "app-" + FormatArg(appName) + "-" + appId
  }

  /** `StreamApplication`: known here by its configuration only. */
  datatype StreamApplication = StreamApplication(config: Config)
  {
    /** `getGlobalAppId`: the global id of the application's own `AppConfig`. */
    function GetGlobalAppId(): (r: string)
      ensures r == GlobalAppId(AppConfig(config).GetAppName(), AppConfig(config).GetAppId().value)
    {
      AppConfig(config).GetGlobalAppId()
    }
  }

  /** The position of the first '-' in `s`, or `|s|` when there is none. */
  function DashIndex(s: string): (k: nat)
    ensures k <= |s|
    ensures forall i :: 0 <= i < k ==> s[i] != '-'
    ensures k < |s| ==> s[k] == '-'
  {
    if s == [] || s[0] == '-' then 0
    else
      var k := 1 + DashIndex(s[1..]);
      assert forall i :: 1 <= i < k ==> s[i] == s[1..][i - 1];
      k
  }

  /**
   * Reads a global app id back into its name and id: the name runs from
   * after "app-" to the next '-', the id is the rest.
   */
  function ParseGlobalAppId(globalAppId: string): (r: Option<(string, string)>)
  {
    if |globalAppId| < 4 || globalAppId[..4] != "app-" then None
    else
      var rest := globalAppId[4..];
      var k := DashIndex(rest);
      if k == |rest| then None else Some((rest[..k], rest[k + 1..]))
  }

  /**
   * A global id determines the name and id it was built from whenever the
   * name has no '-' in it (the id may hold any characters).
   */
  lemma {:induction false} GlobalAppIdRoundTrip(appName: string, appId: string)
    requires forall i :: 0 <= i < |appName| ==> appName[i] != '-'
    ensures ParseGlobalAppId(GlobalAppId(Some(appName), appId)) == Some((appName, appId))
  {
    var g := GlobalAppId(Some(appName), appId);
    var rest := appName + ("-" + appId);
    AppendAssociative("app-", appName, "-");
    AppendAssociative("app-", appName + "-", appId);
    AppendAssociative(appName, "-", appId);
    assert g == "app-" + rest;
    assert g[4..] == rest;
    DashIndexOfPrefix(appName, "-" + appId);
    assert rest[..|appName|] == appName;
    assert rest[|appName| + 1..] == appId;
  }

  /** The first dash of `a + b`, when `a` has none and `b` starts with one, is at `|a|`. */
  lemma {:induction false} DashIndexOfPrefix(a: string, b: string)
    requires forall i :: 0 <= i < |a| ==> a[i] != '-'
    requires |b| > 0 && b[0] == '-'
    ensures DashIndex(a + b) == |a|
    decreases |a|
  {
    if a == [] {
      assert a + b == b;
    } else {
      assert (a + b)[1..] == a[1..] + b;
      DashIndexOfPrefix(a[1..], b);
    }
  }

  /** Two applications whose names have no '-' share a global id only when they share name and id. */
  lemma GlobalAppIdInjective(name1: string, id1: string, name2: string, id2: string)
    requires forall i :: 0 <= i < |name1| ==> name1[i] != '-'
    requires forall i :: 0 <= i < |name2| ==> name2[i] != '-'
    requires GlobalAppId(Some(name1), id1) == GlobalAppId(Some(name2), id2)
    ensures name1 == name2 && id1 == id2
  {
    GlobalAppIdRoundTrip(name1, id1);
    GlobalAppIdRoundTrip(name2, id2);
  }

  /** Without any of the keys set, the app is unnamed, its id is "1" and its global id "app-null-1". */
  lemma EmptyConfigDefaults()
    ensures AppConfig(map[]).GetGlobalAppId() == "app-null-1"
    ensures AppConfig(map[]).GetApplicationRunnerClass() == DefaultRunnerClass
    ensures AppConfig(map[]).GetAppClass().None?
  {
  }
}

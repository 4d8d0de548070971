/**
  The entry point that runs the test cases of one scene: load the scene,
  collect its test cases, skip when there are none, run them all under a
  global time limit, unload the scene, and log the report.

  The host (the editor's scene manager and its console) is a `SceneHost`
  object: the set of loaded scene paths, and a trace of every host call and
  console line in order. The collector's answer, the runner's results and the
  set of scenes loaded once the runner is done (the test cases may load or
  unload scenes themselves) are parameters.
 */
module CommonSceneTestCase {

  import opened Wrappers
  import opened Interfaces
  import opened SuiteTimeout
  import opened TestReport

  datatype Level = Info | Warning

  /** One thing that happened during a run, in the order it happened. */
  datatype Event =
    | Load(path: string)          // the scene was not loaded; the host was asked to load it
    | SkipLoad(path: string)      // the scene was already loaded; the host was not called
    | Collect(found: bool)        // the collector scanned the loaded scenes
    | RunAll(options: RunnerOptions)
    | Unload(path: string)        // the scene was loaded; the host was asked to unload it
    | SkipUnload(path: string)    // the scene was not loaded; the host was not called
    | Log(level: Level, text: string)

  const LogTag: string := "[SceneTest] "

  /** Every console line is the package tag followed by the message. */
  function LogLine(msg: string): string
  {
    LogTag + msg
  }

  /** Tagging loses nothing: different messages give different console lines. */
  lemma LogLineInjective(a: string, b: string)
    requires LogLine(a) == LogLine(b)
    ensures a == b
  {
    assert a == LogLine(a)[|LogTag|..];
    assert b == LogLine(b)[|LogTag|..];
  }

  const NoTestCasesMessage: string :=
    "Not founded any ISceneTestCase implemented components. skipped testing."

  function AlreadyLoadedMessage(path: string): string { "Already loaded scene: " + path + ". skip load" }
  function LoadedMessage(path: string): string { "Loaded test scene: " + path }
  function AlreadyUnloadedMessage(path: string): string { "Already unloaded scene: " + path + ". skip unload" }
  function UnloadedMessage(path: string): string { "Unloaded test scene: " + path }

  // ---------------------------------------------------------------------------
  // What each step appends to the trace, as functions of the loaded set.

  function LoadTrace(loaded: set<string>, path: string): seq<Event>
  {
    if path in loaded then [SkipLoad(path), Log(Warning, LogLine(AlreadyLoadedMessage(path)))]
    else [Load(path), Log(Info, LogLine(LoadedMessage(path)))]
  }

  function UnloadTrace(loaded: set<string>, path: string): seq<Event>
  {
    if path !in loaded then [SkipUnload(path), Log(Warning, LogLine(AlreadyUnloadedMessage(path)))]
    else [Unload(path), Log(Info, LogLine(UnloadedMessage(path)))]
  }

  /**
    The whole trace of one RunTest call, starting from the loaded set `loaded`;
    `loadedAfterRun` is the set of loaded scenes once the runner is done.
   */
  function RunTestTrace(loaded: set<string>, path: string, timeoutMs: Option<int>,
                        found: bool, loadedAfterRun: set<string>, results: seq<CaseResult>): seq<Event>
  {
    LoadTrace(loaded, path) + [Collect(found)] +
    if !found then [Log(Warning, LogLine(NoTestCasesMessage))]
    else [RunAll(RunnerOptions(TimeoutSeconds(timeoutMs)))]
         + UnloadTrace(loadedAfterRun, path)
         + [Log(Info, LogLine(Report(results)))]
  }

  class SceneHost {
    /** Paths of the scenes currently loaded. */
    var loaded: set<string>
    /** Host calls, collector and runner calls, and console lines, oldest first. */
    var trace: seq<Event>

    constructor (initiallyLoaded: set<string>)
      ensures loaded == initiallyLoaded && trace == []
    {
      loaded := initiallyLoaded;
      trace := [];
    }

    /** A scene counts as loaded when the host knows it by its path. */
    predicate IsLoadedTestScene(path: string)
      reads this
    {
      path in loaded
    }

    method LoadTestSceneAsync(path: string)
      modifies this
      ensures loaded == old(loaded) + {path}
      ensures trace == old(trace) + LoadTrace(old(loaded), path)
      ensures old(path in loaded) ==> loaded == old(loaded)
      ensures IsLoadedTestScene(path)
    {
      if IsLoadedTestScene(path) {
        trace := trace + [SkipLoad(path), Log(Warning, LogLine(AlreadyLoadedMessage(path)))];
        return;
      }
      trace := trace + [Load(path)];
      loaded := loaded + {path};
      if IsLoadedTestScene(path) {
        trace := trace + [Log(Info, LogLine(LoadedMessage(path)))];
      }
    }

    method UnloadTestSceneAsync(path: string)
      modifies this
      ensures loaded == old(loaded) - {path}
      ensures trace == old(trace) + UnloadTrace(old(loaded), path)
      ensures old(path !in loaded) ==> loaded == old(loaded)
      ensures !IsLoadedTestScene(path)
    {
      if !IsLoadedTestScene(path) {
        trace := trace + [SkipUnload(path), Log(Warning, LogLine(AlreadyUnloadedMessage(path)))];
        return;
      }
      trace := trace + [Unload(path)];
      loaded := loaded - {path};
      if !IsLoadedTestScene(path) {
        trace := trace + [Log(Info, LogLine(UnloadedMessage(path)))];
      }
    }

    /**
      Runs the test cases of the scene at `path`. `timeoutMs` is the suite's
      Timeout property, if it has one; `found` is what the collector's Collect
      returns; `loadedAfterRun` is the set of loaded scenes once the runner is
      done, since the test cases run inside the host and may load or unload
      scenes; `results` are the results of the collected cases, in collection
      order, once the runner is done.
     */
    method RunTest(path: string, timeoutMs: Option<int>, found: bool,
                   loadedAfterRun: set<string>, results: seq<CaseResult>)
      modifies this
      ensures trace == old(trace) + RunTestTrace(old(loaded), path, timeoutMs, found, loadedAfterRun, results)
      ensures found ==> loaded == loadedAfterRun - {path}
      ensures !found ==> loaded == old(loaded) + {path}
    {
      LoadTestSceneAsync(path);

      trace := trace + [Collect(found)];
      if !found {
        trace := trace + [Log(Warning, LogLine(NoTestCasesMessage))];
        return;
      }

      var timeoutSec: real := 10.0;
      if timeoutMs.Some? {
        var ms := timeoutMs.value;
        timeoutSec := ms as real / 1000.0;
        timeoutSec := Max(0.01, timeoutSec - 0.1);
      }
      trace := trace + [RunAll(RunnerOptions(timeoutSec))];
      loaded := loadedAfterRun;

      UnloadTestSceneAsync(path);

      var reportsStr := BuildReport(results);
      trace := trace + [Log(Info, LogLine(reportsStr))];
    }
  }

  // ---------------------------------------------------------------------------
  // Properties of a run.

  /** The step an event belongs to; console lines belong to none. */
  datatype Step = LoadStep | CollectStep | RunStep | UnloadStep

  function StepOf(e: Event): Option<Step>
  {
    match e
    case Load(_) => Some(LoadStep)
    case SkipLoad(_) => Some(LoadStep)
    case Collect(_) => Some(CollectStep)
    case RunAll(_) => Some(RunStep)
    case Unload(_) => Some(UnloadStep)
    case SkipUnload(_) => Some(UnloadStep)
    case Log(_, _) => None
  }

  /** The steps a trace goes through, in order. */
  function Steps(t: seq<Event>): seq<Step>
  {
    if t == [] then []
    else (if StepOf(t[0]).Some? then [StepOf(t[0]).value] else []) + Steps(t[1..])
  }

  lemma {:induction false} StepsAppend(a: seq<Event>, b: seq<Event>)
    ensures Steps(a + b) == Steps(a) + Steps(b)
  {
    if a == [] {
      assert a + b == b;
    } else {
      assert (a + b)[0] == a[0];
      assert (a + b)[1..] == a[1..] + b;
      StepsAppend(a[1..], b);
    }
  }

  /** How many times the runner was started. */
  function RunCount(t: seq<Event>): nat
  {
    if t == [] then 0 else (if t[0].RunAll? then 1 else 0) + RunCount(t[1..])
  }

  lemma {:induction false} RunCountAppend(a: seq<Event>, b: seq<Event>)
    ensures RunCount(a + b) == RunCount(a) + RunCount(b)
  {
    if a == [] {
      assert a + b == b;
    } else {
      assert (a + b)[0] == a[0];
      assert (a + b)[1..] == a[1..] + b;
      RunCountAppend(a[1..], b);
    }
  }

  lemma TwoEventTrace(t: seq<Event>)
    requires |t| == 2 && StepOf(t[0]).Some? && t[1].Log?
    ensures Steps(t) == [StepOf(t[0]).value]
    ensures RunCount(t) == (if t[0].RunAll? then 1 else 0)
  {
    var rest := t[1..];
    assert rest[0] == t[1] && rest[1..] == [];
    assert Steps(rest) == [] && RunCount(rest) == 0;
  }

  lemma LoadTraceSteps(loaded: set<string>, path: string)
    ensures Steps(LoadTrace(loaded, path)) == [LoadStep]
    ensures RunCount(LoadTrace(loaded, path)) == 0
  {
    var t := LoadTrace(loaded, path);
    TwoEventTrace(t);
  }

  lemma UnloadTraceSteps(loaded: set<string>, path: string)
    ensures Steps(UnloadTrace(loaded, path)) == [UnloadStep]
    ensures RunCount(UnloadTrace(loaded, path)) == 0
  {
    var t := UnloadTrace(loaded, path);
    TwoEventTrace(t);
  }

  /**
    When the collector finds test cases, the steps happen in the order load,
    collect, run, unload, each exactly once, and the last thing is the report
    logged at Info level. When it finds none, only load and collect happen and
    the run ends with a warning: no runner, no unload, no report.
   */
  lemma RunTestStepOrder(loaded: set<string>, path: string, timeoutMs: Option<int>,
                         found: bool, loadedAfterRun: set<string>, results: seq<CaseResult>)
    ensures var t := RunTestTrace(loaded, path, timeoutMs, found, loadedAfterRun, results);
      && (found ==> Steps(t) == [LoadStep, CollectStep, RunStep, UnloadStep])
      && (found ==> t[|t| - 1] == Log(Info, LogLine(Report(results))))
      && (!found ==> Steps(t) == [LoadStep, CollectStep])
      && (!found ==> t[|t| - 1] == Log(Warning, LogLine(NoTestCasesMessage)))
      && (!found ==> |t| == 4 && forall i :: 0 <= i < |t| ==> t[i] != Log(Info, LogLine(Report(results))))
  {
    var t := RunTestTrace(loaded, path, timeoutMs, found, loadedAfterRun, results);
    var head := LoadTrace(loaded, path) + [Collect(found)];
    LoadTraceSteps(loaded, path);
    StepsAppend(LoadTrace(loaded, path), [Collect(found)]);
    var finalLog := Log(Info, LogLine(Report(results)));
    var warnLog := Log(Warning, LogLine(NoTestCasesMessage));
    if found {
      var run := [RunAll(RunnerOptions(TimeoutSeconds(timeoutMs)))];
      var unload := UnloadTrace(loadedAfterRun, path);
      UnloadTraceSteps(loadedAfterRun, path);
      assert t == head + run + unload + [finalLog];
      StepsAppend(head, run);
      StepsAppend(head + run, unload);
      StepsAppend(head + run + unload, [finalLog]);
    } else {
      assert t == head + [warnLog];
      StepsAppend(head, [warnLog]);
      // The report line starts with the banner's '=' right after the tag; the
      // other console lines of a skipped run start with 'L' or 'A' there.
      var reportLine := LogLine(Report(results));
      UnfoldJoin3(BannerLines);
      assert reportLine[|LogTag|] == '=';
      forall i | 0 <= i < |t| ensures t[i] != Log(Info, reportLine) {
        if i == 1 && !(path in loaded) {
          assert LogLine(LoadedMessage(path))[|LogTag|] == 'L';
        }
      }
    }
  }

  /**
    The runner is started exactly once when test cases were found and never
    otherwise, and every start carries the derived global time limit.
   */
  lemma RunTestStartsRunnerOnce(loaded: set<string>, path: string, timeoutMs: Option<int>,
                                found: bool, loadedAfterRun: set<string>, results: seq<CaseResult>)
    ensures var t := RunTestTrace(loaded, path, timeoutMs, found, loadedAfterRun, results);
      && RunCount(t) == (if found then 1 else 0)
      && forall i :: 0 <= i < |t| && t[i].RunAll? ==>
           t[i].options == RunnerOptions(TimeoutSeconds(timeoutMs))
  {
    var t := RunTestTrace(loaded, path, timeoutMs, found, loadedAfterRun, results);
    var head := LoadTrace(loaded, path) + [Collect(found)];
    LoadTraceSteps(loaded, path);
    RunCountAppend(LoadTrace(loaded, path), [Collect(found)]);
    var finalLog := Log(Info, LogLine(Report(results)));
    var warnLog := Log(Warning, LogLine(NoTestCasesMessage));
    if found {
      var run := [RunAll(RunnerOptions(TimeoutSeconds(timeoutMs)))];
      var unload := UnloadTrace(loadedAfterRun, path);
      UnloadTraceSteps(loadedAfterRun, path);
      assert t == head + run + unload + [finalLog];
      RunCountAppend(head, run);
      RunCountAppend(head + run, unload);
      RunCountAppend(head + run + unload, [finalLog]);
    } else {
      assert t == head + [warnLog];
      RunCountAppend(head, [warnLog]);
    }
  }
}

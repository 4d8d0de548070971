# UnitySceneTest: the scene test entry point, modelled in Dafny

UnitySceneTest runs the test cases that live inside a Unity scene.
`CommonSceneTestCase.RunTest` does this in order:

1. It loads the scene additively. If the scene is already loaded, it logs a warning instead.
2. It asks a collector for the test-case components of every loaded scene.
3. If the collector finds none, it logs a warning and stops.
4. Otherwise it starts a runner once, with a global time limit taken from the suite's `Timeout` property.
5. It unloads the scene. If the scene is no longer loaded, it logs a warning instead.
6. It logs a text report with one block per collected case.

This project models that entry point. It has five modules:

- `Wrappers`: `Option`.
- `Interfaces`: `RunnerOptions`, a record whose only field is `globalTimeoutSeconds`.
- `SuiteTimeout`: the limit the runner gets, as a function of the optional property in milliseconds.
- `TestReport`: the report text.
  - `Report` is a recursive definition of the text.
  - `BuildReport` is the loop that appends it, proved equal to `Report`.
  - The module also proves the report's line structure.
  - `ParseReport` reads a report back. A round-trip lemma shows the format loses nothing.
- `CommonSceneTestCase`: the host.
  - The editor's scene manager and its console are a `SceneHost` object.
  - `loaded` is the set of loaded scene paths.
  - `trace` is every host call, collector call, runner start and console line, in order.
  - `IsLoadedTestScene` is membership of a path in `loaded`.
  - `LoadTestSceneAsync`, `UnloadTestSceneAsync` and `RunTest` are methods that update both fields.
  - The test cases run inside the host and may load or unload scenes themselves, so the set of loaded scenes once the runner is done is a parameter of `RunTest`.
  - `RunTestTrace` gives the trace a run appends. The lemmas about step order and the runner start are stated on it.

Console lines are modelled with their exact text, including the `[SceneTest] ` prefix the logger adds.

Three details of the code that the model keeps:

- The banner's title line is `"        Test Report       "`, with seven trailing spaces.
- Each case block has four lines: name and state, message, duration, separator. So a report for n cases has 3 + 4n lines.
- `RunTest` unloads the scene at the end even if it was loaded before the run began. After a run that found cases, the path is not in `loaded`.

## Model

| member | source | states |
|---|---|---|
| `SuiteTimeout.TimeoutSeconds` | Editor/CommonSceneTestCase.cs:46-59 | With no Timeout property the limit is exactly 10 s. With `ms` milliseconds it is ms/1000 − 0.1 s whenever that is at least 0.01 s, and 0.01 s otherwise. It is never below 0.01 s. |
| `SuiteTimeout.Max` | Editor/CommonSceneTestCase.cs:58 | The result is at least both arguments and equals one of them. |
| `SuiteTimeout.TimeoutMonotonic` | Editor/CommonSceneTestCase.cs:55-58 | A longer suite Timeout never gives the runner a shorter limit. |
| `SuiteTimeout.TimeoutEndsBeforeSuiteLimit` | Editor/CommonSceneTestCase.cs:55-58 | For a suite Timeout of at least 110 ms, the runner's limit is exactly 0.1 s shorter than the suite's own, so the run ends before the suite times out. |
| `SuiteTimeout.TimeoutBelowSuiteLimit` | Editor/CommonSceneTestCase.cs:55-58 | For a suite Timeout above 10 ms, the runner's limit is strictly shorter than the suite's own, including where the 0.01 s floor applies. |
| `SuiteTimeout.TimeoutFloorReachesSuiteLimit` | Editor/CommonSceneTestCase.cs:55-58 | For a suite Timeout of 10 ms or less, the 0.01 s floor is at least the suite's own limit, so the safety margin does not protect the suite. |
| `TestReport.CaseLines` | Editor/CommonSceneTestCase.cs:81-90 | Each case contributes exactly four lines, and the last one is the separator. |
| `TestReport.BlockText` | Editor/CommonSceneTestCase.cs:81-90 | A case's block is `name: state`, `msg: message`, `duration: duration` and the separator, each ending in a newline, appended in that order. |
| `TestReport.BuildReport` | Editor/CommonSceneTestCase.cs:71-90 | The loop writes the banner and then appends each case's block in collection order. The resulting text equals `Report(results)`. |
| `TestReport.BlocksAppend` | Editor/CommonSceneTestCase.cs:77-90 | Adding one more case adds exactly that case's block after the earlier blocks. |
| `TestReport.ReportAppend` | Editor/CommonSceneTestCase.cs:77-90 | Adding one more case extends the report by exactly that case's block. The earlier text is a prefix of the new report. |
| `TestReport.ReportIsJoinOfLines` | Editor/CommonSceneTestCase.cs:71-90 | The report text is its lines (banner lines, then case lines), each ending in a newline. |
| `TestReport.ReportLinesShape` | Editor/CommonSceneTestCase.cs:71-90 | The line list `ReportLines(rs)` has 3 + 4n entries. The first three are the banner. Entry 3 + 4k + j is line j of case k's block. `ReportTextLines` carries this over to the text. |
| `TestReport.ReportEndsWithSeparator` | Editor/CommonSceneTestCase.cs:90 | A report with at least one case ends with the separator line. |
| `TestReport.ReportTextLines` | Editor/CommonSceneTestCase.cs:71-90 | If no field of any case holds a newline, the report text splits into exactly the banner lines and then four lines per case. So it has 3 + 4n lines, and line 3 + 4k + j is line j of case k's block. |
| `TestReport.CasesLinesHaveNoNewline` | Editor/CommonSceneTestCase.cs:81-90 | If no field of any case holds a newline, no line written for the cases holds one. |
| `TestReport.SplitJoin` | Editor/CommonSceneTestCase.cs:71-90 | Helper lemma about the model's own `Join`/`SplitLines`, used by `ReportTextLines`. Splitting newline-terminated lines that contain no newline gives back exactly those lines. |
| `TestReport.ParseCaseLines` | Editor/CommonSceneTestCase.cs:81-90 | If a case's fields hold no newline and its name holds no colon, its four lines read back as that case. |
| `TestReport.ParseReportRoundTrip` | Editor/CommonSceneTestCase.cs:71-90 | If no field holds a newline and no name holds a colon, reading a report back gives exactly the case results, in collection order. |
| `CommonSceneTestCase.LogLineInjective` | Editor/CommonSceneTestCase.cs:15-25 | `LogLine` writes the `[SceneTest] ` tag before the message. Two messages give the same console line only if they are the same message, so the tag hides nothing. |
| `CommonSceneTestCase.SceneHost.LoadTestSceneAsync` | Editor/CommonSceneTestCase.cs:148-168 | If the path is already loaded, the loaded set stays the same and only an "Already loaded scene" warning is logged. Otherwise the host loads the scene, the path is added, and "Loaded test scene" is logged. The guard is `IsLoadedTestScene` (cs:121-128), membership in the loaded set. Afterwards `IsLoadedTestScene(path)` holds, which is the post-check at cs:164. |
| `CommonSceneTestCase.SceneHost.UnloadTestSceneAsync` | Editor/CommonSceneTestCase.cs:130-146 | If the path is not loaded, the loaded set stays the same and only an "Already unloaded scene" warning is logged. Otherwise the host unloads the scene, the path is removed, and "Unloaded test scene" is logged. The guard is `IsLoadedTestScene` (cs:121-128). Afterwards `IsLoadedTestScene(path)` is false, which is the post-check at cs:142. |
| `CommonSceneTestCase.SceneHost.RunTest` | Editor/CommonSceneTestCase.cs:27-119 | The trace grows by exactly `RunTestTrace` of the loaded set before the run. The step-by-step timeout computation equals `TimeoutSeconds`, and the logged report equals `Report(results)`. The unload guard is checked against the scenes loaded once the runner is done, so a scene the test cases already unloaded gives the "Already unloaded scene" warning. When cases were found the scene is not loaded afterwards; when none were, it stays loaded. |
| `CommonSceneTestCase.RunTestStepOrder` | Editor/CommonSceneTestCase.cs:27-117 | When cases are found, the steps are load, collect, run, unload, each exactly once and in that order, and the last event is the report logged at Info level. When none are found, only load and collect happen, and the run ends with the "Not founded any ISceneTestCase" warning. That run's trace has exactly four events, none of them the report line: no runner, no unload, no report. |
| `CommonSceneTestCase.RunTestStartsRunnerOnce` | Editor/CommonSceneTestCase.cs:34-65 | The runner starts exactly once when cases are found and never otherwise. Every start carries `RunnerOptions` with only `globalTimeoutSeconds`, set to the derived limit. |
| `CommonSceneTestCase.StepsAppend` | Editor/CommonSceneTestCase.cs:27-68 | Helper lemma about the model's own `Steps`, used by `RunTestStepOrder`. The steps of two traces joined together are the steps of the first, then the steps of the second. |
| `CommonSceneTestCase.RunCountAppend` | Editor/CommonSceneTestCase.cs:62-65 | Helper lemma about the model's own `RunCount`, used by `RunTestStartsRunnerOnce`. The runner starts in two traces joined together add up. |

## Left out

- Unity's asynchronous scene loading and unloading, and `Scene.IsValid()`, are modelled as inserting a path into, and removing it from, the loaded set. The model assumes the host call succeeds, so the follow-up "Loaded"/"Unloaded" Info line is always written. Host failures are not modelled.
- Coroutine suspension (`yield return`) is not modelled. Each step is a plain call that completes before the next one starts.
- The collector (`SceneTestCaseCollecter`) and the runner (`SceneTestRunner`) are not part of this model. That includes discovery, per-case local timeouts, cancellation and timeout arbitration. `RunTest` takes `found`, the answer of `Collect()`, and `results`, the cases' results after the run in collection order, as parameters.
- `Run(ids, options)` of the runner interface is never called by the entry point and is not modelled.
- Every collected case is assumed to have a result when the report is built. In the source a case without one makes the report loop fail after the scene is unloaded, and no report is logged; that failure is not modelled.
- The NUnit property-bag lookup and the `(int)` cast are not modelled. The suite's Timeout property is an `Option<int>` of milliseconds.
- `SuiteTimeout.TimeoutSeconds`: single-precision float arithmetic (`/ 1000f`, `- 0.1f`, `Mathf.Max`) is computed with exact reals, so float rounding is not modelled.
- The result state and the duration are taken as already-rendered strings, so their `ToString` formatting is not modelled.
- The custom-info and timeout-info code inside the report loop is commented out in the source and is not modelled.
- `UnityEngine.Debug.Log` and `LogWarning` are modelled as `Log` events, each with a level and the exact text, appended to the trace. `LogLine` builds that text the way the `Log.Info` and `Log.Warning` helpers do.
- The editor drawer (`Editor/EdaTestBehaviourDrawer.cs`) draws a GUI and has no logic to model.

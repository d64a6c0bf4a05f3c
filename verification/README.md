# BuildCop / BuildCheck core and the container base-image tag, in Dafny

This project models four small pieces of MSBuild's build-analysis framework
(called "BuildCop" in older sources, "BuildCheck" in newer ones) and of the
.NET SDK's container tooling, and proves properties of them.

- **Analyzer configuration** (`analyzer_configuration.dfy`, module `BuildCopApi`):
  `Create` turns one rule's key/value pairs into a record of three optional
  settings — evaluation analysis scope, severity, enabled — each read from
  its own key and parsed case-insensitively. A missing key or an unparsable
  value leaves the setting absent; nothing is an error. `Default` and `Null`
  are constant records.
- **Registration context** (`registration_context.dfy`, module
  `BuildCopInfrastructure`): the object through which one analyzer registers
  its actions. It counts the calls per event kind; the first call of a kind
  forwards the action to the central context, every later one is refused
  with a configuration exception naming the analyzer and the method. The
  central context is a class holding the sequence of registrations it
  received. The behaviour of a whole history of calls is given by the
  functions `Occurrences` and `Forwarded`, which the class keeps in step with
  its counters through `Valid()`.
- **Dispatching context** (`dispatching_context.dfy`, module
  `BuildCheckInfrastructure`): turns analyzer findings into host log events.
  Each comment, warning or error call appends exactly one event, carrying
  the build event context fixed at construction, to the shared event
  dispatcher (a class holding the dispatched sequence); the telemetry calls
  do nothing.
- **Base-image tag** (`base_image_tag.dfy`, module `ContainersTasks`): the
  MSBuild task that picks the tag of the .NET base container image from the
  target framework (TFM) version and the SDK version: `major.minor`,
  `major.minor-channel.bump` for an `rc`/`preview` SDK from .NET 8 on, or an
  error. The decision is the pair of functions `ComputeVersionInternal` and
  `DetermineLabelBasedOnChannel`; `Execute` is a method of a task class that
  sets the output tag and logs errors. Release labels are the dot-separated
  pre-release identifiers of Semantic Versioning 2.0.0, item 9. Parsing a
  version string is done by a library (NuGet's `SemanticVersion.TryParse`)
  that is not part of this model: `Execute` takes it as a parameter
  `tryParse`. When the TFM does not parse but the SDK does, the source reads
  `tfm.Major` of a null `tfm`; the model makes that an explicit
  `NullReference` outcome.

`wrappers.dfy` holds the `Option` datatype that stands for C#'s nullable types.

Notes on what the code does, which the model follows:

- `Create` looks the keys up exactly as written: `"EvaluationAnalysisScope"`,
  `"severity"` (lower case) and `"IsEnabled"`. The dictionary's comparer and
  any key normalisation done before `Create` are not part of this model, so
  under the model a key spelled `Severity` is not read
  (`EnabledWarningRule`, `DisabledRuleWithCustomSwitch`).
- `ComputeVersionInternal` compares the majors and the minors separately:
  the TFM's `major.minor` is used when `tfm.Major < sdk.Major` or
  `tfm.Minor < sdk.Minor`, so a TFM newer than the SDK by major but not by
  minor takes the SDK's `major.minor`. The model keeps that comparison.
- A pre-release label list that is a lone `rc` or `preview` with no bump, or
  that starts with any other label (the comparison is case-sensitive, so
  `RC` too), is logged as an invalid pre-release; the tag is then absent but
  `Execute` still reports success.

## Model

| member | source | states |
|---|---|---|
| `BuildCopApi.EqualsIgnoreCase` | src/Build/BuildCop/API/BuildAnalyzerConfiguration.cs:69-77 | two strings match ignoring case exactly when they have the same length and agree character by character after case folding |
| `BuildCopApi.ParseBool` | src/Build/BuildCop/API/BuildAnalyzerConfiguration.cs:69-73 | the text parses to `b` exactly when it is `b`'s name ("True"/"False") in some letter case; anything else is absent |
| `BuildCopApi.ParseScope` | src/Build/BuildCop/API/BuildAnalyzerConfiguration.cs:75-77 | the text parses to a scope exactly when it is that member's name in some letter case |
| `BuildCopApi.ParseSeverity` | src/Build/BuildCop/API/BuildAnalyzerConfiguration.cs:75-77 | the text parses to a severity exactly when it is that member's name in some letter case; at most one member matches |
| `BuildCopApi.TryExtractValue` | src/Build/BuildCop/API/BuildAnalyzerConfiguration.cs:59-80 | a missing key gives an absent value; a present key gives exactly what its text parses to |
| `BuildCopApi.Create` | src/Build/BuildCop/API/BuildAnalyzerConfiguration.cs:49-57 | each of the three settings is present with value `v` exactly when its own key is in the map and its text names `v` ignoring case |
| `BuildCopApi.DefaultAndNull` | src/Build/BuildCop/API/BuildAnalyzerConfiguration.cs:20-27 | `Default` is scope AnalyzedProjectOnly, severity Info, disabled; `Null` has every setting absent and is what an empty map yields |
| `BuildCopApi.MissingKeyLeavesSettingAbsent` | src/Build/BuildCop/API/BuildAnalyzerConfiguration.cs:59-65 | a setting whose key is missing is absent, whatever else the map holds |
| `BuildCopApi.SettingsAreIndependent` | src/Build/BuildCop/API/BuildAnalyzerConfiguration.cs:51-56 | two maps that agree on one key give the same value for that key's setting |
| `BuildCopApi.UnrecognisedKeyIsIgnored` | src/Build/BuildCop/API/BuildAnalyzerConfiguration.cs:51-56 | adding or changing any key other than the three recognised ones leaves the result unchanged |
| `BuildCopApi.UnparsableValueIsAbsent` | src/Build/BuildCop/API/BuildAnalyzerConfiguration.cs:67-79 | an `IsEnabled` text that is neither boolean name gives an absent setting, not a failure |
| `BuildCopApi.CreateRoundTrip` | src/Build/BuildCop/API/BuildAnalyzerConfiguration.cs:51-77 | a map holding the names of any scope, severity and boolean, in any letter case, parses back to exactly those three values |
| `BuildCopApi.NamesRoundTrip` | src/Build/BuildCop/API/BuildAnalyzerConfiguration.cs:69-77 | every member name and boolean name parses back to its own value |
| `BuildCopApi.SeverityIgnoresCase` | src/Build/BuildCop/API/BuildAnalyzerConfiguration.cs:77 | "warning" gives Warning, "Error" and "ERROR" give Error, "TRUE" gives true |
| `BuildCopApi.EnabledWarningRule` | src/Analyzers.UnitTests/EndToEndTests.cs:93-94 | rule BC0101's settings as written (key `Severity`) give enabled with no severity and no scope, since the lookup is exact |
| `BuildCopApi.EnabledWarningRuleLowerCaseKey` | src/Build/BuildCop/API/BuildAnalyzerConfiguration.cs:54-55 | the same settings with the key spelled `severity`, as Create looks it up, give enabled Warning with no scope |
| `BuildCopApi.DisabledRuleWithCustomSwitch` | src/Analyzers.UnitTests/EndToEndTests.cs:96-99 | rule COND0543's settings give disabled, scope AnalyzedProjectOnly; the custom switch is ignored and the key "Severity" is not read |
| `BuildCopInfrastructure.ForwardedOfKind` | src/Build/BuildCop/Infrastructure/BuildCopContext.cs:15-35 | after any sequence of calls, the forwarded registrations of a kind are none if that kind was never called, otherwise exactly the first call's action |
| `BuildCopInfrastructure.AtMostOnePerKind` | src/Build/BuildCop/Infrastructure/BuildCopContext.cs:15-35 | one registration context forwards at most one action per event kind |
| `BuildCopInfrastructure.KindsAreIndependent` | src/Build/BuildCop/Infrastructure/BuildCopContext.cs:12-35 | what is forwarded for a kind, and that kind's counter, depend only on the calls of that kind |
| `BuildCopInfrastructure.BuildCopRegistrationContext.constructor` | src/Build/BuildCop/Infrastructure/BuildCopContext.cs:10-13 | both counters start at zero and nothing has been forwarded |
| `BuildCopInfrastructure.BuildCopRegistrationContext.RegisterEvaluatedPropertiesAction` | src/Build/BuildCop/Infrastructure/BuildCopContext.cs:15-24 | the counter grows by one on every call; the call succeeds and forwards exactly its action iff the counter was zero; otherwise it is rejected with an exception whose message names the analyzer's friendly name and the method, and the central context is unchanged; the other counter never changes |
| `BuildCopInfrastructure.BuildCopRegistrationContext.RegisterParsedItemsAction` | src/Build/BuildCop/Infrastructure/BuildCopContext.cs:26-35 | as above, for the parsed-items counter and kind |
| `BuildCheckInfrastructure.CheckDispatchingContext.constructor` | src/Build/BuildCheck/Infrastructure/CheckContext/CheckDispatchingContext.cs:20-28 | the dispatcher and the build event context are the ones given; the build event context is read-only from then on |
| `BuildCheckInfrastructure.CheckDispatchingContext.DispatchBuildEvent` | src/Build/BuildCheck/Infrastructure/CheckContext/CheckDispatchingContext.cs:30-35 | a missing event is an internal error and dispatches nothing; otherwise exactly that event is appended |
| `BuildCheckInfrastructure.CheckDispatchingContext.DispatchAsComment` | src/Build/BuildCheck/Infrastructure/CheckContext/CheckDispatchingContext.cs:37-42 | an empty resource name is an internal error and dispatches nothing; otherwise one message event with the context's build event context, the importance, the resource and the arguments is appended |
| `BuildCheckInfrastructure.CheckDispatchingContext.DispatchAsCommentFromText` | src/Build/BuildCheck/Infrastructure/CheckContext/CheckDispatchingContext.cs:44-45 | appends one message event with the context's build event context, the text and no arguments |
| `BuildCheckInfrastructure.CheckDispatchingContext.DispatchAsCommentWithContext` | src/Build/BuildCheck/Infrastructure/CheckContext/CheckDispatchingContext.cs:47-52 | appends exactly one message event built from its arguments |
| `BuildCheckInfrastructure.CheckDispatchingContext.DispatchAsErrorFromText` | src/Build/BuildCheck/Infrastructure/CheckContext/CheckDispatchingContext.cs:54-59 | appends exactly one error event with the context's build event context and the given code, location and text |
| `BuildCheckInfrastructure.CheckDispatchingContext.DispatchAsWarningFromText` | src/Build/BuildCheck/Infrastructure/CheckContext/CheckDispatchingContext.cs:61-66 | appends exactly one warning event with the context's build event context and the given code, location and text |
| `BuildCheckInfrastructure.CheckDispatchingContext.DispatchFailedAcquisitionTelemetry` | src/Build/BuildCheck/Infrastructure/CheckContext/CheckDispatchingContext.cs:68-70 | the dispatched sequence is unchanged |
| `BuildCheckInfrastructure.CheckDispatchingContext.DispatchTelemetry` | src/Build/BuildCheck/Infrastructure/CheckContext/CheckDispatchingContext.cs:72-74 | the dispatched sequence is unchanged |
| `BuildCheckInfrastructure.TwoWarningsScenario` | src/Build/BuildCheck/Infrastructure/CheckContext/CheckDispatchingContext.cs:61-74 | two warnings reported for one rule give two warning events, in order, with the context's build event context, the rule's code and their own texts; telemetry and a rejected comment add nothing |
| `ContainersTasks.DetermineLabelBasedOnChannel` | Microsoft.NET.Build.Containers/Tasks/ComputeDotnetBaseImageTag.cs:72-78 | labels starting with exactly "rc" or "preview" and a bump give `major.minor-channel.bump`; any other non-empty list is an invalid pre-release naming its first label; an empty list gives `major.minor` |
| `ContainersTasks.ComputeVersionInternal` | Microsoft.NET.Build.Containers/Tasks/ComputeDotnetBaseImageTag.cs:55-70 | a TFM older by major or by minor gives the TFM's `major.minor`; otherwise a stable or pre-.NET 8 SDK gives the SDK's `major.minor`, and a .NET 8+ SDK whose labels start with "rc" or "preview" followed by a bump gives `major.minor-channel.bump`; conversely a channel appears only in that case; the error case holds exactly when a .NET 8+ pre-release SDK's labels are not of that form, and names the first label; the tag's version is always the TFM's or the SDK's |
| `ContainersTasks.ChannelIsExact` | Microsoft.NET.Build.Containers/Tasks/ComputeDotnetBaseImageTag.cs:75-76 | "RC" is an invalid channel, a lone "rc" with no bump is invalid, and extra labels after the bump are ignored |
| `ContainersTasks.ComputeDotnetBaseImageTag.constructor` | Microsoft.NET.Build.Containers/Tasks/ComputeDotnetBaseImageTag.cs:28-32 | both version strings start empty, no tag is set and nothing is logged |
| `ContainersTasks.ComputeDotnetBaseImageTag.LogInvalidPrereleaseError` | Microsoft.NET.Build.Containers/Tasks/ComputeDotnetBaseImageTag.cs:80-84 | logs one invalid-pre-release error naming the channel and yields no tag |
| `ContainersTasks.ComputeDotnetBaseImageTag.Execute` | Microsoft.NET.Build.Containers/Tasks/ComputeDotnetBaseImageTag.cs:34-52 | a TFM before .NET 8 sets its `major.minor` and succeeds whatever the SDK; otherwise an unparsable SDK logs an error, sets no tag and fails; a parsable SDK with an unparsable TFM is a null dereference; with both parsed, the tag is the computed one, or absent with one logged error, and Execute returns true; it fails exactly when it logs an invalid SDK version |

## Left out

- The merging of analyzer defaults with user overrides, the central dispatch table, the failure isolator and the duplicate-rule-id checks are not part of this model: they live in other parts of the build engine.
- `BuildCopApi.ParseScope`, `BuildCopApi.ParseSeverity`: .NET's `Enum.TryParse` also accepts a member's numeric value as a string, comma-separated flag names and surrounding white space; none of that is modelled.
- `BuildCopApi.ParseBool`: .NET's `bool.TryParse` also trims surrounding white space and trailing null characters; not modelled.
- `BuildCopApi.EqualsIgnoreCase`: folds only ASCII letters; .NET's ordinal case-insensitive comparison folds all of Unicode.
- The declarations of the two enumerations are not part of this model: the scope has only its member `AnalyzedProjectOnly`, the severity only `Info`, `Warning` and `Error`.
- `TryExtractValue`'s third branch (a type that is neither `bool` nor an enumeration, which returns false) is not reachable from `Create` and is not modelled; the model passes the parser for the setting's type.
- The dictionary's key comparer and any key normalisation done by the configuration reader are not part of this model; lookup is exact.
- `BuildCopInfrastructure.BuildCopRegistrationContext.RegisterEvaluatedPropertiesAction`, `BuildCopInfrastructure.BuildCopRegistrationContext.RegisterParsedItemsAction`: the counters are unbounded integers; the 32-bit wrap-around of `Interlocked.Increment` after 2^31 calls, and the atomicity of the increment under concurrent calls, are not modelled (calls are sequential).
- The central context's own registration methods are modelled only as appending to its sequence of registrations; what it does with them is not part of this model.
- Event creation helpers, resource-string lookup and message formatting are foreign code: events keep the resource name or text and the arguments as given. A null resource name passed to `DispatchAsComment` (also an internal error in the source) is not modelled; the model's resource name is never null.
- `EventArgsDispatcher.Dispatch` is modelled as appending the event to a sequence; delivery to loggers is not modelled.
- NuGet's `SemanticVersion.TryParse` is a parameter of `Execute`; versions carry only major, minor and release labels, and `IsPrerelease` means a non-empty label list.
- The text of logged errors (resource strings) is not modelled; a logged error records its kind and its argument.

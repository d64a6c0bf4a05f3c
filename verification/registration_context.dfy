/** The registration context handed to one analyzer while it registers its
    actions (src/Build/BuildCop/Infrastructure/BuildCopContext.cs).

    The context keeps one call counter per event kind. A call increments its
    kind's counter; the first call of a kind forwards the action to the
    central context, every later call of that kind is refused with a
    configuration exception and forwards nothing. Calls are modelled one at a
    time; the atomicity of the increment is not part of this model. */
module BuildCopInfrastructure {

  /** The two kinds of data an analyzer can subscribe to. */
  datatype EventKind = EvaluatedProperties | ParsedItems

  /** Stands for the delegate an analyzer registers; only its identity matters. */
  datatype AnalysisAction = AnalysisAction(id: nat)

  /** The wrapper around one analyzer instance; the model keeps its friendly name. */
  datatype BuildAnalyzerWrapper = BuildAnalyzerWrapper(instanceId: nat, friendlyName: string)

  /** A binding of one analyzer's action to one event kind, as held by the central context. */
  datatype Registration = Registration(analyzer: BuildAnalyzerWrapper, kind: EventKind, action: AnalysisAction)

  /** One call of RegisterEvaluatedPropertiesAction or RegisterParsedItemsAction. */
  datatype RegistrationCall = RegistrationCall(kind: EventKind, action: AnalysisAction)

  /** The exception thrown on a repeated registration. */
  datatype BuildCopConfigurationException = BuildCopConfigurationException(analyzerName: string, methodName: string) {
    function Message(): string {
      "Analyzer '" + analyzerName + "' attempted to call '" + methodName + "' multiple times."
    }
  }

  datatype RegistrationOutcome = Registered | Rejected(exception: BuildCopConfigurationException)

  function MethodName(kind: EventKind): string {
    match kind
    case EvaluatedProperties => "RegisterEvaluatedPropertiesAction"
    case ParsedItems => "RegisterParsedItemsAction"
  }

  // ---------------------------------------------------------------------------
  // Specification over the history of calls made on one registration context
  // ---------------------------------------------------------------------------

  /** Number of calls of kind `k` in `calls`: the value of that kind's counter. */
  function Occurrences(calls: seq<RegistrationCall>, k: EventKind): nat
  {
    if calls == [] then 0
    else Occurrences(calls[..|calls| - 1], k) + (if calls[|calls| - 1].kind == k then 1 else 0)
  }

  /** What one call forwards to the central context, given the calls before it:
      its registration if no earlier call had its kind, nothing otherwise. */
  function NewlyForwarded(analyzer: BuildAnalyzerWrapper, before: seq<RegistrationCall>, call: RegistrationCall): seq<Registration>
  {
    if Occurrences(before, call.kind) == 0 then [Registration(analyzer, call.kind, call.action)] else []
  }

  /** Everything a registration context forwarded after the calls `calls`, in order. */
  function Forwarded(analyzer: BuildAnalyzerWrapper, calls: seq<RegistrationCall>): seq<Registration>
  {
    if calls == [] then []
    else Forwarded(analyzer, calls[..|calls| - 1]) + NewlyForwarded(analyzer, calls[..|calls| - 1], calls[|calls| - 1])
  }

  /** The registrations of kind `k` in `regs`, in order. */
  function OfKind(regs: seq<Registration>, k: EventKind): seq<Registration>
  {
    if regs == [] then []
    else OfKind(regs[..|regs| - 1], k) + (if regs[|regs| - 1].kind == k then [regs[|regs| - 1]] else [])
  }

  /** The calls of kind `k` in `calls`, in order. */
  function CallsOfKind(calls: seq<RegistrationCall>, k: EventKind): seq<RegistrationCall>
  {
    if calls == [] then []
    else CallsOfKind(calls[..|calls| - 1], k) + (if calls[|calls| - 1].kind == k then [calls[|calls| - 1]] else [])
  }

  /** Index of the first call of kind `k`. */
  function FirstOfKind(calls: seq<RegistrationCall>, k: EventKind): (i: nat)
    requires Occurrences(calls, k) > 0
    ensures i < |calls| && calls[i].kind == k
    ensures Occurrences(calls[..i], k) == 0
  {
    var before := calls[..|calls| - 1];
    if Occurrences(before, k) > 0 then
      var i := FirstOfKind(before, k);
      assert calls[..i] == before[..i];
      i
    else
      assert calls[..|calls| - 1] == before;
      |calls| - 1
  }

  lemma {:induction false} OfKindAppend(a: seq<Registration>, b: seq<Registration>, k: EventKind)
    ensures OfKind(a + b, k) == OfKind(a, k) + OfKind(b, k)
    decreases |b|
  {
    if b == [] {
      assert a + b == a;
    } else {
      var b' := b[..|b| - 1];
      assert (a + b)[..|a + b| - 1] == a + b';
      OfKindAppend(a, b', k);
    }
  }

  /** The registrations of kind `k` that one context forwards: none before the
      first call of that kind, afterwards exactly the first call's action,
      however many calls followed. */
  lemma {:induction false} ForwardedOfKind(analyzer: BuildAnalyzerWrapper, calls: seq<RegistrationCall>, k: EventKind)
    ensures OfKind(Forwarded(analyzer, calls), k) ==
      if Occurrences(calls, k) == 0 then []
      else [Registration(analyzer, k, calls[FirstOfKind(calls, k)].action)]
  {
    if calls != [] {
      var before, last := calls[..|calls| - 1], calls[|calls| - 1];
      ForwardedOfKind(analyzer, before, k);
      OfKindAppend(Forwarded(analyzer, before), NewlyForwarded(analyzer, before, last), k);
      var added := NewlyForwarded(analyzer, before, last);
      assert OfKind(added, k) == if added != [] && last.kind == k then added else [] by {
        if added != [] {
          assert added[..0] == [];
        }
      }
    }
  }

  /** At most one action per event kind reaches the central context from one
      registration context. */
  lemma AtMostOnePerKind(analyzer: BuildAnalyzerWrapper, calls: seq<RegistrationCall>, k: EventKind)
    ensures |OfKind(Forwarded(analyzer, calls), k)| <= 1
  {
    ForwardedOfKind(analyzer, calls, k);
  }

  /** The two kinds are independent: what is forwarded for kind `k` depends
      only on the calls of kind `k`. */
  lemma {:induction false} KindsAreIndependent(analyzer: BuildAnalyzerWrapper, calls: seq<RegistrationCall>, k: EventKind)
    ensures OfKind(Forwarded(analyzer, calls), k) == Forwarded(analyzer, CallsOfKind(calls, k))
    ensures Occurrences(calls, k) == |CallsOfKind(calls, k)|
  {
    if calls != [] {
      var before, last := calls[..|calls| - 1], calls[|calls| - 1];
      KindsAreIndependent(analyzer, before, k);
      var added := NewlyForwarded(analyzer, before, last);
      OfKindAppend(Forwarded(analyzer, before), added, k);
      var filtered := CallsOfKind(before, k);
      if added != [] {
        assert added[..0] == [];
      }
      if last.kind == k {
        var filtered' := filtered + [last];
        assert CallsOfKind(calls, k) == filtered';
        assert filtered'[..|filtered'| - 1] == filtered && filtered'[|filtered'| - 1] == last;
        OccurrencesOfFiltered(before, k);
        assert OfKind(added, k) == added;
        assert NewlyForwarded(analyzer, filtered, last) == added;
      } else {
        assert CallsOfKind(calls, k) == filtered + [] == filtered;
        assert OfKind(added, k) == [];
      }
    }
  }

  lemma {:induction false} OccurrencesOfFiltered(calls: seq<RegistrationCall>, k: EventKind)
    ensures Occurrences(CallsOfKind(calls, k), k) == Occurrences(calls, k)
  {
    if calls != [] {
      var before, last := calls[..|calls| - 1], calls[|calls| - 1];
      OccurrencesOfFiltered(before, k);
      var filtered := CallsOfKind(before, k);
      if last.kind == k {
        var filtered' := filtered + [last];
        assert CallsOfKind(calls, k) == filtered';
        assert filtered'[..|filtered'| - 1] == filtered && filtered'[|filtered'| - 1] == last;
      } else {
        assert CallsOfKind(calls, k) == filtered + [] == filtered;
      }
    }
  }

  // ---------------------------------------------------------------------------
  // The central context and the registration context
  // ---------------------------------------------------------------------------

  /** The central context, as far as registration is concerned: the
      registrations it has received, in order. */
  class BuildCopCentralContext {
    var registrations: seq<Registration>

    constructor ()
      ensures registrations == []
    {
      registrations := [];
    }

    method RegisterEvaluatedPropertiesAction(analyzer: BuildAnalyzerWrapper, action: AnalysisAction)
      modifies this
      ensures registrations == old(registrations) + [Registration(analyzer, EvaluatedProperties, action)]
    {
      registrations := registrations + [Registration(analyzer, EvaluatedProperties, action)];
    }

    method RegisterParsedItemsAction(analyzer: BuildAnalyzerWrapper, action: AnalysisAction)
      modifies this
      ensures registrations == old(registrations) + [Registration(analyzer, ParsedItems, action)]
    {
      registrations := registrations + [Registration(analyzer, ParsedItems, action)];
    }
  }

  class BuildCopRegistrationContext {
    const analyzerWrapper: BuildAnalyzerWrapper
    const buildCopCentralContext: BuildCopCentralContext
    var evaluatedPropertiesActionCount: int
    var parsedItemsActionCount: int

    /** The calls made on this context so far, and what they forwarded. */
    ghost var calls: seq<RegistrationCall>
    ghost var forwarded: seq<Registration>

    ghost predicate Valid()
      reads this
    {
      && evaluatedPropertiesActionCount == Occurrences(calls, EvaluatedProperties)
      && parsedItemsActionCount == Occurrences(calls, ParsedItems)
      && forwarded == Forwarded(analyzerWrapper, calls)
    }

    constructor (analyzerWrapper: BuildAnalyzerWrapper, buildCopCentralContext: BuildCopCentralContext)
      ensures Valid()
      ensures this.analyzerWrapper == analyzerWrapper && this.buildCopCentralContext == buildCopCentralContext
      ensures evaluatedPropertiesActionCount == 0 && parsedItemsActionCount == 0 && calls == [] && forwarded == []
    {
      this.analyzerWrapper := analyzerWrapper;
      this.buildCopCentralContext := buildCopCentralContext;
      evaluatedPropertiesActionCount := 0;
      parsedItemsActionCount := 0;
      calls := [];
      forwarded := [];
    }

    method RegisterEvaluatedPropertiesAction(evaluatedPropertiesAction: AnalysisAction) returns (outcome: RegistrationOutcome)
      requires Valid()
      modifies this`evaluatedPropertiesActionCount, this`calls, this`forwarded, buildCopCentralContext
      ensures Valid()
      ensures calls == old(calls) + [RegistrationCall(EvaluatedProperties, evaluatedPropertiesAction)]
      ensures evaluatedPropertiesActionCount == old(evaluatedPropertiesActionCount) + 1
      ensures parsedItemsActionCount == old(parsedItemsActionCount)
      ensures outcome.Registered? <==> old(evaluatedPropertiesActionCount) == 0
      ensures outcome.Rejected? ==>
        outcome.exception == BuildCopConfigurationException(analyzerWrapper.friendlyName, "RegisterEvaluatedPropertiesAction")
      ensures outcome.Rejected? ==>
        outcome.exception.Message() == "Analyzer '" + analyzerWrapper.friendlyName + "' attempted to call '" + "RegisterEvaluatedPropertiesAction" + "' multiple times."
      ensures buildCopCentralContext.registrations == old(buildCopCentralContext.registrations) +
        if outcome.Registered? then [Registration(analyzerWrapper, EvaluatedProperties, evaluatedPropertiesAction)] else []
      ensures forwarded == old(forwarded) + (buildCopCentralContext.registrations[|old(buildCopCentralContext.registrations)|..])
    {
      var call := RegistrationCall(EvaluatedProperties, evaluatedPropertiesAction);
      assert (calls + [call])[..|calls|] == calls;
      calls := calls + [call];
      evaluatedPropertiesActionCount := evaluatedPropertiesActionCount + 1;
      if evaluatedPropertiesActionCount > 1 {
        return Rejected(BuildCopConfigurationException(analyzerWrapper.friendlyName, MethodName(EvaluatedProperties)));
      }
      buildCopCentralContext.RegisterEvaluatedPropertiesAction(analyzerWrapper, evaluatedPropertiesAction);
      forwarded := forwarded + [Registration(analyzerWrapper, EvaluatedProperties, evaluatedPropertiesAction)];
      outcome := Registered;
    }

    method RegisterParsedItemsAction(parsedItemsAction: AnalysisAction) returns (outcome: RegistrationOutcome)
      requires Valid()
      modifies this`parsedItemsActionCount, this`calls, this`forwarded, buildCopCentralContext
      ensures Valid()
      ensures calls == old(calls) + [RegistrationCall(ParsedItems, parsedItemsAction)]
      ensures parsedItemsActionCount == old(parsedItemsActionCount) + 1
      ensures evaluatedPropertiesActionCount == old(evaluatedPropertiesActionCount)
      ensures outcome.Registered? <==> old(parsedItemsActionCount) == 0
      ensures outcome.Rejected? ==>
        outcome.exception == BuildCopConfigurationException(analyzerWrapper.friendlyName, "RegisterParsedItemsAction")
      ensures outcome.Rejected? ==>
        outcome.exception.Message() == "Analyzer '" + analyzerWrapper.friendlyName + "' attempted to call '" + "RegisterParsedItemsAction" + "' multiple times."
      ensures buildCopCentralContext.registrations == old(buildCopCentralContext.registrations) +
        if outcome.Registered? then [Registration(analyzerWrapper, ParsedItems, parsedItemsAction)] else []
      ensures forwarded == old(forwarded) + (buildCopCentralContext.registrations[|old(buildCopCentralContext.registrations)|..])
    {
      var call := RegistrationCall(ParsedItems, parsedItemsAction);
      assert (calls + [call])[..|calls|] == calls;
      calls := calls + [call];
      parsedItemsActionCount := parsedItemsActionCount + 1;
      if parsedItemsActionCount > 1 {
        return Rejected(BuildCopConfigurationException(analyzerWrapper.friendlyName, MethodName(ParsedItems)));
      }
      buildCopCentralContext.RegisterParsedItemsAction(analyzerWrapper, parsedItemsAction);
      forwarded := forwarded + [Registration(analyzerWrapper, ParsedItems, parsedItemsAction)];
      outcome := Registered;
    }
  }

  /** An analyzer that registers its evaluated-properties action and then
      fails: the action is already with the central context when the failure
      happens. The failure here is a second registration of the same kind,
      which is refused and forwards nothing; an analyzer that instead throws
      an exception of its own after registering leaves the central context
      exactly as after the first call, and catching that exception is done
      outside this model. */
  method RegisterThenFailScenario()
  {
    var central := new BuildCopCentralContext();
    var analyzer := BuildAnalyzerWrapper(0, "ErrorWhenRegisteringActions");
    var context := new BuildCopRegistrationContext(analyzer, central);
    var first := context.RegisterEvaluatedPropertiesAction(AnalysisAction(1));
    assert first == Registered;
    assert central.registrations == [Registration(analyzer, EvaluatedProperties, AnalysisAction(1))];
    var second := context.RegisterEvaluatedPropertiesAction(AnalysisAction(2));
    assert second.Rejected? && second.exception.analyzerName == "ErrorWhenRegisteringActions";
    assert central.registrations == [Registration(analyzer, EvaluatedProperties, AnalysisAction(1))];
    var items := context.RegisterParsedItemsAction(AnalysisAction(3));
    assert items == Registered;
    assert context.evaluatedPropertiesActionCount == 2 && context.parsedItemsActionCount == 1;
  }
}

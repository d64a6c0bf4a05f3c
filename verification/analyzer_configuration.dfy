/** Per-rule analyzer configuration, as built from the key/value pairs of one
    rule's configuration section (src/Build/BuildCop/API/BuildAnalyzerConfiguration.cs).

    A configuration record holds three independent, optional settings. Parsing
    never fails: a missing key or a value that does not parse leaves the
    setting absent. Merging defaults with overrides happens elsewhere and is
    not part of this model. */
module BuildCopApi {
  import opened Wrappers

  // ---------------------------------------------------------------------------
  // Enumerations. Their declarations are not part of this model; only the
  // members the configuration code and its tests use are modelled.
  // ---------------------------------------------------------------------------

  datatype EvaluationAnalysisScope = AnalyzedProjectOnly

  datatype BuildAnalyzerResultSeverity = Info | Warning | Error

  function ScopeName(s: EvaluationAnalysisScope): string {
    match s
    case AnalyzedProjectOnly => "AnalyzedProjectOnly"
  }

  function SeverityName(s: BuildAnalyzerResultSeverity): string {
    match s
    case Info => "Info"
    case Warning => "Warning"
    case Error => "Error"
  }

  /** The text `bool.ToString()` gives for `b`. */
  function BoolName(b: bool): string {
    if b then "True" else "False"
  }

  // ---------------------------------------------------------------------------
  // Ordinal case-insensitive comparison
  // ---------------------------------------------------------------------------

  /** Upper-case mapping of a character; only the ASCII letters are folded. */
  function FoldCase(c: char): char {
    if 'a' <= c <= 'z' then (c as int - 'a' as int + 'A' as int) as char else c
  }

  /** Ordinal comparison ignoring case, one character at a time. */
  function EqualsIgnoreCase(a: string, b: string): (r: bool)
    ensures r <==> |a| == |b| && forall i :: 0 <= i < |a| ==> FoldCase(a[i]) == FoldCase(b[i])
  {
    if |a| != |b| then false
    else if |a| == 0 then true
    else
      var rest := EqualsIgnoreCase(a[1..], b[1..]);
      assert forall i :: 1 <= i < |a| ==> a[1..][i - 1] == a[i] && b[1..][i - 1] == b[i];
      FoldCase(a[0]) == FoldCase(b[0]) && rest
  }

  // ---------------------------------------------------------------------------
  // Value parsers: the two branches of TryExtractValue<T>
  // ---------------------------------------------------------------------------

  /** `bool.TryParse`: "True" or "False" in any letter case. (.NET also trims
      surrounding white space; that is not modelled.) */
  function ParseBool(s: string): (r: Option<bool>)
    ensures forall b :: r == Some(b) <==> EqualsIgnoreCase(s, BoolName(b))
  {
    if EqualsIgnoreCase(s, BoolName(true)) then Some(true)
    else if EqualsIgnoreCase(s, BoolName(false)) then Some(false)
    else None
  }

  /** `Enum.TryParse(s, ignoreCase: true)` for EvaluationAnalysisScope: the
      member whose name matches ignoring case. (.NET also accepts the
      member's numeric value as a string, and surrounding white space; neither
      is modelled.) */
  function ParseScope(s: string): (r: Option<EvaluationAnalysisScope>)
    ensures forall v :: r == Some(v) <==> EqualsIgnoreCase(s, ScopeName(v))
  {
    assert forall v: EvaluationAnalysisScope :: ScopeName(v) == ScopeName(AnalyzedProjectOnly) && v.AnalyzedProjectOnly?;
    if EqualsIgnoreCase(s, ScopeName(AnalyzedProjectOnly)) then Some(AnalyzedProjectOnly)
    else None
  }

  /** `Enum.TryParse(s, ignoreCase: true)` for BuildAnalyzerResultSeverity,
      trying the members in declaration order. (Numeric strings and white
      space are not modelled, as for ParseScope.) */
  function ParseSeverity(s: string): (r: Option<BuildAnalyzerResultSeverity>)
    ensures forall v :: r == Some(v) <==> EqualsIgnoreCase(s, SeverityName(v))
  {
    if EqualsIgnoreCase(s, SeverityName(Info)) then Some(Info)
    else if EqualsIgnoreCase(s, SeverityName(Warning)) then Some(Warning)
    else if EqualsIgnoreCase(s, SeverityName(Error)) then Some(Error)
    else None
  }

  /** Looks `key` up in the configuration and parses its value; absent when
      the key is missing or the value does not parse. */
  function TryExtractValue<T(!new)>(key: string, config: map<string, string>, parse: string -> Option<T>): (r: Option<T>)
    ensures key !in config ==> r == None
    ensures key in config ==> r == parse(config[key])
    ensures forall v :: r == Some(v) ==> key in config && parse(config[key]) == Some(v)
  {
    if key !in config then None else parse(config[key])
  }

  // ---------------------------------------------------------------------------
  // The configuration record
  // ---------------------------------------------------------------------------

  datatype BuildAnalyzerConfiguration = BuildAnalyzerConfiguration(
    evaluationAnalysisScope: Option<EvaluationAnalysisScope>,
    severity: Option<BuildAnalyzerResultSeverity>,
    isEnabled: Option<bool>)

  /** Settings used when neither the analyzer nor the user specifies a value. */
  const Default: BuildAnalyzerConfiguration :=
    BuildAnalyzerConfiguration(Some(AnalyzedProjectOnly), Some(Info), Some(false))

  /** The configuration with every setting absent. */
  const Null: BuildAnalyzerConfiguration := BuildAnalyzerConfiguration(None, None, None)

  /** The keys Create looks up; the lookup is exact. */
  const ScopeKey := "EvaluationAnalysisScope"
  const SeverityKey := "severity"
  const IsEnabledKey := "IsEnabled"

  /** Builds a configuration from one rule's key/value pairs. Each setting
      comes from its own key only; a missing key or an unparsable value
      leaves the setting absent. */
  function Create(configDictionary: map<string, string>): (r: BuildAnalyzerConfiguration)
    ensures forall v :: r.evaluationAnalysisScope == Some(v) <==>
      ScopeKey in configDictionary && EqualsIgnoreCase(configDictionary[ScopeKey], ScopeName(v))
    ensures forall v :: r.severity == Some(v) <==>
      SeverityKey in configDictionary && EqualsIgnoreCase(configDictionary[SeverityKey], SeverityName(v))
    ensures forall b :: r.isEnabled == Some(b) <==>
      IsEnabledKey in configDictionary && EqualsIgnoreCase(configDictionary[IsEnabledKey], BoolName(b))
  {
    BuildAnalyzerConfiguration(
      TryExtractValue(ScopeKey, configDictionary, ParseScope),
      TryExtractValue(SeverityKey, configDictionary, ParseSeverity),
      TryExtractValue(IsEnabledKey, configDictionary, ParseBool))
  }

  // ---------------------------------------------------------------------------
  // Properties
  // ---------------------------------------------------------------------------

  /** Default has every setting present; Null has none, and is what an empty
      configuration yields. */
  lemma DefaultAndNull()
    ensures Default.evaluationAnalysisScope == Some(AnalyzedProjectOnly)
    ensures Default.severity == Some(Info) && Default.isEnabled == Some(false)
    ensures Null.evaluationAnalysisScope.None? && Null.severity.None? && Null.isEnabled.None?
    ensures Create(map[]) == Null
  {
  }

  /** A setting whose key is missing stays absent, whatever else the map holds. */
  lemma MissingKeyLeavesSettingAbsent(m: map<string, string>)
    ensures ScopeKey !in m ==> Create(m).evaluationAnalysisScope.None?
    ensures SeverityKey !in m ==> Create(m).severity.None?
    ensures IsEnabledKey !in m ==> Create(m).isEnabled.None?
  {
  }

  /** Each setting depends only on the entry for its own key. */
  lemma SettingsAreIndependent(m1: map<string, string>, m2: map<string, string>)
    ensures (ScopeKey in m1 <==> ScopeKey in m2) && (ScopeKey in m1 ==> m1[ScopeKey] == m2[ScopeKey])
      ==> Create(m1).evaluationAnalysisScope == Create(m2).evaluationAnalysisScope
    ensures (SeverityKey in m1 <==> SeverityKey in m2) && (SeverityKey in m1 ==> m1[SeverityKey] == m2[SeverityKey])
      ==> Create(m1).severity == Create(m2).severity
    ensures (IsEnabledKey in m1 <==> IsEnabledKey in m2) && (IsEnabledKey in m1 ==> m1[IsEnabledKey] == m2[IsEnabledKey])
      ==> Create(m1).isEnabled == Create(m2).isEnabled
  {
  }

  /** A key other than the three recognised ones has no effect. */
  lemma UnrecognisedKeyIsIgnored(m: map<string, string>, key: string, value: string)
    requires key != ScopeKey && key != SeverityKey && key != IsEnabledKey
    ensures Create(m[key := value]) == Create(m)
  {
  }

  /** A value that is not a boolean name gives an absent setting, not an error. */
  lemma UnparsableValueIsAbsent(m: map<string, string>)
    requires IsEnabledKey in m && !EqualsIgnoreCase(m[IsEnabledKey], "true") && !EqualsIgnoreCase(m[IsEnabledKey], "false")
    ensures Create(m).isEnabled.None?
  {
  }

  /** Round trip: a map holding the names of a scope, a severity and a boolean,
      in any letter case, parses back to exactly those values. */
  lemma {:induction false} CreateRoundTrip(scope: EvaluationAnalysisScope, severity: BuildAnalyzerResultSeverity, enabled: bool,
                                           scopeText: string, severityText: string, enabledText: string)
    requires EqualsIgnoreCase(scopeText, ScopeName(scope))
    requires EqualsIgnoreCase(severityText, SeverityName(severity))
    requires EqualsIgnoreCase(enabledText, BoolName(enabled))
    ensures Create(map[ScopeKey := scopeText, SeverityKey := severityText, IsEnabledKey := enabledText])
         == BuildAnalyzerConfiguration(Some(scope), Some(severity), Some(enabled))
  {
    var m := map[ScopeKey := scopeText, SeverityKey := severityText, IsEnabledKey := enabledText];
    assert m[ScopeKey] == scopeText && m[SeverityKey] == severityText && m[IsEnabledKey] == enabledText;
  }

  /** The names themselves parse back: every name equals itself ignoring case. */
  lemma NamesRoundTrip(scope: EvaluationAnalysisScope, severity: BuildAnalyzerResultSeverity, enabled: bool)
    ensures ParseScope(ScopeName(scope)) == Some(scope)
    ensures ParseSeverity(SeverityName(severity)) == Some(severity)
    ensures ParseBool(BoolName(enabled)) == Some(enabled)
  {
  }

  /** Enum names are matched ignoring case. */
  lemma SeverityIgnoresCase()
    ensures ParseSeverity("warning") == Some(Warning)
    ensures ParseSeverity("Error") == Some(Error)
    ensures ParseSeverity("ERROR") == Some(Error)
    ensures ParseBool("TRUE") == Some(true)
  {
  }

  /** The configuration of rule BC0101 in the end-to-end test, as written:
      the key "Severity" is not the key "severity" under the exact lookup, so
      only the enabled setting is read. */
  lemma EnabledWarningRule()
    ensures Create(map["IsEnabled" := "true", "Severity" := "warning"])
         == BuildAnalyzerConfiguration(None, None, Some(true))
  {
    var m := map["IsEnabled" := "true", "Severity" := "warning"];
    assert "Severity"[0] != SeverityKey[0];
    assert SeverityKey !in m && ScopeKey !in m;
    assert m[IsEnabledKey] == "true";
    assert ParseBool("true") == Some(true);
  }

  /** The same rule with the key spelled as Create looks it up. */
  lemma EnabledWarningRuleLowerCaseKey()
    ensures Create(map["IsEnabled" := "true", "severity" := "warning"])
         == BuildAnalyzerConfiguration(None, Some(Warning), Some(true))
  {
  }

  /** The configuration of rule COND0543 in the end-to-end test: the custom
      switch is ignored and, the lookup being exact, the key "Severity" is not
      the key "severity", so no severity is read. */
  lemma DisabledRuleWithCustomSwitch()
    ensures Create(map["IsEnabled" := "false", "Severity" := "Error",
                       "EvaluationAnalysisScope" := "AnalyzedProjectOnly", "CustomSwitch" := "QWERTY"])
         == BuildAnalyzerConfiguration(Some(AnalyzedProjectOnly), None, Some(false))
  {
    var m := map["IsEnabled" := "false", "Severity" := "Error",
                 "EvaluationAnalysisScope" := "AnalyzedProjectOnly", "CustomSwitch" := "QWERTY"];
    assert "Severity"[0] != SeverityKey[0];
    assert SeverityKey !in m;
    assert m[IsEnabledKey] == "false" && m[ScopeKey] == "AnalyzedProjectOnly";
    assert ParseBool("false") == Some(false);
    assert ParseScope("AnalyzedProjectOnly") == Some(AnalyzedProjectOnly);
  }
}

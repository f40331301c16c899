/**
 Quality gates: thresholds a batch summary is checked against, the metadata that
 records the thresholds in force, and the test that tells whether there are any.
*/
module QualityGates {
  import opened BatchSummary

  // ---- Thresholds ----

  datatype Gate =
    | MinPassRate | MinCompletionRate | MinMemoryUpdateRate | MinLoopTurnCheckpointRate
    | MinLoopProtocolFeedRate | MinLoopProtocolCalibrationRequestRate | MinLoopProtocolCalibrationRate
    | MinRuntimeSurfaceRate | MinTraceEventRate | MinSourceNetworkRate | MinSourceAccessVerifiedRate
    | MinExpectationCapabilityPassRate | MinEachExpectationCapabilityPassRate | MinExpectationDomainPassRate
    | MinEachExpectationDomainPassRate | MinSessionSearchContextHitRate | MinSessionSearchMatchedTermsPerCall
    | MinToolRepairSuccessRate | MinVerifierPassRate | MaxFocusedTaskErrorRate | MaxForcedNoToolsRate
    | MaxLoopGuardInterventionRate | MaxPlanErrorRate | MaxMemorySearchMissRate | MaxSourceDiscoveryOnlyRate
    | MaxSourceDynamicPartialRate | MaxSubagentErrorRate | MaxToolErrorRate | MaxToolContextTruncationRate
    | MaxToolResultTruncationRate | MaxAvgRuntimeErrors | MaxAvgContextCompactions | MaxAvgReactiveCompactions
    | MaxAvgContextRemovedMessages | MaxAvgContextSummaryBytes | MaxAvgContextSummaryMissing
    | MaxAvgContextSummaryEmpty | MinContextCompactionPolicyObservedRate | MaxContextCompactionPolicyPressure
    | MaxContextCompactionPostPolicyPressure | MaxContextCompactionPostPolicyOverRate
    | MaxContextCompactionScopedPressure | MaxAvgContextInjections | MaxAvgContextInjectionBytes
    | MaxAvgContextInjectionEstimatedTokens | MaxAvgToolCalls | MaxAvgDurationMS | MaxAvgTotalTokens
    | MaxScenarioTotalTokens

  /** Gates with one threshold for each name: a debug tag, or a domain. */
  datatype NamedGate =
    | DebugBriefTag | DomainSourceVerified | DomainTokens | DomainToolCalls | DomainErrors
    | DomainToolErrors | DomainLoopGuards

  /** Names that have to occur. */
  datatype Required = RequiredCapability | RequiredDomain | RequiredEvidence | RequiredRefresh

  /** Thresholds as configured: absent or negative ones are off. */
  datatype Config = Config(values: map<Gate, real>, named: map<NamedGate, map<string, real>>,
                           required: map<Required, seq<string>>)

  // ---- What is measured ----

  datatype Counter =
    | Passed | Total | EndCompleted | MemoryUpdates | LoopTurnCheckpointScenarios | LoopProtocolFeedScenarios
    | LoopProtocolCalibrationRequestScenarios | LoopProtocolCalibrationScenarios | RuntimeSurfaceScenarios
    | TraceEventScenarios | SourceAccessNetwork | SourceAccessResults | SourceAccessVerified
    | SessionSearchContextHits | SessionSearchResults | SessionSearchMatchedTerms | SessionSearchCalls
    | ToolRepairSucceeded | ToolRepairCalls | VerifierPassed | VerifierRuns | FocusedTaskErrors
    | FocusedTaskCalls | ForcedNoTools | ToolCalls | LoopGuardInterventions | PlanErrors | PlanCalls
    | MemorySearchMisses | MemorySearchCalls | SourceAccessDiscoveryOnly | SourceAccessDynamicPartial
    | SubagentErrors | SubagentCalls | ToolErrors | ToolContextTruncated | ToolResultsTruncated
    | RuntimeErrors | ContextCompactions | ContextCompactionsReactive | ContextCompactionRemoved
    | ContextCompactionSummary | ContextCompactionSummaryMissing | ContextCompactionSummaryEmpty
    | ContextCompactionPolicyObserved | ContextCompactionMaxPolicyPressure
    | ContextCompactionMaxPostPolicyPressure | ContextCompactionPostPolicyObserved
    | ContextCompactionPostPolicyStillOver | ContextCompactionMaxScopedPressure
    | ContextCompactionCompactScopeActive | ContextInjections | ContextInjectionBytes
    | ContextInjectionEstimatedTokens | DurationMs | AllTokens | LargestScenarioTokens

  /** Tallies by name. */
  datatype Kind = Capability | Domain

  /** What one domain cost, as the gates use it. */
  datatype DomainCost = DomainCost(scenarios: int, tokens: int, toolCalls: int, runtimeErrors: int,
                                   toolErrors: int, loopGuards: int, sourceResults: int, sourceVerified: int)

  /** The summary of a batch, as the gates use it. AllTokens stands for the sum of
      input and output tokens. */
  datatype Summary = Summary(count: Counter -> int, all: Kind -> Tally, passed: Kind -> Tally,
                             evidence: Tally, refreshes: Tally, tags: Tally, domains: map<string, DomainCost>)

  /** What a gate looks at. A ratio or a peak is available when its second counter is
      positive. */
  datatype Basis =
    | Ratio(part: Counter, of: Counter)
    | Peak(value: Counter, seen: Counter)
    | OfNames(kind: Kind, each: bool)

  function BasisOf(gate: Gate): Basis {
    match gate
    case MinPassRate => Ratio(Passed, Total)
    case MinCompletionRate => Ratio(EndCompleted, Total)
    case MinMemoryUpdateRate => Ratio(MemoryUpdates, Total)
    case MinLoopTurnCheckpointRate => Ratio(LoopTurnCheckpointScenarios, Total)
    case MinLoopProtocolFeedRate => Ratio(LoopProtocolFeedScenarios, Total)
    case MinLoopProtocolCalibrationRequestRate => Ratio(LoopProtocolCalibrationRequestScenarios, Total)
    case MinLoopProtocolCalibrationRate => Ratio(LoopProtocolCalibrationScenarios, Total)
    case MinRuntimeSurfaceRate => Ratio(RuntimeSurfaceScenarios, Total)
    case MinTraceEventRate => Ratio(TraceEventScenarios, Total)
    case MinSourceNetworkRate => Ratio(SourceAccessNetwork, SourceAccessResults)
    case MinSourceAccessVerifiedRate => Ratio(SourceAccessVerified, SourceAccessResults)
    case MinExpectationCapabilityPassRate => OfNames(Capability, false)
    case MinEachExpectationCapabilityPassRate => OfNames(Capability, true)
    case MinExpectationDomainPassRate => OfNames(Domain, false)
    case MinEachExpectationDomainPassRate => OfNames(Domain, true)
    case MinSessionSearchContextHitRate => Ratio(SessionSearchContextHits, SessionSearchResults)
    case MinSessionSearchMatchedTermsPerCall => Ratio(SessionSearchMatchedTerms, SessionSearchCalls)
    case MinToolRepairSuccessRate => Ratio(ToolRepairSucceeded, ToolRepairCalls)
    case MinVerifierPassRate => Ratio(VerifierPassed, VerifierRuns)
    case MaxFocusedTaskErrorRate => Ratio(FocusedTaskErrors, FocusedTaskCalls)
    case MaxForcedNoToolsRate => Ratio(ForcedNoTools, ToolCalls)
    case MaxLoopGuardInterventionRate => Ratio(LoopGuardInterventions, ToolCalls)
    case MaxPlanErrorRate => Ratio(PlanErrors, PlanCalls)
    case MaxMemorySearchMissRate => Ratio(MemorySearchMisses, MemorySearchCalls)
    case MaxSourceDiscoveryOnlyRate => Ratio(SourceAccessDiscoveryOnly, SourceAccessResults)
    case MaxSourceDynamicPartialRate => Ratio(SourceAccessDynamicPartial, SourceAccessResults)
    case MaxSubagentErrorRate => Ratio(SubagentErrors, SubagentCalls)
    case MaxToolErrorRate => Ratio(ToolErrors, ToolCalls)
    case MaxToolContextTruncationRate => Ratio(ToolContextTruncated, ToolCalls)
    case MaxToolResultTruncationRate => Ratio(ToolResultsTruncated, ToolCalls)
    case MaxAvgRuntimeErrors => Ratio(RuntimeErrors, Total)
    case MaxAvgContextCompactions => Ratio(ContextCompactions, Total)
    case MaxAvgReactiveCompactions => Ratio(ContextCompactionsReactive, Total)
    case MaxAvgContextRemovedMessages => Ratio(ContextCompactionRemoved, Total)
    case MaxAvgContextSummaryBytes => Ratio(ContextCompactionSummary, Total)
    case MaxAvgContextSummaryMissing => Ratio(ContextCompactionSummaryMissing, Total)
    case MaxAvgContextSummaryEmpty => Ratio(ContextCompactionSummaryEmpty, Total)
    case MinContextCompactionPolicyObservedRate => Ratio(ContextCompactionPolicyObserved, ContextCompactions)
    case MaxContextCompactionPolicyPressure =>
      Peak(ContextCompactionMaxPolicyPressure, ContextCompactionPolicyObserved)
    case MaxContextCompactionPostPolicyPressure =>
      Peak(ContextCompactionMaxPostPolicyPressure, ContextCompactionPostPolicyObserved)
    case MaxContextCompactionPostPolicyOverRate =>
      Ratio(ContextCompactionPostPolicyStillOver, ContextCompactionPostPolicyObserved)
    case MaxContextCompactionScopedPressure =>
      Peak(ContextCompactionMaxScopedPressure, ContextCompactionCompactScopeActive)
    case MaxAvgContextInjections => Ratio(ContextInjections, Total)
    case MaxAvgContextInjectionBytes => Ratio(ContextInjectionBytes, Total)
    case MaxAvgContextInjectionEstimatedTokens => Ratio(ContextInjectionEstimatedTokens, Total)
    case MaxAvgToolCalls => Ratio(ToolCalls, Total)
    case MaxAvgDurationMS => Ratio(DurationMs, Total)
    case MaxAvgTotalTokens => Ratio(AllTokens, Total)
    case MaxScenarioTotalTokens => Peak(LargestScenarioTokens, Total)
  }

  /** The other gates bound their value from above. */
  predicate IsMinimum(gate: Gate) {
    gate in MINIMUMS
  }

  const MINIMUMS := {MinPassRate, MinCompletionRate, MinMemoryUpdateRate, MinLoopTurnCheckpointRate,
                    MinLoopProtocolFeedRate, MinLoopProtocolCalibrationRequestRate,
                    MinLoopProtocolCalibrationRate, MinRuntimeSurfaceRate, MinTraceEventRate,
                    MinSourceNetworkRate, MinSourceAccessVerifiedRate, MinExpectationCapabilityPassRate,
                    MinEachExpectationCapabilityPassRate, MinExpectationDomainPassRate,
                    MinEachExpectationDomainPassRate, MinSessionSearchContextHitRate,
                    MinSessionSearchMatchedTermsPerCall, MinToolRepairSuccessRate, MinVerifierPassRate,
                    MinContextCompactionPolicyObservedRate}

  // ---- The three lists of gates ----

  /** The gates copied into the metadata. */
  const COPIED: set<Gate> :=
    {MinPassRate, MinCompletionRate, MinMemoryUpdateRate, MinLoopTurnCheckpointRate, MinLoopProtocolFeedRate,
     MinLoopProtocolCalibrationRequestRate, MinLoopProtocolCalibrationRate, MinRuntimeSurfaceRate,
     MinTraceEventRate, MinSourceNetworkRate, MinSourceAccessVerifiedRate, MinExpectationCapabilityPassRate,
     MinEachExpectationCapabilityPassRate, MinExpectationDomainPassRate, MinEachExpectationDomainPassRate,
     MinSessionSearchContextHitRate, MinSessionSearchMatchedTermsPerCall, MinToolRepairSuccessRate,
     MinVerifierPassRate, MaxFocusedTaskErrorRate, MaxForcedNoToolsRate, MaxLoopGuardInterventionRate,
     MaxPlanErrorRate, MaxMemorySearchMissRate, MaxSourceDiscoveryOnlyRate, MaxSourceDynamicPartialRate,
     MaxSubagentErrorRate, MaxToolErrorRate, MaxToolContextTruncationRate, MaxToolResultTruncationRate,
     MaxAvgRuntimeErrors, MaxAvgContextCompactions, MaxAvgReactiveCompactions, MaxAvgContextRemovedMessages,
     MaxAvgContextSummaryBytes, MaxAvgContextSummaryMissing, MaxAvgContextSummaryEmpty,
     MinContextCompactionPolicyObservedRate, MaxContextCompactionPolicyPressure,
     MaxContextCompactionPostPolicyPressure, MaxContextCompactionPostPolicyOverRate,
     MaxContextCompactionScopedPressure, MaxAvgContextInjections, MaxAvgContextInjectionBytes,
     MaxAvgContextInjectionEstimatedTokens, MaxAvgToolCalls, MaxAvgDurationMS, MaxAvgTotalTokens,
     MaxScenarioTotalTokens}

  /** The gates the metadata is asked for. */
  const DETECTED: set<Gate> :=
    {MinPassRate, MinCompletionRate, MinMemoryUpdateRate, MinLoopTurnCheckpointRate, MinLoopProtocolFeedRate,
     MinLoopProtocolCalibrationRequestRate, MinLoopProtocolCalibrationRate, MinRuntimeSurfaceRate,
     MinTraceEventRate, MinSourceNetworkRate, MinSourceAccessVerifiedRate, MinExpectationCapabilityPassRate,
     MinEachExpectationCapabilityPassRate, MinExpectationDomainPassRate, MinEachExpectationDomainPassRate,
     MinSessionSearchContextHitRate, MinSessionSearchMatchedTermsPerCall, MinToolRepairSuccessRate,
     MinVerifierPassRate, MaxFocusedTaskErrorRate, MaxForcedNoToolsRate, MaxLoopGuardInterventionRate,
     MaxPlanErrorRate, MaxMemorySearchMissRate, MaxSourceDiscoveryOnlyRate, MaxSourceDynamicPartialRate,
     MaxSubagentErrorRate, MaxToolErrorRate, MaxToolContextTruncationRate, MaxToolResultTruncationRate,
     MaxAvgRuntimeErrors, MaxAvgContextCompactions, MaxAvgReactiveCompactions, MaxAvgContextRemovedMessages,
     MaxAvgContextSummaryBytes, MaxAvgContextSummaryMissing, MaxAvgContextSummaryEmpty,
     MinContextCompactionPolicyObservedRate, MaxContextCompactionPolicyPressure,
     MaxContextCompactionPostPolicyPressure, MaxContextCompactionPostPolicyOverRate,
     MaxContextCompactionScopedPressure, MaxAvgContextInjections, MaxAvgContextInjectionBytes,
     MaxAvgContextInjectionEstimatedTokens, MaxAvgToolCalls, MaxAvgDurationMS, MaxAvgTotalTokens,
     MaxScenarioTotalTokens}

  /** The gates a summary is checked against. */
  const CHECKED: set<Gate> :=
    {MinPassRate, MinCompletionRate, MinMemoryUpdateRate, MinLoopTurnCheckpointRate, MinLoopProtocolFeedRate,
     MinLoopProtocolCalibrationRequestRate, MinLoopProtocolCalibrationRate, MinRuntimeSurfaceRate,
     MinTraceEventRate, MinSourceNetworkRate, MinSourceAccessVerifiedRate, MinExpectationCapabilityPassRate,
     MinEachExpectationCapabilityPassRate, MinExpectationDomainPassRate, MinEachExpectationDomainPassRate,
     MinSessionSearchContextHitRate, MinSessionSearchMatchedTermsPerCall, MinToolRepairSuccessRate,
     MinVerifierPassRate, MaxFocusedTaskErrorRate, MaxForcedNoToolsRate, MaxLoopGuardInterventionRate,
     MaxPlanErrorRate, MaxMemorySearchMissRate, MaxSourceDiscoveryOnlyRate, MaxSourceDynamicPartialRate,
     MaxSubagentErrorRate, MaxToolErrorRate, MaxToolContextTruncationRate, MaxToolResultTruncationRate,
     MaxAvgRuntimeErrors, MaxAvgContextCompactions, MaxAvgReactiveCompactions, MaxAvgContextRemovedMessages,
     MaxAvgContextSummaryBytes, MaxAvgContextSummaryMissing, MaxAvgContextSummaryEmpty,
     MinContextCompactionPolicyObservedRate, MaxContextCompactionPolicyPressure,
     MaxContextCompactionPostPolicyPressure, MaxContextCompactionPostPolicyOverRate,
     MaxContextCompactionScopedPressure, MaxAvgContextInjections, MaxAvgContextInjectionBytes,
     MaxAvgContextInjectionEstimatedTokens, MaxAvgToolCalls, MaxAvgDurationMS, MaxAvgTotalTokens,
     MaxScenarioTotalTokens}

  const NAMED_COPIED: set<NamedGate> :=
    {DebugBriefTag, DomainSourceVerified, DomainTokens, DomainToolCalls, DomainErrors, DomainToolErrors,
     DomainLoopGuards}
  const NAMED_DETECTED: set<NamedGate> :=
    {DebugBriefTag, DomainSourceVerified, DomainTokens, DomainToolCalls, DomainErrors, DomainToolErrors,
     DomainLoopGuards}
  const NAMED_CHECKED: set<NamedGate> :=
    {DomainSourceVerified, DomainTokens, DomainToolCalls, DomainErrors, DomainToolErrors, DomainLoopGuards,
     DebugBriefTag}

  /** Every gate is in every list. */
  lemma EveryGateIsListed(gate: Gate)
    ensures gate in COPIED && gate in DETECTED && gate in CHECKED
  {
    assert gate in COPIED;
    assert gate in DETECTED;
  }

  lemma EveryNamedGateIsListed(gate: NamedGate)
    ensures gate in NAMED_COPIED && gate in NAMED_DETECTED && gate in NAMED_CHECKED
  {
  }

  // ---- The metadata ----

  function EnabledOnly(thresholds: map<string, real>): map<string, real> {
    map name <- thresholds | thresholds[name] >= 0.0 :: thresholds[name]
  }

  /** What is recorded: the thresholds in force, and no gate without any. */
  function Metadata(config: Config): Config {
    Config(map gate <- config.values | gate in COPIED && config.values[gate] >= 0.0 :: config.values[gate],
           map gate <- config.named | gate in NAMED_COPIED && EnabledOnly(config.named[gate]) != map[]
             :: EnabledOnly(config.named[gate]),
           config.required)
  }

  ghost predicate HasThresholds(meta: Config) {
    || (exists gate <- DETECTED :: gate in meta.values)
    || (exists gate <- NAMED_DETECTED :: gate in meta.named && meta.named[gate] != map[])
    || (exists kind <- meta.required :: meta.required[kind] != [])
  }

  // ---- Checking a summary ----

  datatype Failure =
    | OfGate(gate: Gate)
    | OfName(gate: Gate, name: string)
    | OfNamed(named: NamedGate, name: string)
    | Missing(required: Required, name: string)

  function Share(part: int, of: int): real {
    if of <= 0 then 0.0 else part as real / of as real
  }

  datatype Reading = Reading(available: bool, value: real)

  /** The names that were counted at all, and how many of them passed. */
  function Counted(all: Tally): Tally {
    map name <- all | all[name] > 0 :: all[name]
  }

  function CountedPasses(all: Tally, passed: Tally): Tally {
    map name <- all | all[name] > 0 :: Get(passed, name)
  }

  ghost function Read(s: Summary, basis: Basis): Reading {
    match basis
    case Ratio(part, of) => Reading(s.count(of) > 0, Share(s.count(part), s.count(of)))
    case Peak(value, seen) => Reading(s.count(seen) > 0, s.count(value) as real)
    case OfNames(kind, _) =>
      var total := Sum(Counted(s.all(kind)));
      Reading(total > 0, Share(Sum(CountedPasses(s.all(kind), s.passed(kind))), total))
  }

  /** A minimum asks for data; a maximum lets missing data pass. */
  predicate Misses(minimum: bool, r: Reading, threshold: real) {
    if minimum then !r.available || r.value < threshold else r.available && r.value > threshold
  }

  function ReadDomain(gate: NamedGate, d: DomainCost): Reading {
    match gate
    case DomainSourceVerified => Reading(d.sourceResults > 0, Share(d.sourceVerified, d.sourceResults))
    case DomainTokens => Reading(true, Share(d.tokens, d.scenarios))
    case DomainToolCalls => Reading(true, Share(d.toolCalls, d.scenarios))
    case DomainErrors => Reading(true, Share(d.runtimeErrors, d.scenarios))
    case DomainToolErrors => Reading(d.toolCalls > 0, Share(d.toolErrors, d.toolCalls))
    case DomainLoopGuards => Reading(d.toolCalls > 0, Share(d.loopGuards, d.toolCalls))
    case DebugBriefTag => Reading(false, 0.0)
  }

  /** A domain that no scenario declared misses every threshold, upper ones too. */
  predicate MissesNamed(s: Summary, gate: NamedGate, name: string, threshold: real) {
    if gate == DebugBriefTag then
      Misses(false, Reading(s.count(Total) > 0, Share(Get(s.tags, name), s.count(Total))), threshold)
    else if name !in s.domains || s.domains[name].scenarios <= 0 then true
    else Misses(gate == DomainSourceVerified, ReadDomain(gate, s.domains[name]), threshold)
  }

  function TallyOf(s: Summary, kind: Required): Tally {
    match kind
    case RequiredCapability => s.all(Capability)
    case RequiredDomain => s.all(Domain)
    case RequiredEvidence => s.evidence
    case RequiredRefresh => s.refreshes
  }

  predicate InForce(config: Config, gate: Gate) {
    gate in config.values && config.values[gate] >= 0.0
  }

  predicate InForceFor(config: Config, gate: NamedGate, name: string) {
    gate in config.named && name in config.named[gate] && config.named[gate][name] >= 0.0
  }

  ghost predicate GateFails(s: Summary, gate: Gate, basis: Basis, threshold: real) {
    if basis.OfNames? && basis.each then Counted(s.all(basis.kind)) == map[]
    else Misses(IsMinimum(gate), Read(s, basis), threshold)
  }

  predicate NameFails(s: Summary, basis: Basis, name: string, threshold: real) {
    && basis.OfNames? && basis.each
    && name in Counted(s.all(basis.kind))
    && Share(Get(s.passed(basis.kind), name), s.all(basis.kind)[name]) < threshold
  }

  /** The failures of a summary. */
  ghost predicate Fails(s: Summary, config: Config, f: Failure) {
    match f
    case OfGate(gate) =>
      gate in CHECKED && InForce(config, gate) && GateFails(s, gate, BasisOf(gate), config.values[gate])
    case OfName(gate, name) =>
      gate in CHECKED && InForce(config, gate) && NameFails(s, BasisOf(gate), name, config.values[gate])
    case OfNamed(gate, name) =>
      gate in NAMED_CHECKED && InForceFor(config, gate, name) && MissesNamed(s, gate, name, config.named[gate][name])
    case Missing(kind, name) =>
      kind in config.required && name in config.required[kind] && Get(TallyOf(s, kind), name) == 0
  }

  // ---- The evaluator ----

  method CheckGate(s: Summary, config: Config, gate: Gate) returns (failures: set<Failure>)
    requires gate in CHECKED
    ensures forall f :: f in failures <==> (f.OfGate? || f.OfName?) && f.gate == gate && Fails(s, config, f)
  {
    if !InForce(config, gate) {
      return {};
    }
    failures := CheckBasis(s, gate, BasisOf(gate), config.values[gate]);
  }

  method CheckBasis(s: Summary, gate: Gate, basis: Basis, threshold: real) returns (failures: set<Failure>)
    ensures forall f :: f in failures <==>
              || (f == OfGate(gate) && GateFails(s, gate, basis, threshold))
              || (f.OfName? && f.gate == gate && NameFails(s, basis, f.name, threshold))
  {
    if basis.OfNames? && basis.each {
      failures := CheckEach(s, gate, basis, threshold);
      return;
    }
    var reading := ReadBasis(s, basis);
    failures := if Misses(IsMinimum(gate), reading, threshold) then {OfGate(gate)} else {};
  }

  method ReadBasis(s: Summary, basis: Basis) returns (reading: Reading)
    ensures reading == Read(s, basis)
  {
    match basis {
      case Ratio(part, of) => reading := Reading(s.count(of) > 0, Share(s.count(part), s.count(of)));
      case Peak(value, seen) => reading := Reading(s.count(seen) > 0, s.count(value) as real);
      case OfNames(kind, _) =>
        var counted, total := AddTally(map[], Counted(s.all(kind)));
        var passes, passed := AddTally(map[], CountedPasses(s.all(kind), s.passed(kind)));
        reading := Reading(total > 0, Share(passed, total));
    }
  }

  /** One failure for each name below the threshold, or one for there being no names. */
  method CheckEach(s: Summary, gate: Gate, basis: Basis, threshold: real) returns (failures: set<Failure>)
    requires basis.OfNames? && basis.each
    ensures forall f :: f in failures <==>
              || (f == OfGate(gate) && GateFails(s, gate, basis, threshold))
              || (f.OfName? && f.gate == gate && NameFails(s, basis, f.name, threshold))
  {
    var names := Counted(s.all(basis.kind));
    if names == map[] {
      return {OfGate(gate)};
    }
    failures := {};
    var rest := names.Keys;
    while rest != {}
      invariant rest <= names.Keys
      invariant forall f :: f in failures <==>
                  f.OfName? && f.gate == gate && f.name !in rest && NameFails(s, basis, f.name, threshold)
      decreases |rest|
    {
      var name :| name in rest;
      rest := rest - {name};
      if NameFails(s, basis, name, threshold) {
        failures := failures + {OfName(gate, name)};
      }
    }
  }

  method CheckNamed(s: Summary, config: Config, gate: NamedGate) returns (failures: set<Failure>)
    requires gate in NAMED_CHECKED
    ensures forall f :: f in failures <==> f.OfNamed? && f.named == gate && Fails(s, config, f)
  {
    failures := {};
    if gate in config.named {
      var rest := config.named[gate].Keys;
      while rest != {}
        invariant rest <= config.named[gate].Keys
        invariant forall f :: f in failures <==>
                    f.OfNamed? && f.named == gate && f.name !in rest && Fails(s, config, f)
        decreases |rest|
      {
        var name :| name in rest;
        rest := rest - {name};
        var threshold := config.named[gate][name];
        if threshold >= 0.0 && MissesNamed(s, gate, name, threshold) {
          failures := failures + {OfNamed(gate, name)};
        }
      }
    }
  }

  method CheckRequired(s: Summary, config: Config, kind: Required) returns (failures: set<Failure>)
    ensures forall f :: f in failures <==> f.Missing? && f.required == kind && Fails(s, config, f)
  {
    failures := {};
    if kind in config.required {
      var names := config.required[kind];
      for i := 0 to |names|
        invariant forall f :: f in failures <==>
                    f.Missing? && f.required == kind && f.name in names[..i] && Fails(s, config, f)
      {
        assert names[..i + 1] == names[..i] + [names[i]];
        if Get(TallyOf(s, kind), names[i]) == 0 {
          failures := failures + {Missing(kind, names[i])};
        }
      }
      assert names[..|names|] == names;
    }
  }

  /** All failures of a summary, in no particular order: the report sorts them. */
  method QualityGateFailures(s: Summary, config: Config) returns (failures: set<Failure>)
    ensures forall f :: f in failures <==> Fails(s, config, f)
  {
    failures := {};
    var gates := CHECKED;
    while gates != {}
      invariant gates <= CHECKED
      invariant forall f :: f in failures <==> (f.OfGate? || f.OfName?) && f.gate !in gates && Fails(s, config, f)
      decreases |gates|
    {
      var gate :| gate in gates;
      gates := gates - {gate};
      var found := CheckGate(s, config, gate);
      failures := failures + found;
    }
    var others := CheckOthers(s, config);
    failures := failures + others;
  }

  method CheckOthers(s: Summary, config: Config) returns (failures: set<Failure>)
    ensures forall f :: f in failures <==> (f.OfNamed? || f.Missing?) && Fails(s, config, f)
  {
    failures := {};
    var named := NAMED_CHECKED;
    while named != {}
      invariant named <= NAMED_CHECKED
      invariant forall f :: f in failures <==> f.OfNamed? && f.named !in named && Fails(s, config, f)
      decreases |named|
    {
      var gate :| gate in named;
      named := named - {gate};
      var found := CheckNamed(s, config, gate);
      failures := failures + found;
    }
    var capabilities := CheckRequired(s, config, RequiredCapability);
    var domains := CheckRequired(s, config, RequiredDomain);
    var evidence := CheckRequired(s, config, RequiredEvidence);
    var refreshes := CheckRequired(s, config, RequiredRefresh);
    failures := failures + capabilities + domains + evidence + refreshes;
  }

  // ---- Metadata and evaluator agree ----

  /** The recorded thresholds give the same verdict as the configured ones: what the
      metadata leaves out was inert. */
  lemma MetadataKeepsVerdict(s: Summary, config: Config, f: Failure)
    ensures Fails(s, Metadata(config), f) <==> Fails(s, config, f)
  {
    match f {
      case OfGate(gate) => EveryGateIsListed(gate);
      case OfName(gate, name) => EveryGateIsListed(gate);
      case OfNamed(gate, name) =>
        EveryNamedGateIsListed(gate);
        if InForceFor(config, gate, name) {
          assert name in EnabledOnly(config.named[gate]);
        }
      case Missing(kind, name) =>
    }
  }

  const NOTHING := Summary(c => 0, k => map[], k => map[], map[], map[], map[], map[])

  /** A summary with one positive counter set against another. */
  function Excess(part: Counter, of: Counter, amount: int): Summary {
    NOTHING.(count := c => if c == part then amount else if c == of then 1 else 0)
  }

  function TagExcess(tag: string, amount: int): Summary {
    NOTHING.(count := c => if c == Total then 1 else 0, tags := map[tag := amount])
  }

  lemma MaximumsCompareCounters(gate: Gate)
    requires !IsMinimum(gate)
    ensures var basis := BasisOf(gate);
            (basis.Ratio? && basis.part != basis.of) || (basis.Peak? && basis.value != basis.seen)
  {
    assert gate !in MINIMUMS;
  }

  /** Every gate in force fails on some counters. */
  lemma GateCanFail(config: Config, gate: Gate)
    requires InForce(config, gate)
    ensures exists s, f :: Fails(s, config, f)
  {
    EveryGateIsListed(gate);
    var threshold := config.values[gate];
    var basis := BasisOf(gate);
    if IsMinimum(gate) {
      EmptyFailsMinimum(gate, basis, threshold);
      assert Fails(NOTHING, config, OfGate(gate));
    } else {
      MaximumsCompareCounters(gate);
      var s := ExcessFails(basis, threshold);
      assert Fails(s, config, OfGate(gate));
    }
  }

  lemma ExcessFails(basis: Basis, threshold: real) returns (s: Summary)
    requires (basis.Ratio? && basis.part != basis.of) || (basis.Peak? && basis.value != basis.seen)
    ensures Misses(false, Read(s, basis), threshold)
  {
    var amount := Above(threshold);
    WholeShare(amount);
    match basis {
      case Ratio(part, of) =>
        s := Excess(part, of, amount);
        assert s.count(part) == amount && s.count(of) == 1;
      case Peak(value, seen) =>
        s := Excess(value, seen, amount);
        assert s.count(value) == amount && s.count(seen) == 1;
    }
  }

  function Above(threshold: real): (amount: int)
    ensures amount as real > threshold
  {
    threshold.Floor + 1
  }

  lemma WholeShare(amount: int)
    ensures Share(amount, 1) == amount as real
  {
  }

  lemma EmptyFailsMinimum(gate: Gate, basis: Basis, threshold: real)
    requires IsMinimum(gate)
    ensures GateFails(NOTHING, gate, basis, threshold)
  {
    if basis.OfNames? {
      assert Counted(NOTHING.all(basis.kind)) == map[];
    }
  }

  lemma NamedGateCanFail(config: Config, gate: NamedGate, name: string)
    requires InForceFor(config, gate, name)
    ensures exists s, f :: Fails(s, config, f)
  {
    EveryNamedGateIsListed(gate);
    var threshold := config.named[gate][name];
    var s := if gate == DebugBriefTag then TagExcess(name, Above(threshold)) else NOTHING;
    WholeShare(Above(threshold));
    assert gate == DebugBriefTag ==> Get(s.tags, name) == Above(threshold) && s.count(Total) == 1;
    assert MissesNamed(s, gate, name, threshold);
    assert Fails(s, config, OfNamed(gate, name));
  }

  /** The test for gates, asked of the recorded metadata, is exact: without gates no
      summary fails, and with any gate in force some counters, whether a batch can reach
      them or not, would fail it. */
  lemma HasThresholdsIff(config: Config)
    ensures HasThresholds(Metadata(config)) <==> exists s, f :: Fails(s, config, f)
  {
    if HasThresholds(Metadata(config)) {
      SomethingCanFail(config);
    }
    if s, f :| Fails(s, config, f) {
      FailureNeedsThreshold(s, config, f);
    }
  }

  lemma SomethingCanFail(config: Config)
    requires HasThresholds(Metadata(config))
    ensures exists s, f :: Fails(s, config, f)
  {
    var meta := Metadata(config);
    if gate :| gate in DETECTED && gate in meta.values {
      GateCanFail(config, gate);
    } else if gate :| gate in NAMED_DETECTED && gate in meta.named && meta.named[gate] != map[] {
      var name :| name in meta.named[gate];
      NamedGateCanFail(config, gate, name);
    } else {
      var kind :| kind in meta.required && meta.required[kind] != [];
      assert Fails(NOTHING, config, Missing(kind, config.required[kind][0]));
    }
  }

  lemma FailureNeedsThreshold(s: Summary, config: Config, f: Failure)
    requires Fails(s, config, f)
    ensures HasThresholds(Metadata(config))
  {
    MetadataKeepsVerdict(s, config, f);
    match f {
      case OfGate(gate) => EveryGateIsListed(gate);
      case OfName(gate, name) => EveryGateIsListed(gate);
      case OfNamed(gate, name) => EveryNamedGateIsListed(gate);
      case Missing(kind, name) =>
    }
  }

  // ---- Failures on counters with no part above its whole ----

  /** The upper bounds on a part of a whole: what is counted happens at most once for
      each time the whole is. Turns forced to answer without tools are not among them,
      though their bound is taken between 0 and 1 as well: a turn can be forced so
      without a single tool call. */
  const SHARES := {MaxFocusedTaskErrorRate, MaxLoopGuardInterventionRate, MaxPlanErrorRate, MaxMemorySearchMissRate,
                   MaxSourceDiscoveryOnlyRate, MaxSourceDynamicPartialRate, MaxSubagentErrorRate,
                   MaxToolErrorRate, MaxToolContextTruncationRate, MaxToolResultTruncationRate,
                   MaxContextCompactionPostPolicyOverRate}

  /** The counters that are a part of another. */
  const PARTS := {FocusedTaskErrors, LoopGuardInterventions, PlanErrors, MemorySearchMisses,
                  SourceAccessDiscoveryOnly, SourceAccessDynamicPartial, SubagentErrors, ToolErrors,
                  ToolContextTruncated, ToolResultsTruncated, ContextCompactionPostPolicyStillOver}

  /** No counter is negative, and no part exceeds its whole. */
  ghost predicate Plausible(s: Summary) {
    && (forall c: Counter :: 0 <= s.count(c))
    && (forall gate <- SHARES :: PartWithinWhole(s, BasisOf(gate)))
    && (forall tag <- s.tags :: 0 <= s.tags[tag] <= s.count(Total))
  }

  predicate PartWithinWhole(s: Summary, basis: Basis) {
    basis.Ratio? && s.count(basis.part) <= s.count(basis.of)
  }

  lemma SharesHaveParts(gate: Gate)
    ensures gate in SHARES ==>
              !IsMinimum(gate) && BasisOf(gate).Ratio? && BasisOf(gate).part in PARTS
  {
    SharesAreMaximums(gate);
  }

  lemma SharesAreMaximums(gate: Gate)
    ensures gate in SHARES ==> !IsMinimum(gate)
  {
  }

  lemma OthersHaveNone(gate: Gate)
    requires !IsMinimum(gate) && gate !in SHARES
    ensures var basis := BasisOf(gate);
            (basis.Ratio? && basis.part !in PARTS) || (basis.Peak? && basis.value !in PARTS)
  {
    assert gate !in MINIMUMS && gate !in SHARES;
  }

  /** Everything occurred once, and one counter `amount` times. */
  function Once(more: Counter, amount: int): Summary {
    NOTHING.(count := c => if c == more then amount else 1)
  }

  /** No share is a part counted by this counter. */
  ghost predicate NoPart(more: Counter) {
    forall gate <- SHARES :: BasisOf(gate).Ratio? && BasisOf(gate).part != more
  }

  lemma OutsideParts(more: Counter)
    requires more !in PARTS
    ensures NoPart(more)
  {
    forall gate <- SHARES ensures BasisOf(gate).Ratio? && BasisOf(gate).part != more {
      SharesHaveParts(gate);
    }
  }

  lemma AllRatios()
    ensures forall gate <- SHARES :: BasisOf(gate).Ratio?
  {
    forall gate <- SHARES ensures BasisOf(gate).Ratio? {
      SharesHaveParts(gate);
    }
  }

  lemma OnceIsPlausible(more: Counter, amount: int)
    requires amount >= 1 && (amount == 1 || NoPart(more))
    ensures Plausible(Once(more, amount))
  {
    OnceCounts(more, amount);
    CountedOnce(Once(more, amount), more, amount);
  }

  lemma OnceCounts(more: Counter, amount: int)
    ensures Once(more, amount).tags == map[]
    ensures forall c :: Once(more, amount).count(c) == if c == more then amount else 1
  {
  }

  lemma CountedOnce(s: Summary, more: Counter, amount: int)
    requires s.tags == map[] && forall c :: s.count(c) == if c == more then amount else 1
    requires amount >= 1 && (amount == 1 || NoPart(more))
    ensures Plausible(s)
  {
    AllRatios();
    forall gate <- SHARES ensures PartWithinWhole(s, BasisOf(gate)) {
      assert amount == 1 || BasisOf(gate).part != more;
      PartCountedOnce(s, more, amount, BasisOf(gate));
    }
  }

  lemma PartCountedOnce(s: Summary, more: Counter, amount: int, basis: Basis)
    requires forall c :: s.count(c) == if c == more then amount else 1
    requires amount >= 1 && basis.Ratio? && (amount == 1 || basis.part != more)
    ensures PartWithinWhole(s, basis)
  {
  }

  /** A gate that some plausible batch fails: all in force but shares allowed to be
      whole. */
  predicate Bites(config: Config, gate: Gate) {
    InForce(config, gate) && (gate in SHARES ==> config.values[gate] < 1.0)
  }

  predicate BitesFor(config: Config, gate: NamedGate, name: string) {
    InForceFor(config, gate, name) && (gate == DebugBriefTag ==> config.named[gate][name] < 1.0)
  }

  /** Some plausible batch fails exactly when a gate in force is not a share allowed to
      be whole, or a name is required. */
  lemma PlausibleFailureIff(config: Config)
    ensures (exists s, f :: Plausible(s) && Fails(s, config, f)) <==>
            || (exists gate :: Bites(config, gate))
            || (exists gate, name :: BitesFor(config, gate, name))
            || (exists kind <- config.required :: config.required[kind] != [])
  {
    if s, f :| Plausible(s) && Fails(s, config, f) {
      FailureBites(s, config, f);
    }
    if gate :| Bites(config, gate) {
      var s := BittenBy(config, gate);
      assert Plausible(s) && Fails(s, config, OfGate(gate));
    }
    if gate, name :| BitesFor(config, gate, name) {
      var s := BittenByName(config, gate, name);
      assert Plausible(s) && Fails(s, config, OfNamed(gate, name));
    }
    if kind :| kind in config.required && config.required[kind] != [] {
      NothingIsPlausible();
      assert Fails(NOTHING, config, Missing(kind, config.required[kind][0]));
    }
  }

  lemma NothingIsPlausible()
    ensures Plausible(NOTHING)
  {
    forall gate <- SHARES ensures PartWithinWhole(NOTHING, BasisOf(gate)) {
      SharesHaveParts(gate);
    }
  }

  /** A share never exceeds one. */
  lemma ShareAtMostOne(part: int, of: int)
    requires part <= of
    ensures Share(part, of) <= 1.0
  {
    if of > 0 {
      QuotientAtMostOne(part as real, of as real);
    }
  }

  lemma QuotientAtMostOne(part: real, of: real)
    requires 0.0 < of && part <= of
    ensures part / of <= 1.0
  {
    var rest := 1.0 - part / of;
    assert part / of * of == part;
    assert rest * of == of - part;
    FactorNotNegative(rest, of);
  }

  lemma FactorNotNegative(x: real, positive: real)
    requires 0.0 < positive && x * positive >= 0.0
    ensures x >= 0.0
  {
  }

  lemma FailureBites(s: Summary, config: Config, f: Failure)
    requires Plausible(s) && Fails(s, config, f)
    ensures match f
            case OfGate(gate) => Bites(config, gate)
            case OfName(gate, _) => Bites(config, gate)
            case OfNamed(gate, name) => BitesFor(config, gate, name)
            case Missing(kind, _) => kind in config.required && config.required[kind] != []
  {
    match f {
      case OfGate(gate) =>
        if gate in SHARES {
          SharesHaveParts(gate);
          WholeShareHolds(s, gate, BasisOf(gate), config.values[gate]);
        }
      case OfName(gate, _) => SharesHaveParts(gate);
      case OfNamed(gate, name) =>
        if gate == DebugBriefTag {
          ShareAtMostOne(Get(s.tags, name), s.count(Total));
        }
      case Missing(kind, _) =>
    }
  }

  lemma WholeShareHolds(s: Summary, gate: Gate, basis: Basis, threshold: real)
    requires !IsMinimum(gate) && PartWithinWhole(s, basis) && GateFails(s, gate, basis, threshold)
    ensures threshold < 1.0
  {
    ShareAtMostOne(s.count(basis.part), s.count(basis.of));
  }

  lemma BittenBy(config: Config, gate: Gate) returns (s: Summary)
    requires Bites(config, gate)
    ensures Plausible(s) && Fails(s, config, OfGate(gate))
  {
    EveryGateIsListed(gate);
    s := FailsGate(gate, gate in SHARES, BasisOf(gate), config.values[gate]);
  }

  lemma FailsGate(gate: Gate, share: bool, basis: Basis, threshold: real) returns (s: Summary)
    requires basis == BasisOf(gate) && share == (gate in SHARES)
    requires threshold >= 0.0 && (share ==> threshold < 1.0)
    ensures Plausible(s) && GateFails(s, gate, basis, threshold)
  {
    if IsMinimum(gate) {
      NothingIsPlausible();
      EmptyFailsMinimum(gate, basis, threshold);
      s := NOTHING;
    } else if share {
      SharesHaveParts(gate);
      s := WholeExceeds(basis, threshold);
    } else {
      OthersHaveNone(gate);
      MaximumsCompareCounters(gate);
      s := OnceExceeds(basis, threshold);
    }
  }

  lemma WholeExceeds(basis: Basis, threshold: real) returns (s: Summary)
    requires basis.Ratio? && threshold < 1.0
    ensures Plausible(s) && Misses(false, Read(s, basis), threshold)
  {
    OnceIsPlausible(Total, 1);
    s := Once(Total, 1);
    WholeShare(1);
    assert Read(s, basis) == Reading(true, 1.0);
  }

  /** Two scenarios, one forced to answer after its only tool call and one before any:
      the rate of forced answers exceeds one, so even a bound of one can fail. */
  function ForcedTwice(): Summary {
    NOTHING.(count := Forced)
  }

  function Forced(c: Counter): int {
    if c == ForcedNoTools || c == Total then 2 else if c == ToolCalls then 1 else 0
  }

  lemma ForcedAnswersExceedCalls(config: Config, gate: Gate)
    requires gate == MaxForcedNoToolsRate && config == Config(map[gate := 1.0], map[], map[])
    ensures Plausible(ForcedTwice()) && Fails(ForcedTwice(), config, OfGate(gate))
  {
    ForcedIsPlausible(ForcedTwice());
    EveryGateIsListed(gate);
    ForcedFails(ForcedTwice(), gate, BasisOf(gate));
  }

  const FORCED := {ForcedNoTools, Total, ToolCalls}

  lemma ForcedIsPlausible(s: Summary)
    requires s == ForcedTwice()
    ensures Plausible(s)
  {
    assert forall c :: s.count(c) == Forced(c);
    forall gate <- SHARES ensures PartWithinWhole(s, BasisOf(gate)) {
      SharesHaveParts(gate);
      PartNotForced(BasisOf(gate).part);
      assert s.count(BasisOf(gate).part) == 0;
    }
  }

  lemma PartNotForced(c: Counter)
    requires c in PARTS
    ensures c !in FORCED
  {
  }

  lemma ForcedFails(s: Summary, gate: Gate, basis: Basis)
    requires s == ForcedTwice() && basis == Ratio(ForcedNoTools, ToolCalls) && gate == MaxForcedNoToolsRate
    ensures GateFails(s, gate, basis, 1.0)
  {
    assert s.count(ForcedNoTools) == 2 && s.count(ToolCalls) == 1;
    assert Share(2, 1) == 2.0;
  }

  lemma OnceExceeds(basis: Basis, threshold: real) returns (s: Summary)
    requires threshold >= 0.0
    requires || (basis.Ratio? && basis.part != basis.of && basis.part !in PARTS)
             || (basis.Peak? && basis.value != basis.seen && basis.value !in PARTS)
    ensures Plausible(s) && Misses(false, Read(s, basis), threshold)
  {
    var amount := Above(threshold);
    WholeShare(amount);
    var more := if basis.Ratio? then basis.part else basis.value;
    OutsideParts(more);
    OnceIsPlausible(more, amount);
    s := Once(more, amount);
    assert Read(s, basis) == Reading(true, amount as real);
  }

  lemma BittenByName(config: Config, gate: NamedGate, name: string) returns (s: Summary)
    requires BitesFor(config, gate, name)
    ensures Plausible(s) && Fails(s, config, OfNamed(gate, name))
  {
    EveryNamedGateIsListed(gate);
    if gate == DebugBriefTag {
      s := Once(Total, 1).(tags := map[name := 1]);
      OncePlausibleTagged(name);
      WholeShare(1);
      assert Get(s.tags, name) == 1 && s.count(Total) == 1;
    } else {
      NothingIsPlausible();
      s := NOTHING;
    }
  }

  lemma OncePlausibleTagged(name: string)
    ensures Plausible(Once(Total, 1).(tags := map[name := 1]))
  {
    var one := Once(Total, 1);
    OnceIsPlausible(Total, 1);
    TaggedWithin(one, one.(tags := map[name := 1]));
  }

  lemma TaggedWithin(s: Summary, t: Summary)
    requires Plausible(s) && t.count == s.count
    requires forall tag <- t.tags :: 0 <= t.tags[tag] <= s.count(Total)
    ensures Plausible(t)
  {
    forall gate <- SHARES ensures PartWithinWhole(t, BasisOf(gate)) {
      assert PartWithinWhole(s, BasisOf(gate));
    }
  }

  // ---- Tightening ----

  predicate Tightens(minimum: bool, before: real, after: real) {
    after >= 0.0 && if minimum then before <= after else after <= before
  }

  /** Every threshold in force stays in force and gets no looser, and no required name
      is dropped. */
  ghost predicate Tighter(a: Config, b: Config) {
    && (forall gate :: InForce(a, gate) ==>
          gate in b.values && Tightens(IsMinimum(gate), a.values[gate], b.values[gate]))
    && (forall gate, name :: InForceFor(a, gate, name) ==>
          gate in b.named && name in b.named[gate]
          && Tightens(gate == DomainSourceVerified, a.named[gate][name], b.named[gate][name]))
    && (forall kind, name :: kind in a.required && name in a.required[kind] ==>
          kind in b.required && name in b.required[kind])
  }

  /** Tightening removes no failure. */
  lemma TighteningKeepsFailures(s: Summary, a: Config, b: Config, f: Failure)
    requires Tighter(a, b) && Fails(s, a, f)
    ensures Fails(s, b, f)
  {
    match f {
      case OfGate(gate) =>
        assert InForce(a, gate);
        GateMonotone(s, gate, BasisOf(gate), a.values[gate], b.values[gate]);
      case OfName(gate, name) =>
        assert InForce(a, gate);
        EachIsMinimum(gate);
      case OfNamed(gate, name) =>
        assert InForceFor(a, gate, name);
      case Missing(kind, name) =>
    }
  }

  lemma EachIsMinimum(gate: Gate)
    ensures BasisOf(gate).OfNames? ==> IsMinimum(gate)
  {
    if !IsMinimum(gate) {
      MaximumsCompareCounters(gate);
    }
  }

  lemma GateMonotone(s: Summary, gate: Gate, basis: Basis, before: real, after: real)
    requires GateFails(s, gate, basis, before) && Tightens(IsMinimum(gate), before, after)
    ensures GateFails(s, gate, basis, after)
  {
  }
}

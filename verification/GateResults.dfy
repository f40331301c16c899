/**
 Quality gates on the results of a batch: what a gate fails on, told from the results the
 summary was made of.
*/
module GateResults {
  import opened Options
  import opened BatchSummary
  import opened BatchCounts
  import opened QualityGates

  type Counters = QualityGates.Summary

  /** The gates' view of a summary made of results. */
  ghost predicate Describes(s: Counters, t: Totals) {
    && s.count(Total) == t.outcomes.total && s.count(Passed) == t.outcomes.passed
    && s.count(EndCompleted) == t.outcomes.completed
    && s.count(VerifierRuns) == t.verification.runs && s.count(VerifierPassed) == t.verification.passed
    && s.count(ToolCalls) == t.usage.toolCalls && s.count(ToolErrors) == t.usage.toolErrors
    && s.count(RuntimeErrors) == t.errors.count
    && s.count(AllTokens) == t.usage.inputTokens + t.usage.outputTokens
    && s.count(LargestScenarioTokens) == t.usage.maxTokens
    && s.all(Capability) == t.expected.capabilities && s.passed(Capability) == t.expected.capabilityPass
    && s.all(Domain) == t.expected.domains && s.passed(Domain) == t.expected.domainPass
    && s.domains.Keys == t.expected.runtime.Keys
    && forall domain <- s.domains :: DescribesDomain(s.domains[domain], t.expected.runtime[domain])
  }

  predicate DescribesDomain(cost: DomainCost, d: DomainTotals) {
    && cost.scenarios == d.scenarios && cost.tokens == d.inputTokens + d.outputTokens
    && cost.toolCalls == d.toolCalls && cost.runtimeErrors == d.runtimeErrors && cost.toolErrors == d.toolErrors
  }

  /** `part` of `of` is missing or below the threshold. */
  predicate Lacks(part: int, of: int, threshold: real) {
    of <= 0 || part as real < threshold * of as real
  }

  /** `part` of `of` is there and above the threshold. */
  predicate Exceeds(part: int, of: int, threshold: real) {
    of > 0 && part as real > threshold * of as real
  }

  lemma ShareCompares(part: int, of: int, threshold: real)
    requires of > 0
    ensures Share(part, of) < threshold <==> part as real < threshold * of as real
    ensures Share(part, of) > threshold <==> part as real > threshold * of as real
  {
    QuotientCompares(part as real, of as real, threshold);
  }

  lemma QuotientCompares(a: real, n: real, threshold: real)
    requires n > 0.0
    ensures a / n < threshold <==> a < threshold * n
    ensures a / n > threshold <==> a > threshold * n
  {
    var share := a / n;
    assert share * n == a;
    ScaleKeepsOrder(share, threshold, n);
  }

  lemma ScaleKeepsOrder(a: real, b: real, n: real)
    requires n > 0.0
    ensures a < b <==> a * n < b * n
    ensures a > b <==> a * n > b * n
  {
    if a < b {
      assert (b - a) * n > 0.0;
    } else if a > b {
      assert (a - b) * n > 0.0;
    }
  }

  // ---- What the gates measure ----

  ghost predicate FailsAt(s: Counters, gate: Gate, threshold: real) {
    GateFails(s, gate, BasisOf(gate), threshold)
  }

  /** The gate bounds `part` of `of`, from below or from above. */
  predicate Measures(s: Counters, gate: Gate, minimum: bool, part: int, of: int) {
    var basis := BasisOf(gate);
    basis.Ratio? && s.count(basis.part) == part && s.count(basis.of) == of && IsMinimum(gate) == minimum
  }

  /** When such a gate fails. */
  lemma MeasuredFails(s: Counters, gate: Gate, minimum: bool, part: int, of: int, threshold: real)
    requires Measures(s, gate, minimum, part, of)
    ensures FailsAt(s, gate, threshold) <==>
            if minimum then Lacks(part, of, threshold) else Exceeds(part, of, threshold)
  {
    if of > 0 {
      ShareCompares(part, of, threshold);
    }
  }

  lemma BoundsAre(gate: Gate)
    ensures gate in {MinPassRate, MinCompletionRate, MinVerifierPassRate} ==> IsMinimum(gate)
    ensures gate in {MaxToolErrorRate, MaxAvgRuntimeErrors, MaxAvgToolCalls, MaxAvgTotalTokens} ==> !IsMinimum(gate)
    ensures gate == MaxScenarioTotalTokens ==> !IsMinimum(gate)
  {
  }

  /** What must not be too low: of the results, those that are ok, and those that ended as
      completed; of the results the verifier ran on, those it passed. */
  lemma LowRates(s: Counters, results: seq<Result>)
    requires Describes(s, SummaryOf(results))
    ensures Measures(s, MinPassRate, true, Number(results, (res: Result) => res.ok), |results|)
    ensures Measures(s, MinCompletionRate, true,
                     Number(results, (res: Result) => res.endReason == "completed"), |results|)
    ensures Measures(s, MinVerifierPassRate, true,
                     Number(results, (res: Result) => res.verifierRan && res.verifierOk),
                     Number(results, (res: Result) => res.verifierRan))
  {
    BoundsAre(MinPassRate);
    BoundsAre(MinCompletionRate);
    BoundsAre(MinVerifierPassRate);
    PassesAndFailures(results);
    CompletedAreCounted(results);
    VerifierIsCounted(results);
  }

  /** What must not be too high: the tool errors of all tool calls, and the tool calls and
      the tokens of all results. */
  lemma HighAverages(s: Counters, results: seq<Result>)
    requires Describes(s, SummaryOf(results))
    ensures Measures(s, MaxToolErrorRate, false, SumOf(results, (res: Result) => res.toolErrors),
                     SumOf(results, (res: Result) => res.toolCalls))
    ensures Measures(s, MaxAvgToolCalls, false, SumOf(results, (res: Result) => res.toolCalls), |results|)
    ensures Measures(s, MaxAvgTotalTokens, false,
                     SumOf(results, (res: Result) => res.inputTokens)
                     + SumOf(results, (res: Result) => res.outputTokens), |results|)
  {
    BoundsAre(MaxToolErrorRate);
    BoundsAre(MaxAvgToolCalls);
    BoundsAre(MaxAvgTotalTokens);
    TotalIsAll(results);
    UsageIsSummed(results);
  }

  /** And the runtime errors of all results. */
  lemma HighErrors(s: Counters, results: seq<Result>)
    requires Describes(s, SummaryOf(results))
    ensures Measures(s, MaxAvgRuntimeErrors, false, SumOf(results, (res: Result) => Sum(res.runtimeErrors)), |results|)
  {
    BoundsAre(MaxAvgRuntimeErrors);
    TotalIsAll(results);
    ErrorsAreSummed(results, "any");
  }

  /** The token limit of a scenario fails exactly when some result used more. */
  lemma CostlyScenarioFails(s: Counters, results: seq<Result>, threshold: real)
    requires Describes(s, SummaryOf(results)) && threshold >= 0.0
    ensures FailsAt(s, MaxScenarioTotalTokens, threshold) <==>
            exists res <- results :: TokensOf(res) as real > threshold
  {
    BoundsAre(MaxScenarioTotalTokens);
    TotalIsAll(results);
    MaximumReached(results, SummaryOf(results).usage, threshold);
    PeakFails(s, MaxScenarioTotalTokens, BasisOf(MaxScenarioTotalTokens), |results|, threshold);
  }

  lemma PeakFails(s: Counters, gate: Gate, basis: Basis, n: nat, threshold: real)
    requires basis.Peak? && s.count(basis.seen) == n && !IsMinimum(gate)
    ensures GateFails(s, gate, basis, threshold) <==> n > 0 && s.count(basis.value) as real > threshold
  {
  }

  lemma MaximumReached(results: seq<Result>, u: Usage, threshold: real)
    requires u == SummaryOf(results).usage && threshold >= 0.0
    ensures results != [] && u.maxTokens as real > threshold <==>
            exists res <- results :: TokensOf(res) as real > threshold
  {
    NameIsFirst(results, u);
    if u.maxTokens as real > threshold {
      var i: nat :| FirstAtMaximum(results, i, u);
      assert results[i] in results;
    }
    forall res <- results ensures TokensOf(res) <= u.maxTokens {
      var j :| 0 <= j < |results| && results[j] == res;
      assert TokensOf(results[j]) <= u.maxTokens;
    }
  }

  // ---- Names ----

  /** A required capability or domain is missing exactly when no result mentions it. */
  lemma RequiredNameMissing(s: Counters, results: seq<Result>, config: Config, name: string)
    requires Describes(s, SummaryOf(results))
    ensures Fails(s, config, Missing(RequiredCapability, name)) <==>
            && RequiredCapability in config.required && name in config.required[RequiredCapability]
            && SumOf(results, (res: Result) => Times(Capabilities(res), name)) == 0
    ensures Fails(s, config, Missing(RequiredDomain, name)) <==>
            && RequiredDomain in config.required && name in config.required[RequiredDomain]
            && SumOf(results, (res: Result) => Times(Domains(res), name)) == 0
  {
    NamesAreTallied(results, name);
  }

  /** The gate asks of each name that `passed` of its `all` mentions are enough. */
  predicate MeasuresName(s: Counters, gate: Gate, name: string, passed: int, all: int) {
    var basis := BasisOf(gate);
    basis.OfNames? && basis.each && Get(s.passed(basis.kind), name) == passed && Get(s.all(basis.kind), name) == all
  }

  /** A name fails exactly when it is mentioned and too few of its mentions passed. */
  lemma MeasuredNameFails(s: Counters, gate: Gate, name: string, passed: int, all: int, threshold: real)
    requires MeasuresName(s, gate, name, passed, all)
    ensures NameFails(s, BasisOf(gate), name, threshold) <==> all > 0 && passed as real < threshold * all as real
  {
    if all > 0 {
      ShareCompares(passed, all, threshold);
    }
  }

  /** The mentions of a capability are those of all results, the passed ones those of the
      results that are ok. */
  lemma CapabilityIsMeasured(s: Counters, results: seq<Result>, name: string)
    requires Describes(s, SummaryOf(results))
    ensures MeasuresName(s, MinEachExpectationCapabilityPassRate, name,
                         SumOf(results, (res: Result) => if res.ok then Times(Capabilities(res), name) else 0),
                         SumOf(results, (res: Result) => Times(Capabilities(res), name)))
  {
    CapabilitiesTallied(results, name, s.passed(Capability), s.all(Capability));
    KindMeasured(s, MinEachExpectationCapabilityPassRate, Capability, name);
  }

  lemma CapabilitiesTallied(results: seq<Result>, name: string, passed: Tally, all: Tally)
    requires passed == SummaryOf(results).expected.capabilityPass && all == SummaryOf(results).expected.capabilities
    ensures Get(passed, name)
         == SumOf(results, (res: Result) => if res.ok then Times(Capabilities(res), name) else 0)
    ensures Get(all, name) == SumOf(results, (res: Result) => Times(Capabilities(res), name))
  {
    NamesAreTallied(results, name);
    PassesAreTallied(results, name);
  }

  /** And so are those of a domain. */
  lemma DomainIsMeasured(s: Counters, results: seq<Result>, name: string)
    requires Describes(s, SummaryOf(results))
    ensures MeasuresName(s, MinEachExpectationDomainPassRate, name,
                         SumOf(results, (res: Result) => if res.ok then Times(Domains(res), name) else 0),
                         SumOf(results, (res: Result) => Times(Domains(res), name)))
  {
    DomainsTallied(results, name, s.passed(Domain), s.all(Domain));
    KindMeasured(s, MinEachExpectationDomainPassRate, Domain, name);
  }

  lemma DomainsTallied(results: seq<Result>, name: string, passed: Tally, all: Tally)
    requires passed == SummaryOf(results).expected.domainPass && all == SummaryOf(results).expected.domains
    ensures Get(passed, name) == SumOf(results, (res: Result) => if res.ok then Times(Domains(res), name) else 0)
    ensures Get(all, name) == SumOf(results, (res: Result) => Times(Domains(res), name))
  {
    NamesAreTallied(results, name);
    PassesAreTallied(results, name);
  }

  lemma KindMeasured(s: Counters, gate: Gate, kind: Kind, name: string)
    requires BasisOf(gate) == OfNames(kind, true)
    ensures MeasuresName(s, gate, name, Get(s.passed(kind), name), Get(s.all(kind), name))
  {
  }

  // ---- Domains ----

  /** A domain fails its limits exactly when no result declares it or the results that do
      used more tokens, made more tool calls or had more runtime errors on average, or a
      larger part of their tool calls failed. */
  lemma DomainOverLimit(s: Counters, results: seq<Result>, domain: string, threshold: real)
    requires Describes(s, SummaryOf(results))
    ensures var n := Number(results, (res: Result) => Declares(res, domain));
            var calls := SumOf(results, (res: Result) => if Declares(res, domain) then res.toolCalls else 0);
            && (MissesNamed(s, DomainTokens, domain, threshold) <==>
                n == 0 || Exceeds(SumOf(results, (res: Result) => if Declares(res, domain) then res.inputTokens else 0)
                                  + SumOf(results, (res: Result) =>
                                                     if Declares(res, domain) then res.outputTokens else 0),
                                  n, threshold))
            && (MissesNamed(s, DomainToolCalls, domain, threshold) <==> n == 0 || Exceeds(calls, n, threshold))
            && (MissesNamed(s, DomainErrors, domain, threshold) <==>
                n == 0 || Exceeds(SumOf(results, (res: Result) =>
                                                   if Declares(res, domain) then Sum(res.runtimeErrors) else 0),
                                  n, threshold))
            && (MissesNamed(s, DomainToolErrors, domain, threshold) <==>
                n == 0 || Exceeds(SumOf(results, (res: Result) => if Declares(res, domain) then res.toolErrors else 0),
                                  calls, threshold))
  {
    DomainIsSummed(results, domain);
    DomainCostIsSummed(results, domain);
    NumberIsNatural(results, (res: Result) => Declares(res, domain));
    var d := DomainOf(SummaryOf(results).expected.runtime, domain);
    if d.scenarios > 0 {
      assert domain in s.domains;
      CostCompares(s.domains[domain], threshold);
    }
  }

  lemma {:induction false} NumberIsNatural(results: seq<Result>, kind: Result -> bool)
    ensures Number(results, kind) >= 0
  {
    if results != [] {
      NumberIsNatural(results[..|results| - 1], kind);
    }
  }

  lemma CostCompares(cost: DomainCost, threshold: real)
    requires cost.scenarios > 0
    ensures Misses(false, ReadDomain(DomainTokens, cost), threshold) <==>
            Exceeds(cost.tokens, cost.scenarios, threshold)
    ensures Misses(false, ReadDomain(DomainToolCalls, cost), threshold) <==>
            Exceeds(cost.toolCalls, cost.scenarios, threshold)
    ensures Misses(false, ReadDomain(DomainErrors, cost), threshold) <==>
            Exceeds(cost.runtimeErrors, cost.scenarios, threshold)
    ensures Misses(false, ReadDomain(DomainToolErrors, cost), threshold) <==>
            Exceeds(cost.toolErrors, cost.toolCalls, threshold)
  {
    ReadingExceeds(cost.tokens, cost.scenarios, threshold);
    ReadingExceeds(cost.toolCalls, cost.scenarios, threshold);
    ReadingExceeds(cost.runtimeErrors, cost.scenarios, threshold);
    ReadingExceeds(cost.toolErrors, cost.toolCalls, threshold);
  }

  lemma ReadingExceeds(part: int, of: int, threshold: real)
    ensures Misses(false, Reading(of > 0, Share(part, of)), threshold) <==> Exceeds(part, of, threshold)
  {
    if of > 0 {
      ShareCompares(part, of, threshold);
    }
  }
}

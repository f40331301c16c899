/**
 What the summary of a batch says about its results: every counter is the number of
 results of its kind, every total the sum over the results, every tally the number of
 mentions.
*/
module BatchCounts {
  import opened Options
  import opened GoText
  import opened Folds
  import opened BatchSummary

  ghost function SumOf(results: seq<Result>, amount: Result -> int): int {
    if results == [] then 0
    else SumOf(results[..|results| - 1], amount) + amount(results[|results| - 1])
  }

  /** How many results there are of a kind. */
  ghost function Number(results: seq<Result>, kind: Result -> bool): int {
    if results == [] then 0
    else Number(results[..|results| - 1], kind) + if kind(results[|results| - 1]) then 1 else 0
  }

  /** A counter that every result raises by its own amount ends up at the sum. */
  lemma {:induction false} Accumulates(results: seq<Result>, counter: Totals -> int, amount: Result -> int)
    requires counter(EMPTY) == 0
    requires forall t, res :: counter(AddResult(t, res)) == counter(t) + amount(res)
    ensures counter(SummaryOf(results)) == SumOf(results, amount)
  {
    if results != [] {
      Accumulates(results[..|results| - 1], counter, amount);
    }
  }

  /** A counter that the results of one kind raise by one ends up at their number. */
  lemma {:induction false} Counts(results: seq<Result>, counter: Totals -> int, kind: Result -> bool)
    requires counter(EMPTY) == 0
    requires forall t, res :: counter(AddResult(t, res)) == counter(t) + if kind(res) then 1 else 0
    ensures counter(SummaryOf(results)) == Number(results, kind)
  {
    if results != [] {
      Counts(results[..|results| - 1], counter, kind);
    }
  }

  lemma {:induction false} TotalIsAll(results: seq<Result>)
    ensures SummaryOf(results).outcomes.total == |results|
  {
    if results != [] {
      TotalIsAll(results[..|results| - 1]);
    }
  }

  // ---- Outcomes ----

  /** Passed are the results that are ok, failed the others. */
  lemma PassesAndFailures(results: seq<Result>)
    ensures var o := SummaryOf(results).outcomes;
            && o.total == |results|
            && o.passed == Number(results, (res: Result) => res.ok)
            && o.failed == Number(results, (res: Result) => !res.ok)
  {
    TotalIsAll(results);
    Counts(results, (t: Totals) => t.outcomes.passed, (res: Result) => res.ok);
    Counts(results, (t: Totals) => t.outcomes.failed, (res: Result) => !res.ok);
  }

  /** Each end counter is the number of results that ended so. */
  lemma EndsAreCounted(results: seq<Result>)
    ensures var o := SummaryOf(results).outcomes;
            && o.completed == Number(results, (res: Result) => res.endReason == "completed")
            && o.maxTurns == Number(results, (res: Result) => res.endReason == "max_turns")
            && o.errors == Number(results, (res: Result) => res.endReason == "error")
            && o.cancelled == Number(results, (res: Result) => res.endReason == "cancelled")
            && o.unknown
               == Number(results, (res: Result) => res.endReason !in {"completed", "max_turns", "error", "cancelled"})
  {
    CompletedAreCounted(results);
    MaxTurnsAreCounted(results);
    ErrorsAreCounted(results);
    CancelledAreCounted(results);
    OthersAreCounted(results);
  }

  lemma CompletedAreCounted(results: seq<Result>)
    ensures SummaryOf(results).outcomes.completed == Number(results, (res: Result) => res.endReason == "completed")
  {
    Counts(results, (t: Totals) => t.outcomes.completed, (res: Result) => res.endReason == "completed");
  }

  lemma MaxTurnsAreCounted(results: seq<Result>)
    ensures SummaryOf(results).outcomes.maxTurns == Number(results, (res: Result) => res.endReason == "max_turns")
  {
    Counts(results, (t: Totals) => t.outcomes.maxTurns, (res: Result) => res.endReason == "max_turns");
  }

  lemma ErrorsAreCounted(results: seq<Result>)
    ensures SummaryOf(results).outcomes.errors == Number(results, (res: Result) => res.endReason == "error")
  {
    Counts(results, (t: Totals) => t.outcomes.errors, (res: Result) => res.endReason == "error");
  }

  lemma CancelledAreCounted(results: seq<Result>)
    ensures SummaryOf(results).outcomes.cancelled == Number(results, (res: Result) => res.endReason == "cancelled")
  {
    Counts(results, (t: Totals) => t.outcomes.cancelled, (res: Result) => res.endReason == "cancelled");
  }

  lemma OthersAreCounted(results: seq<Result>)
    ensures SummaryOf(results).outcomes.unknown
         == Number(results, (res: Result) => res.endReason !in {"completed", "max_turns", "error", "cancelled"})
  {
    Counts(results, (t: Totals) => t.outcomes.unknown,
           (res: Result) => res.endReason !in {"completed", "max_turns", "error", "cancelled"});
  }

  // ---- Verifier and usage ----

  /** Verifier counters speak of the results whose verifier ran. */
  lemma VerifierIsCounted(results: seq<Result>)
    ensures var v := SummaryOf(results).verification;
            && v.runs == Number(results, (res: Result) => res.verifierRan)
            && v.passed == Number(results, (res: Result) => res.verifierRan && res.verifierOk)
            && v.failed == Number(results, (res: Result) => res.verifierRan && !res.verifierOk)
            && v.truncated == Number(results, (res: Result) => res.verifierRan && res.outputTruncated)
            && v.omitted == SumOf(results, (res: Result) => if res.verifierRan then res.outputOmitted else 0)
  {
    Counts(results, (t: Totals) => t.verification.runs, (res: Result) => res.verifierRan);
    Counts(results, (t: Totals) => t.verification.passed, (res: Result) => res.verifierRan && res.verifierOk);
    Counts(results, (t: Totals) => t.verification.failed, (res: Result) => res.verifierRan && !res.verifierOk);
    Counts(results, (t: Totals) => t.verification.truncated,
           (res: Result) => res.verifierRan && res.outputTruncated);
    Accumulates(results, (t: Totals) => t.verification.omitted,
                (res: Result) => if res.verifierRan then res.outputOmitted else 0);
  }

  /** Durations, calls, errors and tokens are summed up. */
  lemma UsageIsSummed(results: seq<Result>)
    ensures var u := SummaryOf(results).usage;
            && u.duration == SumOf(results, (res: Result) => res.duration)
            && u.toolCalls == SumOf(results, (res: Result) => res.toolCalls)
            && u.toolErrors == SumOf(results, (res: Result) => res.toolErrors)
            && u.inputTokens == SumOf(results, (res: Result) => res.inputTokens)
            && u.outputTokens == SumOf(results, (res: Result) => res.outputTokens)
  {
    Accumulates(results, (t: Totals) => t.usage.duration, (res: Result) => res.duration);
    Accumulates(results, (t: Totals) => t.usage.toolCalls, (res: Result) => res.toolCalls);
    Accumulates(results, (t: Totals) => t.usage.toolErrors, (res: Result) => res.toolErrors);
    Accumulates(results, (t: Totals) => t.usage.inputTokens, (res: Result) => res.inputTokens);
    Accumulates(results, (t: Totals) => t.usage.outputTokens, (res: Result) => res.outputTokens);
  }

  // ---- Tallies ----

  /** How often a list mentions a name, once trimmed. A blank entry mentions nothing. */
  function Times(names: seq<string>, name: string): nat {
    if name == "" || names == [] then 0
    else Times(names[..|names| - 1], name) + if TrimSpace(names[|names| - 1]) == name then 1 else 0
  }

  lemma {:induction false} NamesAreCounted(names: seq<string>, name: string)
    ensures Get(CountNames(names), name) == Times(names, name)
  {
    if names != [] {
      NamesAreCounted(names[..|names| - 1], name);
      NoBlankName(names[..|names| - 1]);
    }
  }

  lemma {:induction false} NoBlankName(names: seq<string>)
    ensures "" !in CountNames(names)
  {
    if names != [] {
      NoBlankName(names[..|names| - 1]);
    }
  }

  lemma {:induction false} TimesIsMention(names: seq<string>, name: string)
    requires name != ""
    ensures Times(names, name) > 0 <==> exists i :: 0 <= i < |names| && TrimSpace(names[i]) == name
  {
    if names != [] {
      var n := |names| - 1;
      TimesIsMention(names[..n], name);
      assert TrimSpace(names[n]) != name ==>
          forall i :: 0 <= i < n && TrimSpace(names[i]) == name ==> TrimSpace(names[..n][i]) == name;
    }
  }

  /** How many repairs are of a kind; a blank kind is unknown. */
  function RepairTimes(repairs: seq<string>, kind: string): nat {
    if repairs == [] then 0
    else
      var name := TrimSpace(repairs[|repairs| - 1]);
      RepairTimes(repairs[..|repairs| - 1], kind)
      + if name == kind || (name == "" && kind == "unknown") then 1 else 0
  }

  lemma {:induction false} RepairsAreNamed(repairs: seq<string>, kind: string)
    requires kind != ""
    ensures Times(RepairKinds(repairs), kind) == RepairTimes(repairs, kind)
  {
    if repairs != [] {
      var n := |repairs| - 1;
      RepairsAreNamed(repairs[..n], kind);
      assert RepairKinds(repairs)[..n] == RepairKinds(repairs[..n]);
      RepairIsNamed(repairs[n]);
    }
  }

  lemma RepairIsNamed(repair: string)
    ensures TrimSpace(RepairKind(repair)) == if TrimSpace(repair) == "" then "unknown" else TrimSpace(repair)
  {
    assert Trimmed("unknown");
  }

  /** Runtime errors and repairs, in all and of each kind. */
  lemma ErrorsAreSummed(results: seq<Result>, kind: string)
    ensures var e := SummaryOf(results).errors;
            && e.count == SumOf(results, (res: Result) => Sum(res.runtimeErrors))
            && Get(e.byKind, kind) == SumOf(results, (res: Result) => Get(res.runtimeErrors, kind))
            && e.repairs == SumOf(results, (res: Result) => |res.repairs|)
            && (kind != "" ==>
                  Get(e.repairByKind, kind) == SumOf(results, (res: Result) => RepairTimes(res.repairs, kind)))
  {
    Accumulates(results, (t: Totals) => t.errors.count, (res: Result) => Sum(res.runtimeErrors));
    Accumulates(results, (t: Totals) => Get(t.errors.byKind, kind), (res: Result) => Get(res.runtimeErrors, kind));
    Accumulates(results, (t: Totals) => t.errors.repairs, (res: Result) => |res.repairs|);
    if kind != "" {
      RepairsAreSummed(results, kind);
    }
  }

  lemma RepairsAreSummed(results: seq<Result>, kind: string)
    requires kind != ""
    ensures Get(SummaryOf(results).errors.repairByKind, kind)
         == SumOf(results, (res: Result) => RepairTimes(res.repairs, kind))
  {
    forall res: Result
      ensures Get(CountNames(RepairKinds(res.repairs)), kind) == RepairTimes(res.repairs, kind)
    {
      NamesAreCounted(RepairKinds(res.repairs), kind);
      RepairsAreNamed(res.repairs, kind);
    }
    Accumulates(results, (t: Totals) => Get(t.errors.repairByKind, kind),
                (res: Result) => RepairTimes(res.repairs, kind));
  }

  // ---- What scenarios declare ----

  function Domains(res: Result): seq<string> {
    if res.expectations.Some? then res.expectations.value.domains else []
  }

  function Capabilities(res: Result): seq<string> {
    if res.expectations.Some? then res.expectations.value.capabilities else []
  }

  function Suites(res: Result): seq<string> {
    if res.expectations.Some? then res.expectations.value.suites else []
  }

  lemma SuitesOfAdded(e: Expected, res: Result, name: string)
    ensures Get(AddExpected(e, res).suites, name) == Get(e.suites, name) + Times(Suites(res), name)
  {
    NamesAreCounted(Suites(res), name);
  }

  lemma NamesOfAdded(e: Expected, res: Result, name: string)
    ensures var f := AddExpected(e, res);
            && Get(f.domains, name) == Get(e.domains, name) + Times(Domains(res), name)
            && Get(f.capabilities, name) == Get(e.capabilities, name) + Times(Capabilities(res), name)
  {
    NamesAreCounted(Domains(res), name);
    NamesAreCounted(Capabilities(res), name);
  }

  lemma PassesOfAdded(e: Expected, res: Result, name: string)
    ensures var f := AddExpected(e, res);
            && Get(f.domainPass, name) == Get(e.domainPass, name) + (if res.ok then Times(Domains(res), name) else 0)
            && Get(f.capabilityPass, name)
               == Get(e.capabilityPass, name) + (if res.ok then Times(Capabilities(res), name) else 0)
  {
    NamesAreCounted(Domains(res), name);
    NamesAreCounted(Capabilities(res), name);
  }

  /** Every tally of declared names counts the mentions of the results, and the pass tallies
      those of the results that are ok. */
  lemma NamesAreTallied(results: seq<Result>, name: string)
    ensures var e := SummaryOf(results).expected;
            && e.scenarios == Number(results, (res: Result) => res.expectations.Some?)
            && Get(e.suites, name) == SumOf(results, (res: Result) => Times(Suites(res), name))
            && Get(e.domains, name) == SumOf(results, (res: Result) => Times(Domains(res), name))
            && Get(e.capabilities, name) == SumOf(results, (res: Result) => Times(Capabilities(res), name))
  {
    Counts(results, (t: Totals) => t.expected.scenarios, (res: Result) => res.expectations.Some?);
    forall e, res: Result
      ensures Get(AddExpected(e, res).suites, name) == Get(e.suites, name) + Times(Suites(res), name)
      ensures Get(AddExpected(e, res).domains, name) == Get(e.domains, name) + Times(Domains(res), name)
      ensures Get(AddExpected(e, res).capabilities, name)
           == Get(e.capabilities, name) + Times(Capabilities(res), name)
    {
      SuitesOfAdded(e, res, name);
      NamesOfAdded(e, res, name);
    }
    Accumulates(results, (t: Totals) => Get(t.expected.suites, name), (res: Result) => Times(Suites(res), name));
    Accumulates(results, (t: Totals) => Get(t.expected.domains, name), (res: Result) => Times(Domains(res), name));
    Accumulates(results, (t: Totals) => Get(t.expected.capabilities, name),
                (res: Result) => Times(Capabilities(res), name));
  }

  lemma PassesAreTallied(results: seq<Result>, name: string)
    ensures var e := SummaryOf(results).expected;
            && Get(e.domainPass, name)
               == SumOf(results, (res: Result) => if res.ok then Times(Domains(res), name) else 0)
            && Get(e.capabilityPass, name)
               == SumOf(results, (res: Result) => if res.ok then Times(Capabilities(res), name) else 0)
  {
    forall e, res: Result
      ensures Get(AddExpected(e, res).domainPass, name)
           == Get(e.domainPass, name) + (if res.ok then Times(Domains(res), name) else 0)
      ensures Get(AddExpected(e, res).capabilityPass, name)
           == Get(e.capabilityPass, name) + (if res.ok then Times(Capabilities(res), name) else 0)
    {
      PassesOfAdded(e, res, name);
    }
    Accumulates(results, (t: Totals) => Get(t.expected.domainPass, name),
                (res: Result) => if res.ok then Times(Domains(res), name) else 0);
    Accumulates(results, (t: Totals) => Get(t.expected.capabilityPass, name),
                (res: Result) => if res.ok then Times(Capabilities(res), name) else 0);
  }

  // ---- What one domain cost ----

  /** The result declares the domain, however often. */
  predicate Declares(res: Result, domain: string) {
    domain != "" && exists i :: 0 <= i < |Domains(res)| && TrimSpace(Domains(res)[i]) == domain
  }

  lemma DeclaresIff(res: Result, domain: string)
    ensures Declares(res, domain) <==> res.expectations.Some? && domain in Distinct(res.expectations.value.domains)
  {
    NamesAreCounted(Domains(res), domain);
    CountsArePositive(Domains(res));
    NoBlankName(Domains(res));
    if domain != "" {
      TimesIsMention(Domains(res), domain);
    }
  }

  /** What a result adds to the domain's own totals. */
  lemma DomainOfAdded(e: Expected, res: Result, domain: string)
    ensures DomainOf(AddExpected(e, res).runtime, domain)
         == if Declares(res, domain) then AddDomain(DomainOf(e.runtime, domain), res, Sum(res.runtimeErrors))
            else DomainOf(e.runtime, domain)
  {
    DeclaresIff(res, domain);
  }

  /** A domain's own totals are the sums over the results that declare it, each once. */
  lemma DomainIsSummed(results: seq<Result>, domain: string)
    ensures var d := DomainOf(SummaryOf(results).expected.runtime, domain);
            && d.scenarios == Number(results, (res: Result) => Declares(res, domain))
            && d.passed == Number(results, (res: Result) => Declares(res, domain) && res.ok)
            && d.failed == Number(results, (res: Result) => Declares(res, domain) && !res.ok)
  {
    forall e, res: Result
      ensures DomainOf(AddExpected(e, res).runtime, domain)
           == if Declares(res, domain) then AddDomain(DomainOf(e.runtime, domain), res, Sum(res.runtimeErrors))
              else DomainOf(e.runtime, domain)
    {
      DomainOfAdded(e, res, domain);
    }
    Counts(results, (t: Totals) => DomainOf(t.expected.runtime, domain).scenarios,
           (res: Result) => Declares(res, domain));
    Counts(results, (t: Totals) => DomainOf(t.expected.runtime, domain).passed,
           (res: Result) => Declares(res, domain) && res.ok);
    Counts(results, (t: Totals) => DomainOf(t.expected.runtime, domain).failed,
           (res: Result) => Declares(res, domain) && !res.ok);
  }

  lemma DomainCostIsSummed(results: seq<Result>, domain: string)
    ensures var d := DomainOf(SummaryOf(results).expected.runtime, domain);
            && d.duration == SumOf(results, (res: Result) => if Declares(res, domain) then res.duration else 0)
            && d.toolCalls == SumOf(results, (res: Result) => if Declares(res, domain) then res.toolCalls else 0)
            && d.toolErrors == SumOf(results, (res: Result) => if Declares(res, domain) then res.toolErrors else 0)
            && d.runtimeErrors
               == SumOf(results, (res: Result) => if Declares(res, domain) then Sum(res.runtimeErrors) else 0)
            && d.inputTokens == SumOf(results, (res: Result) => if Declares(res, domain) then res.inputTokens else 0)
            && d.outputTokens == SumOf(results, (res: Result) => if Declares(res, domain) then res.outputTokens else 0)
  {
    forall e, res: Result
      ensures DomainOf(AddExpected(e, res).runtime, domain)
           == if Declares(res, domain) then AddDomain(DomainOf(e.runtime, domain), res, Sum(res.runtimeErrors))
              else DomainOf(e.runtime, domain)
    {
      DomainOfAdded(e, res, domain);
    }
    Accumulates(results, (t: Totals) => DomainOf(t.expected.runtime, domain).duration,
                (res: Result) => if Declares(res, domain) then res.duration else 0);
    Accumulates(results, (t: Totals) => DomainOf(t.expected.runtime, domain).toolCalls,
                (res: Result) => if Declares(res, domain) then res.toolCalls else 0);
    Accumulates(results, (t: Totals) => DomainOf(t.expected.runtime, domain).toolErrors,
                (res: Result) => if Declares(res, domain) then res.toolErrors else 0);
    Accumulates(results, (t: Totals) => DomainOf(t.expected.runtime, domain).runtimeErrors,
                (res: Result) => if Declares(res, domain) then Sum(res.runtimeErrors) else 0);
    Accumulates(results, (t: Totals) => DomainOf(t.expected.runtime, domain).inputTokens,
                (res: Result) => if Declares(res, domain) then res.inputTokens else 0);
    Accumulates(results, (t: Totals) => DomainOf(t.expected.runtime, domain).outputTokens,
                (res: Result) => if Declares(res, domain) then res.outputTokens else 0);
  }
}

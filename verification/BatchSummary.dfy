/**
 The summary of a batch of evaluation results: counters and per-name tallies folded
 over the results one by one.
*/
module BatchSummary {
  import opened Options
  import opened GoText
  import opened Folds

  type Tally = map<string, int>

  /** What a scenario declares it exercises; names may repeat and need trimming. */
  datatype Expectations = Expectations(suites: seq<string>, domains: seq<string>, capabilities: seq<string>)

  datatype Result = Result(
    scenario: string, ok: bool, endReason: string,
    verifierRan: bool, verifierOk: bool, outputTruncated: bool, outputOmitted: int,
    duration: int, toolCalls: int, toolErrors: int, inputTokens: int, outputTokens: int,
    runtimeErrors: Tally, repairs: seq<string>,
    expectations: Option<Expectations>)

  datatype Outcomes = Outcomes(total: int, passed: int, failed: int,
                               completed: int, maxTurns: int, errors: int, cancelled: int, unknown: int)

  datatype Verification = Verification(runs: int, passed: int, failed: int, truncated: int, omitted: int)

  /** `maxScenario` names the scenario that used the most tokens. */
  datatype Usage = Usage(duration: int, toolCalls: int, toolErrors: int, inputTokens: int, outputTokens: int,
                         maxTokens: int, maxScenario: string)

  datatype Errors = Errors(count: int, byKind: Tally, repairs: int, repairByKind: Tally)

  /** What one domain cost. */
  datatype DomainTotals = DomainTotals(scenarios: int, passed: int, failed: int, duration: int, toolCalls: int,
                                       toolErrors: int, runtimeErrors: int, inputTokens: int, outputTokens: int)

  datatype Expected = Expected(scenarios: int, suites: Tally,
                               domains: Tally, domainPass: Tally, domainFail: Tally,
                               capabilities: Tally, capabilityPass: Tally, capabilityFail: Tally,
                               runtime: map<string, DomainTotals>)

  datatype Totals = Totals(outcomes: Outcomes, verification: Verification, usage: Usage, errors: Errors,
                           expected: Expected)

  const NO_DOMAIN := DomainTotals(0, 0, 0, 0, 0, 0, 0, 0, 0)
  const EMPTY := Totals(Outcomes(0, 0, 0, 0, 0, 0, 0, 0), Verification(0, 0, 0, 0, 0), Usage(0, 0, 0, 0, 0, 0, ""),
                        Errors(0, map[], 0, map[]),
                        Expected(0, map[], map[], map[], map[], map[], map[], map[], map[]))

  // ---- Tallies ----

  function Get(tally: Tally, name: string): int {
    if name in tally then tally[name] else 0
  }

  function Merge(a: Tally, b: Tally): Tally {
    map name | name in a.Keys + b.Keys :: Get(a, name) + Get(b, name)
  }

  /** Counts one name, unless it is blank. */
  function CountName(tally: Tally, name: string): Tally {
    var n := TrimSpace(name);
    if n == "" then tally else tally[n := Get(tally, n) + 1]
  }

  function CountNames(names: seq<string>): Tally {
    if names == [] then map[] else CountName(CountNames(names[..|names| - 1]), names[|names| - 1])
  }

  /** The sum of a tally. */
  ghost function Sum(tally: Tally): int {
    if tally == map[] then 0
    else
      var name :| name in tally;
      tally[name] + Sum(tally - {name})
  }

  lemma {:induction false} SumWithout(tally: Tally, name: string)
    requires name in tally
    ensures Sum(tally) == tally[name] + Sum(tally - {name})
    decreases |tally|
  {
    var first :| first in tally && Sum(tally) == tally[first] + Sum(tally - {first});
    if first != name {
      var rest := tally - {first};
      SumWithout(rest, name);
      SumWithout(tally - {name}, first);
      assert rest - {name} == tally - {name} - {first};
    }
  }

  lemma SumUpdated(tally: Tally, name: string, value: int)
    ensures Sum(tally[name := value]) == Sum(tally) - Get(tally, name) + value
  {
    var updated := tally[name := value];
    SumWithout(updated, name);
    if name in tally {
      SumWithout(tally, name);
      assert updated - {name} == tally - {name};
    } else {
      assert updated - {name} == tally;
    }
  }

  lemma MergeUpdated(tally: Tally, delta: Tally, name: string, value: int)
    ensures Merge(tally, delta[name := value]) == Merge(tally, delta)[name := Get(tally, name) + value]
  {
  }

  lemma {:induction false} SumMerged(a: Tally, b: Tally)
    ensures Sum(Merge(a, b)) == Sum(a) + Sum(b)
    decreases |b|
  {
    if b == map[] {
      assert Merge(a, b) == a;
    } else {
      var name :| name in b;
      var rest, value := b - {name}, b[name];
      SumMerged(a, rest);
      SumGrows(a, rest, name, value);
      SplitOff(b, name);
      var grown := rest[name := value];
      assert b == grown;
      assert Merge(a, b) == Merge(a, grown);
    }
  }

  lemma SplitOff(b: Tally, name: string)
    requires name in b
    ensures b == (b - {name})[name := b[name]]
  {
  }

  lemma SumGrows(a: Tally, rest: Tally, name: string, value: int)
    requires name !in rest
    ensures Sum(rest[name := value]) == Sum(rest) + value
    ensures Sum(Merge(a, rest[name := value])) == Sum(Merge(a, rest)) + value
  {
    SumUpdated(rest, name, value);
    MergeUpdated(a, rest, name, value);
    SumUpdated(Merge(a, rest), name, Get(a, name) + value);
    assert Get(Merge(a, rest), name) == Get(a, name);
  }

  lemma MergeSwaps(tally: Tally, a: Tally, b: Tally)
    ensures Merge(Merge(tally, a), b) == Merge(Merge(tally, b), a)
  {
  }

  lemma MergeCounted(tally: Tally, delta: Tally, name: string)
    ensures Merge(tally, CountName(delta, name)) == CountName(Merge(tally, delta), name)
  {
    var n := TrimSpace(name);
    MergeUpdated(tally, delta, n, Get(delta, n) + 1);
    assert Get(Merge(tally, delta), n) == Get(tally, n) + Get(delta, n);
  }

  // ---- One result, as a function ----

  datatype End = Completed | MaxTurns | Errored | Cancelled | Unknown

  function EndOf(reason: string): End {
    match reason
    case "completed" => Completed
    case "max_turns" => MaxTurns
    case "error" => Errored
    case "cancelled" => Cancelled
    case _ => Unknown
  }

  function One(b: bool): int {
    if b then 1 else 0
  }

  function AddOutcome(o: Outcomes, res: Result): Outcomes {
    var end := EndOf(res.endReason);
    Outcomes(o.total + 1, o.passed + One(res.ok), o.failed + One(!res.ok),
             o.completed + One(end.Completed?), o.maxTurns + One(end.MaxTurns?), o.errors + One(end.Errored?),
             o.cancelled + One(end.Cancelled?), o.unknown + One(end.Unknown?))
  }

  function AddVerification(v: Verification, res: Result): Verification {
    if !res.verifierRan then v
    else Verification(v.runs + 1, v.passed + if res.verifierOk then 1 else 0,
                      v.failed + if res.verifierOk then 0 else 1,
                      v.truncated + if res.outputTruncated then 1 else 0,
                      v.omitted + res.outputOmitted)
  }

  function TokensOf(res: Result): int {
    res.inputTokens + res.outputTokens
  }

  /** The first result to exceed the maximum so far gives it its name. */
  function AddUsage(u: Usage, res: Result): Usage {
    var more := TokensOf(res) > u.maxTokens;
    Usage(u.duration + res.duration, u.toolCalls + res.toolCalls, u.toolErrors + res.toolErrors,
          u.inputTokens + res.inputTokens, u.outputTokens + res.outputTokens,
          if more then TokensOf(res) else u.maxTokens, if more then res.scenario else u.maxScenario)
  }

  function RepairKind(kind: string): string {
    if TrimSpace(kind) == "" then "unknown" else kind
  }

  function RepairKinds(repairs: seq<string>): seq<string> {
    seq(|repairs|, i requires 0 <= i < |repairs| => RepairKind(repairs[i]))
  }

  ghost function AddErrors(e: Errors, res: Result): Errors {
    Errors(e.count + Sum(res.runtimeErrors), Merge(e.byKind, res.runtimeErrors),
           e.repairs + |res.repairs|, Merge(e.repairByKind, CountNames(RepairKinds(res.repairs))))
  }

  /** The distinct names of a list. */
  function Distinct(names: seq<string>): set<string> {
    set name | name in CountNames(names)
  }

  function AddDomain(d: DomainTotals, res: Result, errors: int): DomainTotals {
    DomainTotals(d.scenarios + 1, d.passed + if res.ok then 1 else 0, d.failed + if res.ok then 0 else 1,
                 d.duration + res.duration, d.toolCalls + res.toolCalls, d.toolErrors + res.toolErrors,
                 d.runtimeErrors + errors, d.inputTokens + res.inputTokens, d.outputTokens + res.outputTokens)
  }

  function DomainOf(runtime: map<string, DomainTotals>, domain: string): DomainTotals {
    if domain in runtime then runtime[domain] else NO_DOMAIN
  }

  function AddRuntime(runtime: map<string, DomainTotals>, domains: set<string>, res: Result, errors: int)
    : map<string, DomainTotals>
  {
    map domain | domain in runtime.Keys + domains ::
      if domain in domains then AddDomain(DomainOf(runtime, domain), res, errors) else runtime[domain]
  }

  ghost function AddExpected(e: Expected, res: Result): Expected {
    if res.expectations.None? then e
    else
      var exp := res.expectations.value;
      var domains, capabilities := CountNames(exp.domains), CountNames(exp.capabilities);
      Expected(e.scenarios + 1,
               Merge(e.suites, CountNames(exp.suites)),
               Merge(e.domains, domains),
               if res.ok then Merge(e.domainPass, domains) else e.domainPass,
               if res.ok then e.domainFail else Merge(e.domainFail, domains),
               Merge(e.capabilities, capabilities),
               if res.ok then Merge(e.capabilityPass, capabilities) else e.capabilityPass,
               if res.ok then e.capabilityFail else Merge(e.capabilityFail, capabilities),
               AddRuntime(e.runtime, Distinct(exp.domains), res, Sum(res.runtimeErrors)))
  }

  ghost function AddResult(t: Totals, res: Result): Totals {
    Totals(AddOutcome(t.outcomes, res), AddVerification(t.verification, res), AddUsage(t.usage, res),
           AddErrors(t.errors, res), AddExpected(t.expected, res))
  }

  ghost function SummaryOf(results: seq<Result>): Totals {
    Fold(AddResult, EMPTY, results)
  }

  // ---- The summary, as it is built ----

  method AddToTally(tally: Tally, names: seq<string>) returns (r: Tally)
    ensures r == Merge(tally, CountNames(names))
  {
    r := tally;
    assert Merge(tally, map[]) == tally;
    for i := 0 to |names|
      invariant r == Merge(tally, CountNames(names[..i]))
    {
      assert names[..i + 1][..i] == names[..i];
      MergeCounted(tally, CountNames(names[..i]), names[i]);
      var n := TrimSpace(names[i]);
      if n == "" {
        continue;
      }
      r := r[n := Get(r, n) + 1];
    }
    assert names[..|names|] == names;
  }

  /** The keys of `delta` that are left, when those in `done` were added. */
  ghost predicate Added(tally: Tally, delta: Tally, rest: set<string>, r: Tally, sum: int) {
    rest <= delta.Keys && r == Merge(tally, delta - rest) && sum == Sum(delta - rest)
  }

  lemma AddsOne(tally: Tally, delta: Tally, rest: set<string>, r: Tally, sum: int, name: string)
    requires Added(tally, delta, rest, r, sum) && name in rest
    ensures Added(tally, delta, rest - {name}, r[name := Get(r, name) + delta[name]], sum + delta[name])
  {
    var next := delta - (rest - {name});
    SumWithout(next, name);
    assert next - {name} == delta - rest;
    assert r[name := Get(r, name) + delta[name]] == Merge(tally, next);
  }

  lemma AddedNone(tally: Tally, delta: Tally)
    ensures Added(tally, delta, delta.Keys, tally, 0)
  {
    assert delta - delta.Keys == map[];
    assert Merge(tally, map[]) == tally;
  }

  lemma AddedAll(tally: Tally, delta: Tally, r: Tally, sum: int)
    requires Added(tally, delta, {}, r, sum)
    ensures r == Merge(tally, delta) && sum == Sum(delta)
  {
    assert delta - {} == delta;
  }

  /** Adds one tally to another, name by name in any order, and sums it up. */
  method AddTally(tally: Tally, delta: Tally) returns (r: Tally, sum: int)
    ensures r == Merge(tally, delta) && sum == Sum(delta)
  {
    r, sum := tally, 0;
    var rest := delta.Keys;
    AddedNone(tally, delta);
    while rest != {}
      invariant Added(tally, delta, rest, r, sum)
      decreases |rest|
    {
      var name :| name in rest;
      AddsOne(tally, delta, rest, r, sum, name);
      r := r[name := Get(r, name) + delta[name]];
      sum := sum + delta[name];
      rest := rest - {name};
    }
    AddedAll(tally, delta, r, sum);
  }

  class Summary {
    var outcomes: Outcomes
    var verification: Verification
    var usage: Usage
    var errors: Errors
    var expected: Expected

    ghost function Contents(): Totals
      reads this
    {
      Totals(outcomes, verification, usage, errors, expected)
    }

    constructor ()
      ensures Contents() == EMPTY
    {
      outcomes, verification, usage, errors, expected :=
        EMPTY.outcomes, EMPTY.verification, EMPTY.usage, EMPTY.errors, EMPTY.expected;
    }

    method Add(res: Result)
      modifies this
      ensures Contents() == AddResult(old(Contents()), res)
    {
      AddOutcomeOf(res);
      AddErrorsOf(res);
      AddVerifierAndUsage(res);
      if res.expectations.Some? {
        AddExpectations(res, res.expectations.value);
      }
    }

    method AddOutcomeOf(res: Result)
      modifies this`outcomes
      ensures outcomes == AddOutcome(old(outcomes), res)
    {
      outcomes := outcomes.(total := outcomes.total + 1);
      if res.ok {
        outcomes := outcomes.(passed := outcomes.passed + 1);
      } else {
        outcomes := outcomes.(failed := outcomes.failed + 1);
      }
      match res.endReason {
        case "completed" => outcomes := outcomes.(completed := outcomes.completed + 1);
        case "max_turns" => outcomes := outcomes.(maxTurns := outcomes.maxTurns + 1);
        case "error" => outcomes := outcomes.(errors := outcomes.errors + 1);
        case "cancelled" => outcomes := outcomes.(cancelled := outcomes.cancelled + 1);
        case _ => outcomes := outcomes.(unknown := outcomes.unknown + 1);
      }
    }

    method AddVerifierAndUsage(res: Result)
      modifies this`verification, this`usage
      ensures verification == AddVerification(old(verification), res)
      ensures usage == AddUsage(old(usage), res)
    {
      if res.verifierRan {
        verification := verification.(runs := verification.runs + 1);
        if res.verifierOk {
          verification := verification.(passed := verification.passed + 1);
        } else {
          verification := verification.(failed := verification.failed + 1);
        }
        if res.outputTruncated {
          verification := verification.(truncated := verification.truncated + 1);
        }
        verification := verification.(omitted := verification.omitted + res.outputOmitted);
      }
      usage := usage.(duration := usage.duration + res.duration,
                      toolCalls := usage.toolCalls + res.toolCalls,
                      toolErrors := usage.toolErrors + res.toolErrors,
                      inputTokens := usage.inputTokens + res.inputTokens,
                      outputTokens := usage.outputTokens + res.outputTokens);
      var tokens := res.inputTokens + res.outputTokens;
      if tokens > usage.maxTokens {
        usage := usage.(maxTokens := tokens, maxScenario := res.scenario);
      }
    }

    method AddErrorsOf(res: Result)
      modifies this`errors
      ensures errors == AddErrors(old(errors), res)
    {
      var byKind, sum := AddTally(errors.byKind, res.runtimeErrors);
      var repairByKind := AddToTally(errors.repairByKind, RepairKinds(res.repairs));
      errors := Errors(errors.count + sum, byKind, errors.repairs + |res.repairs|, repairByKind);
    }

    method AddExpectations(res: Result, exp: Expectations)
      requires res.expectations == Some(exp)
      modifies this`expected
      ensures expected == AddExpected(old(expected), res)
    {
      var e := expected.(scenarios := expected.scenarios + 1);
      var suites := AddToTally(e.suites, exp.suites);
      var domains := AddToTally(e.domains, exp.domains);
      var runtime := AddDomainRuntime(e.runtime, exp.domains, res);
      var capabilities := AddToTally(e.capabilities, exp.capabilities);
      e := e.(suites := suites, domains := domains, capabilities := capabilities, runtime := runtime);
      if res.ok {
        var domainPass := AddToTally(e.domainPass, exp.domains);
        var capabilityPass := AddToTally(e.capabilityPass, exp.capabilities);
        expected := e.(domainPass := domainPass, capabilityPass := capabilityPass);
      } else {
        var domainFail := AddToTally(e.domainFail, exp.domains);
        var capabilityFail := AddToTally(e.capabilityFail, exp.capabilities);
        expected := e.(domainFail := domainFail, capabilityFail := capabilityFail);
      }
    }
  }

  /** Adds a result once to each distinct domain it declares. */
  method AddDomainRuntime(runtime: map<string, DomainTotals>, domains: seq<string>, res: Result)
    returns (r: map<string, DomainTotals>)
    ensures r == AddRuntime(runtime, Distinct(domains), res, Sum(res.runtimeErrors))
  {
    var counted := AddToTally(map[], domains);
    assert Merge(map[], CountNames(domains)) == CountNames(domains);
    var sameErrors, errors := AddTally(map[], res.runtimeErrors);
    var unique := set name | name in counted;
    r := AddDomains(runtime, unique, res, errors);
  }

  method AddDomains(runtime: map<string, DomainTotals>, domains: set<string>, res: Result, errors: int)
    returns (r: map<string, DomainTotals>)
    ensures r == AddRuntime(runtime, domains, res, errors)
  {
    r := runtime;
    var rest := domains;
    while rest != {}
      invariant rest <= domains
      invariant r == AddRuntime(runtime, domains - rest, res, errors)
      decreases |rest|
    {
      var domain :| domain in rest;
      OneMoreDomain(runtime, domains, rest, domain, res, errors);
      r := r[domain := AddDomain(DomainOf(r, domain), res, errors)];
      rest := rest - {domain};
    }
    assert domains - {} == domains;
  }

  lemma OneMoreDomain(runtime: map<string, DomainTotals>, domains: set<string>, rest: set<string>, domain: string,
                      res: Result, errors: int)
    requires domain in rest && rest <= domains
    ensures var r := AddRuntime(runtime, domains - rest, res, errors);
            AddRuntime(runtime, domains - (rest - {domain}), res, errors)
            == r[domain := AddDomain(DomainOf(r, domain), res, errors)]
  {
    assert domains - (rest - {domain}) == domains - rest + {domain};
  }

  method SummarizeBatchResults(results: seq<Result>) returns (summary: Summary)
    ensures summary.Contents() == SummaryOf(results)
  {
    summary := new Summary();
    for i := 0 to |results|
      invariant fresh(summary)
      invariant summary.Contents() == SummaryOf(results[..i])
    {
      assert results[..i + 1][..i] == results[..i];
      summary.Add(results[i]);
    }
    assert results[..|results|] == results;
  }

  // ---- What is conserved ----

  ghost predicate OutcomesBalance(o: Outcomes) {
    && o.passed + o.failed == o.total
    && o.completed + o.maxTurns + o.errors + o.cancelled + o.unknown == o.total
  }

  ghost predicate ErrorsBalance(e: Errors) {
    e.count == Sum(e.byKind) && e.repairs == Sum(e.repairByKind)
  }

  ghost predicate NamesBalance(all: Tally, pass: Tally, fail: Tally) {
    forall name :: Get(all, name) == Get(pass, name) + Get(fail, name)
  }

  ghost predicate RuntimeBalances(runtime: map<string, DomainTotals>) {
    forall domain <- runtime :: runtime[domain].passed + runtime[domain].failed == runtime[domain].scenarios
  }

  ghost predicate ExpectedBalances(e: Expected) {
    && NamesBalance(e.domains, e.domainPass, e.domainFail)
    && NamesBalance(e.capabilities, e.capabilityPass, e.capabilityFail)
    && RuntimeBalances(e.runtime)
  }

  ghost predicate Balanced(t: Totals) {
    && OutcomesBalance(t.outcomes)
    && t.verification.passed + t.verification.failed == t.verification.runs
    && ErrorsBalance(t.errors)
    && ExpectedBalances(t.expected)
    && t.expected.scenarios <= t.outcomes.total
  }

  /** Every batch balances: passes and failures make up the total, the five ways to
      end do, verifier passes and failures make up its runs, the errors and the
      repairs are the sums of their kinds, and each capability and each domain splits
      into passes and failures. */
  lemma {:induction false} SummaryBalances(results: seq<Result>)
    ensures Balanced(SummaryOf(results))
  {
    if results != [] {
      SummaryBalances(results[..|results| - 1]);
      ResultStaysBalanced(SummaryOf(results[..|results| - 1]), results[|results| - 1]);
    }
  }

  lemma ResultStaysBalanced(t: Totals, res: Result)
    requires Balanced(t)
    ensures Balanced(AddResult(t, res))
  {
    ErrorsStayBalanced(t.errors, res);
    ExpectedStaysBalanced(t.expected, res);
  }

  lemma ErrorsStayBalanced(e: Errors, res: Result)
    requires ErrorsBalance(e)
    ensures ErrorsBalance(AddErrors(e, res))
  {
    SumMerged(e.byKind, res.runtimeErrors);
    SumMerged(e.repairByKind, CountNames(RepairKinds(res.repairs)));
    SumCounted(RepairKinds(res.repairs));
  }

  lemma {:induction false} SumCounted(names: seq<string>)
    requires forall name <- names :: TrimSpace(name) != ""
    ensures Sum(CountNames(names)) == |names|
  {
    if names != [] {
      var init, n := names[..|names| - 1], TrimSpace(names[|names| - 1]);
      SumCounted(init);
      SumUpdated(CountNames(init), n, Get(CountNames(init), n) + 1);
    }
  }

  lemma ExpectedStaysBalanced(e: Expected, res: Result)
    requires ExpectedBalances(e)
    ensures ExpectedBalances(AddExpected(e, res))
  {
    if res.expectations.Some? {
      var exp := res.expectations.value;
      NamesStayBalanced(e.domains, e.domainPass, e.domainFail, CountNames(exp.domains));
      NamesStayBalanced(e.capabilities, e.capabilityPass, e.capabilityFail, CountNames(exp.capabilities));
      RuntimeStaysBalanced(e.runtime, Distinct(exp.domains), res, Sum(res.runtimeErrors));
    }
  }

  lemma NamesStayBalanced(all: Tally, pass: Tally, fail: Tally, delta: Tally)
    requires NamesBalance(all, pass, fail)
    ensures NamesBalance(Merge(all, delta), Merge(pass, delta), fail)
    ensures NamesBalance(Merge(all, delta), pass, Merge(fail, delta))
  {
    forall name
      ensures Get(Merge(all, delta), name) == Get(Merge(pass, delta), name) + Get(fail, name)
      ensures Get(Merge(all, delta), name) == Get(pass, name) + Get(Merge(fail, delta), name)
    {
      assert Get(all, name) == Get(pass, name) + Get(fail, name);
    }
  }

  lemma RuntimeStaysBalanced(runtime: map<string, DomainTotals>, domains: set<string>, res: Result, errors: int)
    requires RuntimeBalances(runtime)
    ensures RuntimeBalances(AddRuntime(runtime, domains, res, errors))
  {
    var after := AddRuntime(runtime, domains, res, errors);
    forall domain <- after
      ensures after[domain].passed + after[domain].failed == after[domain].scenarios
    {
      var before := DomainOf(runtime, domain);
      assert before.passed + before.failed == before.scenarios;
    }
  }

  // ---- Two counts of one domain ----

  /** How often a result declares a domain. */
  function Declared(res: Result, domain: string): int {
    if res.expectations.None? then 0 else Get(CountNames(res.expectations.value.domains), domain)
  }

  lemma {:induction false} CountsArePositive(names: seq<string>)
    ensures forall name <- CountNames(names) :: CountNames(names)[name] > 0
  {
    if names != [] {
      CountsArePositive(names[..|names| - 1]);
    }
  }

  ghost predicate DeclaresTwice(results: seq<Result>, domain: string) {
    exists i :: 0 <= i < |results| && Declared(results[i], domain) > 1
  }

  /** The domain's own totals count a result once, the domain tally as often as the
      result declares it: the two agree exactly when no result declares it twice. */
  lemma {:induction false} DomainCountsAgreeIff(results: seq<Result>, domain: string, e: Expected)
    requires e == SummaryOf(results).expected
    ensures CountsAgree(e, domain, DeclaresTwice(results, domain))
  {
    if results != [] {
      var init, res := results[..|results| - 1], results[|results| - 1];
      var before := SummaryOf(init).expected;
      assert e == AddExpected(before, res);
      DomainCountsAgreeIff(init, domain, before);
      OneMoreCount(before, res, domain, DeclaresTwice(init, domain));
      assert results == init + [res];
      DeclaresTwiceSplits(init, res, domain);
    }
  }

  ghost predicate CountsAgree(e: Expected, domain: string, twice: bool) {
    && DomainOf(e.runtime, domain).scenarios <= Get(e.domains, domain)
    && (DomainOf(e.runtime, domain).scenarios == Get(e.domains, domain) <==> !twice)
  }

  lemma OneMoreCount(e: Expected, res: Result, domain: string, twice: bool)
    requires CountsAgree(e, domain, twice)
    ensures CountsAgree(AddExpected(e, res), domain, twice || Declared(res, domain) > 1)
  {
    DomainCountedOnce(e, res, domain);
  }

  lemma DeclaresTwiceSplits(init: seq<Result>, res: Result, domain: string)
    ensures DeclaresTwice(init + [res], domain) <==> DeclaresTwice(init, domain) || Declared(res, domain) > 1
  {
    var results := init + [res];
    assert results[|init|] == res;
    assert forall i :: 0 <= i < |init| ==> results[i] == init[i];
  }

  lemma DomainCountedOnce(e: Expected, res: Result, domain: string)
    ensures var after := AddExpected(e, res);
            && Declared(res, domain) >= 0
            && Get(after.domains, domain) == Get(e.domains, domain) + Declared(res, domain)
            && DomainOf(after.runtime, domain).scenarios
            == DomainOf(e.runtime, domain).scenarios + if Declared(res, domain) > 0 then 1 else 0
  {
    if res.expectations.Some? {
      CountsArePositive(res.expectations.value.domains);
    }
  }

  // ---- The order of the results does not matter ----

  lemma ErrorsSwap(e: Errors, a: Result, b: Result)
    ensures AddErrors(AddErrors(e, a), b) == AddErrors(AddErrors(e, b), a)
  {
    MergeSwaps(e.byKind, a.runtimeErrors, b.runtimeErrors);
    MergeSwaps(e.repairByKind, CountNames(RepairKinds(a.repairs)), CountNames(RepairKinds(b.repairs)));
  }

  lemma RuntimeSwaps(runtime: map<string, DomainTotals>, da: set<string>, a: Result, ea: int,
                     db: set<string>, b: Result, eb: int)
    ensures AddRuntime(AddRuntime(runtime, da, a, ea), db, b, eb)
         == AddRuntime(AddRuntime(runtime, db, b, eb), da, a, ea)
  {
  }

  lemma ExpectedSwap(e: Expected, a: Result, b: Result)
    ensures AddExpected(AddExpected(e, a), b) == AddExpected(AddExpected(e, b), a)
  {
    if a.expectations.Some? && b.expectations.Some? {
      var ea, eb := a.expectations.value, b.expectations.value;
      var da, db := CountNames(ea.domains), CountNames(eb.domains);
      var ca, cb := CountNames(ea.capabilities), CountNames(eb.capabilities);
      MergeSwaps(e.suites, CountNames(ea.suites), CountNames(eb.suites));
      MergeSwaps(e.domains, da, db);
      MergeSwaps(e.domainPass, da, db);
      MergeSwaps(e.domainFail, da, db);
      MergeSwaps(e.capabilities, ca, cb);
      MergeSwaps(e.capabilityPass, ca, cb);
      MergeSwaps(e.capabilityFail, ca, cb);
      RuntimeSwaps(e.runtime, Distinct(ea.domains), a, Sum(a.runtimeErrors),
                   Distinct(eb.domains), b, Sum(b.runtimeErrors));
    }
  }

  lemma OutcomesSwap(o: Outcomes, a: Result, b: Result)
    ensures AddOutcome(AddOutcome(o, a), b) == AddOutcome(AddOutcome(o, b), a)
  {
  }

  lemma VerificationsSwap(v: Verification, a: Result, b: Result)
    ensures AddVerification(AddVerification(v, a), b) == AddVerification(AddVerification(v, b), a)
  {
  }

  /** A summary without the name that goes with the token maximum. */
  function Counters(t: Totals): Totals {
    t.(usage := t.usage.(maxScenario := ""))
  }

  lemma UsagesSwap(u: Usage, a: Result, b: Result)
    ensures AddUsage(AddUsage(u, a), b).(maxScenario := "") == AddUsage(AddUsage(u, b), a).(maxScenario := "")
  {
  }

  ghost function AddCounters(t: Totals, res: Result): Totals {
    Counters(AddResult(t, res))
  }

  /** The name plays no part in what is counted. */
  lemma {:induction false} CountersFold(results: seq<Result>)
    ensures Counters(SummaryOf(results)) == Fold(AddCounters, EMPTY, results)
  {
    if results != [] {
      CountersFold(results[..|results| - 1]);
      NameIsNotCounted(SummaryOf(results[..|results| - 1]), results[|results| - 1]);
    }
  }

  lemma NameIsNotCounted(t: Totals, res: Result)
    ensures Counters(AddResult(Counters(t), res)) == Counters(AddResult(t, res))
  {
  }

  lemma ResultsSwap(t: Totals, a: Result, b: Result)
    ensures AddCounters(AddCounters(t, a), b) == AddCounters(AddCounters(t, b), a)
  {
    NameIsNotCounted(AddResult(t, a), b);
    NameIsNotCounted(AddResult(t, b), a);
    CountersSwap(t, a, b);
  }

  lemma CountersSwap(t: Totals, a: Result, b: Result)
    ensures Counters(AddResult(AddResult(t, a), b)) == Counters(AddResult(AddResult(t, b), a))
  {
    OutcomesSwap(t.outcomes, a, b);
    VerificationsSwap(t.verification, a, b);
    UsagesSwap(t.usage, a, b);
    ErrorsSwap(t.errors, a, b);
    ExpectedSwap(t.expected, a, b);
  }

  /** Any permutation of the results has the same counters, maxima and tallies. */
  lemma OrderDoesNotMatter(a: seq<Result>, b: seq<Result>)
    requires multiset(a) == multiset(b)
    ensures Counters(SummaryOf(a)) == Counters(SummaryOf(b))
  {
    forall t, x, y ensures AddCounters(AddCounters(t, x), y) == AddCounters(AddCounters(t, y), x) {
      ResultsSwap(t, x, y);
    }
    FoldPermuted(AddCounters, EMPTY, a, b);
    CountersFold(a);
    CountersFold(b);
  }

  // ---- The name that goes with the maximum ----

  /** Result i is the first to reach the token maximum. */
  ghost predicate FirstAtMaximum(results: seq<Result>, i: nat, u: Usage) {
    && i < |results| && TokensOf(results[i]) == u.maxTokens && u.maxScenario == results[i].scenario
    && forall j :: 0 <= j < i ==> TokensOf(results[j]) < u.maxTokens
  }

  ghost predicate AtMost(results: seq<Result>, tokens: int) {
    forall j :: 0 <= j < |results| ==> TokensOf(results[j]) <= tokens
  }

  /** The maximum bounds every result, and it carries the name of the first result to
      reach it, or none if it is zero. */
  lemma {:induction false} NameIsFirst(results: seq<Result>, u: Usage)
    requires u == SummaryOf(results).usage
    ensures 0 <= u.maxTokens && AtMost(results, u.maxTokens)
    ensures if u.maxTokens == 0 then u.maxScenario == "" else exists i :: FirstAtMaximum(results, i, u)
  {
    if results != [] {
      var init, last := results[..|results| - 1], results[|results| - 1];
      var before := SummaryOf(init).usage;
      NameIsFirst(init, before);
      NameStep(init, last, before);
      LastUsage(results);
      assert results == init + [last];
    }
  }

  lemma LastUsage(results: seq<Result>)
    requires results != []
    ensures SummaryOf(results).usage
         == AddUsage(SummaryOf(results[..|results| - 1]).usage, results[|results| - 1])
  {
  }

  lemma NameStep(init: seq<Result>, last: Result, before: Usage)
    requires 0 <= before.maxTokens && AtMost(init, before.maxTokens)
    requires if before.maxTokens == 0 then before.maxScenario == "" else exists i :: FirstAtMaximum(init, i, before)
    ensures var u, results := AddUsage(before, last), init + [last];
            && 0 <= u.maxTokens && AtMost(results, u.maxTokens)
            && if u.maxTokens == 0 then u.maxScenario == "" else exists i :: FirstAtMaximum(results, i, u)
  {
    var u, results := AddUsage(before, last), init + [last];
    assert results[|init|] == last;
    if TokensOf(last) > before.maxTokens {
      assert FirstAtMaximum(results, |init|, u);
    } else if before.maxTokens > 0 {
      var i: nat :| FirstAtMaximum(init, i, before);
      assert FirstAtMaximum(results, i, u);
    }
  }

  /** All results with this many tokens carry one name. */
  ghost predicate OneNameAt(results: seq<Result>, tokens: int) {
    forall a, b :: a in results && b in results && TokensOf(a) == TokensOf(b) == tokens ==> a.scenario == b.scenario
  }

  /** No result used more tokens than this one. */
  ghost predicate UsesMost(results: seq<Result>, a: Result) {
    a in results && AtMost(results, TokensOf(a))
  }

  /** All results that used the most tokens carry one name. */
  ghost predicate OneNameOnTop(results: seq<Result>) {
    forall a, b :: UsesMost(results, a) && UsesMost(results, b) ==> a.scenario == b.scenario
  }

  /** The summary's maximum is what the results that used the most used. */
  lemma TopIsMaximum(results: seq<Result>)
    ensures var tokens := SummaryOf(results).usage.maxTokens;
            && (tokens <= 0 <==> AtMost(results, 0))
            && (tokens > 0 ==> (OneNameAt(results, tokens) <==> OneNameOnTop(results)))
  {
    var u := SummaryOf(results).usage;
    NameIsFirst(results, u);
    if u.maxTokens > 0 {
      var i: nat :| FirstAtMaximum(results, i, u);
      forall a | a in results ensures UsesMost(results, a) <==> TokensOf(a) == u.maxTokens {
        var j :| 0 <= j < |results| && results[j] == a;
        assert UsesMost(results, a) ==> TokensOf(results[i]) <= TokensOf(a);
      }
    }
  }

  ghost predicate NameSurvives(results: seq<Result>) {
    forall other :: multiset(other) == multiset(results) ==>
                      SummaryOf(other).usage.maxScenario == SummaryOf(results).usage.maxScenario
  }

  /** The name survives every permutation exactly when no result used any tokens or all
      that used the most carry one name. */
  lemma NameSurvivesIff(results: seq<Result>)
    ensures NameSurvives(results) <==> AtMost(results, 0) || OneNameOnTop(results)
  {
    TopIsMaximum(results);
    NameAtMaximumSurvives(results);
  }

  lemma NameAtMaximumSurvives(results: seq<Result>)
    ensures var tokens := SummaryOf(results).usage.maxTokens;
            NameSurvives(results) <==> tokens <= 0 || OneNameAt(results, tokens)
  {
    var tokens := SummaryOf(results).usage.maxTokens;
    if tokens <= 0 || OneNameAt(results, tokens) {
      forall other | multiset(other) == multiset(results)
        ensures SummaryOf(other).usage.maxScenario == SummaryOf(results).usage.maxScenario
      {
        SameName(results, other);
      }
    } else {
      var a, b :| a in results && b in results && TokensOf(a) == TokensOf(b) == tokens && a.scenario != b.scenario;
      var first := PutFirst(results, a);
      var second := PutFirst(results, b);
      assert SummaryOf(first).usage.maxScenario != SummaryOf(second).usage.maxScenario;
    }
  }

  lemma SameName(a: seq<Result>, b: seq<Result>)
    requires multiset(b) == multiset(a)
    requires var tokens := SummaryOf(a).usage.maxTokens; tokens <= 0 || OneNameAt(a, tokens)
    ensures SummaryOf(b).usage.maxScenario == SummaryOf(a).usage.maxScenario
  {
    var ua, ub := SummaryOf(a).usage, SummaryOf(b).usage;
    OrderDoesNotMatter(a, b);
    assert ub.maxTokens == ua.maxTokens;
    NameIsFirst(a, ua);
    NameIsFirst(b, ub);
    if ua.maxTokens > 0 {
      var i: nat :| FirstAtMaximum(a, i, ua);
      var j: nat :| FirstAtMaximum(b, j, ub);
      assert b[j] in multiset(b);
      assert a[i] in a && b[j] in a;
    }
  }

  /** Taking a result that reaches the maximum first gives the maximum its name. */
  lemma PutFirst(results: seq<Result>, a: Result) returns (other: seq<Result>)
    requires a in results && TokensOf(a) == SummaryOf(results).usage.maxTokens > 0
    ensures multiset(other) == multiset(results)
    ensures SummaryOf(other).usage.maxScenario == a.scenario
  {
    var i :| 0 <= i < |results| && results[i] == a;
    other := [a] + Without(results, i);
    MultisetWithout(results, i);
    assert multiset(other) == multiset{a} + multiset(Without(results, i));
    OrderDoesNotMatter(results, other);
    var u := SummaryOf(other).usage;
    NameIsFirst(other, u);
    var k :| FirstAtMaximum(other, k, u);
    assert other[0] == a;
  }

  /** A tie whose order decides the name. */
  lemma TieDecidesName()
    ensures var a := Result("a", true, "completed", false, false, false, 0, 0, 0, 0, 3, 4, map[], [], None);
            var b := a.(scenario := "b");
            && SummaryOf([a, b]).usage.maxScenario == "a"
            && SummaryOf([b, a]).usage.maxScenario == "b"
  {
    var a := Result("a", true, "completed", false, false, false, 0, 0, 0, 0, 3, 4, map[], [], None);
    var b := a.(scenario := "b");
    FirstOfTie(a, b);
    FirstOfTie(b, a);
  }

  lemma FirstOfTie(a: Result, b: Result)
    requires TokensOf(a) == TokensOf(b) > 0
    ensures SummaryOf([a, b]).usage.maxScenario == a.scenario
  {
    assert [a, b][..1] == [a] && [a][..0] == [];
    assert Fold(AddResult, EMPTY, [a][..0]) == EMPTY;
    assert SummaryOf([a]) == AddResult(EMPTY, a);
    assert SummaryOf([a, b]) == AddResult(SummaryOf([a]), b);
  }
}

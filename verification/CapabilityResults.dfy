/**
 The runtime configuration told the other way round: by capability, what switches it on,
 and by fault, what makes a configuration invalid.
*/
module CapabilityResults {
  import opened Options
  import opened ToolAllowlist
  import opened RuntimeConfig

  // ---- What resolves a capability ----

  datatype Capability =
    | Builtins | Memory | Browser | Screenshot | Web | WebSearch | Subagent | FocusedTasks | WorkflowTools

  predicate Has(caps: Capabilities, capability: Capability) {
    match capability
    case Builtins => caps.builtins
    case Memory => caps.memory
    case Browser => caps.browser
    case Screenshot => caps.screenshot
    case Web => caps.web
    case WebSearch => caps.webSearch
    case Subagent => caps.subagent
    case FocusedTasks => caps.focusedTasks
    case WorkflowTools => caps.workflowTools
  }

  /** The capabilities a tool needs. */
  function Needs(tool: string): set<Capability> {
    if tool == "browser_screenshot" then {Browser, Screenshot}
    else if tool in BROWSER then {Browser}
    else if tool in WORKSPACE then {Builtins}
    else if tool == "skill" || tool == "plan" then {Builtins, WorkflowTools}
    else if tool == "session_search" then {WorkflowTools}
    else if tool == "memory" then {Memory}
    else if tool == "web_fetch" then {Web}
    else if tool == "web_search" then {Web, WebSearch}
    else if tool == "subagent_run" then {Subagent}
    else if tool == "run_task" then {FocusedTasks}
    else {}
  }

  /** The capability's own switch, for the two that need another one as well. */
  predicate SwitchedOn(c: Config, capability: Capability, chosen: Toggle -> bool) {
    match capability
    case Builtins => chosen(c.builtins)
    case Memory => chosen(c.memory)
    case Browser => chosen(c.browser)
    case Screenshot => chosen(c.screenshot)
    case Web => chosen(c.web)
    case WebSearch => chosen(c.webSearch)
    case Subagent => chosen(c.subagent)
    case FocusedTasks => chosen(c.focusedTasks)
    case WorkflowTools => false
  }

  predicate NeededIn(tools: set<string>, capability: Capability) {
    exists tool <- tools :: capability in Needs(tool)
  }

  /** The family a capability is part of. */
  function FamilyOf(capability: Capability): Option<Capability> {
    if capability.Screenshot? then Some(Browser) else if capability.WebSearch? then Some(Web) else None
  }

  /** In eval mode a capability is there exactly when a tool asked for needs it, or it was
      switched on by hand and its family, if it is part of one, is there. */
  lemma EvalCapabilityIff(c: Config, capability: Capability)
    requires EvalModeEnabled(c) && !c.evalAllTools
    ensures Has(Resolve(c), capability) <==>
            || NeededIn(AllowedTools(c), capability)
            || (SwitchedOn(c, capability, (t: Toggle) => t.given && t.on)
                && (FamilyOf(capability).Some? ==> Has(Resolve(c), FamilyOf(capability).value)))
  {
    FromAllowed(c, AllowedTools(c), Resolve(c), capability);
  }

  lemma FromAllowed(c: Config, allowed: set<string>, caps: Capabilities, capability: Capability)
    requires caps == EvalCapabilities(c, allowed)
    ensures Has(caps, capability) <==>
            || NeededIn(allowed, capability)
            || (SwitchedOn(c, capability, (t: Toggle) => t.given && t.on)
                && (FamilyOf(capability).Some? ==> Has(caps, FamilyOf(capability).value)))
  {
    NeededIff(allowed, capability);
  }

  lemma NeededIff(tools: set<string>, capability: Capability)
    ensures NeededIn(tools, capability) <==>
            match capability
            case Builtins => AllowsAny(tools, WORKSPACE + ["skill", "plan"])
            case Memory => "memory" in tools
            case Browser => AllowsAny(tools, BROWSER)
            case Screenshot => "browser_screenshot" in tools
            case Web => "web_fetch" in tools || "web_search" in tools
            case WebSearch => "web_search" in tools
            case Subagent => "subagent_run" in tools
            case FocusedTasks => "run_task" in tools
            case WorkflowTools => "skill" in tools || "plan" in tools || "session_search" in tools
  {
    if capability.Browser? {
      BrowserNeeded(tools);
    } else if capability.Builtins? {
      BuiltinsNeeded(tools);
    } else {
      SingleNeeded(tools, capability);
    }
  }

  lemma BrowserNeeded(tools: set<string>)
    ensures NeededIn(tools, Browser) <==> AllowsAny(tools, BROWSER)
  {
    assert BROWSER[9] == "browser_screenshot";
    assert forall tool :: Browser in Needs(tool) <==> tool in BROWSER;
  }

  lemma BuiltinsNeeded(tools: set<string>)
    ensures NeededIn(tools, Builtins) <==> AllowsAny(tools, WORKSPACE + ["skill", "plan"])
  {
    forall tool ensures Builtins in Needs(tool) <==> tool in WORKSPACE + ["skill", "plan"] {
      NotBoth(tool);
    }
  }

  lemma NotBoth(tool: string)
    ensures tool in BROWSER ==> tool !in WORKSPACE && tool[0] == 'b'
    ensures tool in WORKSPACE ==> tool[0] != 'b'
  {
  }

  lemma SingleNeeded(tools: set<string>, capability: Capability)
    requires !capability.Browser? && !capability.Builtins?
    ensures NeededIn(tools, capability) <==> exists tool <- tools :: tool in Names(capability)
  {
    forall tool ensures capability in Needs(tool) <==> tool in Names(capability) {
      NotBoth(tool);
      NamesApart(tool, capability);
    }
  }

  function Names(capability: Capability): set<string> {
    match capability
    case Memory => {"memory"}
    case Screenshot => {"browser_screenshot"}
    case Web => {"web_fetch", "web_search"}
    case WebSearch => {"web_search"}
    case Subagent => {"subagent_run"}
    case FocusedTasks => {"run_task"}
    case WorkflowTools => {"skill", "plan", "session_search"}
    case _ => {}
  }

  lemma NamesApart(tool: string, capability: Capability)
    ensures tool in Names(capability) && !capability.Screenshot? ==> tool !in BROWSER && tool !in WORKSPACE
  {
  }

  /** Outside eval mode a capability is what its switch says, within its family. */
  lemma PlainCapabilityIff(c: Config, capability: Capability)
    requires !EvalModeEnabled(c)
    ensures Has(Resolve(c), capability) <==>
            || capability.WorkflowTools?
            || (SwitchedOn(c, capability, (t: Toggle) => t.on)
                && (FamilyOf(capability).Some? ==> Has(Resolve(c), FamilyOf(capability).value)))
    ensures Resolve(c).loopProtocol == c.loopProtocol.on && Resolve(c).schedule && Resolve(c).scheduleRunner
  {
  }

  /** With all tools asked for every capability is there; eval mode never has loops or a
      schedule. */
  lemma AllToolsResolve(c: Config, capability: Capability)
    requires EvalModeEnabled(c)
    ensures c.evalAllTools ==> Has(Resolve(c), capability)
    ensures !Resolve(c).loopProtocol && !Resolve(c).schedule && !Resolve(c).scheduleRunner
  {
  }

  // ---- What makes a configuration invalid ----

  /** A duration that is given has to be one, and positive. */
  predicate BadDuration(text: string, read: DurationReader, least: int) {
    text != "" && (read(text).None? || read(text).value < least)
  }

  /** What each fault says of the configuration. */
  predicate Violates(c: Config, caps: Capabilities, f: Fault, backendReady: bool, read: DurationReader) {
    var b, s := c.basics, c.browserSettings;
    match f
    case BaseUrl => !b.baseUrlGiven
    case ApiKey => b.defaultBaseUrl && !b.apiKeyGiven
    case Model => !b.modelGiven
    case MaxSessions => b.maxSessions < 1
    case MaxTurnSteps => b.maxTurnSteps < 0
    case MaxTurnInputTokens => b.maxTurnInputTokens < 0
    case CompactTrigger => b.compactTrigger < 0
    case ContextWindowTokens => b.contextWindowTokens < 0
    case ContextWindowPercent => !(0 <= b.contextWindowPercent <= 100)
    case CompactTriggerPercent => !(0 <= b.compactTriggerPercent <= 100)
    case CompactKeepLast => b.compactKeepLast < 0
    case WebSearchWithoutWeb => c.webSearch.on && !caps.web
    case SearchBackend => caps.webSearch && !backendReady
    case IdleTtl => BadDuration(b.idleTtl, read, 1)
    case PerCallTimeout => BadDuration(b.perCallTimeout, read, 1)
    case RetryBackoff => BadDuration(b.retryBackoff, read, 1)
    case BrowserOption =>
      !caps.browser && (c.screenshot.on || s.cacheDir != "" || s.cacheTtl != "" || s.cacheSweepInterval != ""
                        || s.noStealth || s.allowAllDomains)
    case CacheOption => caps.browser && s.cacheDir == "" && (s.cacheTtl != "" || s.cacheSweepInterval != "")
    case CacheTtl => caps.browser && s.cacheDir != "" && BadDuration(s.cacheTtl, read, 0)
    case CacheSweep =>
      caps.browser && s.cacheDir != "" && s.cacheSweepInterval != ""
      && (BadDuration(s.cacheSweepInterval, read, 5 * 60 * 1_000_000_000) || BadDuration(s.cacheTtl, read, 1))
    case SubagentDepth => !(1 <= b.subagentMaxDepth <= 4)
    case Sampling => !b.samplingValid
  }

  datatype Section = OfBasics | OfSearch | OfTimeouts | OfBrowser | OfLimits

  /** Where validation looks for a fault. */
  function SectionOf(f: Fault): Section {
    match f
    case WebSearchWithoutWeb => OfSearch
    case SearchBackend => OfSearch
    case IdleTtl => OfTimeouts
    case PerCallTimeout => OfTimeouts
    case RetryBackoff => OfTimeouts
    case BrowserOption => OfBrowser
    case CacheOption => OfBrowser
    case CacheTtl => OfBrowser
    case CacheSweep => OfBrowser
    case SubagentDepth => OfLimits
    case Sampling => OfLimits
    case _ => OfBasics
  }

  /** A section reports one of its faults that applies, or none does. */
  ghost predicate Reports(c: Config, caps: Capabilities, section: Section, found: Option<Fault>, backendReady: bool,
                          read: DurationReader) {
    match found
    case None => forall f :: SectionOf(f) == section ==> !Violates(c, caps, f, backendReady, read)
    case Some(f) => SectionOf(f) == section && Violates(c, caps, f, backendReady, read)
  }

  lemma BasicsReport(c: Config, caps: Capabilities, backendReady: bool, read: DurationReader)
    ensures Reports(c, caps, OfBasics, BasicsFault(c.basics), backendReady, read)
  {
  }

  lemma SearchReports(c: Config, backendReady: bool, read: DurationReader)
    ensures Reports(c, Resolve(c), OfSearch, SearchFault(c, backendReady), backendReady, read)
  {
  }

  lemma TimeoutsReport(c: Config, caps: Capabilities, backendReady: bool, read: DurationReader)
    ensures Reports(c, caps, OfTimeouts, TimeoutFault(c.basics, read), backendReady, read)
  {
  }

  lemma BrowserReports(c: Config, caps: Capabilities, backendReady: bool, read: DurationReader)
    ensures Reports(c, caps, OfBrowser, SettingsFault(c.browserSettings, caps.browser, c.screenshot.on, read),
                    backendReady, read)
  {
  }

  lemma LimitsReport(c: Config, caps: Capabilities, backendReady: bool, read: DurationReader)
    ensures Reports(c, caps, OfLimits, LimitFault(c.basics), backendReady, read)
  {
  }

  /** Validation passes exactly when no fault applies, and the fault it reports applies. */
  lemma ValidIff(c: Config, backendReady: bool, read: DurationReader)
    ensures match Validate(c, backendReady, read)
            case None => forall f :: !Violates(c, Resolve(c), f, backendReady, read)
            case Some(f) => Violates(c, Resolve(c), f, backendReady, read)
  {
    BasicsReport(c, Resolve(c), backendReady, read);
    SearchReports(c, backendReady, read);
    TimeoutsReport(c, Resolve(c), backendReady, read);
    BrowserReports(c, Resolve(c), backendReady, read);
    LimitsReport(c, Resolve(c), backendReady, read);
    OneOfSections(c, Resolve(c), BasicsFault(c.basics), SearchFault(c, backendReady), TimeoutFault(c.basics, read),
                  BrowserFault(c, read), LimitFault(c.basics), backendReady, read);
  }

  lemma OneOfSections(c: Config, caps: Capabilities,
                      basics: Option<Fault>, search: Option<Fault>, timeouts: Option<Fault>,
                      browser: Option<Fault>, limits: Option<Fault>, backendReady: bool, read: DurationReader)
    requires Reports(c, caps, OfBasics, basics, backendReady, read)
    requires Reports(c, caps, OfSearch, search, backendReady, read)
    requires Reports(c, caps, OfTimeouts, timeouts, backendReady, read)
    requires Reports(c, caps, OfBrowser, browser, backendReady, read)
    requires Reports(c, caps, OfLimits, limits, backendReady, read)
    ensures match FirstFault(basics, FirstFault(search, FirstFault(timeouts, FirstFault(browser, limits))))
            case None => forall f :: !Violates(c, caps, f, backendReady, read)
            case Some(f) => Violates(c, caps, f, backendReady, read)
  {
    if basics.None? && search.None? && timeouts.None? && browser.None? && limits.None? {
      forall f ensures !Violates(c, caps, f, backendReady, read) {
        var section := SectionOf(f);
      }
    }
  }
}

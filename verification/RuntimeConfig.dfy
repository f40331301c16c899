/**
 The server's runtime configuration: which capabilities it resolves to, the
 effective configuration that eval mode rewrites it to, and its validation.
*/
module RuntimeConfig {
  import opened Options
  import opened GoText
  import opened ToolAllowlist

  /** A capability switch, and whether the operator set it. */
  datatype Toggle = Toggle(on: bool, given: bool)

  /** The settings that eval mode does not look at. */
  datatype Basics = Basics(
    baseUrlGiven: bool, defaultBaseUrl: bool, apiKeyGiven: bool, modelGiven: bool,
    maxSessions: int, maxTurnSteps: int, maxTurnInputTokens: int, compactTrigger: int,
    contextWindowTokens: int, contextWindowPercent: int, compactTriggerPercent: int, compactKeepLast: int,
    idleTtl: string, perCallTimeout: string, retryBackoff: string,
    subagentMaxDepth: int, samplingValid: bool)

  datatype BrowserSettings = BrowserSettings(
    cacheDir: string, cacheTtl: string, cacheSweepInterval: string, noStealth: bool, allowAllDomains: bool)

  const NO_BROWSER_SETTINGS := BrowserSettings("", "", "", false, false)

  datatype Config = Config(
    basics: Basics,
    builtins: Toggle, memory: Toggle, browser: Toggle, screenshot: Toggle,
    web: Toggle, webSearch: Toggle, subagent: Toggle, focusedTasks: Toggle, loopProtocol: Toggle,
    evalMode: bool, evalTools: string, evalAllTools: bool,
    browserSettings: BrowserSettings)

  datatype Capabilities = Capabilities(
    builtins: bool, memory: bool, browser: bool, screenshot: bool, web: bool, webSearch: bool,
    subagent: bool, focusedTasks: bool, workflowTools: bool, loopProtocol: bool,
    schedule: bool, scheduleRunner: bool)

  predicate EvalModeEnabled(c: Config) {
    c.evalMode || TrimSpace(c.evalTools) != "" || c.evalAllTools
  }

  /** The tools the eval-tools text names. */
  function AllowedTools(c: Config): set<string> {
    SetOf(Requested(Flatten(Tokens(c.evalTools), ServeExpand)))
  }

  predicate AllowsAny(allowed: set<string>, names: seq<string>) {
    exists name <- names :: name in allowed
  }

  function Resolve(c: Config): Capabilities {
    if !EvalModeEnabled(c) then
      Capabilities(c.builtins.on, c.memory.on, c.browser.on, c.browser.on && c.screenshot.on,
                   c.web.on, c.web.on && c.webSearch.on, c.subagent.on, c.focusedTasks.on,
                   true, c.loopProtocol.on, true, true)
    else if c.evalAllTools then
      Capabilities(true, true, true, true, true, true, true, true, true, false, false, false)
    else
      EvalCapabilities(c, AllowedTools(c))
  }

  predicate Chosen(toggle: Toggle) {
    toggle.given && toggle.on
  }

  /** Eval mode starts from nothing: a family is on when it was switched on by hand or
      when one of its tools is allowed. */
  function EvalCapabilities(c: Config, allowed: set<string>): Capabilities {
    var browser := Chosen(c.browser) || AllowsAny(allowed, BROWSER);
    var web := Chosen(c.web) || "web_fetch" in allowed || "web_search" in allowed;
    Capabilities(
      Chosen(c.builtins) || AllowsAny(allowed, WORKSPACE + ["skill", "plan"]),
      Chosen(c.memory) || "memory" in allowed,
      browser,
      (browser && Chosen(c.screenshot)) || "browser_screenshot" in allowed,
      web,
      (web && Chosen(c.webSearch)) || "web_search" in allowed,
      Chosen(c.subagent) || "subagent_run" in allowed,
      Chosen(c.focusedTasks) || "run_task" in allowed,
      "skill" in allowed || "plan" in allowed || "session_search" in allowed,
      false, false, false)
  }

  /** The configuration that states outright what eval mode resolves to. */
  function Effective(c: Config): Config {
    if !EvalModeEnabled(c) then c
    else
      var caps := Resolve(c.(evalMode := true));
      c.(evalMode := true,
         builtins := c.builtins.(on := caps.builtins),
         memory := c.memory.(on := caps.memory),
         browser := c.browser.(on := caps.browser),
         screenshot := c.screenshot.(on := caps.browser && caps.screenshot),
         web := c.web.(on := caps.web),
         webSearch := c.webSearch.(on := caps.webSearch),
         subagent := c.subagent.(on := caps.subagent),
         focusedTasks := c.focusedTasks.(on := caps.focusedTasks),
         loopProtocol := c.loopProtocol.(on := false),
         browserSettings := if caps.browser then c.browserSettings else NO_BROWSER_SETTINGS)
  }

  // ---- Validation ----

  datatype Fault =
    | BaseUrl | ApiKey | Model | MaxSessions | MaxTurnSteps | MaxTurnInputTokens | CompactTrigger
    | ContextWindowTokens | ContextWindowPercent | CompactTriggerPercent | CompactKeepLast
    | WebSearchWithoutWeb | SearchBackend | IdleTtl | PerCallTimeout | RetryBackoff
    | BrowserOption | CacheOption | CacheTtl | CacheSweep
    | SubagentDepth | Sampling

  const MINUTE := 60_000_000_000
  const DEFAULT_CACHE_TTL := 24 * 60 * MINUTE
  const MIN_SWEEP := 5 * MINUTE
  const MAX_SUBAGENT_DEPTH := 4

  /** Durations as nanoseconds; None for text that is not a duration. */
  type DurationReader = string -> Option<int>

  function FirstFault(a: Option<Fault>, b: Option<Fault>): Option<Fault> {
    if a.Some? then a else b
  }

  function BasicsFault(b: Basics): Option<Fault> {
    if !b.baseUrlGiven then Some(BaseUrl)
    else if b.defaultBaseUrl && !b.apiKeyGiven then Some(ApiKey)
    else if !b.modelGiven then Some(Model)
    else if b.maxSessions <= 0 then Some(MaxSessions)
    else if b.maxTurnSteps < 0 then Some(MaxTurnSteps)
    else if b.maxTurnInputTokens < 0 then Some(MaxTurnInputTokens)
    else if b.compactTrigger < 0 then Some(CompactTrigger)
    else if b.contextWindowTokens < 0 then Some(ContextWindowTokens)
    else if b.contextWindowPercent < 0 || b.contextWindowPercent > 100 then Some(ContextWindowPercent)
    else if b.compactTriggerPercent < 0 || b.compactTriggerPercent > 100 then Some(CompactTriggerPercent)
    else if b.compactKeepLast < 0 then Some(CompactKeepLast)
    else None
  }

  function SearchFault(c: Config, backendReady: bool): Option<Fault> {
    var caps := Resolve(c);
    if c.webSearch.on && !caps.web then Some(WebSearchWithoutWeb)
    else if caps.webSearch && !backendReady then Some(SearchBackend)
    else None
  }

  predicate PositiveIfGiven(text: string, read: DurationReader) {
    text == "" || (read(text).Some? && read(text).value > 0)
  }

  function TimeoutFault(b: Basics, read: DurationReader): Option<Fault> {
    if !PositiveIfGiven(b.idleTtl, read) then Some(IdleTtl)
    else if !PositiveIfGiven(b.perCallTimeout, read) then Some(PerCallTimeout)
    else if !PositiveIfGiven(b.retryBackoff, read) then Some(RetryBackoff)
    else None
  }

  function CacheTtlOf(s: BrowserSettings, read: DurationReader): Option<int> {
    if s.cacheTtl == "" then Some(DEFAULT_CACHE_TTL)
    else if read(s.cacheTtl).Some? && read(s.cacheTtl).value >= 0 then read(s.cacheTtl)
    else None
  }

  function BrowserFault(c: Config, read: DurationReader): Option<Fault> {
    SettingsFault(c.browserSettings, Resolve(c).browser, c.screenshot.on, read)
  }

  function SettingsFault(s: BrowserSettings, browser: bool, screenshot: bool, read: DurationReader): Option<Fault> {
    if !browser then
      if s != NO_BROWSER_SETTINGS || screenshot then Some(BrowserOption) else None
    else if s.cacheDir == "" then
      if s.cacheTtl != "" || s.cacheSweepInterval != "" then Some(CacheOption) else None
    else
      var ttl := CacheTtlOf(s, read);
      if ttl.None? then Some(CacheTtl)
      else if s.cacheSweepInterval != ""
              && (ttl.value <= 0 || read(s.cacheSweepInterval).None? || read(s.cacheSweepInterval).value < MIN_SWEEP)
      then Some(CacheSweep)
      else None
  }

  function LimitFault(b: Basics): Option<Fault> {
    if b.subagentMaxDepth < 1 || b.subagentMaxDepth > MAX_SUBAGENT_DEPTH then Some(SubagentDepth)
    else if !b.samplingValid then Some(Sampling)
    else None
  }

  /** The first problem found. */
  function Validate(c: Config, backendReady: bool, read: DurationReader): Option<Fault> {
    FirstFault(BasicsFault(c.basics),
    FirstFault(SearchFault(c, backendReady),
    FirstFault(TimeoutFault(c.basics, read),
    FirstFault(BrowserFault(c, read), LimitFault(c.basics)))))
  }

  // ---- The effective configuration is stable ----

  lemma EvalModeIsKept(c: Config)
    ensures EvalModeEnabled(Effective(c)) == EvalModeEnabled(c)
  {
  }

  /** A tool of a family switches on the whole family. */
  lemma FamiliesAreClosed(c: Config)
    requires EvalModeEnabled(c)
    ensures Resolve(c).webSearch ==> Resolve(c).web
    ensures Resolve(c).screenshot ==> Resolve(c).browser
  {
    var allowed := AllowedTools(c);
    assert "browser_screenshot" == BROWSER[9];
    assert "browser_screenshot" in allowed ==> AllowsAny(allowed, BROWSER);
  }

  /** The capabilities are those of the configuration it came from. */
  lemma EffectiveResolvesAlike(c: Config)
    ensures Resolve(Effective(c)) == Resolve(c)
  {
    if EvalModeEnabled(c) {
      FamiliesAreClosed(c);
      var e := Effective(c);
      assert e.evalTools == c.evalTools && AllowedTools(e) == AllowedTools(c);
    }
  }

  /** Taking it twice gives the same as taking it once: the server does take it twice,
      when it starts and when it makes the session pool. */
  lemma EffectiveIsIdempotent(c: Config)
    ensures Effective(Effective(c)) == Effective(c)
  {
    EffectiveResolvesAlike(c);
    EvalModeIsKept(c);
  }

  /** In eval mode the resolved capabilities can be read off the switches themselves. */
  lemma EffectiveStatesCapabilities(c: Config)
    requires EvalModeEnabled(c)
    ensures var e, caps := Effective(c), Resolve(c);
            && e.builtins.on == caps.builtins && e.memory.on == caps.memory
            && e.browser.on == caps.browser && e.screenshot.on == caps.screenshot
            && e.web.on == caps.web && e.webSearch.on == caps.webSearch
            && e.subagent.on == caps.subagent && e.focusedTasks.on == caps.focusedTasks
            && !e.loopProtocol.on && !caps.loopProtocol
  {
    FamiliesAreClosed(c);
  }

  /** What eval mode hides from validation: settings of a family it leaves off. */
  predicate OnlyHidden(c: Config) {
    EvalModeEnabled(c)
    && ((c.webSearch.on && !Resolve(c).web)
        || (!Resolve(c).browser && (c.browserSettings != NO_BROWSER_SETTINGS || c.screenshot.on)))
  }

  /** A configuration is valid exactly when its effective one is and none of its
      settings belongs to a family that eval mode leaves off. So taking the effective
      configuration never makes a valid one invalid. */
  lemma EffectiveKeepsValidity(c: Config, backendReady: bool, read: DurationReader)
    ensures Validate(c, backendReady, read).None? <==>
            Validate(Effective(c), backendReady, read).None? && !OnlyHidden(c)
  {
    if EvalModeEnabled(c) {
      EffectiveResolvesAlike(c);
      FamiliesAreClosed(c);
      SearchFaultKept(c, backendReady);
      BrowserFaultKept(c, read);
    }
  }

  lemma SearchFaultKept(c: Config, backendReady: bool)
    requires EvalModeEnabled(c)
    ensures SearchFault(c, backendReady).None? <==>
            SearchFault(Effective(c), backendReady).None? && !(c.webSearch.on && !Resolve(c).web)
  {
    EffectiveResolvesAlike(c);
    EffectiveStatesCapabilities(c);
    FamiliesAreClosed(c);
  }

  lemma BrowserFaultKept(c: Config, read: DurationReader)
    requires EvalModeEnabled(c)
    ensures BrowserFault(c, read).None? <==>
            && BrowserFault(Effective(c), read).None?
            && !(!Resolve(c).browser && (c.browserSettings != NO_BROWSER_SETTINGS || c.screenshot.on))
  {
    EffectiveResolvesAlike(c);
    EffectiveStatesCapabilities(c);
    FamiliesAreClosed(c);
  }
}

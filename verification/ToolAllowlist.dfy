/**
 Tool allowlists: the parsers of three binaries for one list of tool names and
 aliases, and the filter that narrows a session's tool registry to such a list.
*/
module ToolAllowlist {
  import opened GoText

  // ---- Tokens ----

  predicate Separator(c: char) {
    c in ",; \n\t"
  }

  /** Cuts off the text up to the first separator. */
  function Cut(spec: string): (r: (string, string))
    ensures spec != "" ==> |r.1| < |spec|
    ensures |r.0| <= |spec|
  {
    if spec == "" then ("", "")
    else if Separator(spec[0]) then ("", spec[1..])
    else
      var (field, rest) := Cut(spec[1..]);
      ([spec[0]] + field, rest)
  }

  /** The trimmed fields between separators. */
  function Tokens(spec: string): seq<string>
    decreases |spec|
  {
    if spec == "" then []
    else
      var (field, rest) := Cut(spec);
      (if field == "" then [] else [TrimSpace(field)]) + Tokens(rest)
  }

  // ---- What a token stands for ----

  const WORKSPACE := ["shell", "read_file", "file_context", "write_file", "edit_file", "list_files",
                      "symbol_context", "repo_search"]
  const READONLY_WORKSPACE := ["read_file", "file_context", "list_files", "symbol_context", "repo_search"]
  const BROWSER := ["browser_navigate", "browser_snapshot", "browser_find", "browser_network",
                    "browser_network_read", "browser_click", "browser_scroll", "browser_type",
                    "browser_wait", "browser_screenshot"]
  const CTL_OTHERS := ["skill", "memory", "session_search", "plan", "loop_protocol", "subagent_run", "run_task",
                       "web_fetch", "web_search", "mcp"]
  const SERVE_OTHERS := ["skill", "memory", "plan", "session_search", "subagent_run", "run_task",
                         "web_fetch", "web_search"]
  const CTL_KNOWN := WORKSPACE + CTL_OTHERS + BROWSER
  const SERVE_KNOWN := WORKSPACE + SERVE_OTHERS + BROWSER

  function CtlExpand(token: string, mcpConfigured: bool): seq<string> {
    if token == "" || token == "none" then []
    else if token == "all" then
      if mcpConfigured then CTL_KNOWN else OtherThan(CTL_KNOWN, "mcp")
    else if token == "workspace" then WORKSPACE
    else if token == "readonly_workspace" then READONLY_WORKSPACE
    else if token == "web" then ["web_fetch", "web_search"]
    else if token == "browser" then BROWSER
    else if token == "recall" then ["memory", "session_search"]
    else if token == "delegation" then ["subagent_run", "run_task"]
    else if token == "mcp" then ["mcp"]
    else [token]
  }

  function CtlExpander(mcpConfigured: bool): string -> seq<string> {
    token => CtlExpand(token, mcpConfigured)
  }

  function ServeExpand(token: string): seq<string> {
    if token == "" || token == "none" then []
    else if token == "all" then SERVE_KNOWN
    else if token == "workspace" then WORKSPACE
    else if token == "readonly_workspace" then READONLY_WORKSPACE
    else if token == "web" then ["web_fetch", "web_search"]
    else if token == "browser" then BROWSER
    else if token == "recall" then ["memory", "session_search"]
    else if token == "delegation" then ["subagent_run", "run_task"]
    else [token]
  }

  function EvalExpand(token: string): seq<string> {
    if token == "" || token == "none" then []
    else if token == "workspace" then WORKSPACE
    else if token == "readonly_workspace" then READONLY_WORKSPACE
    else if token == "web" then ["web_fetch", "web_search"]
    else if token == "browser" then BROWSER
    else if token == "recall" then ["memory", "session_search"]
    else if token == "delegation" then ["subagent_run", "run_task"]
    else [token]
  }

  function OtherThan(names: seq<string>, name: string): seq<string> {
    if names == [] then []
    else (if names[0] == name then [] else [names[0]]) + OtherThan(names[1..], name)
  }

  function Flatten(tokens: seq<string>, expand: string -> seq<string>): seq<string> {
    if tokens == [] then []
    else Flatten(tokens[..|tokens| - 1], expand) + expand(tokens[|tokens| - 1])
  }

  // ---- Collecting names ----

  function AddedTo(requested: seq<string>, name: string): seq<string> {
    var n := TrimSpace(name);
    if n == "" || n in requested then requested else requested + [n]
  }

  function AddAll(requested: seq<string>, names: seq<string>): seq<string> {
    if names == [] then requested
    else AddedTo(AddAll(requested, names[..|names| - 1]), names[|names| - 1])
  }

  function Requested(names: seq<string>): seq<string> {
    AddAll([], names)
  }

  function SetOf(names: seq<string>): set<string> {
    set name <- names
  }

  class Allowlist {
    var allowed: set<string>
    var requested: seq<string>

    ghost predicate Valid()
      reads this
    {
      allowed == SetOf(requested)
    }

    constructor ()
      ensures Valid() && requested == []
    {
      allowed := {};
      requested := [];
    }

    method Add(name: string)
      requires Valid()
      modifies this
      ensures Valid() && requested == AddedTo(old(requested), name)
    {
      var n := TrimSpace(name);
      if n == "" {
        return;
      }
      if n !in allowed {
        requested := requested + [n];
      }
      allowed := allowed + {n};
    }

    method AddNames(names: seq<string>)
      requires Valid()
      modifies this
      ensures Valid() && requested == AddAll(old(requested), names)
    {
      for i := 0 to |names|
        invariant Valid() && requested == AddAll(old(requested), names[..i])
      {
        Add(names[i]);
        assert names[..i + 1][..i] == names[..i];
      }
      assert names[..|names|] == names;
    }
  }

  /** The parser of affentctl and the one of affentserve: they differ in what a token
      stands for. */
  method ParseAllowlist(spec: string, expand: string -> seq<string>) returns (list: Allowlist)
    ensures fresh(list) && list.Valid()
    ensures list.requested == Requested(Flatten(Tokens(spec), expand))
  {
    list := new Allowlist();
    var tokens := Tokens(spec);
    for i := 0 to |tokens|
      invariant list.Valid()
      invariant list.requested == Requested(Flatten(tokens[..i], expand))
    {
      list.AddNames(expand(tokens[i]));
      FlattenOneMore(tokens, i, expand);
      AddAllSplits([], Flatten(tokens[..i], expand), expand(tokens[i]));
    }
    assert tokens[..|tokens|] == tokens;
  }

  lemma {:induction false} AddAllSplits(requested: seq<string>, first: seq<string>, rest: seq<string>)
    ensures AddAll(requested, first + rest) == AddAll(AddAll(requested, first), rest)
  {
    if rest == [] {
      assert first + rest == first;
    } else {
      AddAllSplits(requested, first, rest[..|rest| - 1]);
      assert (first + rest)[..|first + rest| - 1] == first + rest[..|rest| - 1];
    }
  }

  // ---- The requested list ----

  ghost predicate Distinct(names: seq<string>) {
    forall i, j :: 0 <= i < j < |names| ==> names[i] != names[j]
  }

  /** A name stands at a position as `name`, once trimmed. */
  predicate Mentions(names: seq<string>, i: nat, name: string) {
    i < |names| && TrimSpace(names[i]) == name
  }

  ghost predicate Mentioned(names: seq<string>, name: string) {
    exists i :: Mentions(names, i, name)
  }

  /** Where a name is mentioned first. */
  function FirstMention(names: seq<string>, name: string): nat {
    if names == [] || TrimSpace(names[0]) == name then 0 else 1 + FirstMention(names[1..], name)
  }

  lemma {:induction false} FirstMentionIs(names: seq<string>, name: string)
    ensures FirstMention(names, name) <= |names|
    ensures Mentioned(names, name) <==> FirstMention(names, name) < |names|
    ensures Mentioned(names, name) ==> Mentions(names, FirstMention(names, name), name)
    ensures forall i :: Mentions(names, i, name) ==> FirstMention(names, name) <= i
  {
    if names != [] && TrimSpace(names[0]) != name {
      FirstMentionIs(names[1..], name);
      forall i: nat | Mentions(names, i, name) ensures FirstMention(names, name) <= i < |names| {
        assert Mentions(names[1..], i - 1, name);
      }
      if Mentioned(names[1..], name) {
        var i: nat :| Mentions(names[1..], i, name);
        assert Mentions(names, i + 1, name);
      }
    } else if names != [] {
      assert Mentions(names, 0, name);
    }
  }

  /** Every requested name is mentioned in the expanded list and the other way round,
      no name twice. */
  lemma {:induction false} RequestedIsDistinct(names: seq<string>)
    ensures Distinct(Requested(names))
    ensures forall name :: name in Requested(names) <==> name != "" && Mentioned(names, name)
  {
    if names == [] {
    } else {
      var init, last := names[..|names| - 1], TrimSpace(names[|names| - 1]);
      RequestedIsDistinct(init);
      forall name ensures Mentioned(names, name) <==> Mentioned(init, name) || name == last {
        MentionedLonger(names, name);
      }
    }
  }

  lemma MentionedLonger(names: seq<string>, name: string)
    requires names != []
    ensures Mentioned(names, name) <==>
            Mentioned(names[..|names| - 1], name) || name == TrimSpace(names[|names| - 1])
  {
    var init, last := names[..|names| - 1], TrimSpace(names[|names| - 1]);
    assert Mentions(names, |names| - 1, last);
    if Mentioned(init, name) {
      var i: nat :| Mentions(init, i, name);
      assert Mentions(names, i, name);
    }
    if Mentioned(names, name) && name != last {
      var i: nat :| Mentions(names, i, name);
      assert Mentions(init, i, name);
    }
  }

  /** The requested names stand in the order of their first mention. */
  lemma {:induction false} RequestedInOrder(names: seq<string>, i: nat, j: nat)
    requires i < j < |Requested(names)|
    ensures FirstMention(names, Requested(names)[i]) < FirstMention(names, Requested(names)[j])
  {
    var init := names[..|names| - 1];
    var kept := Requested(init);
    RequestedIsDistinct(init);
    FirstMentionLonger(names, kept[i]);
    FirstMentionIs(init, kept[i]);
    if j < |kept| {
      RequestedInOrder(init, i, j);
      FirstMentionLonger(names, kept[j]);
    } else {
      FirstMentionLonger(names, Requested(names)[j]);
      FirstMentionIs(init, Requested(names)[j]);
    }
  }

  lemma {:induction false} FirstMentionLonger(names: seq<string>, name: string)
    requires names != []
    ensures FirstMention(names, name) == FirstMention(names[..|names| - 1], name)
                                      + if FirstMention(names[..|names| - 1], name) == |names| - 1
                                           && TrimSpace(names[|names| - 1]) != name then 1 else 0
  {
    var init := names[..|names| - 1];
    if |names| > 1 && TrimSpace(names[0]) != name {
      assert names[1..][..|names| - 2] == init[1..];
      FirstMentionLonger(names[1..], name);
    } else if |names| > 1 {
      assert init[0] == names[0];
    }
  }

  // ---- The third parser ----

  predicate SourceTool(name: string) {
    name == "web_fetch" || name == "web_search" || HasPrefix(name, "browser_")
  }

  const SOURCE_ACCESS := "source_access"

  function Enabled(enabled: set<string>, name: string): set<string> {
    var n := TrimSpace(name);
    if n == "" || n == SOURCE_ACCESS then enabled
    else enabled + {n} + (if SourceTool(n) then {SOURCE_ACCESS} else {})
  }

  function EnableAll(enabled: set<string>, names: seq<string>): set<string> {
    if names == [] then enabled
    else Enabled(EnableAll(enabled, names[..|names| - 1]), names[|names| - 1])
  }

  /** The tokens in front of "all", and whether there is one. */
  function BeforeAll(tokens: seq<string>): (r: (seq<string>, bool))
    ensures "all" !in r.0
    ensures r.1 <==> "all" in tokens
    ensures !r.1 ==> r.0 == tokens
  {
    if tokens == [] then ([], false)
    else if tokens[0] == "all" then ([], true)
    else
      var (first, all) := BeforeAll(tokens[1..]);
      ([tokens[0]] + first, all)
  }

  /** The names that command-line switches stand for. */
  function SwitchNames(memory: bool, web: bool, browser: bool, mcpConfig: string): seq<string> {
    (if memory then ["memory"] else [])
    + (if web then ["web_fetch", "web_search"] else [])
    + (if browser then BROWSER else [])
    + (if TrimSpace(mcpConfig) != "" then ["mcp"] else [])
  }

  method EnableNames(enabled: set<string>, names: seq<string>) returns (r: set<string>)
    ensures r == EnableAll(enabled, names)
  {
    r := enabled;
    for i := 0 to |names|
      invariant r == EnableAll(enabled, names[..i])
    {
      assert names[..i + 1][..i] == names[..i];
      var n := TrimSpace(names[i]);
      if n == "" || n == SOURCE_ACCESS {
        continue;
      }
      r := r + {n};
      if SourceTool(n) {
        r := r + {SOURCE_ACCESS};
      }
    }
    assert names[..|names|] == names;
  }

  /** The set of enabled tools, and whether all tools are. */
  method EnabledRuntimeTools(spec: string, allTools: bool, memory: bool, web: bool, browser: bool, mcpConfig: string)
    returns (enabled: set<string>, all: bool)
    ensures var (tokens, everything) := BeforeAll(Tokens(spec));
            var switches := SwitchNames(memory, web, browser, mcpConfig);
            && all == (allTools || everything)
            && enabled == EnableAll({}, if allTools then switches else switches + Flatten(tokens, EvalExpand))
  {
    var switches := SwitchNames(memory, web, browser, mcpConfig);
    enabled := EnableNames({}, switches);
    if allTools {
      return enabled, true;
    }
    enabled, all := EnableTokens(switches, enabled, Tokens(spec));
  }

  /** Goes through the tokens up to the first "all". */
  method EnableTokens(ghost switches: seq<string>, start: set<string>, tokens: seq<string>)
    returns (enabled: set<string>, all: bool)
    requires start == EnableAll({}, switches)
    ensures all == BeforeAll(tokens).1
    ensures enabled == EnableAll({}, switches + Flatten(BeforeAll(tokens).0, EvalExpand))
  {
    enabled := start;
    assert switches + [] == switches;
    for i := 0 to |tokens|
      invariant "all" !in tokens[..i]
      invariant enabled == EnableAll({}, switches + Flatten(tokens[..i], EvalExpand))
    {
      if tokens[i] == "all" {
        BeforeAllIs(tokens, i);
        return enabled, true;
      }
      ghost var soFar := enabled;
      enabled := EnableNames(enabled, EvalExpand(tokens[i]));
      EnableMore(switches, tokens, i, soFar);
    }
    assert tokens[..|tokens|] == tokens;
    return enabled, false;
  }

  lemma {:induction false} BeforeAllIs(tokens: seq<string>, i: nat)
    requires i < |tokens| && tokens[i] == "all" && "all" !in tokens[..i]
    ensures BeforeAll(tokens) == (tokens[..i], true)
  {
    if i > 0 {
      assert tokens[..i] == [tokens[0]] + tokens[1..][..i - 1];
      BeforeAllIs(tokens[1..], i - 1);
    }
  }

  lemma EnableMore(switches: seq<string>, tokens: seq<string>, i: nat, soFar: set<string>)
    requires i < |tokens| && soFar == EnableAll({}, switches + Flatten(tokens[..i], EvalExpand))
    ensures EnableAll({}, switches + Flatten(tokens[..i + 1], EvalExpand)) == EnableAll(soFar, EvalExpand(tokens[i]))
    ensures tokens[..i + 1] == tokens[..i] + [tokens[i]]
  {
    FlattenOneMore(tokens, i, EvalExpand);
    JoinedLater(switches, Flatten(tokens[..i], EvalExpand), EvalExpand(tokens[i]));
    EnableAllSplits({}, switches + Flatten(tokens[..i], EvalExpand), EvalExpand(tokens[i]));
  }

  lemma FlattenOneMore(tokens: seq<string>, i: nat, expand: string -> seq<string>)
    requires i < |tokens|
    ensures tokens[..i + 1] == tokens[..i] + [tokens[i]]
    ensures Flatten(tokens[..i + 1], expand) == Flatten(tokens[..i], expand) + expand(tokens[i])
  {
    assert tokens[..i + 1][..i] == tokens[..i];
  }

  lemma JoinedLater(a: seq<string>, b: seq<string>, c: seq<string>)
    ensures a + (b + c) == a + b + c
  {
  }

  lemma {:induction false} EnableAllSplits(enabled: set<string>, first: seq<string>, rest: seq<string>)
    ensures EnableAll(enabled, first + rest) == EnableAll(EnableAll(enabled, first), rest)
  {
    if rest == [] {
      assert first + rest == first;
    } else {
      EnableAllSplits(enabled, first, rest[..|rest| - 1]);
      assert (first + rest)[..|first + rest| - 1] == first + rest[..|rest| - 1];
    }
  }

  // ---- The parsers agree ----

  /** Without "all" every token stands for the same names in all three binaries. */
  lemma {:induction false} ExpansionsAgree(tokens: seq<string>, mcpConfigured: bool)
    requires "all" !in tokens
    ensures Flatten(tokens, CtlExpander(mcpConfigured)) == Flatten(tokens, EvalExpand)
    ensures Flatten(tokens, ServeExpand) == Flatten(tokens, EvalExpand)
  {
    if tokens != [] {
      ExpansionsAgree(tokens[..|tokens| - 1], mcpConfigured);
    }
  }

  predicate HasSource(names: set<string>) {
    exists name <- names :: SourceTool(name)
  }

  /** What the third parser enables, in terms of what the others request. */
  lemma {:induction false} EnabledIsRequested(names: seq<string>)
    ensures var requested := SetOf(Requested(names)) - {SOURCE_ACCESS};
            EnableAll({}, names) == requested + if HasSource(requested) then {SOURCE_ACCESS} else {}
  {
    if names != [] {
      EnabledIsRequested(names[..|names| - 1]);
      EnabledStep(names);
    }
  }

  lemma EnabledStep(names: seq<string>)
    requires names != []
    ensures var before := SetOf(Requested(names[..|names| - 1])) - {SOURCE_ACCESS};
            var after := SetOf(Requested(names)) - {SOURCE_ACCESS};
            var n := TrimSpace(names[|names| - 1]);
            && after == before + (if n == "" || n == SOURCE_ACCESS then {} else {n})
            && (HasSource(after) <==> HasSource(before) || (n != "" && n != SOURCE_ACCESS && SourceTool(n)))
  {
    var requested := Requested(names[..|names| - 1]);
    var n := TrimSpace(names[|names| - 1]);
    assert SetOf(requested + [n]) == SetOf(requested) + {n};
    var before := SetOf(requested) - {SOURCE_ACCESS};
    HasSourceAdded(before, n);
  }

  lemma HasSourceAdded(names: set<string>, n: string)
    ensures HasSource(names + {n}) <==> HasSource(names) || SourceTool(n)
  {
    assert forall name :: name in names + {n} <==> name in names || name == n;
  }

  /** For any list without "all" the first two parsers request the same names in the
      same order, and the third enables the same set apart from its own marker, which
      it sets exactly when a source tool is among them. */
  lemma ParsersAgree(spec: string, mcpConfigured: bool)
    requires "all" !in Tokens(spec)
    ensures var requested := Requested(Flatten(Tokens(spec), ServeExpand));
            var enabled := EnableAll({}, Flatten(BeforeAll(Tokens(spec)).0, EvalExpand));
            && Requested(Flatten(Tokens(spec), CtlExpander(mcpConfigured))) == requested
            && enabled - {SOURCE_ACCESS} == SetOf(requested) - {SOURCE_ACCESS}
            && (SOURCE_ACCESS in enabled <==> HasSource(SetOf(requested) - {SOURCE_ACCESS}))
  {
    ExpansionsAgree(Tokens(spec), mcpConfigured);
    EnabledIsRequested(Flatten(Tokens(spec), EvalExpand));
  }

  // ---- Where "all" differs ----

  ghost predicate MentionedIn(names: set<string>, name: string) {
    exists n <- names :: TrimSpace(n) == name
  }

  lemma MentionedIffIn(names: seq<string>, name: string)
    ensures Mentioned(names, name) <==> MentionedIn(SetOf(names), name)
  {
    if Mentioned(names, name) {
      var i: nat :| Mentions(names, i, name);
      assert names[i] in SetOf(names);
    }
    if MentionedIn(SetOf(names), name) {
      var n :| n in SetOf(names) && TrimSpace(n) == name;
      var i :| 0 <= i < |names| && names[i] == n;
      assert Mentions(names, i, name);
    }
  }

  lemma SetOfSum(first: seq<string>, rest: seq<string>)
    ensures SetOf(first + rest) == SetOf(first) + SetOf(rest)
  {
  }

  /** The names "all" adds in affentctl only. */
  function CtlOnly(mcpConfigured: bool): set<string> {
    {"loop_protocol"} + if mcpConfigured then {"mcp"} else {}
  }

  lemma {:induction false} OtherThanSet(names: seq<string>, name: string)
    ensures SetOf(OtherThan(names, name)) == SetOf(names) - {name}
  {
    if names != [] {
      assert names == [names[0]] + names[1..];
      OtherThanSet(names[1..], name);
      SetOfSum([names[0]], names[1..]);
      SetOfSum(if names[0] == name then [] else [names[0]], OtherThan(names[1..], name));
    }
  }

  lemma AllDiffers(mcpConfigured: bool)
    ensures SetOf(CtlExpand("all", mcpConfigured)) == SetOf(ServeExpand("all")) + CtlOnly(mcpConfigured)
  {
    OtherThanSet(CTL_KNOWN, "mcp");
    KnownNames();
  }

  lemma KnownNames()
    ensures SetOf(CTL_KNOWN) == SetOf(SERVE_KNOWN) + {"loop_protocol", "mcp"}
    ensures "mcp" !in SERVE_KNOWN
  {
    OtherNames();
    SetOfThree(WORKSPACE, CTL_OTHERS, BROWSER);
    SetOfThree(WORKSPACE, SERVE_OTHERS, BROWSER);
    NotMcp(WORKSPACE + SERVE_OTHERS + BROWSER);
  }

  lemma OtherNames()
    ensures SetOf(CTL_OTHERS) == SetOf(SERVE_OTHERS) + {"loop_protocol", "mcp"}
  {
  }

  lemma SetOfThree(a: seq<string>, b: seq<string>, c: seq<string>)
    ensures SetOf(a + b + c) == SetOf(a) + SetOf(b) + SetOf(c)
  {
    SetOfSum(a, b);
    SetOfSum(a + b, c);
  }

  lemma NotMcp(names: seq<string>)
    requires names == SERVE_KNOWN
    ensures "mcp" !in names
  {
    assert forall i :: 0 <= i < |names| ==> |names[i]| > 3;
  }

  /** On any list at all, affentctl allows what affentserve allows and, where "all" is
      given, its own two tools. */
  lemma AllowedDifference(spec: string, mcpConfigured: bool, name: string)
    ensures name in Requested(Flatten(Tokens(spec), CtlExpander(mcpConfigured))) <==>
            || name in Requested(Flatten(Tokens(spec), ServeExpand))
            || ("all" in Tokens(spec) && name in CtlOnly(mcpConfigured))
  {
    var tokens := Tokens(spec);
    var ctl, serve := Flatten(tokens, CtlExpander(mcpConfigured)), Flatten(tokens, ServeExpand);
    RequestedIsDistinct(ctl);
    RequestedIsDistinct(serve);
    MentionedIffIn(ctl, name);
    MentionedIffIn(serve, name);
    FlatDifference(tokens, mcpConfigured);
    CtlOnlyTrimmed(mcpConfigured, name);
  }

  lemma CtlOnlyTrimmed(mcpConfigured: bool, name: string)
    ensures MentionedIn(CtlOnly(mcpConfigured), name) <==> name in CtlOnly(mcpConfigured)
    ensures "" !in CtlOnly(mcpConfigured)
  {
    assert Trimmed("loop_protocol") && Trimmed("mcp");
    assert forall n :: n in CtlOnly(mcpConfigured) ==> TrimSpace(n) == n;
  }

  lemma {:induction false} FlatDifference(tokens: seq<string>, mcpConfigured: bool)
    ensures SetOf(Flatten(tokens, CtlExpander(mcpConfigured)))
         == SetOf(Flatten(tokens, ServeExpand)) + if "all" in tokens then CtlOnly(mcpConfigured) else {}
  {
    if tokens != [] {
      var init, last := tokens[..|tokens| - 1], tokens[|tokens| - 1];
      assert tokens == init + [last];
      FlatDifference(init, mcpConfigured);
      SetOfSum(Flatten(init, CtlExpander(mcpConfigured)), CtlExpander(mcpConfigured)(last));
      SetOfSum(Flatten(init, ServeExpand), ServeExpand(last));
      OneTokenDiffers(last, mcpConfigured);
    }
  }

  lemma OneTokenDiffers(token: string, mcpConfigured: bool)
    ensures SetOf(CtlExpander(mcpConfigured)(token))
         == SetOf(ServeExpand(token)) + if token == "all" then CtlOnly(mcpConfigured) else {}
  {
    if token == "all" {
      AllDiffers(mcpConfigured);
    }
  }

  // ---- Filtering the registry ----

  /** A registered tool; tools of a connected server carry its name as their source. */
  datatype Tool = Tool(source: string)

  datatype Switches = Switches(memory: bool, web: bool, webSearch: bool, browser: bool,
                               screenshot: bool, mcp: bool)

  /** The names a filter lets through besides the requested ones. */
  function Extra(sw: Switches, specBlank: bool): set<string> {
    (if sw.memory then {"memory"} else {})
    + (if sw.web then {"web_fetch"} else {})
    + (if sw.web && sw.webSearch then {"web_search"} else {})
    + (if sw.browser then set name <- BROWSER | name != "browser_screenshot" || sw.screenshot else {})
    + (if sw.screenshot then {"browser_screenshot"} else {})
    + (if sw.mcp && specBlank then {"mcp"} else {})
  }

  /** A tool stays when its name is allowed, or when it comes from a server and
      servers are allowed. */
  predicate Stays(name: string, tool: Tool, requested: set<string>, sw: Switches, specBlank: bool) {
    var allowed := requested + Extra(sw, specBlank);
    name in allowed || (sw.mcp && "mcp" in allowed && TrimSpace(tool.source) != "")
  }

  function Restricted(tools: map<string, Tool>, requested: set<string>, sw: Switches, specBlank: bool)
    : map<string, Tool>
  {
    map name <- tools | Stays(name, tools[name], requested, sw, specBlank) :: tools[name]
  }

  predicate Unavailable(name: string, tools: map<string, Tool>, sw: Switches) {
    if name == "mcp" then !sw.mcp else name !in tools
  }

  function KeepOnly(tools: map<string, Tool>, allowed: set<string>): map<string, Tool> {
    map name <- tools | name in allowed :: tools[name]
  }

  lemma StaysIff(tools: map<string, Tool>, requested: seq<string>, sw: Switches, specBlank: bool, allowed: set<string>)
    requires var base := SetOf(requested) + Extra(sw, specBlank);
             allowed == base + if sw.mcp && "mcp" in base then
                                 set name <- tools | TrimSpace(tools[name].source) != ""
                               else {}
    ensures KeepOnly(tools, allowed) == Restricted(tools, SetOf(requested), sw, specBlank)
    ensures forall name <- requested ::
              Unavailable(name, KeepOnly(tools, allowed), sw) <==> Unavailable(name, tools, sw)
  {
    forall name <- requested
      ensures Unavailable(name, KeepOnly(tools, allowed), sw) <==> Unavailable(name, tools, sw)
    {
      assert name in allowed;
    }
  }

  /** The names of a list that are in a set, in their order. */
  function Among(names: seq<string>, kept: set<string>): seq<string> {
    if names == [] then []
    else (if names[0] in kept then [names[0]] else []) + Among(names[1..], kept)
  }

  lemma {:induction false} AmongAll(names: seq<string>, kept: set<string>)
    requires forall name <- names :: name in kept
    ensures Among(names, kept) == names
  {
    if names != [] {
      assert names == [names[0]] + names[1..];
      AmongAll(names[1..], kept);
    }
  }

  lemma {:induction false} AmongWithout(names: seq<string>, kept: set<string>, name: string)
    ensures OtherThan(Among(names, kept), name) == Among(names, kept - {name})
  {
    if names != [] {
      AmongWithout(names[1..], kept, name);
      if names[0] in kept {
        assert Among(names, kept)[1..] == Among(names[1..], kept);
      } else {
        assert Among(names, kept) == Among(names[1..], kept);
      }
    }
  }

  /** What is left when the tools in `done` have been looked at. */
  function KeptSoFar(tools: map<string, Tool>, allowed: set<string>, done: seq<string>): map<string, Tool> {
    map name <- tools | name in allowed || name !in done :: tools[name]
  }

  lemma KeptAtFirst(tools: map<string, Tool>, allowed: set<string>)
    ensures KeptSoFar(tools, allowed, []) == tools
  {
  }

  lemma KeptNext(tools: map<string, Tool>, allowed: set<string>, defs: seq<string>, i: nat)
    requires i < |defs|
    ensures KeptSoFar(tools, allowed, defs[..i + 1])
         == if defs[i] in allowed then KeptSoFar(tools, allowed, defs[..i])
            else KeptSoFar(tools, allowed, defs[..i]) - {defs[i]}
  {
    assert defs[..i + 1] == defs[..i] + [defs[i]];
  }

  lemma KeptAtLast(tools: map<string, Tool>, allowed: set<string>, defs: seq<string>)
    requires tools.Keys == SetOf(defs)
    ensures KeptSoFar(tools, allowed, defs[..|defs|]) == KeepOnly(tools, allowed)
  {
    assert defs[..|defs|] == defs;
  }

  class Registry {
    var tools: map<string, Tool>
    var order: seq<string>

    ghost predicate Valid()
      reads this
    {
      Distinct(order) && tools.Keys == SetOf(order)
    }

    method Remove(name: string) returns (found: bool)
      requires Valid()
      modifies this
      ensures Valid()
      ensures found <==> name in old(tools)
      ensures tools == old(tools) - {name}
      ensures order == OtherThan(old(order), name)
    {
      OtherThanDistinct(order, name);
      if name !in tools {
        OtherThanAbsent(order, name);
        return false;
      }
      tools := tools - {name};
      for i := 0 to |order|
        invariant order == old(order)
        invariant name !in order[..i]
      {
        if order[i] == name {
          OtherThanFirst(order, name, i);
          order := order[..i] + order[i + 1..];
          break;
        }
        assert order[..i + 1] == order[..i] + [order[i]];
      }
      return true;
    }

    /** Leaves the allowed tools only, and tells whether every requested one is there. */
    method FilterEvalModeTools(list: Allowlist, specBlank: bool, sw: Switches) returns (ok: bool)
      requires Valid() && list.Valid()
      modifies this
      ensures Valid()
      ensures tools == Restricted(old(tools), SetOf(list.requested), sw, specBlank)
      ensures order == Among(old(order), tools.Keys)
      ensures ok <==> forall name <- list.requested :: !Unavailable(name, old(tools), sw)
    {
      var allowed := list.allowed + Extra(sw, specBlank);
      if sw.mcp && "mcp" in allowed {
        allowed := allowed + (set name <- order | TrimSpace(tools[name].source) != "");
      }
      Narrow(allowed);
      StaysIff(old(tools), list.requested, sw, specBlank, allowed);
      ok := NoneMissing(list.requested, sw);
    }

    /** Removes every tool that is not allowed. */
    method Narrow(allowed: set<string>)
      requires Valid()
      modifies this
      ensures Valid() && tools == KeepOnly(old(tools), allowed)
      ensures order == Among(old(order), tools.Keys)
    {
      var defs := order;
      AmongAll(defs, tools.Keys);
      KeptAtFirst(tools, allowed);
      for i := 0 to |defs|
        invariant Valid() && tools == KeptSoFar(old(tools), allowed, defs[..i])
        invariant order == Among(defs, tools.Keys)
      {
        KeptNext(old(tools), allowed, defs, i);
        if defs[i] !in allowed {
          AmongWithout(defs, tools.Keys, defs[i]);
          ghost var keys := tools.Keys;
          var found := Remove(defs[i]);
          assert tools.Keys == keys - {defs[i]};
        }
      }
      KeptAtLast(old(tools), allowed, defs);
    }

    method NoneMissing(requested: seq<string>, sw: Switches) returns (ok: bool)
      ensures ok <==> forall name <- requested :: !Unavailable(name, tools, sw)
    {
      ok := true;
      for i := 0 to |requested|
        invariant ok <==> forall name <- requested[..i] :: !Unavailable(name, tools, sw)
      {
        var missing := if requested[i] == "mcp" then !sw.mcp else requested[i] !in tools;
        assert missing == Unavailable(requested[i], tools, sw);
        assert requested[..i + 1] == requested[..i] + [requested[i]];
        ok := ok && !missing;
      }
      assert requested[..|requested|] == requested;
    }
  }

  lemma {:induction false} OtherThanAbsent(names: seq<string>, name: string)
    requires name !in names
    ensures OtherThan(names, name) == names
  {
    if names != [] {
      assert names == [names[0]] + names[1..];
      OtherThanAbsent(names[1..], name);
    }
  }

  lemma {:induction false} OtherThanDistinct(names: seq<string>, name: string)
    requires Distinct(names)
    ensures Distinct(OtherThan(names, name))
    ensures SetOf(OtherThan(names, name)) == SetOf(names) - {name}
  {
    OtherThanSet(names, name);
    if names != [] {
      assert names == [names[0]] + names[1..];
      OtherThanDistinct(names[1..], name);
      assert names[0] !in names[1..];
      assert names[0] !in SetOf(OtherThan(names[1..], name));
    }
  }

  lemma {:induction false} OtherThanFirst(names: seq<string>, name: string, i: nat)
    requires Distinct(names) && i < |names| && names[i] == name
    ensures OtherThan(names, name) == names[..i] + names[i + 1..]
  {
    if i == 0 {
      OtherThanAbsent(names[1..], name);
    } else {
      OtherThanFirst(names[1..], name, i - 1);
      assert names[..i] == [names[0]] + names[1..][..i - 1];
      assert names[i + 1..] == names[1..][i..];
    }
  }
}

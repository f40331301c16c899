/**
 What a list of tools means: how its text falls into tokens, which tools an alias stands
 for, and which tools the switches let through.
*/
module ToolNames {
  import opened GoText
  import opened ToolAllowlist

  // ---- Tokens ----

  predicate Separates(c: char) {
    c in {',', ';', ' ', '\n', '\t'}
  }

  predicate Plain(field: string) {
    forall i :: 0 <= i < |field| ==> !Separates(field[i])
  }

  lemma {:induction false} CutPlain(a: string, c: char, b: string)
    requires Plain(a) && Separates(c)
    ensures Cut(a) == (a, "") && Cut(a + [c] + b) == (a, b)
  {
    var all := a + [c] + b;
    if a == "" {
      assert all[1..] == b;
    } else {
      CutPlain(a[1..], c, b);
      assert all[1..] == a[1..] + [c] + b;
      assert a == [a[0]] + a[1..];
    }
  }

  lemma {:induction false} CutOther(a: string, rest: string)
    requires !Plain(a)
    ensures Cut(a + rest) == (Cut(a).0, Cut(a).1 + rest)
    ensures |Cut(a).1| < |a|
  {
    var all := a + rest;
    assert all[1..] == a[1..] + rest;
    if !Separator(a[0]) {
      assert !Plain(a[1..]) by {
        var i :| 0 <= i < |a| && Separates(a[i]);
        assert a[1..][i - 1] == a[i];
      }
      CutOther(a[1..], rest);
    }
  }

  /** A separator parts the list: what stands before it and after it are read on their own. */
  lemma {:induction false} TokensJoin(a: string, c: char, b: string)
    requires Separates(c)
    ensures Tokens(a + [c] + b) == Tokens(a) + Tokens(b)
    decreases |a|
  {
    if Plain(a) {
      CutPlain(a, c, b);
      if a != "" {
        PlainIsOneToken(a);
      }
    } else {
      CutOther(a, [c] + b);
      var (field, rest) := Cut(a);
      TokensJoin(rest, c, b);
      LaterSeparator(a, field, rest, [c], b, Tokens(rest), Tokens(b));
    }
  }

  lemma LaterSeparator(a: string, field: string, rest: string, c: string, b: string,
                       first: seq<string>, second: seq<string>)
    requires a != "" && Cut(a) == (field, rest) && Cut(a + (c + b)) == (field, rest + (c + b))
    requires Tokens(rest) == first && Tokens(rest + c + b) == first + second
    ensures Tokens(a + c + b) == Tokens(a) + second
  {
    Regrouped(a, c, b);
    Regrouped(rest, c, b);
    FirstToken(a, field, rest, first);
    FirstToken(a + c + b, field, rest + c + b, first + second);
    JoinedLater(if field == "" then [] else [TrimSpace(field)], first, second);
  }

  lemma Regrouped(a: string, b: string, c: string)
    ensures a + (b + c) == a + b + c
  {
  }

  lemma FirstToken(spec: string, field: string, rest: string, tokens: seq<string>)
    requires spec != "" && Cut(spec) == (field, rest) && tokens == Tokens(rest)
    ensures Tokens(spec) == (if field == "" then [] else [TrimSpace(field)]) + tokens
  {
  }

  /** Text without separators is one token, trimmed. */
  lemma PlainIsOneToken(field: string)
    requires field != "" && Plain(field)
    ensures Tokens(field) == [TrimSpace(field)]
  {
    CutPlain(field, ',', "");
    assert Tokens("") == [];
  }

  function Listed(names: seq<string>): string {
    if names == [] then "" else if |names| == 1 then names[0] else names[0] + [','] + Listed(names[1..])
  }

  /** Names separated by commas read back as these names. */
  lemma {:induction false} ListReadsBack(names: seq<string>)
    requires forall i :: 0 <= i < |names| ==> names[i] != "" && Plain(names[i]) && Trimmed(names[i])
    ensures Tokens(Listed(names)) == names
  {
    if names != [] {
      PlainIsOneToken(names[0]);
      if |names| > 1 {
        ListReadsBack(names[1..]);
        FirstOfList(names[0], Listed(names[1..]), names[1..]);
        assert names == [names[0]] + names[1..];
      }
    }
  }

  lemma FirstOfList(name: string, rest: string, names: seq<string>)
    requires Tokens(name) == [name] && Tokens(rest) == names
    ensures Tokens(name + [','] + rest) == [name] + names
  {
    TokensJoin(name, ',', rest);
  }

  // ---- Aliases ----

  lemma PrefixAt(name: string, prefix: string, i: nat)
    requires HasPrefix(name, prefix) && i < |prefix|
    ensures |prefix| <= |name| && name[i] == prefix[i]
  {
  }

  lemma BrowserNames(name: string)
    requires name in BROWSER
    ensures HasPrefix(name, "browser_") && !HasPrefix(name, "web_")
  {
    assert name[..8] == "browser_";
    if HasPrefix(name, "web_") {
      PrefixAt(name, "web_", 0);
    }
  }

  lemma WorkspaceNames(name: string)
    requires name in WORKSPACE
    ensures !HasPrefix(name, "browser_") && !HasPrefix(name, "web_")
  {
    if HasPrefix(name, "browser_") {
      PrefixAt(name, "browser_", 0);
    }
    if HasPrefix(name, "web_") {
      PrefixAt(name, "web_", 0);
      PrefixAt(name, "web_", 1);
    }
  }

  lemma OtherNames(name: string)
    requires name in SERVE_OTHERS
    ensures !HasPrefix(name, "browser_")
    ensures HasPrefix(name, "web_") <==> name in ["web_fetch", "web_search"]
  {
    if HasPrefix(name, "browser_") {
      PrefixAt(name, "browser_", 0);
    }
    if HasPrefix(name, "web_") {
      PrefixAt(name, "web_", 0);
    }
    assert "web_fetch"[..4] == "web_" && "web_search"[..4] == "web_";
  }

  /** The browser's alias stands for the known tools whose names say so. */
  lemma BrowserIsFamily(name: string)
    ensures name in ServeExpand("browser") <==> name in SERVE_KNOWN && HasPrefix(name, "browser_")
  {
    KnownIs(name);
    if name in BROWSER {
      BrowserNames(name);
    }
    if name in WORKSPACE {
      WorkspaceNames(name);
    }
    if name in SERVE_OTHERS {
      OtherNames(name);
    }
  }

  /** So does the web's. */
  lemma WebIsFamily(name: string)
    ensures name in ServeExpand("web") <==> name in SERVE_KNOWN && HasPrefix(name, "web_")
  {
    KnownIs(name);
    if name in BROWSER {
      BrowserNames(name);
    }
    if name in WORKSPACE {
      WorkspaceNames(name);
    }
    if name in SERVE_OTHERS {
      OtherNames(name);
    }
  }

  /** The read-only workspace is the workspace without the tools that can change it. */
  lemma ReadonlyIsPart(name: string)
    ensures name in ServeExpand("readonly_workspace") <==>
            name in ServeExpand("workspace") && name !in ["shell", "write_file", "edit_file"]
  {
    ReadonlyNames(name);
  }

  lemma ReadonlyNames(name: string)
    ensures name in READONLY_WORKSPACE <==> name in WORKSPACE && name !in ["shell", "write_file", "edit_file"]
  {
  }

  lemma KnownIs(name: string)
    ensures name in SERVE_KNOWN <==> name in WORKSPACE || name in SERVE_OTHERS || name in BROWSER
  {
  }

  /** The other two aliases. */
  lemma SmallAliases()
    ensures ServeExpand("recall") == ["memory", "session_search"]
    ensures ServeExpand("delegation") == ["subagent_run", "run_task"]
    ensures ServeExpand("none") == [] && forall mcp :: CtlExpand("none", mcp) == []
  {
  }

  // ---- Switches ----

  /** With nothing requested, a known tool that no server provides stays exactly when the
      switch of its family is on: the browser's tools, but for the screenshot, which has a
      switch of its own; the web's, of which the search needs its own switch too; memory;
      and the servers' marker. */
  lemma SwitchedToolsStay(name: string, tool: Tool, sw: Switches)
    requires name in CTL_KNOWN && TrimSpace(tool.source) == ""
    ensures Stays(name, tool, {}, sw, true) <==>
            if HasPrefix(name, "browser_") then (if name == "browser_screenshot" then sw.screenshot else sw.browser)
            else if HasPrefix(name, "web_") then sw.web && (name == "web_search" ==> sw.webSearch)
            else (name == "memory" && sw.memory) || (name == "mcp" && sw.mcp)
  {
    KnownFamilies(name);
  }

  /** What a server provides stays exactly when servers are switched on. */
  lemma ServerToolsStay(name: string, tool: Tool, sw: Switches)
    requires name !in CTL_KNOWN && TrimSpace(tool.source) != ""
    ensures Stays(name, tool, {}, sw, true) <==> sw.mcp
  {
  }

  lemma KnownFamilies(name: string)
    requires name in CTL_KNOWN
    ensures HasPrefix(name, "browser_") <==> name in BROWSER
    ensures HasPrefix(name, "web_") <==> name in ["web_fetch", "web_search"]
    ensures "browser_screenshot" in BROWSER
  {
    assert BROWSER[9] == "browser_screenshot";
    if name in BROWSER {
      BrowserNames(name);
    } else if name in WORKSPACE {
      WorkspaceNames(name);
    } else {
      CtlNames(name);
    }
  }

  lemma CtlNames(name: string)
    requires name in CTL_OTHERS
    ensures !HasPrefix(name, "browser_")
    ensures HasPrefix(name, "web_") <==> name in ["web_fetch", "web_search"]
  {
    if HasPrefix(name, "browser_") {
      PrefixAt(name, "browser_", 0);
    }
    if HasPrefix(name, "web_") {
      PrefixAt(name, "web_", 0);
    }
    assert "web_fetch"[..4] == "web_" && "web_search"[..4] == "web_";
  }

  /** What the command-line switches alone enable. */
  lemma SwitchesEnable(memory: bool, web: bool, browser: bool, mcpConfig: string, name: string)
    ensures name in EnableAll({}, SwitchNames(memory, web, browser, mcpConfig)) <==>
            || (memory && name == "memory")
            || (web && name in ["web_fetch", "web_search"])
            || (browser && name in BROWSER)
            || (TrimSpace(mcpConfig) != "" && name == "mcp")
            || ((web || browser) && name == "source_access")
  {
    var names := SwitchNames(memory, web, browser, mcpConfig);
    forall n <- names ensures Proper(n) {
      SwitchNamesAre(memory, web, browser, mcpConfig, n);
      ProperNames(n);
    }
    ProperNamesEnable(names, name);
    SwitchNamesAre(memory, web, browser, mcpConfig, name);
    if browser {
      assert BROWSER[0] in names;
      SourceNames(BROWSER[0]);
    }
    if web {
      assert "web_fetch" in names;
      SourceNames("web_fetch");
    }
    forall n <- names ensures SourceTool(n) <==> n in ["web_fetch", "web_search"] || n in BROWSER {
      SwitchNamesAre(memory, web, browser, mcpConfig, n);
      SourceNames(n);
    }
  }

  lemma SwitchNamesAre(memory: bool, web: bool, browser: bool, mcpConfig: string, name: string)
    ensures name in SwitchNames(memory, web, browser, mcpConfig) <==>
            || (memory && name == "memory")
            || (web && name in ["web_fetch", "web_search"])
            || (browser && name in BROWSER)
            || (TrimSpace(mcpConfig) != "" && name == "mcp")
  {
  }

  predicate Proper(name: string) {
    Trimmed(name) && name != "" && name != SOURCE_ACCESS
  }

  lemma ProperNames(name: string)
    requires name in ["memory", "web_fetch", "web_search", "mcp"] || name in BROWSER
    ensures Proper(name)
  {
  }

  lemma SourceNames(name: string)
    requires name in ["memory", "web_fetch", "web_search", "mcp"] || name in BROWSER
    ensures SourceTool(name) <==> name in ["web_fetch", "web_search"] || name in BROWSER
  {
    if name in BROWSER {
      BrowserNames(name);
    } else if HasPrefix(name, "browser_") {
      PrefixAt(name, "browser_", 0);
    }
  }

  lemma {:induction false} ProperNamesEnable(names: seq<string>, name: string)
    requires forall n <- names :: Proper(n)
    ensures name in EnableAll({}, names) <==>
            name in names || (name == SOURCE_ACCESS && exists n <- names :: SourceTool(n))
  {
    if names != [] {
      var init, last := names[..|names| - 1], names[|names| - 1];
      assert names == init + [last];
      ProperNamesEnable(init, name);
      assert Proper(last);
    }
  }
}

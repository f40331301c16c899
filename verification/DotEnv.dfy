/**
 Loading .env files into the process environment: a scanner reads each file line by
 line, and a definition is taken only for a name that is not set yet.
*/
module DotEnv {
  import opened Options
  import opened GoText

  /** The scanner refuses a line of this many bytes. */
  const MAX_LINE := 64 * 1024

  type Env = map<string, string>

  datatype File = Absent | CannotOpen | Text(content: string)

  datatype Status = Loaded | OpenFailed | LineTooLong | SetFailed

  /** A name and the value one line gives it. */
  datatype Definition = Definition(key: string, value: string)

  // ---- Lines ----

  /** The length of a character in UTF-8. */
  function CharBytes(c: char): nat {
    if c as int < 0x80 then 1 else if c as int < 0x800 then 2 else if c as int < 0x10000 then 3 else 4
  }

  function Bytes(s: string): nat {
    if s == "" then 0 else Bytes(s[..|s| - 1]) + CharBytes(s[|s| - 1])
  }

  /** Splits off the first line. */
  function FirstLine(content: string): (r: (string, string))
    ensures content != "" ==> |r.1| < |content|
    ensures '\n' !in r.0
  {
    if content == "" then ("", "")
    else if content[0] == '\n' then ("", content[1..])
    else
      var (line, rest) := FirstLine(content[1..]);
      ([content[0]] + line, rest)
  }

  /** The lines of a text; a line end at the very end starts no further line. */
  function Lines(content: string): seq<string>
    decreases |content|
  {
    if content == "" then []
    else
      var (line, rest) := FirstLine(content);
      [line] + Lines(rest)
  }

  function DropReturn(line: string): string {
    if line != "" && line[|line| - 1] == '\r' then line[..|line| - 1] else line
  }

  function IndexOf(s: string, c: char): (i: int)
    ensures -1 <= i < |s|
    ensures i == -1 <==> c !in s
    ensures i >= 0 ==> s[i] == c && c !in s[..i]
  {
    if s == "" then -1
    else if s[0] == c then 0
    else
      var i := IndexOf(s[1..], c);
      assert s == [s[0]] + s[1..];
      assert i >= 0 ==> s[..i + 1] == [s[0]] + s[1..][..i];
      if i < 0 then -1 else i + 1
  }

  /** Strips one pair of matching quotes. */
  function Unquote(value: string): string {
    var n := |value|;
    if n >= 2 && value[0] == value[n - 1] && value[0] in "\"'" then value[1..n - 1] else value
  }

  /** What a line defines. */
  function ParseLine(raw: string): Option<Definition> {
    var trimmed := TrimSpace(DropReturn(raw));
    if trimmed == "" || HasPrefix(trimmed, "#") then None
    else ParseDefinition(if HasPrefix(trimmed, "export ") then trimmed[|"export "|..] else trimmed)
  }

  function ParseDefinition(line: string): Option<Definition> {
    var eq := IndexOf(line, '=');
    if eq <= 0 then None
    else
      var key := TrimSpace(line[..eq]);
      if key == "" then None else Some(Definition(key, Unquote(TrimSpace(line[eq + 1..]))))
  }

  /** The system refuses a name or a value with a NUL in it. */
  predicate Settable(d: Definition) {
    '\0' !in d.key && '\0' !in d.value
  }

  // ---- Loading, as a function ----

  function LoadLines(env: Env, lines: seq<string>): (Env, Status)
    decreases |lines|
  {
    if lines == [] then (env, Loaded)
    else if Bytes(lines[0]) >= MAX_LINE then (env, LineTooLong)
    else
      var d := ParseLine(lines[0]);
      if d.None? || d.value.key in env then LoadLines(env, lines[1..])
      else if !Settable(d.value) then (env, SetFailed)
      else LoadLines(env[d.value.key := d.value.value], lines[1..])
  }

  function LoadFile(env: Env, file: File): (Env, Status) {
    match file
    case Absent => (env, Loaded)
    case CannotOpen => (env, OpenFailed)
    case Text(content) => LoadLines(env, Lines(content))
  }

  function LoadFiles(env: Env, files: seq<File>): (Env, Status)
    decreases |files|
  {
    if files == [] then (env, Loaded)
    else
      var (next, status) := LoadFile(env, files[0]);
      if status != Loaded then (next, status) else LoadFiles(next, files[1..])
  }

  // ---- The process ----

  class Process {
    var env: Env

    constructor (env: Env)
      ensures this.env == env
    {
      this.env := env;
    }

    method LoadDotEnvFile(file: File) returns (status: Status)
      modifies this
      ensures (env, status) == LoadFile(old(env), file)
    {
      match file {
        case Absent => return Loaded;
        case CannotOpen => return OpenFailed;
        case Text(content) =>
          var rest := content;
          while rest != ""
            invariant LoadLines(old(env), Lines(content)) == LoadLines(env, Lines(rest))
            decreases |rest|
          {
            var (raw, next) := FirstLine(rest);
            assert Lines(rest)[1..] == Lines(next);
            if Bytes(raw) >= MAX_LINE {
              return LineTooLong;
            }
            rest := next;
            var d := ParseLine(raw);
            if d.None? || d.value.key in env {
              continue;
            }
            if !Settable(d.value) {
              return SetFailed;
            }
            env := env[d.value.key := d.value.value];
          }
          return Loaded;
      }
    }

    /** The files in lookup order: ./.env, then the one in the home directory. */
    method LoadDotEnv(files: seq<File>) returns (status: Status)
      modifies this
      ensures (env, status) == LoadFiles(old(env), files)
    {
      for i := 0 to |files|
        invariant LoadFiles(old(env), files) == LoadFiles(env, files[i..])
      {
        assert files[i..][1..] == files[i + 1..];
        status := LoadDotEnvFile(files[i]);
        if status != Loaded {
          return;
        }
      }
      status := Loaded;
    }
  }

  // ---- The first definition wins ----

  /** The first value the lines give a name. */
  function FirstIn(lines: seq<string>, key: string): Option<string> {
    if lines == [] then None
    else
      var d := ParseLine(lines[0]);
      if d.Some? && d.value.key == key then Some(d.value.value) else FirstIn(lines[1..], key)
  }

  function LinesOf(file: File): seq<string> {
    if file.Text? then Lines(file.content) else []
  }

  /** The first value the files give a name, one file after the other. */
  function FirstAcross(files: seq<File>, key: string): Option<string> {
    if files == [] then None
    else
      var first := FirstIn(LinesOf(files[0]), key);
      if first.Some? then first else FirstAcross(files[1..], key)
  }

  /** What a name stands for: its value, if it is set. */
  function ValueOf(env: Env, key: string): Option<string> {
    if key in env then Some(env[key]) else None
  }

  /** The name keeps the value it had; else it has its first definition, or, if
      loading was cut short, possibly none. */
  predicate FirstWins(before: Env, after: Env, first: Option<string>, key: string, done: bool) {
    if key in before then ValueOf(after, key) == ValueOf(before, key)
    else ValueOf(after, key) == first || (!done && key !in after)
  }

  lemma {:induction false} LinesFirstWins(env: Env, lines: seq<string>, key: string)
    ensures var (after, status) := LoadLines(env, lines);
            FirstWins(env, after, FirstIn(lines, key), key, status == Loaded)
    decreases |lines|
  {
    if lines != [] && Bytes(lines[0]) < MAX_LINE {
      var d := ParseLine(lines[0]);
      if d.None? || d.value.key in env {
        LinesFirstWins(env, lines[1..], key);
      } else if Settable(d.value) {
        LinesFirstWins(env[d.value.key := d.value.value], lines[1..], key);
      }
    }
  }

  /** Over all files: a name that was set keeps its value, every other name gets its
      first definition, and nothing else appears. */
  lemma {:induction false} FirstDefinitionWins(env: Env, files: seq<File>, key: string)
    ensures var (after, status) := LoadFiles(env, files);
            FirstWins(env, after, FirstAcross(files, key), key, status == Loaded)
    decreases |files|
  {
    if files != [] {
      LinesFirstWins(env, LinesOf(files[0]), key);
      var (next, status) := LoadFile(env, files[0]);
      if status == Loaded {
        FirstDefinitionWins(next, files[1..], key);
      }
    }
  }

  // ---- When loading succeeds ----

  predicate LinesFit(lines: seq<string>) {
    forall line <- lines :: Bytes(line) < MAX_LINE
  }

  /** Every name still unset is first given something the system takes. */
  ghost predicate FirstsSettable(env: Env, lines: seq<string>) {
    forall key :: key !in env && FirstIn(lines, key).Some? ==> Settable(Definition(key, FirstIn(lines, key).value))
  }

  /** A text loads in full exactly when its lines fit the scanner and the definitions
      it would take hold no NUL. */
  lemma {:induction false} LoadsIff(env: Env, lines: seq<string>)
    ensures LoadLines(env, lines).1 == Loaded <==> LinesFit(lines) && FirstsSettable(env, lines)
    decreases |lines|
  {
    if lines != [] {
      assert LinesFit(lines) <==> Bytes(lines[0]) < MAX_LINE && LinesFit(lines[1..]);
      var d := ParseLine(lines[0]);
      if d.None? || d.value.key in env {
        LoadsIff(env, lines[1..]);
        SkippedLine(env, lines);
      } else {
        LoadsIff(env[d.value.key := d.value.value], lines[1..]);
        TakenLine(env, lines);
      }
    }
  }

  lemma SkippedLine(env: Env, lines: seq<string>)
    requires lines != []
    requires ParseLine(lines[0]).None? || ParseLine(lines[0]).value.key in env
    ensures FirstsSettable(env, lines) <==> FirstsSettable(env, lines[1..])
  {
    assert forall key :: key !in env ==> FirstIn(lines, key) == FirstIn(lines[1..], key);
  }

  lemma TakenLine(env: Env, lines: seq<string>)
    requires lines != [] && ParseLine(lines[0]).Some? && ParseLine(lines[0]).value.key !in env
    ensures var d := ParseLine(lines[0]).value;
            FirstsSettable(env, lines) <==> Settable(d) && FirstsSettable(env[d.key := d.value], lines[1..])
  {
    var d := ParseLine(lines[0]).value;
    assert FirstIn(lines, d.key) == Some(d.value);
    assert forall key :: key != d.key ==> FirstIn(lines, key) == FirstIn(lines[1..], key);
    var after := env[d.key := d.value];
    if FirstsSettable(env, lines) {
      assert Settable(Definition(d.key, d.value));
      forall key | key !in after && FirstIn(lines[1..], key).Some?
        ensures Settable(Definition(key, FirstIn(lines[1..], key).value))
      {
        assert FirstIn(lines, key).Some?;
      }
    }
  }

  // ---- Loading again ----

  /** Loading only adds names, and loading the same lines again into any larger
      environment that the first load led to adds none. */
  lemma {:induction false} LinesSettle(env: Env, lines: seq<string>, later: Env)
    requires Extends(LoadLines(env, lines).0, later)
    requires LoadLines(env, lines).1 == Loaded || LoadLines(env, lines).0 == later
    ensures LoadLines(later, lines) == (later, LoadLines(env, lines).1)
    ensures Extends(env, later)
    decreases |lines|
  {
    if lines != [] && Bytes(lines[0]) < MAX_LINE {
      var d := ParseLine(lines[0]);
      if d.None? || d.value.key in env {
        LinesSettle(env, lines[1..], later);
      } else if Settable(d.value) {
        LinesSettle(env[d.value.key := d.value.value], lines[1..], later);
        assert d.value.key in env[d.value.key := d.value.value];
      }
    }
  }

  predicate Extends(env: Env, later: Env) {
    env.Keys <= later.Keys
  }

  lemma {:induction false} FilesSettle(env: Env, files: seq<File>, later: Env)
    requires Extends(LoadFiles(env, files).0, later)
    requires LoadFiles(env, files).1 == Loaded || LoadFiles(env, files).0 == later
    ensures LoadFiles(later, files) == (later, LoadFiles(env, files).1)
    ensures Extends(env, later)
    decreases |files|
  {
    if files != [] {
      var (next, status) := LoadFile(env, files[0]);
      if status == Loaded {
        FilesSettle(next, files[1..], later);
      }
      if files[0].Text? {
        LinesSettle(env, LinesOf(files[0]), later);
      }
    }
  }

  /** A second load changes nothing and ends the way the first one did. */
  lemma SecondLoadChangesNothing(env: Env, files: seq<File>)
    ensures var (after, status) := LoadFiles(env, files);
            LoadFiles(after, files) == (after, status)
  {
    FilesSettle(env, files, LoadFiles(env, files).0);
  }

  // ---- Writing a line that reads back ----

  predicate PlainKey(key: string) {
    key != "" && key[0] != '#' && forall c <- key :: !IsSpace(c) && c != '='
  }

  /** `key="value"` */
  function QuotedLine(key: string, value: string): string {
    key + "=" + "\"" + value + "\""
  }

  /** The quoted form reads back as the key and the value, whatever the value holds
      other than a line end. */
  lemma QuotedLineParses(key: string, value: string)
    requires PlainKey(key)
    ensures ParseLine(QuotedLine(key, value)) == Some(Definition(key, value))
  {
    var quoted := "\"" + value + "\"";
    assert QuotedLine(key, value) == key + ("=" + quoted);
    PlainLineParses(key, quoted);
    UnquotesTo(value);
  }

  lemma UnquotesTo(value: string)
    ensures Unquote(TrimSpace("\"" + value + "\"")) == value
  {
    var quoted := "\"" + value + "\"";
    assert Trimmed(quoted) && quoted[1..|quoted| - 1] == value;
  }

  lemma PlainLineParses(key: string, rest: string)
    requires PlainKey(key) && rest != "" && rest[|rest| - 1] == '"'
    ensures ParseLine(key + ("=" + rest)) == Some(Definition(key, Unquote(TrimSpace(rest))))
  {
    var line := key + ("=" + rest);
    DefinitionParses(key, rest);
    NoExport(key, rest);
    PlainLine(key, rest);
    assert ParseLine(line) == ParseDefinition(line);
  }

  lemma PlainLine(key: string, rest: string)
    requires PlainKey(key) && rest != "" && rest[|rest| - 1] == '"'
    ensures var line := key + ("=" + rest);
            line != "" && !HasPrefix(line, "#") && TrimSpace(DropReturn(line)) == line
  {
    var line := key + ("=" + rest);
    assert line[0] == key[0] && line[|line| - 1] == '"';
    assert key[0] in key;
    assert Trimmed(line);
  }

  lemma DefinitionParses(key: string, rest: string)
    requires PlainKey(key)
    ensures ParseDefinition(key + ("=" + rest)) == Some(Definition(key, Unquote(TrimSpace(rest))))
  {
    var line := key + ("=" + rest);
    KeyIsFirst(key, rest);
    assert line[..|key|] == key && line[|key| + 1..] == rest;
    PlainKeyTrimmed(key);
  }

  lemma PlainKeyTrimmed(key: string)
    requires PlainKey(key)
    ensures TrimSpace(key) == key
  {
    assert key[0] in key && key[|key| - 1] in key;
  }

  lemma {:induction false} KeyIsFirst(key: string, rest: string)
    requires '=' !in key
    ensures IndexOf(key + ("=" + rest), '=') == |key|
  {
    if key != "" {
      KeyIsFirst(key[1..], rest);
      assert (key + ("=" + rest))[1..] == key[1..] + ("=" + rest);
    }
  }

  lemma NoExport(key: string, rest: string)
    requires PlainKey(key)
    ensures !HasPrefix(key + ("=" + rest), "export ")
  {
    var line := key + ("=" + rest);
    assert line[|key|] == '=';
    if |key| > 6 {
      assert line[6] == key[6] && key[6] in key;
    }
    assert "export "[6] == ' ';
  }

  /** Loading a file of that one line into an environment without the key sets it
      exactly when the line fits the scanner and holds no NUL. */
  lemma QuotedLineLoadsIff(env: Env, key: string, value: string)
    requires PlainKey(key) && key !in env && '\n' !in key && '\n' !in value
    ensures LoadFile(env, Text(QuotedLine(key, value))) == (env[key := value], Loaded) <==>
            Bytes(QuotedLine(key, value)) < MAX_LINE && Settable(Definition(key, value))
  {
    var line := QuotedLine(key, value);
    OneLine(line);
    QuotedLineParses(key, value);
    assert Lines(line) == [line] + Lines("") == [line];
    LoadOneLine(env, line, Definition(key, value));
  }

  lemma LoadOneLine(env: Env, line: string, d: Definition)
    requires ParseLine(line) == Some(d) && d.key !in env
    ensures LoadLines(env, [line]) == (env[d.key := d.value], Loaded) <==>
            Bytes(line) < MAX_LINE && Settable(d)
  {
    if Bytes(line) >= MAX_LINE {
      TooLongStops(env, line);
    } else if !Settable(d) {
      RefusedStops(env, line, d);
    } else {
      OneLineTaken(env, line, d);
    }
  }

  lemma TooLongStops(env: Env, line: string)
    requires Bytes(line) >= MAX_LINE
    ensures LoadLines(env, [line]).1 == LineTooLong
  {
  }

  lemma RefusedStops(env: Env, line: string, d: Definition)
    requires Bytes(line) < MAX_LINE && ParseLine(line) == Some(d) && d.key !in env && !Settable(d)
    ensures LoadLines(env, [line]).1 == SetFailed
  {
  }

  lemma OneLineTaken(env: Env, line: string, d: Definition)
    requires Bytes(line) < MAX_LINE && ParseLine(line) == Some(d) && d.key !in env && Settable(d)
    ensures LoadLines(env, [line]) == (env[d.key := d.value], Loaded)
  {
    var lines := [line];
    assert lines[0] == line && lines[1..] == [];
    FirstTaken(env, lines, d);
    NoLines(env[d.key := d.value]);
  }

  lemma NoLines(env: Env)
    ensures LoadLines(env, []) == (env, Loaded)
  {
  }

  /** Taking the first line's definition. */
  lemma FirstTaken(env: Env, lines: seq<string>, d: Definition)
    requires lines != [] && Bytes(lines[0]) < MAX_LINE && ParseLine(lines[0]) == Some(d)
    requires d.key !in env && Settable(d)
    ensures LoadLines(env, lines) == LoadLines(env[d.key := d.value], lines[1..])
  {
  }

  lemma {:induction false} OneLine(line: string)
    requires '\n' !in line
    ensures FirstLine(line) == (line, "")
  {
    if line != "" {
      OneLine(line[1..]);
      assert line == [line[0]] + line[1..];
    }
  }

  // ---- What a line means ----

  /** A text falls into its lines. */
  lemma LinesJoin(line: string, rest: string)
    requires '\n' !in line
    ensures Lines(line + "\n" + rest) == [line] + Lines(rest)
    ensures line != "" ==> Lines(line) == [line]
  {
    FirstLineJoined(line, rest);
    if line != "" {
      OneLine(line);
      assert Lines("") == [];
    }
  }

  lemma {:induction false} FirstLineJoined(line: string, rest: string)
    requires '\n' !in line
    ensures FirstLine(line + "\n" + rest) == (line, rest)
  {
    var all := line + "\n" + rest;
    if line == "" {
      assert all[1..] == rest;
    } else {
      FirstLineJoined(line[1..], rest);
      assert all[1..] == line[1..] + "\n" + rest;
      assert line == [line[0]] + line[1..];
    }
  }

  /** White space around a line, a carriage return among it, means nothing. */
  lemma PaddedLine(left: string, line: string, right: string)
    requires AllSpace(left) && AllSpace(right) && Trimmed(line)
    ensures ParseLine(left + line + right) == ParseLine(line)
  {
    TrimPadded(left, line, right);
    ReturnIsSpace(left + line + right);
    ReturnIsSpace(line);
  }

  lemma ReturnIsSpace(line: string)
    ensures TrimSpace(DropReturn(line)) == TrimSpace(line)
  {
    if line != "" && line[|line| - 1] == '\r' {
      var left, right := TrimSplits(DropReturn(line));
      var trimmed := TrimSpace(DropReturn(line));
      assert line == left + trimmed + (right + "\r");
      TrimPadded(left, trimmed, right + "\r");
    }
  }

  /** Blank lines, comments and lines without an equals sign define nothing. */
  lemma NothingDefined(line: string)
    requires Trimmed(line) && (line == "" || line[0] == '#' || '=' !in line)
    ensures ParseLine(line) == None
  {
    ReturnIsSpace(line);
    if line != "" && line[0] != '#' && HasPrefix(line, "export ") {
      var rest := line[|"export "|..];
      assert forall c <- rest :: c in line;
    }
  }

  /** A key, with the word export in front of it or not, an equals sign and a value, with
      white space around any of them, define the key as the value without its quotes. Only a
      key that is itself the word export, with a blank behind it, is lost. */
  lemma DefinitionIs(exported: bool, key: string, a: string, b: string, value: string)
    requires PlainKey(key) && AllSpace(a) && AllSpace(b) && Trimmed(value) && value != ""
    ensures ParseLine((if exported then "export " else "") + (key + a + ("=" + (b + value))))
         == if !exported && key == "export" && HasPrefix(a, " ") then None else Some(Definition(key, Unquote(value)))
  {
    var definition := key + a + ("=" + (b + value));
    var line := (if exported then "export " else "") + definition;
    DefinitionIsPlain(exported, key, a, b, value, line);
    SpacedDefinition(key, a, b, value);
    if exported {
      assert HasPrefix(line, "export ") && line[|"export "|..] == definition;
    } else {
      assert line == definition;
      if key == "export" && HasPrefix(a, " ") {
        ExportIsNoKey(a, b + value, line);
      } else if HasPrefix(definition, "export ") {
        ExportPrefixed(key, a, b + value);
      }
    }
  }

  lemma DefinitionIsPlain(exported: bool, key: string, a: string, b: string, value: string, line: string)
    requires PlainKey(key) && Trimmed(value) && value != ""
    requires line == (if exported then "export " else "") + (key + a + ("=" + (b + value)))
    ensures line != "" && !HasPrefix(line, "#") && TrimSpace(DropReturn(line)) == line
  {
    var definition := key + a + ("=" + (b + value));
    assert definition == key + (a + ("=" + (b + value)));
    StartsPlain(exported, key, a + ("=" + (b + value)), line, definition);
    LastOf(line, value);
    assert Trimmed(line);
    ReturnIsSpace(line);
  }

  lemma ExportIsNoKey(a: string, rest: string, line: string)
    requires AllSpace(a) && HasPrefix(a, " ") && line == "export" + a + ("=" + rest)
    ensures HasPrefix(line, "export ") && ParseDefinition(line[|"export "|..]) == None
  {
    var left := line[|"export "|..];
    assert left == a[1..] + ("=" + rest);
    KeyIsFirst(a[1..], rest);
    assert left[..|a| - 1] == a[1..];
    BlankTrims(a[1..]);
  }

  lemma BlankTrims(s: string)
    requires AllSpace(s)
    ensures TrimSpace(s) == "" && '=' !in s
  {
    TrimPadded(s, "", "");
    assert s + "" + "" == s;
  }

  lemma LastOf(line: string, value: string)
    requires value != "" && Trimmed(value) && |value| <= |line| && line[|line| - |value|..] == value
    ensures line != "" && !IsSpace(line[|line| - 1])
  {
    assert line[|line| - 1] == value[|value| - 1];
  }

  lemma StartsPlain(exported: bool, key: string, rest: string, line: string, definition: string)
    requires PlainKey(key) && line == (if exported then "export " else "") + definition && definition == key + rest
    ensures line != "" && !IsSpace(line[0]) && line[0] != '#'
  {
    assert key[0] in key;
  }

  lemma SpacedDefinition(key: string, a: string, b: string, value: string)
    requires PlainKey(key) && AllSpace(a) && AllSpace(b) && Trimmed(value)
    ensures ParseDefinition(key + a + ("=" + (b + value))) == Some(Definition(key, Unquote(value)))
  {
    SpacesHoldNoEquals(key, a);
    KeyTrims(key, a);
    ValueTrims(b, value);
    DefinitionAt(key + a, b + value, key, value);
  }

  lemma KeyTrims(key: string, a: string)
    requires PlainKey(key) && AllSpace(a)
    ensures TrimSpace(key + a) == key
  {
    assert key[0] in key && key[|key| - 1] in key;
    TrimPadded("", key, a);
    assert "" + key + a == key + a;
  }

  lemma ValueTrims(b: string, value: string)
    requires AllSpace(b) && Trimmed(value)
    ensures TrimSpace(b + value) == value
  {
    TrimPadded(b, value, "");
    assert b + value + "" == b + value;
  }

  lemma SpacesHoldNoEquals(key: string, a: string)
    requires PlainKey(key) && AllSpace(a)
    ensures '=' !in key + a
  {
    assert forall c <- a :: IsSpace(c);
  }

  lemma DefinitionAt(name: string, rest: string, key: string, value: string)
    requires '=' !in name && name != "" && TrimSpace(name) == key != "" && TrimSpace(rest) == value
    ensures ParseDefinition(name + ("=" + rest)) == Some(Definition(key, Unquote(value)))
  {
    var line := name + ("=" + rest);
    KeyIsFirst(name, rest);
    assert line[..|name|] == name && line[|name| + 1..] == rest;
    ParsesAs(line, name, rest, key, value);
  }

  lemma ParsesAs(line: string, name: string, rest: string, key: string, value: string)
    requires name != "" && IndexOf(line, '=') == |name| && line[..|name|] == name && line[|name| + 1..] == rest
    requires TrimSpace(name) == key != "" && TrimSpace(rest) == value
    ensures ParseDefinition(line) == Some(Definition(key, Unquote(value)))
  {
  }

  lemma ExportPrefixed(key: string, a: string, rest: string)
    requires PlainKey(key) && AllSpace(a) && HasPrefix(key + a + ("=" + rest), "export ")
    ensures key == "export" && HasPrefix(a, " ")
  {
    var line := key + a + ("=" + rest);
    assert line[6] == ' ' && forall i :: 0 <= i < 6 ==> !IsSpace(line[i]) && line[i] != '=';
    assert forall i :: 0 <= i < |key| ==> line[i] in key;
    assert |key| <= 6;
    assert line[|key|] == (a + "=")[0];
    assert |key| == 6 && key == line[..6];
    assert "export "[..6] == "export";
    assert a != "" && a[0] == line[6];
  }

  /** One pair of matching quotes is taken off, of either kind; anything else stays. */
  lemma UnquoteIff(value: string, inner: string)
    ensures Unquote("\"" + inner + "\"") == inner && Unquote("'" + inner + "'") == inner
    ensures Unquote(value) != value ==> value == "\"" + Unquote(value) + "\"" || value == "'" + Unquote(value) + "'"
  {
    var double, single := "\"" + inner + "\"", "'" + inner + "'";
    assert double[1..|double| - 1] == inner && single[1..|single| - 1] == inner;
  }
}

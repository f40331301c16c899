/**
 The two shell quoters, against a reader of words as the POSIX Shell Command
 Language quotes them: escape character, single quotes and double quotes
 (sections 2.2.1 to 2.2.3).
*/
module ShellQuoting {
  import opened Options

  function ReplaceAll(s: string, c: char, sub: string): string {
    if s == "" then ""
    else (if s[0] == c then sub else [s[0]]) + ReplaceAll(s[1..], c, sub)
  }

  /** Closes the quotes, adds an escaped quote, and opens them again. */
  const ESCAPED_QUOTE := "'\\''"
  /** Closes the quotes, adds a double-quoted quote, and opens them again. */
  const DOUBLE_QUOTED_QUOTE := "'\"'\"'"

  function ShellQuote(s: string): string {
    if s == "" then "''" else "'" + ReplaceAll(s, '\'', ESCAPED_QUOTE) + "'"
  }

  function ShellQuoteForEnv(s: string): string {
    "'" + ReplaceAll(s, '\'', DOUBLE_QUOTED_QUOTE) + "'"
  }

  datatype Quoter = ForShell | ForEnv

  function Quoted(s: string, quoter: Quoter): string {
    match quoter
    case ForShell => ShellQuote(s)
    case ForEnv => ShellQuoteForEnv(s)
  }

  function Replacement(quoter: Quoter): string {
    match quoter
    case ForShell => ESCAPED_QUOTE
    case ForEnv => DOUBLE_QUOTED_QUOTE
  }

  // ---- Reading one word ----

  datatype Mode = Unquoted | InSingle | InDouble

  predicate Blank(c: char) {
    c == ' ' || c == '\t'
  }

  /** Characters that end a word when they are not quoted. */
  predicate Delimiter(c: char) {
    Blank(c) || c in "\n|&;<>()"
  }

  /** Characters that may mean something other than themselves when they are not
      quoted. */
  predicate Special(c: char) {
    c in "$`*?[#~%!{}"
  }

  /** Puts a literal character in front of a word. */
  function Literal(c: char, r: Option<(string, string)>): Option<(string, string)> {
    match r
    case None => None
    case Some((word, rest)) => Some(([c] + word, rest))
  }

  /** The word the input starts with, and what follows it. None where a quote is
      not closed or an expansion would take place. */
  function ReadWord(input: string, mode: Mode): (r: Option<(string, string)>)
    ensures r.Some? ==> |r.value.1| <= |input|
  {
    match mode
    case Unquoted =>
      if input == "" || Delimiter(input[0]) then Some(("", input))
      else if input[0] == '\\' then
        if |input| == 1 then None
        else if input[1] == '\n' then ReadWord(input[2..], Unquoted)
        else Literal(input[1], ReadWord(input[2..], Unquoted))
      else if input[0] == '\'' then ReadWord(input[1..], InSingle)
      else if input[0] == '"' then ReadWord(input[1..], InDouble)
      else if Special(input[0]) then None
      else Literal(input[0], ReadWord(input[1..], Unquoted))
    case InSingle =>
      if input == "" then None
      else if input[0] == '\'' then ReadWord(input[1..], Unquoted)
      else Literal(input[0], ReadWord(input[1..], InSingle))
    case InDouble =>
      if input == "" then None
      else if input[0] == '"' then ReadWord(input[1..], Unquoted)
      else if input[0] == '$' || input[0] == '`' then None
      else if input[0] == '\\' && |input| > 1 && input[1] in "$`\"\\" then
        Literal(input[1], ReadWord(input[2..], InDouble))
      else if input[0] == '\\' && |input| > 1 && input[1] == '\n' then ReadWord(input[2..], InDouble)
      else Literal(input[0], ReadWord(input[1..], InDouble))
  }

  predicate EndsWord(rest: string) {
    rest == "" || Delimiter(rest[0])
  }

  function Prepend(s: string, r: Option<(string, string)>): Option<(string, string)> {
    match r
    case None => None
    case Some((word, rest)) => Some((s + word, rest))
  }

  // ---- One character at a time ----

  lemma SingleQuoteToggles(tail: string)
    ensures ReadWord("'" + tail, InSingle) == ReadWord(tail, Unquoted)
    ensures ReadWord("'" + tail, Unquoted) == ReadWord(tail, InSingle)
  {
    assert ("'" + tail)[1..] == tail;
  }

  lemma SingleQuotedReads(c: char, tail: string)
    requires c != '\''
    ensures ReadWord([c] + tail, InSingle) == Literal(c, ReadWord(tail, InSingle))
  {
    assert ([c] + tail)[1..] == tail;
  }

  lemma EscapedReads(tail: string)
    ensures ReadWord("\\'" + tail, Unquoted) == Literal('\'', ReadWord(tail, Unquoted))
  {
    assert ("\\'" + tail)[2..] == tail;
  }

  lemma DoubleQuoteToggles(tail: string)
    ensures ReadWord("\"" + tail, InDouble) == ReadWord(tail, Unquoted)
    ensures ReadWord("\"" + tail, Unquoted) == ReadWord(tail, InDouble)
  {
    assert ("\"" + tail)[1..] == tail;
  }

  lemma DoubleQuotedReads(tail: string)
    ensures ReadWord("'" + tail, InDouble) == Literal('\'', ReadWord(tail, InDouble))
  {
    assert ("'" + tail)[1..] == tail;
  }

  // ---- What the quoters write ----

  /** Either replacement reads as a quote and stays inside single quotes. */
  lemma ReplacementReads(quoter: Quoter, tail: string)
    ensures ReadWord(Replacement(quoter) + tail, InSingle) == Literal('\'', ReadWord(tail, InSingle))
  {
    var reopened := "'" + tail;
    SingleQuoteToggles(tail);
    match quoter {
      case ForShell =>
        assert Replacement(quoter) + tail == "'" + ("\\'" + reopened);
        SingleQuoteToggles("\\'" + reopened);
        EscapedReads(reopened);
      case ForEnv =>
        var closing := "\"" + reopened;
        assert Replacement(quoter) + tail == "'" + ("\"" + ("'" + closing));
        SingleQuoteToggles("\"" + ("'" + closing));
        DoubleQuoteToggles("'" + closing);
        DoubleQuotedReads(closing);
        DoubleQuoteToggles(reopened);
    }
  }

  /** Inside single quotes the replaced text reads back as the original. */
  lemma {:induction false} ReplacedReadsBack(s: string, quoter: Quoter, rest: string)
    ensures ReadWord(ReplaceAll(s, '\'', Replacement(quoter)) + ("'" + rest), InSingle)
         == Prepend(s, ReadWord(rest, Unquoted))
  {
    if s == "" {
      SingleQuoteToggles(rest);
      assert ReplaceAll(s, '\'', Replacement(quoter)) + ("'" + rest) == "'" + rest;
      PrependNothing(ReadWord(rest, Unquoted));
    } else {
      ReplacedReadsBack(s[1..], quoter, rest);
      PrependSplits(s, ReadWord(rest, Unquoted));
      FirstReplacedReads(s, quoter, "'" + rest);
    }
  }

  lemma FirstReplacedReads(s: string, quoter: Quoter, rest: string)
    requires s != ""
    ensures ReadWord(ReplaceAll(s, '\'', Replacement(quoter)) + rest, InSingle)
         == Literal(s[0], ReadWord(ReplaceAll(s[1..], '\'', Replacement(quoter)) + rest, InSingle))
  {
    var tail := ReplaceAll(s[1..], '\'', Replacement(quoter)) + rest;
    if s[0] == '\'' {
      assert ReplaceAll(s, '\'', Replacement(quoter)) + rest == Replacement(quoter) + tail;
      ReplacementReads(quoter, tail);
    } else {
      assert ReplaceAll(s, '\'', Replacement(quoter)) + rest == [s[0]] + tail;
      SingleQuotedReads(s[0], tail);
    }
  }

  lemma PrependNothing(r: Option<(string, string)>)
    ensures Prepend("", r) == r
  {
    if r.Some? {
      assert "" + r.value.0 == r.value.0;
    }
  }

  lemma PrependSplits(s: string, r: Option<(string, string)>)
    requires s != ""
    ensures Prepend(s, r) == Literal(s[0], Prepend(s[1..], r))
  {
    if r.Some? {
      assert s + r.value.0 == [s[0]] + (s[1..] + r.value.0);
    }
  }

  lemma EmptyWord(rest: string)
    requires EndsWord(rest)
    ensures ReadWord(rest, Unquoted) == Some(("", rest))
  {
  }

  /** The quoted text reads back as one word equal to the original, and the reader
      stops right after it. */
  lemma QuotedReadsBack(s: string, quoter: Quoter, rest: string)
    requires EndsWord(rest)
    ensures ReadWord(Quoted(s, quoter) + rest, Unquoted) == Some((s, rest))
  {
    var replaced := ReplaceAll(s, '\'', Replacement(quoter));
    assert Quoted(s, quoter) == "'" + replaced + "'";
    assert "'" + replaced + "'" + rest == "'" + (replaced + ("'" + rest));
    SingleQuoteToggles(replaced + ("'" + rest));
    ReplacedReadsBack(s, quoter, rest);
    EmptyWord(rest);
    assert s + "" == s;
  }

  // ---- Reading a command line ----

  /** The words of a line of words separated by blanks. */
  function ReadWords(input: string): Option<seq<string>>
    decreases |input|
  {
    if input == "" then Some([])
    else if Blank(input[0]) then ReadWords(input[1..])
    else
      var first := ReadWord(input, Unquoted);
      if first.None? || |first.value.1| >= |input| then None
      else
        var others := ReadWords(first.value.1);
        if others.None? then None else Some([first.value.0] + others.value)
  }

  /** A word as the programs print it: plain text, quoted text, or one after the other. */
  datatype Word = Word(plain: string, quoted: Option<string>, quoter: Quoter)

  /** Text that needs no quoting. */
  predicate PlainText(s: string) {
    forall c <- s :: !Delimiter(c) && !Special(c) && c !in "\\'\""
  }

  predicate Printable(word: Word) {
    PlainText(word.plain) && (word.plain != "" || word.quoted.Some?)
  }

  function Printed(word: Word): string {
    word.plain + match word.quoted case None => "" case Some(s) => Quoted(s, word.quoter)
  }

  /** What the word stands for. */
  function Meant(word: Word): string {
    word.plain + match word.quoted case None => "" case Some(s) => s
  }

  function PrintedLine(words: seq<Word>): string {
    if words == [] then ""
    else Printed(words[0]) + if |words| == 1 then "" else " " + PrintedLine(words[1..])
  }

  function AllMeant(words: seq<Word>): (texts: seq<string>)
    ensures |texts| == |words| && forall i :: 0 <= i < |words| ==> texts[i] == Meant(words[i])
  {
    seq(|words|, i requires 0 <= i < |words| => Meant(words[i]))
  }

  lemma {:induction false} PlainTextReads(s: string, rest: string)
    requires PlainText(s)
    ensures ReadWord(s + rest, Unquoted) == Prepend(s, ReadWord(rest, Unquoted))
  {
    if s == "" {
      assert s + rest == rest;
      PrependNothing(ReadWord(rest, Unquoted));
    } else {
      PlainTextReads(s[1..], rest);
      PrependSplits(s, ReadWord(rest, Unquoted));
      assert s + rest == [s[0]] + (s[1..] + rest);
      PlainCharReads(s[0], s[1..] + rest);
    }
  }

  lemma PlainCharReads(c: char, tail: string)
    requires !Delimiter(c) && !Special(c) && c !in "\\'\""
    ensures ReadWord([c] + tail, Unquoted) == Literal(c, ReadWord(tail, Unquoted))
  {
    assert ([c] + tail)[1..] == tail;
  }

  lemma PrintedReadsBack(word: Word, rest: string)
    requires Printable(word) && EndsWord(rest)
    ensures ReadWord(Printed(word) + rest, Unquoted) == Some((Meant(word), rest))
  {
    match word.quoted {
      case None =>
        PlainTextReads(word.plain, rest);
        EmptyWord(rest);
        NothingFollows(word.plain);
      case Some(s) =>
        PlainTextReads(word.plain, Quoted(s, word.quoter) + rest);
        QuotedReadsBack(s, word.quoter, rest);
        assert Printed(word) + rest == word.plain + (Quoted(s, word.quoter) + rest);
    }
  }

  /** A line of printed words reads back as exactly what they stand for. */
  lemma {:induction false} PrintedLineReadsBack(words: seq<Word>)
    requires forall word <- words :: Printable(word)
    ensures ReadWords(PrintedLine(words)) == Some(AllMeant(words))
  {
    if words != [] {
      var rest := if |words| == 1 then "" else " " + PrintedLine(words[1..]);
      PrintedLineReadsBack(words[1..]);
      if |words| > 1 {
        BlankSkipped(PrintedLine(words[1..]));
      }
      assert ReadWords(rest) == Some(AllMeant(words[1..]));
      FirstWordReadsBack(words[0], rest);
      assert [Meant(words[0])] + AllMeant(words[1..]) == AllMeant(words);
    }
  }

  lemma BlankSkipped(line: string)
    ensures ReadWords(" " + line) == ReadWords(line)
  {
    assert (" " + line)[1..] == line;
  }

  lemma QuotedIsNotEmpty(s: string, quoter: Quoter)
    ensures Quoted(s, quoter) != "" && Quoted(s, quoter)[0] == '\''
  {
  }

  lemma FirstWordReadsBack(word: Word, rest: string)
    requires Printable(word) && EndsWord(rest) && ReadWords(rest).Some?
    ensures ReadWords(Printed(word) + rest) == Some([Meant(word)] + ReadWords(rest).value)
  {
    var input := Printed(word) + rest;
    StartsNoBlank(word);
    assert input[0] == Printed(word)[0] && |rest| < |input|;
    PrintedReadsBack(word, rest);
  }

  lemma StartsNoBlank(word: Word)
    requires Printable(word)
    ensures Printed(word) != "" && !Blank(Printed(word)[0])
  {
    if word.plain == "" {
      QuotedIsNotEmpty(word.quoted.value, word.quoter);
    } else {
      assert Printed(word)[0] == word.plain[0] && word.plain[0] in word.plain;
    }
  }

  function PlainWord(text: string): Word {
    Word(text, None, ForShell)
  }

  // ---- Lines the programs print ----

  function PlainWords(texts: seq<string>): (words: seq<Word>)
    ensures |words| == |texts| && forall i :: 0 <= i < |words| ==> words[i] == PlainWord(texts[i])
  {
    seq(|texts|, i requires 0 <= i < |texts| => PlainWord(texts[i]))
  }

  predicate SafeChar(c: char) {
    'a' <= c <= 'z' || 'A' <= c <= 'Z' || '0' <= c <= '9' || c == '-' || c == '=' || c == '_'
  }

  predicate SafeText(s: string) {
    s != "" && forall i :: 0 <= i < |s| ==> SafeChar(s[i])
  }

  lemma SafeIsPlain(s: string)
    requires SafeText(s)
    ensures PlainText(s) && Printable(PlainWord(s))
  {
    forall c <- s ensures !Delimiter(c) && !Special(c) && c !in "\\'\"" {
      SafeCharIsPlain(c);
    }
  }

  lemma SafeCharIsPlain(c: char)
    requires SafeChar(c)
    ensures !Delimiter(c) && !Special(c) && c !in "\\'\""
  {
  }

  lemma MeantJoins(a: seq<Word>, b: seq<Word>)
    ensures AllMeant(a + b) == AllMeant(a) + AllMeant(b)
  {
    forall i | 0 <= i < |a + b| ensures AllMeant(a + b)[i] == (AllMeant(a) + AllMeant(b))[i] {
      assert (a + b)[i] == if i < |a| then a[i] else b[i - |a|];
    }
  }

  lemma PlainWordsMean(texts: seq<string>)
    ensures AllMeant(PlainWords(texts)) == texts
  {
    forall i | 0 <= i < |texts| ensures AllMeant(PlainWords(texts))[i] == texts[i] {
      assert texts[i] + "" == texts[i];
    }
  }

  /** A word among plain ones. */
  lemma AmongPlainReadsBack(before: seq<string>, word: Word, after: seq<string>)
    requires Printable(word)
    requires forall text <- before + after :: SafeText(text)
    ensures ReadWords(PrintedLine(PlainWords(before) + [word] + PlainWords(after)))
         == Some(before + [Meant(word)] + after)
  {
    var words := PlainWords(before) + [word] + PlainWords(after);
    forall w <- words ensures Printable(w) {
      var i :| 0 <= i < |words| && words[i] == w;
      if i < |before| {
        assert before[i] in before + after;
        SafeIsPlain(before[i]);
      } else if i > |before| {
        assert after[i - |before| - 1] in before + after;
        SafeIsPlain(after[i - |before| - 1]);
      }
    }
    PrintedLineReadsBack(words);
    MeantJoins(PlainWords(before) + [word], PlainWords(after));
    MeantJoins(PlainWords(before), [word]);
    PlainWordsMean(before);
    PlainWordsMean(after);
    assert AllMeant([word]) == [Meant(word)];
  }

  /** export NAME=quoted value */
  function ExportLine(name: string, value: string): string {
    PrintedLine(PlainWords(["export"]) + [Word(name + "=", Some(value), ForEnv)] + PlainWords([]))
  }

  /** The line that tells a shell to export a setting reads back as the command and the
      assignment, whatever the value. */
  lemma ExportReadsBack(name: string, value: string)
    requires SafeText(name)
    ensures ReadWords(ExportLine(name, value)) == Some(["export"] + [name + "=" + value] + [])
  {
    assert SafeText("export") && SafeText(name + "=");
    SafeIsPlain(name + "=");
    AmongPlainReadsBack(["export"], Word(name + "=", Some(value), ForEnv), []);
  }

  const SSH_OPTIONS := ["-o", "IdentitiesOnly=yes", "-o", "BatchMode=yes", "-o", "StrictHostKeyChecking=accept-new"]

  /** ssh -i quoted path, and the options */
  function GitSshCommand(path: string): string {
    PrintedLine(PlainWords(["ssh", "-i"]) + [Word("", Some(path), ForShell)] + PlainWords(SSH_OPTIONS))
  }

  const IDENTITIES_ONLY := "-o IdentitiesOnly=yes"
  const BATCH_MODE := "-o BatchMode=yes"
  const ACCEPT_NEW := "-o StrictHostKeyChecking=accept-new"
  const OPTIONS_TEXT := IDENTITIES_ONLY + " " + (BATCH_MODE + " " + ACCEPT_NEW)

  /** The two texts as the programs put them together. */
  lemma ExportText(name: string, value: string)
    ensures ExportLine(name, value) == "export " + (name + "=" + ShellQuoteForEnv(value))
  {
    var setting := Word(name + "=", Some(value), ForEnv);
    assert PlainWords(["export"]) + [setting] + PlainWords([]) == [PlainWord("export")] + [setting];
    PrintedJoins([PlainWord("export")], [setting]);
    assert "export" + "" == "export";
  }

  lemma GitSshText(path: string)
    ensures GitSshCommand(path) == "ssh -i" + " " + ShellQuote(path) + " " + OPTIONS_TEXT
  {
    var key := Word("", Some(path), ForShell);
    PairText("ssh", "-i");
    assert "ssh" + " " + "-i" == "ssh -i";
    OptionsText();
    assert "" + ShellQuote(path) == ShellQuote(path);
    WordBetween(PlainWords(["ssh", "-i"]), key, PlainWords(SSH_OPTIONS));
  }

  lemma {:induction false} PrintedJoins(a: seq<Word>, b: seq<Word>)
    requires a != [] && b != []
    ensures PrintedLine(a + b) == PrintedLine(a) + " " + PrintedLine(b)
  {
    assert (a + b)[1..] == a[1..] + b;
    if |a| > 1 {
      PrintedJoins(a[1..], b);
    } else {
      assert a[1..] + b == b;
    }
  }

  lemma WordBetween(before: seq<Word>, word: Word, after: seq<Word>)
    requires before != [] && after != []
    ensures PrintedLine(before + [word] + after)
         == PrintedLine(before) + " " + Printed(word) + " " + PrintedLine(after)
  {
    PrintedJoins(before, [word]);
    PrintedJoins(before + [word], after);
  }

  /** Two plain words. */
  lemma PairText(a: string, b: string)
    ensures PrintedLine(PlainWords([a, b])) == a + " " + b
  {
    assert PlainWords([a, b])[1..] == [PlainWord(b)];
    assert a + "" == a && b + "" == b;
  }

  lemma OptionsText()
    ensures PrintedLine(PlainWords(SSH_OPTIONS)) == OPTIONS_TEXT
  {
    IdentitiesText();
    BatchText();
    AcceptText();
    PairsText("-o", "IdentitiesOnly=yes", "BatchMode=yes", "StrictHostKeyChecking=accept-new", SSH_OPTIONS);
  }

  lemma IdentitiesText()
    ensures "-o" + " " + "IdentitiesOnly=yes" == IDENTITIES_ONLY
  {
  }

  lemma BatchText()
    ensures "-o" + " " + "BatchMode=yes" == BATCH_MODE
  {
  }

  lemma AcceptText()
    ensures "-o" + " " + "StrictHostKeyChecking=accept-new" == ACCEPT_NEW
  {
  }

  /** Three options under one flag. */
  lemma PairsText(flag: string, a: string, b: string, c: string, texts: seq<string>)
    requires texts == [flag, a, flag, b, flag, c]
    ensures PrintedLine(PlainWords(texts)) == flag + " " + a + " " + (flag + " " + b + " " + (flag + " " + c))
  {
    PairText(flag, a);
    PairText(flag, b);
    PairText(flag, c);
    var second, third := PlainWords([flag, b]), PlainWords([flag, c]);
    assert PlainWords(texts) == PlainWords([flag, a]) + (second + third);
    PrintedJoins(second, third);
    PrintedJoins(PlainWords([flag, a]), second + third);
  }

  /** The command git is given runs ssh with the key at exactly that path and the
      options after it, whatever the path. */
  lemma GitSshCommandReadsBack(path: string)
    ensures ReadWords(GitSshCommand(path)) == Some(["ssh", "-i"] + [path] + SSH_OPTIONS)
  {
    CommandIsSafe();
    AmongPlainReadsBack(["ssh", "-i"], Word("", Some(path), ForShell), SSH_OPTIONS);
    assert "" + path == path;
  }

  lemma CommandIsSafe()
    ensures forall text <- ["ssh", "-i"] + SSH_OPTIONS :: SafeText(text)
  {
    ShortTextsAreSafe();
    LongTextsAreSafe();
  }

  lemma ShortTextsAreSafe()
    ensures SafeText("ssh") && SafeText("-i") && SafeText("-o")
  {
  }

  lemma LongTextsAreSafe()
    ensures SafeText("IdentitiesOnly=yes") && SafeText("BatchMode=yes")
    ensures SafeText("StrictHostKeyChecking=accept-new")
  {
  }

  /** So the two quoters denote the same word, and no two texts are quoted alike. */
  lemma QuotersAgree(s: string, t: string)
    ensures ReadWord(ShellQuote(s), Unquoted) == ReadWord(ShellQuoteForEnv(s), Unquoted) == Some((s, ""))
    ensures ShellQuote(s) == ShellQuote(t) || ShellQuoteForEnv(s) == ShellQuoteForEnv(t) ==> s == t
  {
    QuotedReadsBack(s, ForShell, "");
    QuotedReadsBack(t, ForShell, "");
    QuotedReadsBack(s, ForEnv, "");
    QuotedReadsBack(t, ForEnv, "");
    NothingFollows(ShellQuote(s));
    NothingFollows(ShellQuote(t));
    NothingFollows(ShellQuoteForEnv(s));
    NothingFollows(ShellQuoteForEnv(t));
  }

  lemma NothingFollows(s: string)
    ensures s + "" == s
  {
  }
}

/** lang.json.JSONCLI, the interactive shell: it reads one command per line,
    keeps the last parsed document with a full and a shallow property
    calculator, and prints to the console or writes files. */
module InteractiveCli {

  import opened Wrappers
  import opened JsonAst
  import opened Strings
  import opened IndentPrinting
  import opened JsonPrinter
  import opened PropertyCalculators
  import opened Reports

  // ---------------------------------------------------------------------
  // Commands

  const HelpFormat: seq<string> := ["-h"]
  const ParseFormat: seq<string> := ["parse"]
  const ParseFileFormat: seq<string> := ["parse", "-f"]
  const PrintFormat: seq<string> := ["print"]
  const PrintToFileFormat: seq<string> := ["print", "-f"]
  const PropertiesAllFormat: seq<string> := ["properties", "-a"]
  const PropertiesAllCountFormat: seq<string> := ["properties", "-a", "-c"]
  const PropertiesTopLevelFormat: seq<string> := ["properties", "-tl"]
  const QuitFormat: seq<string> := ["-q"]

  /** The words of an input line: Java's split on " ". */
  function Tokens(input: string): seq<string>
  {
    JavaSplit(input, ' ')
  }

  /** hasFormat: the format's tokens are the leading tokens of the input;
      more tokens may follow. */
  predicate Matches(input: string, format: seq<string>)
  {
    |format| <= |Tokens(input)| && Tokens(input)[..|format|] == format
  }

  /** hasFormat's loop: stop at the first format token that the input does
      not have or does not match. */
  method HasFormat(input: string, format: seq<string>) returns (r: bool)
    ensures r <==> Matches(input, format)
  {
    var tmp := Tokens(input);
    var i := 0;
    while i < |format|
      invariant 0 <= i <= |format|
      invariant i <= |tmp| && tmp[..i] == format[..i]
    {
      if |tmp| <= i || format[i] != tmp[i] {
        return false;
      }
      assert tmp[..i + 1] == tmp[..i] + [tmp[i]];
      assert format[..i + 1] == format[..i] + [format[i]];
      i := i + 1;
    }
    assert format[..i] == format;
    return true;
  }

  /** What one input line asks for. A command whose payload the line does
      not hold is PayloadMissing: the source indexes past the end of the
      split array there and the shell ends with an exception. */
  datatype Command =
    | NoCommand
    | ShowHelp
    | ParseFileCommand(path: string)
    | ParseStringCommand(json: string)
    | PrintToFileCommand(file: string)
    | PrintToConsole
    | CountedProperties
    | AllProperties
    | TopLevelProperties
    | Quit
    | PayloadMissing

  function ParseFileOf(path: Option<string>): Command
  {
    if path.Some? then ParseFileCommand(path.value) else PayloadMissing
  }

  function ParseStringOf(json: Option<string>): Command
  {
    if json.Some? then ParseStringCommand(json.value) else PayloadMissing
  }

  function PrintToFileOf(file: Option<string>): Command
  {
    if file.Some? then PrintToFileCommand(file.value) else PayloadMissing
  }

  /** The dispatch of handleArgs, in the source's order. */
  function CommandOf(input: string): Command
  {
    if input == "" then NoCommand
    else if Matches(input, HelpFormat) then ShowHelp
    else if Matches(input, ParseFileFormat) then ParseFileOf(AfterOccurrence(input, ' ', 2))
    else if Matches(input, ParseFormat) then ParseStringOf(AfterOccurrence(input, ' ', 1))
    else if Matches(input, PrintToFileFormat) then PrintToFileOf(AfterOccurrence(input, ' ', 2))
    else if Matches(input, PrintFormat) then PrintToConsole
    else if Matches(input, PropertiesAllCountFormat) then CountedProperties
    else if Matches(input, PropertiesAllFormat) then AllProperties
    else if Matches(input, PropertiesTopLevelFormat) then TopLevelProperties
    else if Matches(input, QuitFormat) then Quit
    else ShowHelp
  }

  /** The if-chain of handleArgs, one hasFormat call after another. */
  method Dispatch(input: string) returns (cmd: Command)
    ensures cmd == CommandOf(input)
  {
    var m: bool;
    if input == "" { return NoCommand; }
    m := HasFormat(input, HelpFormat);
    if m { return ShowHelp; }
    m := HasFormat(input, ParseFileFormat);
    if m { return ParseFileOf(AfterOccurrence(input, ' ', 2)); }
    m := HasFormat(input, ParseFormat);
    if m { return ParseStringOf(AfterOccurrence(input, ' ', 1)); }
    m := HasFormat(input, PrintToFileFormat);
    if m { return PrintToFileOf(AfterOccurrence(input, ' ', 2)); }
    m := HasFormat(input, PrintFormat);
    if m { return PrintToConsole; }
    m := HasFormat(input, PropertiesAllCountFormat);
    if m { return CountedProperties; }
    m := HasFormat(input, PropertiesAllFormat);
    if m { return AllProperties; }
    m := HasFormat(input, PropertiesTopLevelFormat);
    if m { return TopLevelProperties; }
    m := HasFormat(input, QuitFormat);
    if m { return Quit; }
    return ShowHelp;
  }

  // ---------------------------------------------------------------------
  // Properties of the dispatch

  /** hasFormat in terms of the tokens: every format token equals the
      input's token at the same place, and extra input tokens are allowed. */
  lemma MatchesTokenwise(input: string, format: seq<string>)
    ensures Matches(input, format) <==>
      |format| <= |Tokens(input)| && forall i :: 0 <= i < |format| ==> format[i] == Tokens(input)[i]
  {
    if |format| <= |Tokens(input)| && forall i :: 0 <= i < |format| ==> format[i] == Tokens(input)[i] {
      assert Tokens(input)[..|format|] == format;
    }
  }

  /** A line that matches a format matches each of its prefixes. */
  lemma MatchesPrefix(input: string, f: seq<string>, g: seq<string>)
    requires Matches(input, f + g)
    ensures Matches(input, f)
  {
    assert Tokens(input)[..|f|] == (Tokens(input)[..|f + g|])[..|f|];
    assert (f + g)[..|f|] == f;
  }

  /** Formats with different first tokens never both match a line. */
  lemma Excludes(input: string, f: seq<string>, g: seq<string>)
    requires f != [] && g != [] && f[0] != g[0] && Matches(input, f)
    ensures !Matches(input, g)
  {
    assert Tokens(input)[0] == Tokens(input)[..|f|][0] == f[0];
  }

  /** The empty line matches no format: it splits into one empty token. */
  lemma EmptyMatchesNothing(format: seq<string>)
    requires format != [] && format[0] != ""
    ensures !Matches("", format)
  {
    assert Tokens("") == [""];
  }

  /** The tokens of a word without spaces, a space and the rest: that word,
      then the tokens of the rest. */
  lemma TokensAfterWord(w: string, rest: string)
    requires w != "" && ' ' !in w
    ensures Tokens(w + [' '] + rest) == [w] + DropTrailingEmpty(Split(rest, ' '))
  {
    var s := w + [' '] + rest;
    assert ' ' in s by { assert s[|w|] == ' '; }
    SplitFirstPiece(w, rest, ' ');
    DropTrailingEmptyCons(w, Split(rest, ' '));
  }

  /** A non-empty first element is never dropped. */
  lemma {:induction false} DropTrailingEmptyCons(w: string, xs: seq<string>)
    requires w != ""
    ensures DropTrailingEmpty([w] + xs) == [w] + DropTrailingEmpty(xs)
    decreases |xs|
  {
    if xs != [] && xs[|xs| - 1] == "" {
      assert ([w] + xs)[..|xs|] == [w] + xs[..|xs| - 1];
      DropTrailingEmptyCons(w, xs[..|xs| - 1]);
    }
  }

  /** Skipping a part without `c` and one `c` uses up one occurrence. */
  lemma {:induction false} AfterOccurrenceSkips(a: string, c: char, b: string, k: nat)
    requires c !in a
    ensures AfterOccurrence(a + [c] + b, c, k + 1) == AfterOccurrence(b, c, k)
    decreases |a|
  {
    var s := a + [c] + b;
    if a == [] {
      assert s[0] == c && s[1..] == b;
    } else {
      assert s[0] == a[0] && s[1..] == a[1..] + [c] + b;
      AfterOccurrenceSkips(a[1..], c, b, k);
    }
  }

  /** Without `c` there is no element after an occurrence of it. */
  lemma {:induction false} AfterOccurrenceAbsent(s: string, c: char, k: nat)
    requires c !in s
    ensures AfterOccurrence(s, c, k + 1) == None
    decreases |s|
  {
    if s != [] {
      AfterOccurrenceAbsent(s[1..], c, k);
    }
  }

  /** An empty line is no command. */
  lemma EmptyLineDoesNothing()
    ensures CommandOf("") == NoCommand
  {
  }

  /** "parse -f" is tried before "parse": a line that matches it gets the
      file command with the text after the second space. */
  lemma ParseFileFirst(input: string)
    requires Matches(input, ParseFileFormat)
    ensures CommandOf(input) == ParseFileOf(AfterOccurrence(input, ' ', 2))
  {
    EmptyMatchesNothing(ParseFileFormat);
    Excludes(input, ParseFileFormat, HelpFormat);
  }

  /** "print -f" is tried before "print". */
  lemma PrintToFileFirst(input: string)
    requires Matches(input, PrintToFileFormat)
    ensures CommandOf(input) == PrintToFileOf(AfterOccurrence(input, ' ', 2))
  {
    EmptyMatchesNothing(PrintToFileFormat);
    Excludes(input, PrintToFileFormat, HelpFormat);
    Excludes(input, PrintToFileFormat, ParseFileFormat);
    Excludes(input, PrintToFileFormat, ParseFormat);
  }

  /** "properties -a -c" is tried before "properties -a". */
  lemma CountedFirst(input: string)
    requires Matches(input, PropertiesAllCountFormat)
    ensures CommandOf(input) == CountedProperties
  {
    EmptyMatchesNothing(PropertiesAllCountFormat);
    Excludes(input, PropertiesAllCountFormat, HelpFormat);
    Excludes(input, PropertiesAllCountFormat, ParseFileFormat);
    Excludes(input, PropertiesAllCountFormat, ParseFormat);
    Excludes(input, PropertiesAllCountFormat, PrintToFileFormat);
    Excludes(input, PropertiesAllCountFormat, PrintFormat);
  }

  /** Only a line whose first token is "-q" ends the loop normally. */
  lemma OnlyQuitQuits(input: string)
    ensures CommandOf(input) == Quit <==> Matches(input, QuitFormat)
  {
    if Matches(input, QuitFormat) {
      EmptyMatchesNothing(QuitFormat);
      Excludes(input, QuitFormat, HelpFormat);
      Excludes(input, QuitFormat, ParseFileFormat);
      Excludes(input, QuitFormat, ParseFormat);
      Excludes(input, QuitFormat, PrintToFileFormat);
      Excludes(input, QuitFormat, PrintFormat);
      Excludes(input, QuitFormat, PropertiesAllCountFormat);
      Excludes(input, QuitFormat, PropertiesAllFormat);
      Excludes(input, QuitFormat, PropertiesTopLevelFormat);
    }
  }

  /** A line whose first token names no command prints the help. */
  lemma UnknownLineShowsHelp(input: string)
    requires input != "" && |Tokens(input)| >= 1
    requires Tokens(input)[0] !in {"-h", "parse", "print", "properties", "-q"}
    ensures CommandOf(input) == ShowHelp
  {
  }

  /** "parse" and a space take the whole remainder as the JSON text,
      spaces included, unless the remainder starts with the "-f" token. */
  lemma ParseTakesRest(json: string)
    requires !Matches("parse" + [' '] + json, ParseFileFormat)
    ensures CommandOf("parse" + [' '] + json) == ParseStringCommand(json)
  {
    var input := "parse" + [' '] + json;
    TokensAfterWord("parse", json);
    AfterOccurrenceSkips("parse", ' ', json, 0);
    assert Tokens(input)[..1] == ParseFormat;
    ParsePayload(input, json);
  }

  lemma ParsePayload(input: string, json: string)
    requires Matches(input, ParseFormat) && !Matches(input, ParseFileFormat)
    requires AfterOccurrence(input, ' ', 1) == AfterOccurrence(json, ' ', 0)
    ensures CommandOf(input) == ParseStringCommand(json)
  {
    ParseDispatch(input);
  }

  /** A line with the "parse" format but not "parse -f" is a parse-string
      command with the text after the first space. */
  lemma ParseDispatch(input: string)
    requires Matches(input, ParseFormat) && !Matches(input, ParseFileFormat)
    ensures CommandOf(input) == ParseStringOf(AfterOccurrence(input, ' ', 1))
  {
    EmptyMatchesNothing(ParseFormat);
    Excludes(input, ParseFormat, HelpFormat);
  }

  /** A word, " -f " and a path: the tokens start with the word and "-f",
      and the path is everything after the second space. */
  lemma FileCommandPath(w: string, path: string)
    requires w != "" && ' ' !in w
    ensures Matches(w + [' '] + ("-f" + [' '] + path), [w, "-f"])
    ensures AfterOccurrence(w + [' '] + ("-f" + [' '] + path), ' ', 2) == Some(path)
  {
    FileCommandTokens(w, path);
    assert ' ' !in "-f";
    AfterTwoWords(w, "-f", path);
  }

  /** Everything after the second space of two words without spaces. */
  lemma AfterTwoWords(w: string, v: string, path: string)
    requires ' ' !in w && ' ' !in v
    ensures AfterOccurrence(w + [' '] + (v + [' '] + path), ' ', 2) == Some(path)
  {
    var rest := v + [' '] + path;
    calc {
      AfterOccurrence(w + [' '] + rest, ' ', 2);
    == { AfterOccurrenceSkips(w, ' ', rest, 1); }
      AfterOccurrence(rest, ' ', 1);
    == { AfterOccurrenceSkips(v, ' ', path, 0); }
      AfterOccurrence(path, ' ', 0);
    }
  }

  lemma FileCommandTokens(w: string, path: string)
    requires w != "" && ' ' !in w
    ensures Matches(w + [' '] + ("-f" + [' '] + path), [w, "-f"])
  {
    var rest := "-f" + [' '] + path;
    assert ' ' !in "-f";
    assert rest[2] == ' ';
    WordThenTokens(w, rest);
    TokensAfterWord("-f", path);
    var t := Tokens(w + [' '] + rest);
    assert t == [w] + (["-f"] + DropTrailingEmpty(Split(path, ' ')));
    assert t[..2] == [w, "-f"];
  }

  /** After a word and a space, the tokens are the word and then the tokens
      of the rest, when the rest has a space of its own. */
  lemma WordThenTokens(w: string, rest: string)
    requires w != "" && ' ' !in w && ' ' in rest
    ensures Tokens(w + [' '] + rest) == [w] + Tokens(rest)
  {
    TokensAfterWord(w, rest);
  }

  /** "parse -f " takes everything after the second space as the path. */
  lemma ParseFileTakesRest(path: string)
    ensures CommandOf("parse" + [' '] + ("-f" + [' '] + path)) == ParseFileCommand(path)
  {
    FileCommandPath("parse", path);
    ParseFileFirst("parse" + [' '] + ("-f" + [' '] + path));
  }

  /** "print -f " takes everything after the second space as the file. */
  lemma PrintToFileTakesRest(file: string)
    ensures CommandOf("print" + [' '] + ("-f" + [' '] + file)) == PrintToFileCommand(file)
  {
    FileCommandPath("print", file);
    PrintToFileFirst("print" + [' '] + ("-f" + [' '] + file));
  }

  /** A command without its payload is PayloadMissing, where the source
      indexes past the end of the split array. */
  lemma ParseWithoutText(input: string)
    requires ' ' !in input && Matches(input, ParseFormat)
    ensures CommandOf(input) == PayloadMissing
  {
    assert Tokens(input) == [input];
    ParseDispatch(input);
    AfterOccurrenceAbsent(input, ' ', 0);
  }

  lemma FileCommandsWithoutPath()
    ensures CommandOf("parse" + [' '] + "-f") == PayloadMissing
    ensures CommandOf("print" + [' '] + "-f") == PayloadMissing
  {
    FileCommandWithoutPath("parse");
    ParseFileFirst("parse" + [' '] + "-f");
    FileCommandWithoutPath("print");
    PrintToFileFirst("print" + [' '] + "-f");
  }

  lemma FileCommandWithoutPath(w: string)
    requires w != "" && ' ' !in w
    ensures Matches(w + [' '] + "-f", [w, "-f"])
    ensures AfterOccurrence(w + [' '] + "-f", ' ', 2) == None
  {
    TokensAfterWord(w, "-f");
    SplitWithoutSeparator("-f", ' ');
    AfterOccurrenceSkips(w, ' ', "-f", 1);
    AfterOccurrenceAbsent("-f", ' ', 0);
  }

  // ---------------------------------------------------------------------
  // The shell's state

  const Banner: string := "##### JSON command line tool #####"
  const Prompt: string := "> "
  const NoDocumentError: string := "Error: No JSON artifact available. First parse a valid JSON artifact."
  const FileNotFoundError: string := "Error: File not found."

  /** The help dialog; its text is not modelled. */
  const HelpText: string := "(help dialog)" + Newline

  /** What reading and parsing a file gives: a document, a parse failure
      (None), or an IOException. */
  datatype FileParse = FileParsed(doc: Option<Document>) | FileNotFound

  /** How the command loop ends. */
  datatype Ending =
    | Quitted
    | EndOfInput       // readLine gave null: the emptiness test throws
    | MissingPayload   // a command without its payload: the array index throws

  /** What one command leaves behind: the document, the files, and the
      text it adds to the console. */
  datatype Effect = Effect(doc: Option<Document>, files: map<string, string>, output: string)

  /** print: to the console when `file` is empty, into `file` otherwise. */
  function PrintEffect(doc: Option<Document>, files: map<string, string>, file: string): Effect
  {
    if doc.None? then Effect(doc, files, NoDocumentError + Newline)
    else if file == "" then Effect(doc, files, JsonText(doc.value.value) + Newline)
    else Effect(doc, files[file := JsonText(doc.value.value)], "")
  }

  /** One command's effect on the shell, from the document and files it
      finds. `order` is the iteration order of the counted map, which only
      `properties -a -c` reads. The two commands that end the loop change
      nothing. */
  function EffectOf(cmd: Command, doc: Option<Document>, files: map<string, string>,
                    parser: string -> Option<Document>, reader: string -> FileParse,
                    order: seq<string>): (e: Effect)
    ensures !cmd.ParseFileCommand? && !cmd.ParseStringCommand? ==> e.doc == doc
    ensures !cmd.PrintToFileCommand? ==> e.files == files
    ensures cmd.PrintToFileCommand? ==> e.files.Keys <= files.Keys + {cmd.file}
  {
    match cmd
    case NoCommand => Effect(doc, files, "")
    case Quit => Effect(doc, files, "")
    case PayloadMissing => Effect(doc, files, "")
    case ShowHelp => Effect(doc, files, HelpText)
    case ParseFileCommand(path) =>
      if reader(path).FileParsed? then Effect(reader(path).doc, files, "")
      else Effect(None, files, FileNotFoundError + Newline)
    case ParseStringCommand(json) => Effect(parser(json), files, "")
    case PrintToFileCommand(file) => PrintEffect(doc, files, file)
    case PrintToConsole => PrintEffect(doc, files, "")
    case CountedProperties =>
      if doc.None? then Effect(doc, files, NoDocumentError + Newline)
      else Effect(doc, files, Join(CountEntries(AllKeys(doc.value.value), order), ",") + Newline)
    case AllProperties =>
      if doc.None? then Effect(doc, files, NoDocumentError + Newline)
      else Effect(doc, files, Join(AllKeys(doc.value.value), ", ") + Newline)
    case TopLevelProperties =>
      if doc.None? then Effect(doc, files, NoDocumentError + Newline)
      else Effect(doc, files, Join(TopKeys(doc.value.value), ", ") + Newline)
  }

  /** The order the counted command reports in holds every key of the
      document once. */
  ghost predicate OrderFits(cmd: Command, doc: Option<Document>, order: seq<string>)
  {
    cmd.CountedProperties? && doc.Some? ==>
      NoDuplicates(order) && forall k :: k in order <==> k in AllKeys(doc.value.value)
  }

  /** A run of commands, each after a prompt: the last command's effect on
      what the ones before it left. */
  function Session(cmds: seq<Command>, orders: seq<seq<string>>, doc: Option<Document>,
                   files: map<string, string>, parser: string -> Option<Document>,
                   reader: string -> FileParse): (e: Effect)
    requires |orders| == |cmds|
    decreases |cmds|
  {
    if cmds == [] then Effect(doc, files, "")
    else
      var n := |cmds| - 1;
      var before := Session(cmds[..n], orders[..n], doc, files, parser, reader);
      var last := EffectOf(cmds[n], before.doc, before.files, parser, reader, orders[n]);
      Effect(last.doc, last.files, before.output + Prompt + last.output)
  }

  /** Every counted command of the run reports the keys of the document it
      finds. */
  ghost predicate OrdersFit(cmds: seq<Command>, orders: seq<seq<string>>, doc: Option<Document>,
                      files: map<string, string>, parser: string -> Option<Document>,
                      reader: string -> FileParse)
    requires |orders| == |cmds|
    decreases |cmds|
  {
    cmds == [] ||
      var n := |cmds| - 1;
      OrdersFit(cmds[..n], orders[..n], doc, files, parser, reader)
      && OrderFits(cmds[n], Session(cmds[..n], orders[..n], doc, files, parser, reader).doc, orders[n])
  }

  /** A session one command longer: that command's effect on what the
      shorter session left. */
  lemma SessionSnoc(cmds: seq<Command>, orders: seq<seq<string>>, cmd: Command, order: seq<string>,
                    doc: Option<Document>, files: map<string, string>,
                    parser: string -> Option<Document>, reader: string -> FileParse)
    requires |orders| == |cmds|
    ensures var before := Session(cmds, orders, doc, files, parser, reader);
      var last := EffectOf(cmd, before.doc, before.files, parser, reader, order);
      Session(cmds + [cmd], orders + [order], doc, files, parser, reader)
        == Effect(last.doc, last.files, before.output + Prompt + last.output)
    ensures OrdersFit(cmds + [cmd], orders + [order], doc, files, parser, reader) <==>
      OrdersFit(cmds, orders, doc, files, parser, reader)
      && OrderFits(cmd, Session(cmds, orders, doc, files, parser, reader).doc, order)
  {
    assert (cmds + [cmd])[..|cmds|] == cmds;
    assert (orders + [order])[..|cmds|] == orders;
  }

  /** A session split in two: the second part runs on what the first left,
      and the console shows both in turn. */
  lemma {:induction false} SessionAppend(a: seq<Command>, oa: seq<seq<string>>, b: seq<Command>, ob: seq<seq<string>>,
                                         doc: Option<Document>, files: map<string, string>,
                                         parser: string -> Option<Document>, reader: string -> FileParse)
    requires |oa| == |a| && |ob| == |b|
    ensures var s := Session(a, oa, doc, files, parser, reader);
      var t := Session(b, ob, s.doc, s.files, parser, reader);
      Session(a + b, oa + ob, doc, files, parser, reader) == Effect(t.doc, t.files, s.output + t.output)
    decreases |b|
  {
    var s := Session(a, oa, doc, files, parser, reader);
    if b == [] {
      assert a + b == a && oa + ob == oa;
      assert s.output + "" == s.output;
    } else {
      var n := |b| - 1;
      SessionAppend(a, oa, b[..n], ob[..n], doc, files, parser, reader);
      assert a + b == (a + b[..n]) + [b[n]];
      assert oa + ob == (oa + ob[..n]) + [ob[n]];
      SessionSnoc(a + b[..n], oa + ob[..n], b[n], ob[n], doc, files, parser, reader);
      var t := Session(b[..n], ob[..n], s.doc, s.files, parser, reader);
      var last := EffectOf(b[n], t.doc, t.files, parser, reader, ob[n]);
      ConcatAssoc(s.output, t.output, Prompt);
      ConcatAssoc(s.output, t.output + Prompt, last.output);
    }
  }

  /** Only the two parse commands replace the document. */
  lemma {:induction false} SessionKeepsDocument(cmds: seq<Command>, orders: seq<seq<string>>,
                                                doc: Option<Document>, files: map<string, string>,
                                                parser: string -> Option<Document>, reader: string -> FileParse)
    requires |orders| == |cmds|
    requires forall i :: 0 <= i < |cmds| ==> !cmds[i].ParseFileCommand? && !cmds[i].ParseStringCommand?
    ensures Session(cmds, orders, doc, files, parser, reader).doc == doc
    decreases |cmds|
  {
    if cmds != [] {
      var n := |cmds| - 1;
      SessionKeepsDocument(cmds[..n], orders[..n], doc, files, parser, reader);
    }
  }

  /** A session that ends with `parse <json>` leaves the parser's result. */
  lemma EndsWithParse(cmds: seq<Command>, orders: seq<seq<string>>,
                      doc: Option<Document>, files: map<string, string>,
                      parser: string -> Option<Document>, reader: string -> FileParse)
    requires |orders| == |cmds| && cmds != [] && cmds[|cmds| - 1].ParseStringCommand?
    ensures Session(cmds, orders, doc, files, parser, reader).doc == parser(cmds[|cmds| - 1].json)
  {
  }

  /** After `parse <json>` and no later parse, the document is what the
      parser made of the text: every parse refreshes the shell. */
  lemma LastParseDecides(cmds: seq<Command>, orders: seq<seq<string>>, k: nat,
                         doc: Option<Document>, files: map<string, string>,
                         parser: string -> Option<Document>, reader: string -> FileParse)
    requires |orders| == |cmds| && k < |cmds| && cmds[k].ParseStringCommand?
    requires forall i :: k < i < |cmds| ==> !cmds[i].ParseFileCommand? && !cmds[i].ParseStringCommand?
    ensures Session(cmds, orders, doc, files, parser, reader).doc == parser(cmds[k].json)
  {
    var a, b := cmds[..k + 1], cmds[k + 1..];
    var oa, ob := orders[..k + 1], orders[k + 1..];
    assert cmds == a + b && orders == oa + ob;
    SessionAppend(a, oa, b, ob, doc, files, parser, reader);
    assert a[|a| - 1] == cmds[k];
    EndsWithParse(a, oa, doc, files, parser, reader);
    var s := Session(a, oa, doc, files, parser, reader);
    forall i | 0 <= i < |b|
      ensures !b[i].ParseFileCommand? && !b[i].ParseStringCommand?
    {
      assert b[i] == cmds[k + 1 + i];
    }
    SessionKeepsDocument(b, ob, s.doc, s.files, parser, reader);
  }

  /** `parse <json>` then `print`: the console shows the parsed document's
      JSON text, or the no-document error when the text did not parse. */
  lemma ParseThenPrint(json: string, o1: seq<string>, o2: seq<string>,
                       doc: Option<Document>, files: map<string, string>,
                       parser: string -> Option<Document>, reader: string -> FileParse)
    ensures var e := Session([ParseStringCommand(json), PrintToConsole], [o1, o2], doc, files, parser, reader);
      e.doc == parser(json) && e.files == files
      && e.output == Prompt + Prompt
           + (if parser(json).None? then NoDocumentError else JsonText(parser(json).value.value)) + Newline
  {
    SessionSnoc([], [], ParseStringCommand(json), o1, doc, files, parser, reader);
    assert [] + [ParseStringCommand(json)] == [ParseStringCommand(json)] && [] + [o1] == [o1];
    SessionSnoc([ParseStringCommand(json)], [o1], PrintToConsole, o2, doc, files, parser, reader);
    assert [ParseStringCommand(json)] + [PrintToConsole] == [ParseStringCommand(json), PrintToConsole];
    assert [o1] + [o2] == [o1, o2];
    assert "" + Prompt + "" == Prompt;
  }

  /** The commands the lines ask for, one per line. */
  function CommandsOf(lines: seq<string>): (r: seq<Command>)
    ensures |r| == |lines|
    decreases |lines|
  {
    if lines == [] then [] else CommandsOf(lines[..|lines| - 1]) + [CommandOf(lines[|lines| - 1])]
  }

  /** Each command is the one its own line asks for. */
  lemma CommandsOfLines(lines: seq<string>)
    ensures forall i :: 0 <= i < |lines| ==> CommandsOf(lines)[i] == CommandOf(lines[i])
  {
    forall i | 0 <= i < |lines|
      ensures CommandsOf(lines)[i] == CommandOf(lines[i])
    {
      CommandsOfAt(lines, i);
    }
  }

  lemma {:induction false} CommandsOfAt(lines: seq<string>, i: nat)
    requires i < |lines|
    ensures CommandsOf(lines)[i] == CommandOf(lines[i])
    decreases |lines|
  {
    var n := |lines| - 1;
    if i < n {
      CommandsOfAt(lines[..n], i);
    }
  }

  lemma CommandsOfSnoc(lines: seq<string>, k: nat)
    requires k < |lines|
    ensures CommandsOf(lines[..k + 1]) == CommandsOf(lines[..k]) + [CommandOf(lines[k])]
  {
    assert lines[..k + 1][..k] == lines[..k];
  }

  /** The state a session of `cmds` leaves, from `doc`, `files` and the
      console text `start`: document `d`, files `f`, console `c`. */
  ghost predicate Reached(cmds: seq<Command>, orders: seq<seq<string>>, doc: Option<Document>,
                          files: map<string, string>, parser: string -> Option<Document>,
                          reader: string -> FileParse, start: string,
                          d: Option<Document>, f: map<string, string>, c: string)
  {
    |orders| == |cmds| && OrdersFit(cmds, orders, doc, files, parser, reader)
    && var s := Session(cmds, orders, doc, files, parser, reader);
       d == s.doc && f == s.files && c == start + s.output
  }

  /** The loop's step on the session: a turn after a session of `cmds`,
      from the state that session left, ends in the state of the session
      one command longer. */
  lemma SessionTurn(cmds: seq<Command>, orders: seq<seq<string>>, cmd: Command, order: seq<string>,
                    doc: Option<Document>, files: map<string, string>,
                    parser: string -> Option<Document>, reader: string -> FileParse, start: string,
                    d1: Option<Document>, f1: map<string, string>, c1: string,
                    d2: Option<Document>, f2: map<string, string>, c2: string)
    requires Reached(cmds, orders, doc, files, parser, reader, start, d1, f1, c1)
    requires OrderFits(cmd, d1, order)
    requires var e := EffectOf(cmd, d1, f1, parser, reader, order);
      d2 == e.doc && f2 == e.files && c2 == c1 + Prompt + e.output
    ensures Reached(cmds + [cmd], orders + [order], doc, files, parser, reader, start, d2, f2, c2)
  {
    var s := Session(cmds, orders, doc, files, parser, reader);
    var e := EffectOf(cmd, d1, f1, parser, reader, order);
    SessionSnoc(cmds, orders, cmd, order, doc, files, parser, reader);
    ConcatAssoc(start, s.output, Prompt);
    ConcatAssoc(start, s.output + Prompt, e.output);
  }

  /** The console after a print: its line, attached to the console before. */
  lemma PrintAppends(c0: string, d0: Option<Document>)
    ensures d0.None? ==> c0 + NoDocumentError + Newline == c0 + (NoDocumentError + Newline)
    ensures d0.Some? ==> c0 + JsonText(d0.value.value) + Newline == c0 + (JsonText(d0.value.value) + Newline)
  {
    ConcatAssoc(c0, NoDocumentError, Newline);
    if d0.Some? {
      ConcatAssoc(c0, JsonText(d0.value.value), Newline);
    }
  }

  class JsonShell {
    var fpc: FullPropertyCalculator
    var tlpc: TopLevelPropertyCalculator
    var jsonDoc: Option<Document>
    /** Everything printed to the console so far. */
    var console: string
    /** The files `print -f` wrote, by name. */
    var files: map<string, string>

    /** The calculators only ever hold the keys of the current document:
        nothing before the first walk, all of them after it. */
    ghost predicate Valid()
      reads this, fpc, tlpc
    {
      fpc.Valid()
      && (jsonDoc.None? ==> fpc.properties == [] && tlpc.properties == [])
      && (jsonDoc.Some? ==>
            (fpc.properties == [] || fpc.properties == AllKeys(jsonDoc.value.value))
            && (tlpc.properties == [] || tlpc.properties == TopKeys(jsonDoc.value.value)))
    }

    /** init: the banner, two empty calculators and no document. */
    constructor ()
      ensures Valid() && jsonDoc == None && fresh(fpc) && fresh(tlpc)
      ensures fpc.properties == [] && tlpc.properties == []
      ensures console == Banner + Newline && files == map[]
    {
      console := Banner + Newline;
      files := map[];
      fpc := new FullPropertyCalculator();
      tlpc := new TopLevelPropertyCalculator();
      jsonDoc := None;
    }

    method PrintHelp()
      modifies this
      ensures console == old(console) + HelpText
      ensures fpc == old(fpc) && tlpc == old(tlpc) && jsonDoc == old(jsonDoc) && files == old(files)
    {
      console := console + HelpText;
    }

    /** refresh: new calculators and no document. */
    method Refresh()
      modifies this
      ensures Valid() && jsonDoc == None && fresh(fpc) && fresh(tlpc)
      ensures fpc.properties == [] && fpc.propertyMap == map[] && tlpc.properties == []
      ensures console == old(console) && files == old(files)
    {
      fpc := new FullPropertyCalculator();
      tlpc := new TopLevelPropertyCalculator();
      jsonDoc := None;
    }

    /** parseString: refresh, then the parser's result (None when the text
        does not parse). */
    method ParseString(json: string, parser: string -> Option<Document>)
      modifies this
      ensures Valid() && jsonDoc == parser(json) && fresh(fpc) && fresh(tlpc)
      ensures fpc.properties == [] && tlpc.properties == []
      ensures console == old(console) && files == old(files)
    {
      Refresh();
      jsonDoc := parser(json);
    }

    /** parseFile: refresh, then the file's document; a missing file prints
        an error and leaves no document. */
    method ParseFile(path: string, reader: string -> FileParse)
      modifies this
      ensures Valid() && fresh(fpc) && fresh(tlpc)
      ensures fpc.properties == [] && tlpc.properties == []
      ensures jsonDoc == (if reader(path).FileParsed? then reader(path).doc else None)
      ensures console == old(console) + (if reader(path).FileNotFound? then FileNotFoundError + Newline else "")
      ensures files == old(files)
    {
      Refresh();
      var outcome := reader(path);
      match outcome
      case FileParsed(doc) => jsonDoc := doc;
      case FileNotFound => console := console + FileNotFoundError + Newline;
    }

    /** print: the JSON text of the document, to the console when `file` is
        empty and into `file` otherwise. */
    method Print(file: string)
      requires Valid()
      modifies this
      ensures Valid() && fpc == old(fpc) && tlpc == old(tlpc) && jsonDoc == old(jsonDoc)
      ensures jsonDoc.None? ==> console == old(console) + NoDocumentError + Newline && files == old(files)
      ensures jsonDoc.Some? && file == "" ==>
        console == old(console) + JsonText(jsonDoc.value.value) + Newline && files == old(files)
      ensures jsonDoc.Some? && file != "" ==>
        console == old(console) && files == old(files)[file := JsonText(jsonDoc.value.value)]
    {
      if jsonDoc.None? {
        console := console + NoDocumentError + Newline;
        return;
      }
      var pp := new JsonPrettyPrinter();
      var json := pp.PrintJsonDocument(jsonDoc.value);
      if file == "" {
        console := console + json + Newline;
      } else {
        files := files[file := json];
      }
    }

    /** allPropertyNames: the full calculator's list for the document,
        joined with ", ". */
    method AllPropertyNames()
      requires Valid()
      modifies this, fpc
      ensures Valid() && fpc == old(fpc) && tlpc == old(tlpc) && jsonDoc == old(jsonDoc) && files == old(files)
      ensures jsonDoc.None? ==> console == old(console) + NoDocumentError + Newline
      ensures jsonDoc.Some? ==> console == old(console) + Join(AllKeys(jsonDoc.value.value), ", ") + Newline
    {
      if jsonDoc.None? {
        console := console + NoDocumentError + Newline;
        return;
      }
      var properties := fpc.GetAllPropertyNames(jsonDoc.value.value);
      var text := JoinLoop(properties, ", ");
      console := console + text + Newline;
    }

    /** countedPropertyNames: "key (n)" entries separated by "," without a
        space, in the map's order. */
    method CountedPropertyNames() returns (ghost order: seq<string>)
      requires Valid()
      modifies this, fpc
      ensures Valid() && fpc == old(fpc) && tlpc == old(tlpc) && jsonDoc == old(jsonDoc) && files == old(files)
      ensures jsonDoc.None? ==> console == old(console) + NoDocumentError + Newline
      ensures jsonDoc.Some? ==>
        NoDuplicates(order) && (forall k :: k in order <==> k in AllKeys(jsonDoc.value.value))
        && console == old(console) + Join(CountEntries(AllKeys(jsonDoc.value.value), order), ",") + Newline
    {
      order := [];
      if jsonDoc.None? {
        console := console + NoDocumentError + Newline;
        return;
      }
      EmptyTogether(fpc.properties, fpc.propertyMap);
      var properties := fpc.GetAllPropertyNamesCounted(jsonDoc.value.value);
      var text;
      text, order := CountedLoop(properties, ",");
      EntriesOfCounted(AllKeys(jsonDoc.value.value), properties, order);
      console := console + text + Newline;
    }

    /** topLevelPropertyNames: the shallow calculator's list for the
        document, joined with ", ". */
    method TopLevelPropertyNames()
      requires Valid()
      modifies this, tlpc
      ensures Valid() && fpc == old(fpc) && tlpc == old(tlpc) && jsonDoc == old(jsonDoc) && files == old(files)
      ensures jsonDoc.None? ==> console == old(console) + NoDocumentError + Newline
      ensures jsonDoc.Some? ==> console == old(console) + Join(TopKeys(jsonDoc.value.value), ", ") + Newline
    {
      if jsonDoc.None? {
        console := console + NoDocumentError + Newline;
        return;
      }
      if tlpc.properties == [] {
        tlpc.Traverse(jsonDoc.value.value);
      }
      var properties := tlpc.GetTopLevelPropertyNames();
      var text := JoinLoop(properties, ", ");
      console := console + text + Newline;
    }

    /** One command that neither ends the loop nor lacks its payload. */
    method Execute(cmd: Command, parser: string -> Option<Document>, reader: string -> FileParse)
      returns (ghost order: seq<string>)
      requires Valid() && !Stops(cmd)
      modifies this, fpc, tlpc
      ensures Valid()
      ensures (fpc == old(fpc) || fresh(fpc)) && (tlpc == old(tlpc) || fresh(tlpc))
      ensures OrderFits(cmd, old(jsonDoc), order)
      ensures var e := EffectOf(cmd, old(jsonDoc), old(files), parser, reader, order);
        jsonDoc == e.doc && files == e.files && console == old(console) + e.output
    {
      order := [];
      ghost var d0, f0, c0 := jsonDoc, files, console;
      match cmd {
        case NoCommand =>
          assert c0 + "" == c0;
        case ShowHelp =>
          PrintHelp();
        case ParseFileCommand(path) =>
          ParseFile(path, reader);
          ConcatAssoc(c0, FileNotFoundError, Newline);
          assert c0 + "" == c0;
        case ParseStringCommand(json) =>
          ParseString(json, parser);
          assert c0 + "" == c0;
        case PrintToFileCommand(file) =>
          Print(file);
          PrintAppends(c0, d0);
          assert c0 + "" == c0;
        case PrintToConsole =>
          Print("");
          PrintAppends(c0, d0);
        case CountedProperties =>
          order := CountedPropertyNames();
          if d0.Some? {
            ConcatAssoc(c0, Join(CountEntries(AllKeys(d0.value.value), order), ","), Newline);
          } else {
            ConcatAssoc(c0, NoDocumentError, Newline);
          }
        case AllProperties =>
          AllPropertyNames();
          if d0.Some? {
            ConcatAssoc(c0, Join(AllKeys(d0.value.value), ", "), Newline);
          } else {
            ConcatAssoc(c0, NoDocumentError, Newline);
          }
        case TopLevelProperties =>
          TopLevelPropertyNames();
          if d0.Some? {
            ConcatAssoc(c0, Join(TopKeys(d0.value.value), ", "), Newline);
          } else {
            ConcatAssoc(c0, NoDocumentError, Newline);
          }
      }
    }

    /** input(): the prompt before each read. */
    method PrintPrompt()
      requires Valid()
      modifies this
      ensures Valid() && console == old(console) + Prompt
      ensures fpc == old(fpc) && tlpc == old(tlpc) && jsonDoc == old(jsonDoc) && files == old(files)
    {
      console := console + Prompt;
    }

    /** One pass of handleArgs's loop body after the read: dispatch, and
        carry out every command but the two that end the loop. */
    method HandleLine(input: string, parser: string -> Option<Document>, reader: string -> FileParse)
      returns (cmd: Command, ghost order: seq<string>)
      requires Valid()
      modifies this, fpc, tlpc
      ensures Valid() && cmd == CommandOf(input)
      ensures (fpc == old(fpc) || fresh(fpc)) && (tlpc == old(tlpc) || fresh(tlpc))
      ensures OrderFits(cmd, old(jsonDoc), order)
      ensures var e := EffectOf(cmd, old(jsonDoc), old(files), parser, reader, order);
        jsonDoc == e.doc && files == e.files && console == old(console) + e.output
    {
      cmd := Dispatch(input);
      order := [];
      if !Stops(cmd) {
        order := Execute(cmd, parser, reader);
      }
    }

    /** One turn of handleArgs's loop: the prompt, then line `read`. A shell
        in the state the first `read` lines left is afterwards in the state
        the first `read + 1` lines leave. */
    method Turn(lines: seq<string>, read: nat, parser: string -> Option<Document>, reader: string -> FileParse,
                ghost cmds: seq<Command>, ghost orders: seq<seq<string>>,
                ghost doc0: Option<Document>, ghost files0: map<string, string>, ghost start: string)
      returns (cmd: Command, ghost cmds': seq<Command>, ghost orders': seq<seq<string>>)
      requires Valid() && Progress(lines, read, cmds, orders, doc0, files0, parser, reader, start, jsonDoc, files, console)
      requires read < |lines| && (read == 0 || !Stops(cmds[read - 1]))
      modifies this, fpc, tlpc
      ensures Valid() && cmd == CommandOf(lines[read]) && cmds' == cmds + [cmd]
      ensures (fpc == old(fpc) || fresh(fpc)) && (tlpc == old(tlpc) || fresh(tlpc))
      ensures Progress(lines, read + 1, cmds', orders', doc0, files0, parser, reader, start, jsonDoc, files, console)
    {
      ghost var d1, f1, c1 := jsonDoc, files, console;
      PrintPrompt();
      ghost var order;
      cmd, order := HandleLine(lines[read], parser, reader);
      SessionTurn(cmds, orders, cmd, order, doc0, files0, parser, reader, start, d1, f1, c1, jsonDoc, files, console);
      CommandsOfSnoc(lines, read);
      cmds', orders' := cmds + [cmd], orders + [order];
    }

    /** handleArgs's loop: turns until a command ends it or the lines run
        out. */
    method ReadLines(lines: seq<string>, parser: string -> Option<Document>, reader: string -> FileParse)
      returns (stop: bool, cmd: Command, read: nat, ghost commands: seq<Command>, ghost orders: seq<seq<string>>)
      requires Valid()
      modifies this, fpc, tlpc
      ensures Valid() && (fpc == old(fpc) || fresh(fpc)) && (tlpc == old(tlpc) || fresh(tlpc))
      ensures Progress(lines, read, commands, orders, old(jsonDoc), old(files), parser, reader, old(console), jsonDoc, files, console)
      ensures stop <==> 0 < read && Stops(commands[read - 1])
      ensures 0 < read ==> cmd == commands[read - 1]
      ensures stop || read == |lines|
    {
      read := 0;
      commands := [];
      orders := [];
      stop, cmd := false, NoCommand;
      while read < |lines| && !stop
        invariant Valid() && (fpc == old(fpc) || fresh(fpc)) && (tlpc == old(tlpc) || fresh(tlpc))
        invariant Progress(lines, read, commands, orders, old(jsonDoc), old(files), parser, reader, old(console), jsonDoc, files, console)
        invariant stop <==> 0 < read && Stops(commands[read - 1])
        invariant 0 < read ==> cmd == commands[read - 1]
      {
        cmd, commands, orders := Turn(lines, read, parser, reader, commands, orders, old(jsonDoc), old(files), old(console));
        read := read + 1;
        stop := Stops(cmd);
      }
    }

    /** handleArgs: prompt, read a line, dispatch, until "-q". `lines` is
        what the console delivers; the run returns how it ended and how many
        lines it read. The document, the files and the console after the run
        are those of the session of the commands read; at the end of the
        input one more prompt is printed before readLine gives null. */
    method HandleArgs(lines: seq<string>, parser: string -> Option<Document>, reader: string -> FileParse)
      returns (ending: Ending, read: nat, ghost commands: seq<Command>, ghost orders: seq<seq<string>>)
      requires Valid()
      modifies this, fpc, tlpc
      ensures Valid() && read <= |lines| && commands == CommandsOf(lines[..read])
      ensures forall i :: 0 <= i < read - 1 ==> !Stops(commands[i])
      ensures ending == EndOfInput <==> read == |lines| && (read == 0 || !Stops(commands[read - 1]))
      ensures ending != EndOfInput ==> 0 < read && ending == EndingOf(commands[read - 1])
      ensures |orders| == read && OrdersFit(commands, orders, old(jsonDoc), old(files), parser, reader)
      ensures var e := Session(commands, orders, old(jsonDoc), old(files), parser, reader);
        jsonDoc == e.doc && files == e.files
        && console == old(console) + e.output + (if ending == EndOfInput then Prompt else "")
    {
      var stop, cmd;
      stop, cmd, read, commands, orders := ReadLines(lines, parser, reader);
      if stop {
        ending := EndingOf(cmd);
      } else {
        PrintPrompt();
        ending := EndOfInput;
      }
    }
  }

  /** The shell after the first `read` lines: their commands, of which
      only the last may end the loop, and the state their session left. */
  ghost predicate Progress(lines: seq<string>, read: nat, cmds: seq<Command>, orders: seq<seq<string>>,
                           doc: Option<Document>, files: map<string, string>,
                           parser: string -> Option<Document>, reader: string -> FileParse, start: string,
                           d: Option<Document>, f: map<string, string>, c: string)
  {
    read <= |lines| && cmds == CommandsOf(lines[..read])
    && (forall i :: 0 <= i < read - 1 ==> !Stops(cmds[i]))
    && Reached(cmds, orders, doc, files, parser, reader, start, d, f, c)
  }

  /** The two commands after which the loop reads no further line. */
  predicate Stops(cmd: Command)
  {
    cmd.Quit? || cmd.PayloadMissing?
  }

  function EndingOf(cmd: Command): Ending
  {
    if cmd.Quit? then Quitted else MissingPayload
  }

  /** run: init, the help dialog, then the command loop on an empty shell. */
  method Run(lines: seq<string>, parser: string -> Option<Document>, reader: string -> FileParse)
    returns (shell: JsonShell, ending: Ending, read: nat, ghost commands: seq<Command>, ghost orders: seq<seq<string>>)
    ensures fresh(shell) && shell.Valid() && read <= |lines|
    ensures ending == Quitted ==> 0 < read && CommandOf(lines[read - 1]) == Quit
    ensures |commands| == read && |orders| == read
    ensures forall i :: 0 <= i < read ==> commands[i] == CommandOf(lines[i])
    ensures var e := Session(commands, orders, None, map[], parser, reader);
      shell.jsonDoc == e.doc && shell.files == e.files
      && shell.console == Banner + Newline + HelpText + e.output + (if ending == EndOfInput then Prompt else "")
  {
    shell := new JsonShell();
    shell.PrintHelp();
    ending, read, commands, orders := shell.HandleArgs(lines, parser, reader);
    CommandsOfLines(lines[..read]);
  }
}

/** JSONTool, the batch command-line tool: which actions a command line
    triggers and in which order, the `-pp` decision table, and the three
    property reports. Help printing, logging, parsing, the symbol table and
    all file output are actions the model names but does not perform. */
module JsonTool {

  import opened Wrappers
  import opened JsonAst
  import opened Strings
  import opened PropertyCalculators
  import opened Reports
  import opened CommandLines

  /** Where `-pp` sends the document. */
  datatype PrettyPrint =
    | JsonTo(file: string)        // JSON text, to the console when `file` is ""
    | PumlToConsole               // PlantUML text on the console
    | PumlToTextFile(file: string)
    | PumlToSvg(file: string)
    | PrettyPrintHelp             // the values are not understood: help, then stop

  /** The `-pp (json [file] | puml (txt [file] | svg file))` decision table. */
  function PrettyPrintChoice(params: seq<string>): (r: PrettyPrint)
  {
    if |params| == 0 then PrettyPrintHelp
    else if params[0] == "json" then JsonTo(if |params| == 2 then params[1] else "")
    else if params[0] == "puml" then
      if |params| < 2 then PrettyPrintHelp
      else
        var format := params[1];
        var file := if |params| < 3 then "" else params[2];
        if format == "txt" then
          if file == "" then PumlToConsole else PumlToTextFile(file)
        else if format == "svg" then PumlToSvg(file)
        else PrettyPrintHelp
    else PrettyPrintHelp
  }

  /** What one run of the tool does, in order. */
  datatype Action =
    | PrintHelp
    | LogError(message: string)
    | InitLogging(developer: bool)
    | ParseInput(path: string)
    | ParseAborted              // the input did not parse: the run ends here
    | CreateSymbolTable
    | PrettyPrintTo(target: PrettyPrint)
    | WriteReports(dir: string)
    | SyntaxObjects(modelName: string, file: string)

  const ParameterError: string := "0xA7104 Could not process parameters: "

  /** run: `cmd` is what the option parser made of the arguments (or its
      error), `parses` whether the input file parses. */
  function Run(cmd: Result<CommandLine, string>, parses: bool): seq<Action>
  {
    match cmd
    case Failure(message) => [LogError(ParameterError + message)]
    case Success(cl) =>
      if HasOption(cl, "h") || !HasOption(cl, "i") then [PrintHelp]
      else
        var input := OptionValue(cl, "i", "");
        [InitLogging(HasOption(cl, "d")), ParseInput(input)]
        + if !parses then [ParseAborted] else [CreateSymbolTable] + Outputs(cl, input)
  }

  /** The pretty-print, report and syntax-object options, in this order. */
  function Outputs(cl: CommandLine, input: string): seq<Action>
  {
    if HasOption(cl, "pp") then
      var choice := PrettyPrintChoice(OptionValues(cl, "pp"));
      if choice.PrettyPrintHelp? then [PrintHelp] else [PrettyPrintTo(choice)] + LaterOutputs(cl, input)
    else LaterOutputs(cl, input)
  }

  function LaterOutputs(cl: CommandLine, input: string): seq<Action>
  {
    (if HasOption(cl, "r") then [WriteReports(OptionValue(cl, "r", ""))] else [])
    + (if HasOption(cl, "so") then [SyntaxObjects(ModelName(input), OptionValue(cl, "so", ""))] else [])
  }

  // ---------------------------------------------------------------------
  // The reports

  /** allPropertyNames: a full calculator walks the document, then its list
      is joined with ", ". */
  method AllPropertyNames(doc: Document) returns (content: string)
    ensures content == Join(AllKeys(doc.value), ", ")
  {
    var fpc := new FullPropertyCalculator();
    fpc.Traverse(doc.value);
    assert fpc.properties == AllKeys(doc.value);
    var properties := fpc.properties;
    content := JoinLoop(properties, ", ");
  }

  /** countedPropertyNames: the calculator's map, one "key (n)" entry per
      distinct key, in the map's order. */
  method CountedPropertyNames(doc: Document) returns (content: string, ghost order: seq<string>)
    ensures NoDuplicates(order) && forall k :: k in order <==> k in AllKeys(doc.value)
    ensures content == Join(CountEntries(AllKeys(doc.value), order), ", ")
  {
    var fpc := new FullPropertyCalculator();
    fpc.Traverse(doc.value);
    assert fpc.properties == AllKeys(doc.value);
    var properties := fpc.propertyMap;
    content, order := CountedLoop(properties, ", ");
    EntriesOfCounted(AllKeys(doc.value), properties, order);
  }

  /** topLevelPropertyNames: the shallow calculator's list joined with ", ". */
  method TopLevelPropertyNames(doc: Document) returns (content: string)
    ensures content == Join(TopKeys(doc.value), ", ")
  {
    var tlpc := new TopLevelPropertyCalculator();
    tlpc.Traverse(doc.value);
    assert tlpc.properties == TopKeys(doc.value);
    var properties := tlpc.GetTopLevelPropertyNames();
    content := JoinLoop(properties, ", ");
  }

  /** report: the three reports and the files they go to. */
  method Report(doc: Document, dir: string) returns (files: seq<(string, string)>, ghost order: seq<string>)
    ensures |files| == 3
    ensures files[0] == (ReportFile(dir, AllPropertiesReport), Join(AllKeys(doc.value), ", "))
    ensures NoDuplicates(order) && forall k :: k in order <==> k in AllKeys(doc.value)
    ensures files[1] == (ReportFile(dir, CountedPropertiesReport), Join(CountEntries(AllKeys(doc.value), order), ", "))
    ensures files[2] == (ReportFile(dir, TopLevelPropertiesReport), Join(TopKeys(doc.value), ", "))
  {
    var all := AllPropertyNames(doc);
    var counted;
    counted, order := CountedPropertyNames(doc);
    var topLevel := TopLevelPropertyNames(doc);
    files := [(ReportFile(dir, AllPropertiesReport), all),
              (ReportFile(dir, CountedPropertiesReport), counted),
              (ReportFile(dir, TopLevelPropertiesReport), topLevel)];
  }

  // ---------------------------------------------------------------------
  // Properties

  /** Whether the run reads its input. */
  predicate ReadsInput(acts: seq<Action>)
  {
    exists i :: 0 <= i < |acts| && acts[i].ParseInput?
  }

  /** The position of an output action among the three output stages; 0 for
      every other action. */
  function Stage(a: Action): nat
  {
    match a
    case PrettyPrintTo(_) => 1
    case WriteReports(_) => 2
    case SyntaxObjects(_, _) => 3
    case _ => 0
  }

  /** The `-pp` table sends each form to its target, and everything else to
      help. */
  lemma PrettyPrintTable(params: seq<string>)
    ensures PrettyPrintChoice(params).JsonTo? <==> |params| > 0 && params[0] == "json"
    ensures PrettyPrintChoice(params).JsonTo? ==>
      PrettyPrintChoice(params).file == if |params| == 2 then params[1] else ""
    ensures PrettyPrintChoice(params).PumlToConsole? <==>
      |params| >= 2 && params[0] == "puml" && params[1] == "txt" && (|params| == 2 || params[2] == "")
    ensures PrettyPrintChoice(params) == PumlToTextFile(if |params| >= 3 then params[2] else "") <==>
      |params| >= 3 && params[0] == "puml" && params[1] == "txt" && params[2] != ""
    ensures PrettyPrintChoice(params) == PumlToSvg(if |params| >= 3 then params[2] else "") <==>
      |params| >= 2 && params[0] == "puml" && params[1] == "svg"
    ensures PrettyPrintChoice(params).PrettyPrintHelp? <==>
      |params| == 0 || (params[0] != "json" && params[0] != "puml")
      || (params[0] == "puml" && (|params| < 2 || (params[1] != "txt" && params[1] != "svg")))
  {
  }

  /** `-h`, or a missing `-i`, prints help and stops before any parsing; the
      input is read exactly when neither applies. */
  lemma HelpBeforeParsing(cmd: Result<CommandLine, string>, parses: bool)
    ensures cmd.Success? && (HasOption(cmd.value, "h") || !HasOption(cmd.value, "i")) ==> Run(cmd, parses) == [PrintHelp]
    ensures ReadsInput(Run(cmd, parses)) <==> cmd.Success? && !HasOption(cmd.value, "h") && HasOption(cmd.value, "i")
  {
    var acts := Run(cmd, parses);
    if cmd.Success? && !HasOption(cmd.value, "h") && HasOption(cmd.value, "i") {
      assert acts[1].ParseInput?;
    }
  }

  /** An input that does not parse ends the run: nothing is printed. */
  lemma FailedParseStops(cmd: Result<CommandLine, string>)
    ensures var acts := Run(cmd, false);
      (forall i :: 0 <= i < |acts| ==> Stage(acts[i]) == 0)
      && (ReadsInput(acts) ==> acts[|acts| - 1] == ParseAborted)
  {
  }

  /** The output stages of `acts` strictly increase. */
  predicate StagesIncrease(acts: seq<Action>)
  {
    forall i, j :: 0 <= i < j < |acts| && Stage(acts[i]) > 0 && Stage(acts[j]) > 0 ==>
      Stage(acts[i]) < Stage(acts[j])
  }

  /** Pretty printing, reports and syntax objects come at most once each,
      in that order. */
  lemma OutputsInOrder(cmd: Result<CommandLine, string>, parses: bool)
    ensures StagesIncrease(Run(cmd, parses))
  {
    if cmd.Success? && !HasOption(cmd.value, "h") && HasOption(cmd.value, "i") {
      var cl := cmd.value;
      var input := OptionValue(cl, "i", "");
      var rest := if !parses then [ParseAborted] else [CreateSymbolTable] + Outputs(cl, input);
      if parses {
        OutputStagesIncrease(cl, input);
        AfterSilentPrefix([CreateSymbolTable], Outputs(cl, input));
      }
      AfterSilentPrefix([InitLogging(HasOption(cl, "d")), ParseInput(input)], rest);
    }
  }

  lemma OutputStagesIncrease(cl: CommandLine, input: string)
    ensures StagesIncrease(Outputs(cl, input))
  {
    var later := LaterOutputs(cl, input);
    LaterStages(cl, input);
    var outs := Outputs(cl, input);
    if HasOption(cl, "pp") && !PrettyPrintChoice(OptionValues(cl, "pp")).PrettyPrintHelp? {
      assert outs == [PrettyPrintTo(PrettyPrintChoice(OptionValues(cl, "pp")))] + later;
      forall i, j | 0 <= i < j < |outs| && Stage(outs[i]) > 0 && Stage(outs[j]) > 0
        ensures Stage(outs[i]) < Stage(outs[j])
      {
        assert outs[j] == later[j - 1];
        if i > 0 {
          assert outs[i] == later[i - 1];
        }
      }
    }
  }

  /** Reports before syntax objects, each at most once. */
  lemma LaterStages(cl: CommandLine, input: string)
    ensures var later := LaterOutputs(cl, input);
      StagesIncrease(later) && forall i :: 0 <= i < |later| ==> Stage(later[i]) >= 2
  {
    var b := if HasOption(cl, "r") then [WriteReports(OptionValue(cl, "r", ""))] else [];
    var c := if HasOption(cl, "so") then [SyntaxObjects(ModelName(input), OptionValue(cl, "so", ""))] else [];
    var later := LaterOutputs(cl, input);
    assert later == b + c;
    forall i, j | 0 <= i < j < |later| && Stage(later[i]) > 0 && Stage(later[j]) > 0
      ensures Stage(later[i]) < Stage(later[j])
    {
      assert i == 0 && j == 1 && later == b + c && |b| == 1 && |c| == 1;
      assert later[0] == b[0] && later[1] == c[0];
    }
  }

  /** Actions without output in front keep the stages increasing. */
  lemma AfterSilentPrefix(a: seq<Action>, b: seq<Action>)
    requires forall i :: 0 <= i < |a| ==> Stage(a[i]) == 0
    requires StagesIncrease(b)
    ensures StagesIncrease(a + b)
  {
    var ab := a + b;
    forall i, j | 0 <= i < j < |ab| && Stage(ab[i]) > 0 && Stage(ab[j]) > 0
      ensures Stage(ab[i]) < Stage(ab[j])
    {
      assert ab[i] == b[i - |a|] && ab[j] == b[j - |a|];
    }
  }

  /** `-pp` with values the table does not know prints help and stops: no
      report and no syntax objects are written. */
  lemma UnknownPrettyPrintStops(cl: CommandLine)
    requires !HasOption(cl, "h") && HasOption(cl, "i") && HasOption(cl, "pp")
    requires PrettyPrintChoice(OptionValues(cl, "pp")).PrettyPrintHelp?
    ensures var acts := Run(Success(cl), true);
      acts[|acts| - 1] == PrintHelp && forall i :: 0 <= i < |acts| ==> Stage(acts[i]) == 0
  {
  }

  /** Once the input parses, an output is in the run exactly when it is
      among the outputs the options ask for. */
  lemma RunShowsOutputs(cl: CommandLine, a: Action)
    requires !HasOption(cl, "h") && HasOption(cl, "i") && Stage(a) > 0
    ensures a in Run(Success(cl), true) <==> a in Outputs(cl, OptionValue(cl, "i", ""))
  {
    var input := OptionValue(cl, "i", "");
    RunAfterParse(cl);
    SilentFront([CreateSymbolTable], Outputs(cl, input));
    SilentFront([InitLogging(HasOption(cl, "d")), ParseInput(input)], [CreateSymbolTable] + Outputs(cl, input));
  }

  /** `-pp` prints to the file or console it names. */
  lemma PrettyPrintRequested(cl: CommandLine)
    requires !HasOption(cl, "h") && HasOption(cl, "i") && HasOption(cl, "pp")
    requires !PrettyPrintChoice(OptionValues(cl, "pp")).PrettyPrintHelp?
    ensures PrettyPrintTo(PrettyPrintChoice(OptionValues(cl, "pp"))) in Run(Success(cl), true)
  {
    var input := OptionValue(cl, "i", "");
    var outs := Outputs(cl, input);
    OutputsContents(cl, input);
    RunAfterParse(cl);
    var a := PrettyPrintTo(PrettyPrintChoice(OptionValues(cl, "pp")));
    InTail([CreateSymbolTable], outs, a);
    InTail([InitLogging(HasOption(cl, "d")), ParseInput(input)], [CreateSymbolTable] + outs, a);
  }

  /** No pretty printing happens without `-pp`. */
  lemma PrettyPrintOnlyRequested(cl: CommandLine)
    requires !HasOption(cl, "h") && HasOption(cl, "i") && !HasOption(cl, "pp")
    ensures var acts := Run(Success(cl), true);
      forall a :: a in acts ==> !a.PrettyPrintTo?
  {
    var input := OptionValue(cl, "i", "");
    var outs := Outputs(cl, input);
    OutputsContents(cl, input);
    RunAfterParse(cl);
    PrettyPrintFree([CreateSymbolTable], outs);
    PrettyPrintFree([InitLogging(HasOption(cl, "d")), ParseInput(input)], [CreateSymbolTable] + outs);
  }

  lemma InTail(front: seq<Action>, outs: seq<Action>, a: Action)
    requires a in outs
    ensures a in front + outs
  {
  }

  /** An action not among the first ones is in the run iff it is among the
      rest. */
  lemma OutsideFront(front: seq<Action>, outs: seq<Action>, a: Action)
    requires a !in front
    ensures a in front + outs <==> a in outs
  {
  }

  /** Two runs of actions without pretty printing, one after the other. */
  lemma PrettyPrintFree(front: seq<Action>, outs: seq<Action>)
    requires forall a :: a in front ==> !a.PrettyPrintTo?
    requires forall a :: a in outs ==> !a.PrettyPrintTo?
    ensures forall a :: a in front + outs ==> !a.PrettyPrintTo?
  {
  }

  /** `-r` writes the reports into its directory exactly when given. */
  lemma ReportsRequested(cl: CommandLine)
    requires !HasOption(cl, "h") && HasOption(cl, "i")
    requires HasOption(cl, "pp") ==> !PrettyPrintChoice(OptionValues(cl, "pp")).PrettyPrintHelp?
    ensures HasOption(cl, "r") <==> WriteReports(OptionValue(cl, "r", "")) in Run(Success(cl), true)
  {
    var input := OptionValue(cl, "i", "");
    var outs := Outputs(cl, input);
    OutputsContents(cl, input);
    RunAfterParse(cl);
    var a := WriteReports(OptionValue(cl, "r", ""));
    OutsideFront([CreateSymbolTable], outs, a);
    OutsideFront([InitLogging(HasOption(cl, "d")), ParseInput(input)], [CreateSymbolTable] + outs, a);
  }

  /** `-so` stores the syntax objects under the input's model name exactly
      when given. */
  lemma SyntaxObjectsRequested(cl: CommandLine)
    requires !HasOption(cl, "h") && HasOption(cl, "i")
    requires HasOption(cl, "pp") ==> !PrettyPrintChoice(OptionValues(cl, "pp")).PrettyPrintHelp?
    ensures HasOption(cl, "so") <==>
      SyntaxObjects(ModelName(OptionValue(cl, "i", "")), OptionValue(cl, "so", "")) in Run(Success(cl), true)
  {
    var input := OptionValue(cl, "i", "");
    var outs := Outputs(cl, input);
    OutputsContents(cl, input);
    RunAfterParse(cl);
    var a := SyntaxObjects(ModelName(input), OptionValue(cl, "so", ""));
    OutsideFront([CreateSymbolTable], outs, a);
    OutsideFront([InitLogging(HasOption(cl, "d")), ParseInput(input)], [CreateSymbolTable] + outs, a);
  }

  /** Otherwise every requested output is produced, the syntax objects under
      the input's model name. */
  lemma RequestedOutputsProduced(cl: CommandLine)
    requires !HasOption(cl, "h") && HasOption(cl, "i")
    requires HasOption(cl, "pp") ==> !PrettyPrintChoice(OptionValues(cl, "pp")).PrettyPrintHelp?
    ensures var acts := Run(Success(cl), true);
      (HasOption(cl, "pp") ==> PrettyPrintTo(PrettyPrintChoice(OptionValues(cl, "pp"))) in acts)
      && (!HasOption(cl, "pp") ==> forall a :: a in acts ==> !a.PrettyPrintTo?)
      && (HasOption(cl, "r") <==> WriteReports(OptionValue(cl, "r", "")) in acts)
      && (HasOption(cl, "so") <==> SyntaxObjects(ModelName(OptionValue(cl, "i", "")), OptionValue(cl, "so", "")) in acts)
  {
    if HasOption(cl, "pp") {
      PrettyPrintRequested(cl);
    } else {
      PrettyPrintOnlyRequested(cl);
    }
    ReportsRequested(cl);
    SyntaxObjectsRequested(cl);
  }

  lemma RunAfterParse(cl: CommandLine)
    requires !HasOption(cl, "h") && HasOption(cl, "i")
    ensures Run(Success(cl), true)
      == [InitLogging(HasOption(cl, "d")), ParseInput(OptionValue(cl, "i", ""))]
         + ([CreateSymbolTable] + Outputs(cl, OptionValue(cl, "i", "")))
  {
  }

  lemma OutputsContents(cl: CommandLine, input: string)
    requires HasOption(cl, "pp") ==> !PrettyPrintChoice(OptionValues(cl, "pp")).PrettyPrintHelp?
    ensures var outs := Outputs(cl, input);
      (HasOption(cl, "pp") ==> PrettyPrintTo(PrettyPrintChoice(OptionValues(cl, "pp"))) in outs)
      && (!HasOption(cl, "pp") ==> forall a :: a in outs ==> !a.PrettyPrintTo?)
      && (HasOption(cl, "r") <==> WriteReports(OptionValue(cl, "r", "")) in outs)
      && (HasOption(cl, "so") <==> SyntaxObjects(ModelName(input), OptionValue(cl, "so", "")) in outs)
  {
    LaterOutputsContents(cl, input);
    if HasOption(cl, "pp") {
      assert Outputs(cl, input) == [PrettyPrintTo(PrettyPrintChoice(OptionValues(cl, "pp")))] + LaterOutputs(cl, input);
    }
  }

  /** In front of the outputs, the start of a run holds none of them. */
  lemma SilentFront(front: seq<Action>, outs: seq<Action>)
    requires forall i :: 0 <= i < |front| ==> Stage(front[i]) == 0
    ensures forall a :: Stage(a) > 0 ==> (a in front + outs <==> a in outs)
  {
  }

  lemma LaterOutputsContents(cl: CommandLine, input: string)
    ensures var later := LaterOutputs(cl, input);
      (forall a :: a in later ==> !a.PrettyPrintTo?)
      && (HasOption(cl, "r") <==> WriteReports(OptionValue(cl, "r", "")) in later)
      && (HasOption(cl, "so") <==> SyntaxObjects(ModelName(input), OptionValue(cl, "so", "")) in later)
  {
  }
}

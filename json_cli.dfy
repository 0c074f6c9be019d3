/** de.monticore.JSONCLI, the older batch tool: the same option gating as
    JSONTool, with `-pp` taking an optional file for the JSON text, and report
    functions that use the calculators' own getters. */
module JsonCli {

  import opened Wrappers
  import opened JsonAst
  import opened Strings
  import opened PropertyCalculators
  import opened Reports
  import opened CommandLines

  /** What one run of the tool does, in order. */
  datatype Action =
    | PrintHelp
    | LogError(message: string)
    | DeveloperLogging
    | ParseInput(path: string)
    | ParseAborted              // the input did not parse: the run ends here
    | CreateSymbolTable
    | PrettyPrintJson(file: string)
    | WriteReports(dir: string)
    | SyntaxObjects(modelName: string, file: string)

  const ParameterError: string := "0xA7101 Could not process CLI parameters: "

  /** run: `cmd` is what the option parser made of the arguments (or its
      error), `parses` whether the input file parses. */
  function Run(cmd: Result<CommandLine, string>, parses: bool): seq<Action>
  {
    match cmd
    case Failure(message) => [LogError(ParameterError + message)]
    case Success(cl) =>
      if HasOption(cl, "h") || !HasOption(cl, "i") then [PrintHelp]
      else
        var input := OptionValue(cl, "i", "");
        Start(cl, input) + if !parses then [ParseAborted] else [CreateSymbolTable] + Outputs(cl, input)
  }

  /** Developer logging when `-d` is given, then the parse of the input. */
  function Start(cl: CommandLine, input: string): seq<Action>
  {
    (if HasOption(cl, "d") then [DeveloperLogging] else []) + [ParseInput(input)]
  }

  /** The pretty-print, report and syntax-object options, in this order. */
  function Outputs(cl: CommandLine, input: string): seq<Action>
  {
    (if HasOption(cl, "pp") then [PrettyPrintJson(OptionValue(cl, "pp", ""))] else [])
    + (if HasOption(cl, "r") then [WriteReports(OptionValue(cl, "r", ""))] else [])
    + (if HasOption(cl, "so") then [SyntaxObjects(ModelName(input), OptionValue(cl, "so", ""))] else [])
  }

  // ---------------------------------------------------------------------
  // The reports

  /** allPropertyNames: a fresh calculator's getAllPropertyNames, joined
      with ", ". */
  method AllPropertyNames(doc: Document) returns (content: string)
    ensures content == Join(AllKeys(doc.value), ", ")
  {
    var fpc := new FullPropertyCalculator();
    var properties := fpc.GetAllPropertyNames(doc.value);
    content := JoinLoop(properties, ", ");
  }

  /** countedPropertyNames: a fresh calculator's getAllPropertyNamesCounted,
      one "key (n)" entry per distinct key, in the map's order. */
  method CountedPropertyNames(doc: Document) returns (content: string, ghost order: seq<string>)
    ensures NoDuplicates(order) && forall k :: k in order <==> k in AllKeys(doc.value)
    ensures content == Join(CountEntries(AllKeys(doc.value), order), ", ")
  {
    var fpc := new FullPropertyCalculator();
    var properties := fpc.GetAllPropertyNamesCounted(doc.value);
    content, order := CountedLoop(properties, ", ");
    EntriesOfCounted(AllKeys(doc.value), properties, order);
  }

  /** topLevelPropertyNames: a fresh shallow calculator walks the document,
      and its list is joined with ", ". */
  method TopLevelPropertyNames(doc: Document) returns (content: string)
    ensures content == Join(TopKeys(doc.value), ", ")
  {
    var tlpc := new TopLevelPropertyCalculator();
    tlpc.Traverse(doc.value);
    assert tlpc.properties == TopKeys(doc.value);
    var properties := tlpc.GetTopLevelPropertyNames();
    content := JoinLoop(properties, ", ");
  }

  // ---------------------------------------------------------------------
  // Properties

  predicate ReadsInput(acts: seq<Action>)
  {
    exists i :: 0 <= i < |acts| && acts[i].ParseInput?
  }

  function Stage(a: Action): nat
  {
    match a
    case PrettyPrintJson(_) => 1
    case WriteReports(_) => 2
    case SyntaxObjects(_, _) => 3
    case _ => 0
  }

  predicate StagesIncrease(acts: seq<Action>)
  {
    forall i, j :: 0 <= i < j < |acts| && Stage(acts[i]) > 0 && Stage(acts[j]) > 0 ==>
      Stage(acts[i]) < Stage(acts[j])
  }

  /** `-h`, or a missing `-i`, prints help and stops before parsing; the
      input is read exactly when neither applies. */
  lemma HelpBeforeParsing(cmd: Result<CommandLine, string>, parses: bool)
    ensures cmd.Success? && (HasOption(cmd.value, "h") || !HasOption(cmd.value, "i")) ==> Run(cmd, parses) == [PrintHelp]
    ensures ReadsInput(Run(cmd, parses)) <==> cmd.Success? && !HasOption(cmd.value, "h") && HasOption(cmd.value, "i")
  {
    if cmd.Success? && !HasOption(cmd.value, "h") && HasOption(cmd.value, "i") {
      var cl := cmd.value;
      var start := Start(cl, OptionValue(cl, "i", ""));
      assert start[|start| - 1].ParseInput?;
      assert Run(cmd, parses)[|start| - 1] == start[|start| - 1];
    }
  }

  /** An input that does not parse ends the run: nothing is printed. */
  lemma FailedParseStops(cmd: Result<CommandLine, string>)
    ensures var acts := Run(cmd, false);
      (forall i :: 0 <= i < |acts| ==> Stage(acts[i]) == 0)
      && (ReadsInput(acts) ==> acts[|acts| - 1] == ParseAborted)
  {
  }

  /** Once the input parses, the outputs come after the start of the run
      and the symbol table, in stage order, and an output is in the run
      exactly when the options ask for it. */
  lemma RunShowsOutputs(cl: CommandLine)
    requires !HasOption(cl, "h") && HasOption(cl, "i")
    ensures var acts := Run(Success(cl), true);
      StagesIncrease(acts)
      && forall a :: Stage(a) > 0 ==> (a in acts <==> a in Outputs(cl, OptionValue(cl, "i", "")))
  {
    var input := OptionValue(cl, "i", "");
    var outs := Outputs(cl, input);
    OutputsContents(cl, input);
    assert Run(Success(cl), true) == Start(cl, input) + ([CreateSymbolTable] + outs);
    SilentFront([CreateSymbolTable], outs);
    SilentFront(Start(cl, input), [CreateSymbolTable] + outs);
  }

  /** `-pp` prints the document to the file it names exactly when given. */
  lemma PrettyPrintRequested(cl: CommandLine)
    requires !HasOption(cl, "h") && HasOption(cl, "i")
    ensures HasOption(cl, "pp") <==> PrettyPrintJson(OptionValue(cl, "pp", "")) in Run(Success(cl), true)
  {
    var file := OptionValue(cl, "pp", "");
    OutputsContents(cl, OptionValue(cl, "i", ""));
    assert Stage(PrettyPrintJson(file)) == 1;
    RunShowsOutputs(cl);
  }

  /** `-r` writes the reports into its directory exactly when given. */
  lemma ReportsRequested(cl: CommandLine)
    requires !HasOption(cl, "h") && HasOption(cl, "i")
    ensures HasOption(cl, "r") <==> WriteReports(OptionValue(cl, "r", "")) in Run(Success(cl), true)
  {
    var dir := OptionValue(cl, "r", "");
    OutputsContents(cl, OptionValue(cl, "i", ""));
    assert Stage(WriteReports(dir)) == 2;
    RunShowsOutputs(cl);
  }

  /** `-so` stores the syntax objects under the input's model name exactly
      when given. */
  lemma SyntaxObjectsRequested(cl: CommandLine)
    requires !HasOption(cl, "h") && HasOption(cl, "i")
    ensures HasOption(cl, "so") <==>
      SyntaxObjects(ModelName(OptionValue(cl, "i", "")), OptionValue(cl, "so", "")) in Run(Success(cl), true)
  {
    var input := OptionValue(cl, "i", "");
    OutputsContents(cl, input);
    assert Stage(SyntaxObjects(ModelName(input), OptionValue(cl, "so", ""))) == 3;
    RunShowsOutputs(cl);
  }

  /** Once the input parses, `-pp`, `-r` and `-so` are handled in that
      order, each exactly when it is given, the syntax objects under the
      input's model name. */
  lemma OutputsAsRequested(cl: CommandLine)
    requires !HasOption(cl, "h") && HasOption(cl, "i")
    ensures var acts := Run(Success(cl), true);
      StagesIncrease(acts)
      && (HasOption(cl, "pp") <==> PrettyPrintJson(OptionValue(cl, "pp", "")) in acts)
      && (HasOption(cl, "r") <==> WriteReports(OptionValue(cl, "r", "")) in acts)
      && (HasOption(cl, "so") <==> SyntaxObjects(ModelName(OptionValue(cl, "i", "")), OptionValue(cl, "so", "")) in acts)
  {
    RunShowsOutputs(cl);
    PrettyPrintRequested(cl);
    ReportsRequested(cl);
    SyntaxObjectsRequested(cl);
  }

  lemma OutputsContents(cl: CommandLine, input: string)
    ensures var outs := Outputs(cl, input);
      StagesIncrease(outs)
      && (HasOption(cl, "pp") <==> PrettyPrintJson(OptionValue(cl, "pp", "")) in outs)
      && (HasOption(cl, "r") <==> WriteReports(OptionValue(cl, "r", "")) in outs)
      && (HasOption(cl, "so") <==> SyntaxObjects(ModelName(input), OptionValue(cl, "so", "")) in outs)
  {
    var a := if HasOption(cl, "pp") then [PrettyPrintJson(OptionValue(cl, "pp", ""))] else [];
    var b := if HasOption(cl, "r") then [WriteReports(OptionValue(cl, "r", ""))] else [];
    var c := if HasOption(cl, "so") then [SyntaxObjects(ModelName(input), OptionValue(cl, "so", ""))] else [];
    assert Outputs(cl, input) == a + b + c;
    ThreeStages(a, b, c);
  }

  /** At most one action of each stage, in stage order. */
  lemma ThreeStages(a: seq<Action>, b: seq<Action>, c: seq<Action>)
    requires |a| <= 1 && |b| <= 1 && |c| <= 1
    requires (forall i :: 0 <= i < |a| ==> Stage(a[i]) == 1)
      && (forall i :: 0 <= i < |b| ==> Stage(b[i]) == 2)
      && (forall i :: 0 <= i < |c| ==> Stage(c[i]) == 3)
    ensures StagesIncrease(a + b + c)
  {
    var outs := a + b + c;
    forall i, j | 0 <= i < j < |outs| && Stage(outs[i]) > 0 && Stage(outs[j]) > 0
      ensures Stage(outs[i]) < Stage(outs[j])
    {
      if i < |a| {
        assert Stage(outs[i]) == 1 && j >= |a|;
      } else if i < |a| + |b| {
        assert Stage(outs[i]) == 2 && j >= |a| + |b|;
      }
    }
  }

  /** Actions without output in front change neither the outputs present
      nor their order. */
  lemma SilentFront(front: seq<Action>, outs: seq<Action>)
    requires forall i :: 0 <= i < |front| ==> Stage(front[i]) == 0
    requires StagesIncrease(outs)
    ensures StagesIncrease(front + outs)
    ensures forall a :: Stage(a) > 0 ==> (a in front + outs <==> a in outs)
  {
    var all := front + outs;
    forall i, j | 0 <= i < j < |all| && Stage(all[i]) > 0 && Stage(all[j]) > 0
      ensures Stage(all[i]) < Stage(all[j])
    {
      assert all[i] == outs[i - |front|] && all[j] == outs[j - |front|];
    }
  }
}

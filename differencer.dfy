/** SemanticJSONDifferencer: walks two JSON trees together, the left one
    being the baseline, and reports the differences as messages.

    `Diff`, `DiffProps` and `DiffElems` specify the walk as functions; the
    methods further down perform it as the source does, by loops that append
    to a result list and write the enclosing property or index into the
    difference objects they get back. `Mode` selects between the code as
    written and the code with its two defects corrected (see README). */
module Differencer {

  import opened Wrappers
  import opened Strings
  import opened JsonAst
  import opened DiffErrors
  import opened Differences
  import opened Messages
  import opened JsonPrinter

  datatype Mode = AsWritten | Intended

  /** What the walk returns: the differences, or the exception it throws. */
  type Outcome = Result<seq<SemDiff>, SemDiffException>

  /** equalJSONType: both values are of the same one of the six kinds. */
  predicate EqualJsonType(n1: Value, n2: Value)
  {
    (n1.Object? && n2.Object?) || (n1.Array? && n2.Array?) || (n1.Boolean? && n2.Boolean?)
    || (n1.Str? && n2.Str?) || (n1.Number? && n2.Number?) || (n1.Null? && n2.Null?)
  }

  /** jsonTypeToString. The exception for an unknown kind cannot arise: the
      tree has exactly these six kinds. */
  function JsonTypeName(v: Value): string
  {
    match v
    case Object(_) => "object"
    case Array(_) => "array"
    case Boolean(_) => "boolean"
    case Str(_) => "string"
    case Number(_) => "number"
    case Null => "null"
  }

  /** The class name Java's default `toString` starts with; the identity
      hash that follows it is not modelled. */
  function NodeClassName(v: Value): string
  {
    match v
    case Object(_) => "de.monticore.lang.json._ast.ASTJSONObject"
    case Array(_) => "de.monticore.lang.json._ast.ASTJSONArray"
    case Boolean(_) => "de.monticore.lang.json._ast.ASTJSONBoolean"
    case Str(_) => "de.monticore.lang.json._ast.ASTJSONString"
    case Number(_) => "de.monticore.lang.json._ast.ASTJSONNumber"
    case Null => "de.monticore.lang.json._ast.ASTJSONNull"
  }

  /** The difference recorded when the kinds differ. */
  function TypeMismatch(mode: Mode, n1: Value): SemDiff
  {
    if mode == AsWritten then DifferentTypeOf(n1, JsonTypeName(n1))
    else DifferentTypeCorrected(n1, JsonTypeName(n1))
  }

  /** The walk over two values (the dispatching semDiffASTs). */
  function Diff(mode: Mode, n1: Value, n2: Value): Outcome
    decreases n1, 1, 0
  {
    if !EqualJsonType(n1, n2) then Success([TypeMismatch(mode, n1)])
    else
      match n1
      case Object(ps) => DiffProps(mode, n1, n2, |ps|)
      case Array(vs) => DiffElems(mode, n1, n2, |vs|)
      case Boolean(b) => if n1 == n2 then Success([]) else Success([DifferentValueOf(n1, BoolText(b))])
      case Str(s) => if n1 == n2 then Success([]) else Success([DifferentValueOf(n1, StringValue(s))])
      case Number(_) => if n1 == n2 then Success([]) else Success([DifferentValueOf(n1, JsonText(n2))])
      case Null =>
        if mode == AsWritten then Failure(NewException(UnknownJsonValueType, NodeClassName(n1)))
        else Success([])
  }

  /** The object comparison after its first `n` left properties. */
  function DiffProps(mode: Mode, o1: Value, o2: Value, n: nat): Outcome
    requires o1.Object? && o2.Object? && n <= |o1.props|
    decreases o1, 0, n
  {
    if n == 0 then Success([])
    else
      var acc := DiffProps(mode, o1, o2, n - 1);
      if acc.Failure? then acc
      else
        var step := PropertyStep(mode, o1, o2, n - 1);
        if step.Failure? then step else Success(acc.value + step.value)
  }

  /** What left property `i` contributes: a missing property when the right
      object lacks its key, an exception when the key is ambiguous there,
      else the differences between the two values, with `i`'s property
      filled in. */
  function PropertyStep(mode: Mode, o1: Value, o2: Value, i: nat): Outcome
    requires o1.Object? && o2.Object? && i < |o1.props|
    decreases o1, 0, 0
  {
    var p1 := o1.props[i];
    var props2 := GetProps(o2.props, p1.key);
    if props2 == [] then Success([MissingPropertyOf(o1, p1)])
    else if |props2| > 1 then Failure(NewException(AmbiguousProperty, p1.key))
    else
      var nested := Diff(mode, p1.value, props2[0].value);
      if nested.Failure? then nested else Success(FillProperty(nested.value, p1))
  }

  /** The array comparison after its first `n` left elements. */
  function DiffElems(mode: Mode, a1: Value, a2: Value, n: nat): Outcome
    requires a1.Array? && a2.Array? && n <= |a1.values|
    decreases a1, 0, n
  {
    if n == 0 then Success([])
    else
      var acc := DiffElems(mode, a1, a2, n - 1);
      if acc.Failure? then acc
      else
        var step := ElementStep(mode, a1, a2, n - 1);
        if step.Failure? then step else Success(acc.value + step.value)
  }

  /** What left element `i` contributes: a missing index past the end of
      the right array, else the differences between the two elements, with
      index `i` filled in. */
  function ElementStep(mode: Mode, a1: Value, a2: Value, i: nat): Outcome
    requires a1.Array? && a2.Array? && i < |a1.values|
    decreases a1, 0, 0
  {
    if i >= |a2.values| then Success([MissingIndexOf(a1, i)])
    else
      var nested := Diff(mode, a1.values[i], a2.values[i]);
      if nested.Failure? then nested else Success(FillIndex(nested.value, i))
  }

  /** The object comparison's back-fill: differences without a property get
      `p`; everything else, the kind included, is kept. */
  function FillProperty(ds: seq<SemDiff>, p: Property): (r: seq<SemDiff>)
    ensures |r| == |ds|
    ensures forall i :: 0 <= i < |ds| ==>
      r[i].kind == ds[i].kind && r[i].node == ds[i].node && r[i].index == ds[i].index
      && r[i].value == ds[i].value && r[i].typeName == ds[i].typeName
      && r[i].property.Some?
      && r[i].property == (if ds[i].property.Some? then ds[i].property else Some(p))
  {
    seq(|ds|, i requires 0 <= i < |ds| =>
      if ds[i].property.None? then ds[i].(property := Some(p)) else ds[i])
  }

  /** The array comparison's back-fill: differences with neither a property
      nor an index get index `k`; everything else is kept. */
  function FillIndex(ds: seq<SemDiff>, k: nat): (r: seq<SemDiff>)
    ensures |r| == |ds|
    ensures forall i :: 0 <= i < |ds| ==>
      r[i].kind == ds[i].kind && r[i].node == ds[i].node && r[i].property == ds[i].property
      && r[i].value == ds[i].value && r[i].typeName == ds[i].typeName
      && r[i].index == (if ds[i].index.None? && ds[i].property.None? then Some(k) else ds[i].index)
  {
    seq(|ds|, i requires 0 <= i < |ds| =>
      if ds[i].index.None? && ds[i].property.None? then ds[i].(index := Some(k)) else ds[i])
  }

  // ---------------------------------------------------------------------
  // From differences to messages

  /** What toMessages can throw: the differencer's own exception, or the
      NullPointerException of labelling a difference that has no property. */
  datatype Thrown = Raised(exception: SemDiffException) | NullPointer

  /** getPropertyName: the property's key, with "[index]" appended when an
      index is set; None where the source dereferences a missing property. */
  function PropertyName(d: SemDiff): Option<string>
  {
    if d.property.None? then None
    else if d.index.Some? then Some(d.property.value.key + "[" + NatToString(d.index.value) + "]")
    else Some(d.property.value.key)
  }

  /** toMessage: one message per difference, chosen by its kind. The
      source's default branch is unreachable, because the enum has three values. */
  function ToMessage(d: SemDiff): Result<Message, Thrown>
  {
    var name := PropertyName(d);
    if name.None? then Failure(NullPointer)
    else
      match d.kind
      case MissingProperty => Success(MissingPropertyMessage(Some(d.node), name.value))
      case DifferentValue => Success(DifferentPropertyValueMessage(Some(d.node), name.value, d.value))
      case DifferentType => Success(DifferentPropertyTypeMessage(Some(d.node), name.value, d.typeName))
  }

  /** The loop of toMessages after its first `n` differences. */
  function MessagesUpTo(ds: seq<SemDiff>, n: nat): Result<seq<Message>, Thrown>
    requires n <= |ds|
    decreases n
  {
    if n == 0 then Success([])
    else
      var acc := MessagesUpTo(ds, n - 1);
      if acc.Failure? then acc
      else
        var m := ToMessage(ds[n - 1]);
        if m.Failure? then Failure(m.error) else Success(acc.value + [m.value])
  }

  /** toMessages: the equivalence message alone when there is no difference. */
  function ToMessages(ds: seq<SemDiff>): Result<seq<Message>, Thrown>
  {
    if ds == [] then Success([EquivalentModelsMessage(None)]) else MessagesUpTo(ds, |ds|)
  }

  /** The public semDiffASTs on two documents. */
  function SemDiffDocuments(mode: Mode, d1: Document, d2: Document): Result<seq<Message>, Thrown>
  {
    var r := Diff(mode, d1.value, d2.value);
    if r.Failure? then Failure(Raised(r.error)) else ToMessages(r.value)
  }

  /** What the parser makes of an artifact: a document, nothing, or an
      I/O failure with its description. The parser is not part of this model. */
  datatype ParseOutcome = Parsed(document: Document) | NotParsed | ReadFailed(reason: string)

  /** parse(model): a parse that yields no document, or fails to read,
      throws FAILED_TO_PARSE_MODEL naming the artifact. */
  function ParseArtifact(name: string, parsed: ParseOutcome): Result<Document, SemDiffException>
  {
    match parsed
    case Parsed(d) => Success(d)
    case NotParsed => Failure(NewException(FailedToParseModel, name))
    case ReadFailed(reason) => Failure(NewWrappedException(FailedToParseModel, name, Some(reason)))
  }

  /** semDiffJSONArtifacts: the first artifact is parsed before the second. */
  function SemDiffArtifacts(mode: Mode, name1: string, parsed1: ParseOutcome, name2: string, parsed2: ParseOutcome)
    : Result<seq<Message>, Thrown>
  {
    var d1 := ParseArtifact(name1, parsed1);
    if d1.Failure? then Failure(Raised(d1.error))
    else
      var d2 := ParseArtifact(name2, parsed2);
      if d2.Failure? then Failure(Raised(d2.error))
      else SemDiffDocuments(mode, d1.value, d2.value)
  }

  // ---------------------------------------------------------------------
  // Facts the methods rely on

  /** Once the object comparison has thrown, it keeps the same exception. */
  lemma {:induction false} PropsFailurePersists(mode: Mode, o1: Value, o2: Value, k: nat, n: nat)
    requires o1.Object? && o2.Object? && k <= n <= |o1.props|
    requires DiffProps(mode, o1, o2, k).Failure?
    ensures DiffProps(mode, o1, o2, n) == DiffProps(mode, o1, o2, k)
    decreases n
  {
    if n > k {
      PropsFailurePersists(mode, o1, o2, k, n - 1);
    }
  }

  /** Once the array comparison has thrown, it keeps the same exception. */
  lemma {:induction false} ElemsFailurePersists(mode: Mode, a1: Value, a2: Value, k: nat, n: nat)
    requires a1.Array? && a2.Array? && k <= n <= |a1.values|
    requires DiffElems(mode, a1, a2, k).Failure?
    ensures DiffElems(mode, a1, a2, n) == DiffElems(mode, a1, a2, k)
    decreases n
  {
    if n > k {
      ElemsFailurePersists(mode, a1, a2, k, n - 1);
    }
  }

  /** Once a conversion has failed, the loop keeps the same failure. */
  lemma {:induction false} MessagesFailurePersists(ds: seq<SemDiff>, k: nat, n: nat)
    requires k <= n <= |ds|
    requires MessagesUpTo(ds, k).Failure?
    ensures MessagesUpTo(ds, n) == MessagesUpTo(ds, k)
    decreases n
  {
    if n > k {
      MessagesFailurePersists(ds, k, n - 1);
    }
  }

  /** Two lists of distinct difference objects, with no object in both,
      concatenate to one. */
  lemma HoldsAppend(a: seq<Difference>, ra: seq<SemDiff>, b: seq<Difference>, rb: seq<SemDiff>)
    requires Holds(a, ra) && Holds(b, rb)
    requires forall i, j :: 0 <= i < |a| && 0 <= j < |b| ==> a[i] != b[j]
    ensures Holds(a + b, ra + rb)
  {
    var c := a + b;
    forall i, j | 0 <= i < j < |c|
      ensures c[i] != c[j]
    {
      if j < |a| {
      } else if i >= |a| {
        assert c[i] == b[i - |a|] && c[j] == b[j - |a|];
      } else {
        assert c[j] == b[j - |a|];
      }
    }
  }

  // ---------------------------------------------------------------------
  // The differencer object

  /** SemanticJSONDifferencer. Its printer renders the right-hand number of
      a differing pair; the parser is not part of this model, so the
      artifacts' parse outcomes are parameters. */
  class SemanticJsonDifferencer {
    const prettyPrinter: JsonPrettyPrinter

    constructor ()
      ensures fresh(prettyPrinter) && fresh(prettyPrinter.printer)
    {
      prettyPrinter := new JsonPrettyPrinter();
    }

    /** semDiffJSONArtifacts: parses both artifacts, then compares them. */
    method SemDiffJsonArtifacts(mode: Mode, name1: string, parsed1: ParseOutcome, name2: string, parsed2: ParseOutcome)
      returns (r: Result<seq<Message>, Thrown>)
      modifies prettyPrinter.printer
      ensures r == SemDiffArtifacts(mode, name1, parsed1, name2, parsed2)
    {
      var d1 := ParseArtifact(name1, parsed1);
      if d1.Failure? {
        return Failure(Raised(d1.error));
      }
      var d2 := ParseArtifact(name2, parsed2);
      if d2.Failure? {
        return Failure(Raised(d2.error));
      }
      r := SemDiffAsts(mode, d1.value, d2.value);
    }

    /** The public semDiffASTs on two documents. */
    method SemDiffAsts(mode: Mode, d1: Document, d2: Document) returns (r: Result<seq<Message>, Thrown>)
      modifies prettyPrinter.printer
      ensures r == SemDiffDocuments(mode, d1, d2)
    {
      var ds := SemDiffTrees(mode, d1.value, d2.value);
      if ds.Failure? {
        return Failure(Raised(ds.error));
      }
      r := ToMessagesOf(ds.value, Diff(mode, d1.value, d2.value).value);
    }

    /** toMessages over the difference objects. */
    method ToMessagesOf(ds: seq<Difference>, ghost records: seq<SemDiff>) returns (r: Result<seq<Message>, Thrown>)
      requires Holds(ds, records)
      ensures r == ToMessages(records)
    {
      if |ds| == 0 {
        assert records == [];
        return Success([EquivalentModelsMessage(None)]);
      }
      var result: seq<Message> := [];
      for i := 0 to |ds|
        invariant MessagesUpTo(records, i) == Success(result)
      {
        var m := ToMessageOf(ds[i]);
        if m.Failure? {
          MessagesFailurePersists(records, i + 1, |ds|);
          return Failure(m.error);
        }
        result := result + [m.value];
      }
      r := Success(result);
    }

    /** toMessage together with getPropertyName, on one difference object. */
    method ToMessageOf(d: Difference) returns (r: Result<Message, Thrown>)
      ensures r == ToMessage(d.Record())
    {
      if d.property.None? {
        return Failure(NullPointer);
      }
      var name := d.property.value.key;
      if d.index.Some? {
        name := name + "[" + NatToString(d.index.value) + "]";
      }
      match d.kind
      case MissingProperty => r := Success(MissingPropertyMessage(Some(d.node), name));
      case DifferentValue => r := Success(DifferentPropertyValueMessage(Some(d.node), name, d.value));
      case DifferentType => r := Success(DifferentPropertyTypeMessage(Some(d.node), name, d.typeName));
    }

    /** The dispatching semDiffASTs on two values: the objects it returns are
        new, hold exactly the differences `Diff` specifies, and it throws
        exactly when `Diff` does. */
    method SemDiffTrees(mode: Mode, n1: Value, n2: Value) returns (r: Result<seq<Difference>, SemDiffException>)
      modifies prettyPrinter.printer
      ensures r.Success? <==> Diff(mode, n1, n2).Success?
      ensures r.Failure? ==> r.error == Diff(mode, n1, n2).error
      ensures r.Success? ==> Holds(r.value, Diff(mode, n1, n2).value)
      ensures r.Success? ==> forall i :: 0 <= i < |r.value| ==> fresh(r.value[i])
      decreases n1, 2
    {
      if !EqualJsonType(n1, n2) {
        var d: Difference;
        if mode == AsWritten {
          d := Difference.NewDifferentType(n1, JsonTypeName(n1));
        } else {
          d := Difference.NewDifferentTypeCorrected(n1, JsonTypeName(n1));
        }
        return Success([d]);
      }
      match n1
      case Object(_) => r := SemDiffObject(mode, n1, n2);
      case Array(_) => r := SemDiffArray(mode, n1, n2);
      case Boolean(_) => var ds := SemDiffLeaf(mode, n1, n2); r := Success(ds);
      case Str(_) => var ds := SemDiffLeaf(mode, n1, n2); r := Success(ds);
      case Number(_) => var ds := SemDiffLeaf(mode, n1, n2); r := Success(ds);
      case Null =>
        if mode == AsWritten {
          r := Failure(NewException(UnknownJsonValueType, NodeClassName(n1)));
        } else {
          r := Success([]);
        }
    }

    /** semDiffASTs on two booleans, two strings or two numbers: nothing
        when equal, else a different-value difference whose value is the
        left boolean or string but the printed right number. */
    method SemDiffLeaf(mode: Mode, n1: Value, n2: Value) returns (ds: seq<Difference>)
      requires EqualJsonType(n1, n2) && (n1.Boolean? || n1.Str? || n1.Number?)
      modifies prettyPrinter.printer
      ensures Diff(mode, n1, n2).Success? && Holds(ds, Diff(mode, n1, n2).value)
      ensures forall i :: 0 <= i < |ds| ==> fresh(ds[i])
    {
      if n1 == n2 {
        assert Diff(mode, n1, n2) == Success([]);
        return [];
      }
      var text: string;
      match n1 {
        case Boolean(b) => text := BoolText(b);
        case Str(s) => text := StringValue(s);
        case Number(_) =>
          text := prettyPrinter.PrintJsonNumber(n2);
          assert text == JsonText(n2);
      }
      assert Diff(mode, n1, n2) == Success([DifferentValueOf(n1, text)]);
      var d := Difference.NewDifferentValue(n1, text);
      ds := [d];
    }

    /** semDiffASTs on two objects. */
    method SemDiffObject(mode: Mode, o1: Value, o2: Value) returns (r: Result<seq<Difference>, SemDiffException>)
      requires o1.Object? && o2.Object?
      modifies prettyPrinter.printer
      ensures r.Success? <==> DiffProps(mode, o1, o2, |o1.props|).Success?
      ensures r.Failure? ==> r.error == DiffProps(mode, o1, o2, |o1.props|).error
      ensures r.Success? ==> Holds(r.value, DiffProps(mode, o1, o2, |o1.props|).value)
      ensures r.Success? ==> forall i :: 0 <= i < |r.value| ==> fresh(r.value[i])
      decreases o1, 1
    {
      var result: seq<Difference> := [];
      var n := |o1.props|;
      var i := 0;
      while i < n
        invariant 0 <= i <= n
        invariant DiffProps(mode, o1, o2, i).Success?
        invariant Holds(result, DiffProps(mode, o1, o2, i).value)
        invariant forall j :: 0 <= j < |result| ==> fresh(result[j])
      {
        var step := SemDiffProperty(mode, o1, o2, i, result);
        if step.Failure? {
          PropsFailurePersists(mode, o1, o2, i + 1, n);
          return Failure(step.error);
        }
        forall j | 0 <= j < |step.value|
          ensures fresh(step.value[j])
        {
          if j < |result| {
            assert step.value[j] == step.value[..|result|][j] == result[j];
          }
        }
        result := step.value;
        i := i + 1;
      }
      return Success(result);
    }

    /** One turn of the property loop: compares left property `i` and
        appends what it finds to `result`, whose objects stay as they are. */
    method SemDiffProperty(mode: Mode, o1: Value, o2: Value, i: nat, result: seq<Difference>)
      returns (r: Result<seq<Difference>, SemDiffException>)
      requires o1.Object? && o2.Object? && i < |o1.props|
      requires DiffProps(mode, o1, o2, i).Success?
      requires Holds(result, DiffProps(mode, o1, o2, i).value)
      modifies prettyPrinter.printer
      ensures r.Success? <==> DiffProps(mode, o1, o2, i + 1).Success?
      ensures r.Failure? ==> r.error == DiffProps(mode, o1, o2, i + 1).error
      ensures r.Success? ==> Holds(r.value, DiffProps(mode, o1, o2, i + 1).value)
      ensures r.Success? ==> |result| <= |r.value| && r.value[..|result|] == result
      ensures r.Success? ==> forall j :: |result| <= j < |r.value| ==> fresh(r.value[j])
      decreases o1, 0
    {
      ghost var acc := DiffProps(mode, o1, o2, i).value;
      var p1 := o1.props[i];
      var props2 := GetProps(o2.props, p1.key);
      if props2 == [] {
        var d := Difference.NewMissingProperty(o1, p1);
        HoldsAppend(result, acc, [d], [MissingPropertyOf(o1, p1)]);
        return Success(result + [d]);
      } else if |props2| > 1 {
        return Failure(NewException(AmbiguousProperty, p1.key));
      }
      var nested := SemDiffTrees(mode, p1.value, props2[0].value);
      if nested.Failure? {
        return Failure(nested.error);
      }
      ghost var records := Diff(mode, p1.value, props2[0].value).value;
      FillPropertyInPlace(nested.value, records, p1);
      HoldsAppend(result, acc, nested.value, FillProperty(records, p1));
      assert (result + nested.value)[..|result|] == result;
      return Success(result + nested.value);
    }

    /** semDiffASTs on two arrays. */
    method SemDiffArray(mode: Mode, a1: Value, a2: Value) returns (r: Result<seq<Difference>, SemDiffException>)
      requires a1.Array? && a2.Array?
      modifies prettyPrinter.printer
      ensures r.Success? <==> DiffElems(mode, a1, a2, |a1.values|).Success?
      ensures r.Failure? ==> r.error == DiffElems(mode, a1, a2, |a1.values|).error
      ensures r.Success? ==> Holds(r.value, DiffElems(mode, a1, a2, |a1.values|).value)
      ensures r.Success? ==> forall i :: 0 <= i < |r.value| ==> fresh(r.value[i])
      decreases a1, 1
    {
      var result: seq<Difference> := [];
      var n := |a1.values|;
      var i := 0;
      while i < n
        invariant 0 <= i <= n
        invariant DiffElems(mode, a1, a2, i).Success?
        invariant Holds(result, DiffElems(mode, a1, a2, i).value)
        invariant forall j :: 0 <= j < |result| ==> fresh(result[j])
      {
        var step := SemDiffElement(mode, a1, a2, i, result);
        if step.Failure? {
          ElemsFailurePersists(mode, a1, a2, i + 1, n);
          return Failure(step.error);
        }
        forall j | 0 <= j < |step.value|
          ensures fresh(step.value[j])
        {
          if j < |result| {
            assert step.value[j] == step.value[..|result|][j] == result[j];
          }
        }
        result := step.value;
        i := i + 1;
      }
      return Success(result);
    }

    /** One turn of the index loop: compares left element `i` and appends
        what it finds to `result`, whose objects stay as they are. */
    method SemDiffElement(mode: Mode, a1: Value, a2: Value, i: nat, result: seq<Difference>)
      returns (r: Result<seq<Difference>, SemDiffException>)
      requires a1.Array? && a2.Array? && i < |a1.values|
      requires DiffElems(mode, a1, a2, i).Success?
      requires Holds(result, DiffElems(mode, a1, a2, i).value)
      modifies prettyPrinter.printer
      ensures r.Success? <==> DiffElems(mode, a1, a2, i + 1).Success?
      ensures r.Failure? ==> r.error == DiffElems(mode, a1, a2, i + 1).error
      ensures r.Success? ==> Holds(r.value, DiffElems(mode, a1, a2, i + 1).value)
      ensures r.Success? ==> |result| <= |r.value| && r.value[..|result|] == result
      ensures r.Success? ==> forall j :: |result| <= j < |r.value| ==> fresh(r.value[j])
      decreases a1, 0
    {
      ghost var acc := DiffElems(mode, a1, a2, i).value;
      if i >= |a2.values| {
        var d := Difference.NewMissingIndex(a1, i);
        HoldsAppend(result, acc, [d], [MissingIndexOf(a1, i)]);
        return Success(result + [d]);
      }
      var nested := SemDiffTrees(mode, a1.values[i], a2.values[i]);
      if nested.Failure? {
        return Failure(nested.error);
      }
      ghost var records := Diff(mode, a1.values[i], a2.values[i]).value;
      FillIndexInPlace(nested.value, records, i);
      HoldsAppend(result, acc, nested.value, FillIndex(records, i));
      assert (result + nested.value)[..|result|] == result;
      return Success(result + nested.value);
    }
  }

  /** The object comparison's `forEach`: writes `p` into every difference
      that has no property yet, and touches nothing else. */
  method FillPropertyInPlace(ds: seq<Difference>, ghost records: seq<SemDiff>, p: Property)
    requires Holds(ds, records)
    modifies set j | 0 <= j < |ds| :: ds[j]
    ensures Holds(ds, FillProperty(records, p))
  {
    for i := 0 to |ds|
      invariant forall j :: 0 <= j < i ==> ds[j].Record() == FillProperty(records, p)[j]
      invariant forall j :: i <= j < |ds| ==> ds[j].Record() == records[j]
    {
      if ds[i].property.None? {
        ds[i].SetProperty(p);
      }
    }
  }

  /** The array comparison's loop over the nested differences: writes `k`
      into every difference with neither property nor index. */
  method FillIndexInPlace(ds: seq<Difference>, ghost records: seq<SemDiff>, k: nat)
    requires Holds(ds, records)
    modifies set j | 0 <= j < |ds| :: ds[j]
    ensures Holds(ds, FillIndex(records, k))
  {
    for i := 0 to |ds|
      invariant forall j :: 0 <= j < i ==> ds[j].Record() == FillIndex(records, k)[j]
      invariant forall j :: i <= j < |ds| ==> ds[j].Record() == records[j]
    {
      if ds[i].index.None? && ds[i].property.None? {
        ds[i].SetIndex(k);
      }
    }
  }
}

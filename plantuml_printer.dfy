/** JSONToPlantUML: renders a JSON document as a PlantUML `@startjson`
    diagram. The body has JSONPrettyPrinter's layout, with "," instead of
    ", " between siblings. */
module PlantUmlPrinter {

  import opened JsonAst
  import opened Strings
  import opened IndentPrinting
  import opened JsonPrinter

  const StartTag: string := "@startjson"
  const EndTag: string := "@endjson"

  /** The text between two siblings in the diagram body. */
  const PumlComma: string := ","

  /** The diagram body for a value. */
  function PumlText(v: Value): string
  {
    Layout(PumlComma, v)
  }

  /** The whole diagram: the start tag on its own line, the body, a line
      break, and the end tag. */
  function PumlDocument(d: Document): string
  {
    StartTag + Newline + PumlText(d.value) + Newline + EndTag
  }

  class JsonToPlantUml {
    const printer: IndentPrinter

    constructor ()
      ensures fresh(printer) && printer.content == "" && printer.indentation == 0
    {
      printer := new IndentPrinter();
    }

    /** printJSONDocument: clears the buffer, then prints the document. */
    method PrintJsonDocument(d: Document) returns (s: string)
      modifies printer
      ensures s == PumlDocument(d) && printer.content == s
      ensures printer.indentation == old(printer.indentation)
    {
      printer.ClearBuffer();
      printer.Println(StartTag);
      Handle(d.value);
      printer.Println("");
      printer.Print(EndTag);
      s := printer.GetContent();
      assert s == "" + StartTag + Newline + PumlText(d.value) + "" + Newline + EndTag;
    }

    /** The traverser's dispatch on a value. */
    method Handle(v: Value)
      modifies printer
      ensures printer.content == old(printer.content) + PumlText(v)
      ensures printer.indentation == old(printer.indentation)
      decreases v, 1
    {
      match v
      case Object(_) => HandleObject(v);
      case Array(_) => HandleArray(v);
      case Str(s) => printer.Print("\"" + s + "\"");
      case Number(s) => printer.Print(s);
      case Boolean(b) => printer.Print(BoolText(b));
      case Null => printer.Print("null");
    }

    /** handle(ASTJSONObject): visit prints "{" and indents, each property
        prints its key text and value followed by "," or a bare line break,
        and endVisit unindents and prints "}". */
    method HandleObject(o: Value)
      requires o.Object?
      modifies printer
      ensures printer.content == old(printer.content) + PumlText(o)
      ensures printer.indentation == old(printer.indentation)
      decreases o, 0
    {
      printer.Println("{");
      printer.Indent();
      ghost var start := printer.content;
      var length := |o.props|;
      var i := 0;
      while i < length
        invariant 0 <= i <= length
        invariant printer.content + PropsLayout(PumlComma, o, i) == start + PropsLayout(PumlComma, o, 0)
        invariant printer.indentation == old(printer.indentation) + 1
      {
        var p := o.props[i];
        ghost var before := printer.content;
        printer.Print(KeyText(p.key));
        Handle(p.value);
        if i < length - 1 {
          printer.Println(",");
          PropsStep(PumlComma, before, o, i, ",", printer.content);
        } else {
          printer.Println("");
          PropsStep(PumlComma, before, o, i, "", printer.content);
        }
        i := i + 1;
      }
      printer.Unindent();
      printer.Print("}");
      Closed(old(printer.content), "{", PropsLayout(PumlComma, o, 0), "}", start, printer.content);
    }

    /** handle(ASTJSONArray): the same with "[" and "]". */
    method HandleArray(a: Value)
      requires a.Array?
      modifies printer
      ensures printer.content == old(printer.content) + PumlText(a)
      ensures printer.indentation == old(printer.indentation)
      decreases a, 0
    {
      printer.Println("[");
      printer.Indent();
      ghost var start := printer.content;
      var length := |a.values|;
      var i := 0;
      while i < length
        invariant 0 <= i <= length
        invariant printer.content + ElemsLayout(PumlComma, a, i) == start + ElemsLayout(PumlComma, a, 0)
        invariant printer.indentation == old(printer.indentation) + 1
      {
        ghost var before := printer.content;
        Handle(a.values[i]);
        if i < length - 1 {
          printer.Println(",");
          ElemsStep(PumlComma, before, a, i, ",", printer.content);
        } else {
          printer.Println("");
          ElemsStep(PumlComma, before, a, i, "", printer.content);
        }
        i := i + 1;
      }
      printer.Unindent();
      printer.Print("]");
      Closed(old(printer.content), "[", ElemsLayout(PumlComma, a, 0), "]", start, printer.content);
    }
  }

  // ---------------------------------------------------------------------
  // Properties

  /** The diagram starts with "@startjson" and ends with "@endjson"; cutting
      the first 10 and the last 8 characters leaves the body between two
      line breaks. */
  lemma Envelope(d: Document)
    ensures var s := PumlDocument(d);
      |s| >= 18 && s[..10] == StartTag && s[|s| - 8..] == EndTag
      && s[10..|s| - 8] == Newline + PumlText(d.value) + Newline
  {
    var s := PumlDocument(d);
    var body := Newline + PumlText(d.value) + Newline;
    assert s == StartTag + body + EndTag;
    assert |StartTag| == 10 && |EndTag| == 8;
  }

  /** Leaves print the same in the diagram as in JSON text. */
  lemma LeavesAsInJson(v: Value)
    requires !v.Object? && !v.Array?
    ensures PumlText(v) == JsonText(v)
  {
  }

  /** How many sibling separators a layout of `v` contains. */
  function Gaps(v: Value): nat
    decreases v, 1, 0
  {
    match v
    case Object(ps) => PropsGaps(v, 0)
    case Array(vs) => ElemsGaps(v, 0)
    case _ => 0
  }

  function PropsGaps(o: Value, i: nat): nat
    requires o.Object? && i <= |o.props|
    decreases o, 0, |o.props| - i
  {
    if i == |o.props| then 0
    else Gaps(o.props[i].value) + (if i + 1 < |o.props| then 1 else 0) + PropsGaps(o, i + 1)
  }

  function ElemsGaps(a: Value, i: nat): nat
    requires a.Array? && i <= |a.values|
    decreases a, 0, |a.values| - i
  {
    if i == |a.values| then 0
    else Gaps(a.values[i]) + (if i + 1 < |a.values| then 1 else 0) + ElemsGaps(a, i + 1)
  }

  /** The JSON text is the diagram body with one character inserted per
      sibling separator: the body is a subsequence of the JSON text, which is
      longer by exactly the number of separators. The two printers lay out the
      same tree identically but for the space after each comma. */
  lemma {:induction false} JsonIsBodyPlusSpaces(v: Value)
    ensures IsSubsequence(PumlText(v), JsonText(v))
    ensures |JsonText(v)| == |PumlText(v)| + Gaps(v)
    decreases v, 1, 0
  {
    match v
    case Object(ps) =>
      PropsPlusSpaces(v, 0);
      Enclosed("{" + Newline, PropsLayout(PumlComma, v, 0), PropsLayout(JsonComma, v, 0), "}");
    case Array(vs) =>
      ElemsPlusSpaces(v, 0);
      Enclosed("[" + Newline, ElemsLayout(PumlComma, v, 0), ElemsLayout(JsonComma, v, 0), "]");
    case _ =>
      SubsequenceOfSelf(PumlText(v));
  }

  /** A subsequence stays one between the same opening and closing text. */
  lemma Enclosed(front: string, a: string, b: string, back: string)
    requires IsSubsequence(a, b)
    ensures IsSubsequence(front + a + back, front + b + back)
  {
    SubsequenceOfSelf(front);
    SubsequenceOfSelf(back);
    SubsequenceConcat(front, front, a, b);
    SubsequenceConcat(front + a, front + b, back, back);
  }

  /** A diagram separator is a subsequence of the JSON one. */
  lemma SeparatorSubsequence(n: nat, i: nat)
    ensures IsSubsequence(Separator(PumlComma, n, i), Separator(JsonComma, n, i))
  {
    var p, j := Separator(PumlComma, n, i), Separator(JsonComma, n, i);
    SubsequenceOfSelf(Newline);
    if i + 1 < n {
      assert p == [','] + Newline && j == [','] + ([' '] + Newline);
      SubsequenceOfSelf([',']);
      SubsequenceDropPrefix(Newline, [' '], Newline);
      SubsequenceConcat([','], [','], Newline, [' '] + Newline);
    }
  }

  /** One sibling followed by the rest. */
  lemma SiblingSubsequence(front: string, a: string, b: string, sa: string, sb: string, ra: string, rb: string)
    requires IsSubsequence(a, b) && IsSubsequence(sa, sb) && IsSubsequence(ra, rb)
    ensures IsSubsequence(front + a + sa + ra, front + b + sb + rb)
  {
    SubsequenceOfSelf(front);
    SubsequenceConcat(front, front, a, b);
    SubsequenceConcat(front + a, front + b, sa, sb);
    SubsequenceConcat(front + a + sa, front + b + sb, ra, rb);
  }

  lemma {:induction false} PropsPlusSpaces(o: Value, i: nat)
    requires o.Object? && i <= |o.props|
    ensures IsSubsequence(PropsLayout(PumlComma, o, i), PropsLayout(JsonComma, o, i))
    ensures |PropsLayout(JsonComma, o, i)| == |PropsLayout(PumlComma, o, i)| + PropsGaps(o, i)
    decreases o, 0, |o.props| - i
  {
    if i < |o.props| {
      var n := |o.props|;
      JsonIsBodyPlusSpaces(o.props[i].value);
      PropsPlusSpaces(o, i + 1);
      SeparatorSubsequence(n, i);
      SiblingSubsequence(KeyText(o.props[i].key),
        Layout(PumlComma, o.props[i].value), Layout(JsonComma, o.props[i].value),
        Separator(PumlComma, n, i), Separator(JsonComma, n, i),
        PropsLayout(PumlComma, o, i + 1), PropsLayout(JsonComma, o, i + 1));
    } else {
      SubsequenceOfEmpty(PropsLayout(JsonComma, o, i));
    }
  }

  lemma {:induction false} ElemsPlusSpaces(a: Value, i: nat)
    requires a.Array? && i <= |a.values|
    ensures IsSubsequence(ElemsLayout(PumlComma, a, i), ElemsLayout(JsonComma, a, i))
    ensures |ElemsLayout(JsonComma, a, i)| == |ElemsLayout(PumlComma, a, i)| + ElemsGaps(a, i)
    decreases a, 0, |a.values| - i
  {
    if i < |a.values| {
      var n := |a.values|;
      JsonIsBodyPlusSpaces(a.values[i]);
      ElemsPlusSpaces(a, i + 1);
      SeparatorSubsequence(n, i);
      SiblingSubsequence("",
        Layout(PumlComma, a.values[i]), Layout(JsonComma, a.values[i]),
        Separator(PumlComma, n, i), Separator(JsonComma, n, i),
        ElemsLayout(PumlComma, a, i + 1), ElemsLayout(JsonComma, a, i + 1));
      assert "" + Layout(PumlComma, a.values[i]) == Layout(PumlComma, a.values[i]);
      assert "" + Layout(JsonComma, a.values[i]) == Layout(JsonComma, a.values[i]);
    } else {
      SubsequenceOfEmpty(ElemsLayout(JsonComma, a, i));
    }
  }
}

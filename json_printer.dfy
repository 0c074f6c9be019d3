/** JSONPrettyPrinter: renders a JSON tree as JSON text, one property or
    element per line. */
module JsonPrinter {

  import opened JsonAst
  import opened Strings
  import opened IndentPrinting

  function BoolText(b: bool): string
  {
    if b then "true" else "false"
  }

  /** The text of a string, number, boolean or null: strings are quoted
      around their source text, numbers print their source text verbatim. */
  function LeafText(v: Value): string
    requires !v.Object? && !v.Array?
  {
    match v
    case Str(s) => "\"" + s + "\""
    case Number(s) => s
    case Boolean(b) => BoolText(b)
    case Null => "null"
  }

  /** What a property prints before its value: the key in quotes, unescaped. */
  function KeyText(key: string): string
  {
    "\"" + key + "\": "
  }

  /** What follows element `i` of `n`: `comma` and a line break between
      elements, a line break after the last one. */
  function Separator(comma: string, n: nat, i: nat): string
  {
    if i + 1 < n then comma + Newline else Newline
  }

  /** The layout both JSON printers share: an object as "{", a line break,
      its properties as `"key": value` each followed by its separator, then
      "}"; an array the same way between "[" and "]"; leaves as their text.
      Only the text between siblings, `comma`, differs between the printers. */
  function Layout(comma: string, v: Value): string
    decreases v, 1, 0
  {
    match v
    case Object(ps) => "{" + Newline + PropsLayout(comma, v, 0) + "}"
    case Array(vs) => "[" + Newline + ElemsLayout(comma, v, 0) + "]"
    case _ => LeafText(v)
  }

  /** The properties of object `o` from index `i` on. */
  function PropsLayout(comma: string, o: Value, i: nat): string
    requires o.Object? && i <= |o.props|
    decreases o, 0, |o.props| - i
  {
    if i == |o.props| then ""
    else
      KeyText(o.props[i].key) + Layout(comma, o.props[i].value) + Separator(comma, |o.props|, i)
      + PropsLayout(comma, o, i + 1)
  }

  /** The elements of array `a` from index `i` on. */
  function ElemsLayout(comma: string, a: Value, i: nat): string
    requires a.Array? && i <= |a.values|
    decreases a, 0, |a.values| - i
  {
    if i == |a.values| then ""
    else Layout(comma, a.values[i]) + Separator(comma, |a.values|, i) + ElemsLayout(comma, a, i + 1)
  }

  /** The text between two siblings in JSONPrettyPrinter's output. */
  const JsonComma: string := ", "

  /** The printed text of a value. */
  function JsonText(v: Value): string
  {
    Layout(JsonComma, v)
  }

  /** The printer. In the source it is itself an IndentPrinter; here it owns one. */
  class JsonPrettyPrinter {
    const printer: IndentPrinter

    constructor ()
      ensures fresh(printer) && printer.content == "" && printer.indentation == 0
    {
      printer := new IndentPrinter();
    }

    /** printJSONDocument: clears the buffer, so the result depends only on
        the document. */
    method PrintJsonDocument(d: Document) returns (s: string)
      modifies printer
      ensures s == JsonText(d.value) && printer.content == s
      ensures printer.indentation == old(printer.indentation)
    {
      printer.ClearBuffer();
      Handle(d.value);
      s := printer.GetContent();
    }

    /** printJSONNumber: clears the buffer and prints the number alone. */
    method PrintJsonNumber(n: Value) returns (s: string)
      requires n.Number?
      modifies printer
      ensures s == n.source && printer.content == s
      ensures printer.indentation == old(printer.indentation)
    {
      printer.ClearBuffer();
      Handle(n);
      s := printer.GetContent();
    }

    /** The traverser's dispatch on a value: containers go to their `handle`,
        leaves to their `visit`. Every value leaves the level as it found it. */
    method Handle(v: Value)
      modifies printer
      ensures printer.content == old(printer.content) + JsonText(v)
      ensures printer.indentation == old(printer.indentation)
      decreases v, 1
    {
      match v
      case Object(_) => HandleObject(v);
      case Array(_) => HandleArray(v);
      case Str(s) => printer.Print("\"" + s + "\"");
      case Number(s) => printer.Print(s);
      case Boolean(b) => printer.Print(BoolText(b));
      case Null => printer.Print("null");
    }

    method HandleObject(o: Value)
      requires o.Object?
      modifies printer
      ensures printer.content == old(printer.content) + JsonText(o)
      ensures printer.indentation == old(printer.indentation)
      decreases o, 0
    {
      printer.Println("{");
      printer.Indent();
      ghost var start := printer.content;
      var n := |o.props|;
      var i := 0;
      while i < n
        invariant 0 <= i <= n
        invariant printer.content + PropsLayout(JsonComma, o, i) == start + PropsLayout(JsonComma, o, 0)
        invariant printer.indentation == old(printer.indentation) + 1
      {
        var p := o.props[i];
        ghost var before := printer.content;
        var keyText := KeyText(p.key);
        printer.Print(keyText);
        Handle(p.value);
        if i + 1 < n {
          printer.Println(", ");
          PropsStep(JsonComma, before, o, i, ", ", printer.content);
        } else {
          printer.Println("");
          PropsStep(JsonComma, before, o, i, "", printer.content);
        }
        i := i + 1;
      }
      printer.Unindent();
      printer.Print("}");
      Closed(old(printer.content), "{", PropsLayout(JsonComma, o, 0), "}", start, printer.content);
    }

    method HandleArray(a: Value)
      requires a.Array?
      modifies printer
      ensures printer.content == old(printer.content) + JsonText(a)
      ensures printer.indentation == old(printer.indentation)
      decreases a, 0
    {
      printer.Println("[");
      printer.Indent();
      ghost var start := printer.content;
      var n := |a.values|;
      var i := 0;
      while i < n
        invariant 0 <= i <= n
        invariant printer.content + ElemsLayout(JsonComma, a, i) == start + ElemsLayout(JsonComma, a, 0)
        invariant printer.indentation == old(printer.indentation) + 1
      {
        ghost var before := printer.content;
        Handle(a.values[i]);
        if i + 1 < n {
          printer.Println(", ");
          ElemsStep(JsonComma, before, a, i, ", ", printer.content);
        } else {
          printer.Println("");
          ElemsStep(JsonComma, before, a, i, "", printer.content);
        }
        i := i + 1;
      }
      printer.Unindent();
      printer.Print("]");
      Closed(old(printer.content), "[", ElemsLayout(JsonComma, a, 0), "]", start, printer.content);
    }
  }

  /** One property printed: the text after `before` now covers property `i`. */
  lemma PropsStep(comma: string, before: string, o: Value, i: nat, sep: string, after: string)
    requires o.Object? && i < |o.props|
    requires sep == if i + 1 < |o.props| then comma else ""
    requires after == before + KeyText(o.props[i].key) + Layout(comma, o.props[i].value) + sep + Newline
    ensures after + PropsLayout(comma, o, i + 1) == before + PropsLayout(comma, o, i)
  {
    var k, j, s := KeyText(o.props[i].key), Layout(comma, o.props[i].value), Separator(comma, |o.props|, i);
    assert s == sep + Newline;
    ConcatAssoc(before + k + j, sep, Newline);
    ConcatAssoc(before, k, j);
    ConcatAssoc(before, k + j, s);
    ConcatAssoc(before, k + j + s, PropsLayout(comma, o, i + 1));
  }

  /** One element printed: the text after `before` now covers element `i`. */
  lemma ElemsStep(comma: string, before: string, a: Value, i: nat, sep: string, after: string)
    requires a.Array? && i < |a.values|
    requires sep == if i + 1 < |a.values| then comma else ""
    requires after == before + Layout(comma, a.values[i]) + sep + Newline
    ensures after + ElemsLayout(comma, a, i + 1) == before + ElemsLayout(comma, a, i)
  {
    var j, s := Layout(comma, a.values[i]), Separator(comma, |a.values|, i);
    assert s == sep + Newline;
    ConcatAssoc(before + j, sep, Newline);
    ConcatAssoc(before, j, s);
    ConcatAssoc(before, j + s, ElemsLayout(comma, a, i + 1));
  }

  /** A container closed: its opening line, its body and its closing bracket. */
  lemma Closed(old0: string, open: string, body: string, close: string, start: string, after: string)
    requires start == old0 + open + Newline
    requires after == start + body + close
    ensures after == old0 + (open + Newline + body + close)
  {
    ConcatAssoc(old0, open, Newline);
    ConcatAssoc(old0, open + Newline, body);
    ConcatAssoc(old0, open + Newline + body, close);
  }
}

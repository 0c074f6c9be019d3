/** JSONToXML: renders a JSON tree as XML. Each property becomes an element
    named by its cleaned key, each array element a `<value>` element; an
    object contributes its properties with no wrapper of its own. */
module XmlPrinter {

  import opened Wrappers
  import opened JsonAst
  import opened Strings
  import opened IndentPrinting
  import opened JsonPrinter

  // ---------------------------------------------------------------------
  // cleanKey

  /** cleanKey adds a leading "_" when the first character's code is below
      65 ('A'), or else when the key starts with "xml" (case-sensitive). */
  predicate NeedsPrefix(key: string)
    requires key != []
  {
    if key[0] < 'A' then true
    else |key| >= 3 && key[..3] == "xml"
  }

  /** Every space replaced by "_". */
  function ReplaceSpaces(s: string): (r: string)
    ensures |r| == |s|
    ensures forall i :: 0 <= i < |s| ==> r[i] == if s[i] == ' ' then '_' else s[i]
  {
    seq(|s|, i requires 0 <= i < |s| => if s[i] == ' ' then '_' else s[i])
  }

  /** cleanKey. It reads the key's first character, so the key must not be
      empty. */
  function CleanKey(key: string): string
    requires key != []
  {
    var prefixed := if NeedsPrefix(key) then "_" + key else key;
    ReplaceSpaces(prefixed)
  }

  /** No key of `v`, at any depth, is empty. */
  predicate KeysNonEmpty(v: Value)
  {
    match v
    case Object(ps) => forall i :: 0 <= i < |ps| ==> ps[i].key != [] && KeysNonEmpty(ps[i].value)
    case Array(vs) => forall i :: 0 <= i < |vs| ==> KeysNonEmpty(vs[i])
    case _ => true
  }

  // ---------------------------------------------------------------------
  // The text

  predicate IsContainer(v: Value)
  {
    v.Object? || v.Array?
  }

  /** The line break an element's opening tag gets when its content is an
      object or an array. */
  function BreakBefore(v: Value): string
  {
    if IsContainer(v) then Newline else ""
  }

  function OpenTag(name: string): string
  {
    "<" + name + ">"
  }

  function CloseTag(name: string): string
  {
    "</" + name + ">"
  }

  /** The XML text of a value: an object is its properties in order, an
      array its elements in order, a leaf its JSON text. */
  function XmlText(v: Value): string
    requires KeysNonEmpty(v)
    decreases v, 2
  {
    match v
    case Object(ps) => XmlPropsText(v, |ps|)
    case Array(vs) => XmlElemsText(v, |vs|)
    case _ => LeafText(v)
  }

  /** A property: its cleaned key as opening tag, then the value, then the
      closing tag and a line break. */
  function XmlPropertyText(p: Property): string
    requires p.key != [] && KeysNonEmpty(p.value)
    decreases p.value, 3
  {
    OpenTag(CleanKey(p.key)) + BreakBefore(p.value) + XmlText(p.value) + CloseTag(CleanKey(p.key)) + Newline
  }

  /** An array element, wrapped in a `value` element. */
  function XmlElementText(e: Value): string
    requires KeysNonEmpty(e)
    decreases e, 3
  {
    OpenTag("value") + BreakBefore(e) + XmlText(e) + CloseTag("value") + Newline
  }

  /** The first `n` properties of object `o`. */
  function XmlPropsText(o: Value, n: nat): string
    requires o.Object? && n <= |o.props| && KeysNonEmpty(o)
    decreases o, 1, n
  {
    if n == 0 then "" else XmlPropsText(o, n - 1) + XmlPropertyText(o.props[n - 1])
  }

  /** The first `n` elements of array `a`. */
  function XmlElemsText(a: Value, n: nat): string
    requires a.Array? && n <= |a.values| && KeysNonEmpty(a)
    decreases a, 1, n
  {
    if n == 0 then "" else XmlElemsText(a, n - 1) + XmlElementText(a.values[n - 1])
  }

  // ---------------------------------------------------------------------
  // The printer

  /** The printer. In the source it is itself an IndentPrinter; here it owns one. */
  class JsonToXml {
    const printer: IndentPrinter

    constructor ()
      ensures fresh(printer) && printer.content == "" && printer.indentation == 0
    {
      printer := new IndentPrinter();
    }

    /** printJSONDocument: clears the buffer and prints the document; None
        where cleanKey would fail on an empty key. */
    method PrintJsonDocument(d: Document) returns (r: Option<string>)
      modifies printer
      ensures r.Some? <==> KeysNonEmpty(d.value)
      ensures r.Some? ==> r.value == XmlText(d.value) && printer.content == r.value
      ensures printer.indentation == old(printer.indentation)
    {
      printer.ClearBuffer();
      if !KeysNonEmpty(d.value) {
        return None;
      }
      Handle(d.value);
      var s := printer.GetContent();
      r := Some(s);
    }

    /** printJSONNumber: clears the buffer and prints the number alone. */
    method PrintJsonNumber(n: Value) returns (s: string)
      requires n.Number?
      modifies printer
      ensures s == n.source && printer.content == s
      ensures printer.indentation == old(printer.indentation)
    {
      printer.ClearBuffer();
      Handle(n);
      s := printer.GetContent();
    }

    /** The traverser's dispatch on a value. */
    method Handle(v: Value)
      requires KeysNonEmpty(v)
      modifies printer
      ensures printer.content == old(printer.content) + XmlText(v)
      ensures printer.indentation == old(printer.indentation)
      decreases v, 2
    {
      match v
      case Object(_) => HandleObject(v);
      case Array(_) => HandleArray(v);
      case Str(s) => printer.Print("\"" + s + "\"");
      case Number(s) => printer.Print(s);
      case Boolean(b) => printer.Print(BoolText(b));
      case Null => printer.Print("null");
    }

    /** handle(ASTJSONObject): each property in turn. */
    method HandleObject(o: Value)
      requires o.Object? && KeysNonEmpty(o)
      modifies printer
      ensures printer.content == old(printer.content) + XmlText(o)
      ensures printer.indentation == old(printer.indentation)
      decreases o, 1
    {
      var i := 0;
      while i < |o.props|
        invariant 0 <= i <= |o.props|
        invariant printer.content == old(printer.content) + XmlPropsText(o, i)
        invariant printer.indentation == old(printer.indentation)
      {
        HandleProperty(o.props[i]);
        ConcatAssoc(old(printer.content), XmlPropsText(o, i), XmlPropertyText(o.props[i]));
        i := i + 1;
      }
    }

    /** A property: visit prints the opening tag (and a line break before a
        container) and indents; the value follows; endVisit unindents and
        prints the closing tag on its line. */
    method HandleProperty(p: Property)
      requires p.key != [] && KeysNonEmpty(p.value)
      modifies printer
      ensures printer.content == old(printer.content) + XmlPropertyText(p)
      ensures printer.indentation == old(printer.indentation)
      decreases p.value, 3
    {
      var open := OpenTag(CleanKey(p.key));
      printer.Print(open);
      if IsContainer(p.value) {
        printer.Println("");
      }
      assert printer.content == old(printer.content) + open + BreakBefore(p.value);
      printer.Indent();
      Handle(p.value);
      printer.Unindent();
      printer.Println(CloseTag(CleanKey(p.key)));
      Regroup(old(printer.content), open, BreakBefore(p.value), XmlText(p.value), CloseTag(CleanKey(p.key)));
    }

    /** handle(ASTJSONArray): each element inside `<value>` and `</value>`,
        with a line break and an extra indent around a container. */
    method HandleArray(a: Value)
      requires a.Array? && KeysNonEmpty(a)
      modifies printer
      ensures printer.content == old(printer.content) + XmlText(a)
      ensures printer.indentation == old(printer.indentation)
      decreases a, 1
    {
      var i := 0;
      while i < |a.values|
        invariant 0 <= i <= |a.values|
        invariant printer.content == old(printer.content) + XmlElemsText(a, i)
        invariant printer.indentation == old(printer.indentation)
      {
        HandleElement(a.values[i]);
        ConcatAssoc(old(printer.content), XmlElemsText(a, i), XmlElementText(a.values[i]));
        i := i + 1;
      }
    }

    /** One array element: the opening `value` tag (with a line break and
        an extra indent before a container), the element, the closing tag. */
    method HandleElement(e: Value)
      requires KeysNonEmpty(e)
      modifies printer
      ensures printer.content == old(printer.content) + XmlElementText(e)
      ensures printer.indentation == old(printer.indentation)
      decreases e, 3
    {
      var linebreak := IsContainer(e);
      printer.Indent();
      printer.Print(OpenTag("value"));
      if linebreak {
        printer.Println("");
        printer.Indent();
      }
      assert printer.content == old(printer.content) + OpenTag("value") + BreakBefore(e);
      Handle(e);
      if linebreak {
        printer.Unindent();
      }
      printer.Println(CloseTag("value"));
      printer.Unindent();
      Regroup(old(printer.content), OpenTag("value"), BreakBefore(e), XmlText(e), CloseTag("value"));
    }
  }

  /** The five pieces of one element, printed one after another. */
  lemma Regroup(s: string, a: string, b: string, c: string, d: string)
    ensures s + a + b + c + d + Newline == s + (a + b + c + d + Newline)
  {
    ConcatAssoc(s, a, b);
    ConcatAssoc(s, a + b, c);
    ConcatAssoc(s, a + b + c, d);
    ConcatAssoc(s, a + b + c + d, Newline);
  }

  // ---------------------------------------------------------------------
  // Properties of cleanKey

  /** A cleaned key has no spaces, starts with a character no smaller than
      'A', and does not start with "xml". */
  lemma CleanKeyIsElementName(key: string)
    requires key != []
    ensures var r := CleanKey(key);
      r != [] && ' ' !in r && r[0] >= 'A' && !(|r| >= 3 && r[..3] == "xml")
  {
    var r := CleanKey(key);
    if NeedsPrefix(key) {
      assert r[0] == '_';
    } else {
      assert r[0] == key[0];
    }
  }

  /** The key's length, plus one when it is prefixed. */
  lemma CleanKeyLength(key: string)
    requires key != []
    ensures |CleanKey(key)| == |key| + (if NeedsPrefix(key) then 1 else 0)
  {
  }

  /** Among keys with no space that do not start with "_", cleanKey is
      one-to-one: the leading "_" tells whether a prefix was added. */
  lemma CleanKeyInjective(k1: string, k2: string)
    requires k1 != [] && k2 != [] && ' ' !in k1 && ' ' !in k2 && k1[0] != '_' && k2[0] != '_'
    requires CleanKey(k1) == CleanKey(k2)
    ensures k1 == k2
  {
    NoSpacesUnchanged(k1);
    NoSpacesUnchanged(k2);
    var r := CleanKey(k1);
    if NeedsPrefix(k1) {
      assert k1 == r[1..] && k2 == CleanKey(k2)[1..];
    }
  }

  lemma NoSpacesUnchanged(key: string)
    requires key != [] && ' ' !in key
    ensures CleanKey(key) == if NeedsPrefix(key) then "_" + key else key
  {
  }

  /** Without those conditions two keys can share a name: "a b" and "a_b",
      and "1" and "_1". */
  lemma CleanKeyCollisions()
    ensures CleanKey("a b") == CleanKey("a_b") == "a_b"
    ensures CleanKey("1") == CleanKey("_1") == "_1"
  {
    assert NeedsPrefix("1") && !NeedsPrefix("_1");
    assert !NeedsPrefix("a b") && !NeedsPrefix("a_b");
    assert CleanKey("a b") == "a_b";
    assert CleanKey("a_b") == "a_b";
  }

  // ---------------------------------------------------------------------
  // Properties of the text

  /** A property's element opens and closes with the same cleaned name. */
  lemma PropertyTagsMatch(p: Property)
    requires p.key != [] && KeysNonEmpty(p.value)
    ensures var t, name := XmlPropertyText(p), CleanKey(p.key);
      |t| >= |OpenTag(name)| + |CloseTag(name)| + 1
      && t[..|OpenTag(name)|] == OpenTag(name)
      && t[|t| - |CloseTag(name)| - 1..] == CloseTag(name) + Newline
  {
    var name := CleanKey(p.key);
    var middle := BreakBefore(p.value) + XmlText(p.value);
    var t := XmlPropertyText(p);
    assert t == OpenTag(name) + middle + (CloseTag(name) + Newline);
  }

  /** An object adds no element of its own: a one-property object prints as
      that property's element. */
  lemma ObjectHasNoWrapper(p: Property)
    requires p.key != [] && KeysNonEmpty(p.value)
    ensures KeysNonEmpty(Object([p]))
    ensures XmlText(Object([p])) == XmlPropertyText(p)
  {
    var o := Object([p]);
    assert o.props[0] == p;
    assert XmlPropsText(o, 0) == "";
    assert XmlPropsText(o, 1) == XmlPropsText(o, 0) + XmlPropertyText(o.props[0]);
    assert "" + XmlPropertyText(p) == XmlPropertyText(p);
  }

  /** Leaves print as in JSON text. */
  lemma LeavesAsInJson(v: Value)
    requires !IsContainer(v)
    ensures XmlText(v) == JsonText(v)
  {
  }
}

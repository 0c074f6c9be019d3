/** The parsed JSON tree the tools work on, and ASTJSONObject's two lookup
    helpers. The parser that builds the tree is not part of this model. */
module JsonAst {

  import opened Strings

  /** One JSON value. Strings keep the literal's text between the quotes,
      numbers keep their source text (no numeric normalisation), and the
      properties of an object keep their document order, duplicates included. */
  datatype Value =
    | Object(props: seq<Property>)
    | Array(values: seq<Value>)
    | Str(source: string)
    | Number(source: string)
    | Boolean(b: bool)
    | Null

  /** A key/value pair inside an object. */
  datatype Property = Property(key: string, value: Value)

  /** A JSON artifact: the single value at its root. */
  datatype Document = Document(value: Value)

  // ---------------------------------------------------------------------
  // String literals

  /** The escapes `\c` of the string token with one character after the
      backslash. */
  predicate SimpleEscape(c: char)
  {
    c in "btnfr\"'\\"
  }

  /** The character `\c` stands for. */
  function Unescaped(c: char): char
    requires SimpleEscape(c)
  {
    match c
    case 'b' => 8 as char
    case 't' => '\t'
    case 'n' => '\n'
    case 'f' => 12 as char
    case 'r' => '\r'
    case _ => c
  }

  /** The value of a hexadecimal digit, -1 for any other character. */
  function HexDigitValue(c: char): (r: int)
    ensures -1 <= r < 16
  {
    if '0' <= c <= '9' then c as int - '0' as int
    else if 'a' <= c <= 'f' then c as int - 'a' as int + 10
    else if 'A' <= c <= 'F' then c as int - 'A' as int + 10
    else -1
  }

  /** The number four hexadecimal digits write. */
  function QuadValue(h: string): (r: int)
    requires |h| == 4 && forall i :: 0 <= i < 4 ==> 0 <= HexDigitValue(h[i])
    ensures 0 <= r < 0x1_0000
  {
    ((HexDigitValue(h[0]) * 16 + HexDigitValue(h[1])) * 16 + HexDigitValue(h[2])) * 16 + HexDigitValue(h[3])
  }

  /** `s` starts with `\uXXXX` naming a character that is not half of a
      surrogate pair. */
  predicate UnicodeEscape(s: string)
  {
    |s| >= 6 && s[0] == '\\' && s[1] == 'u'
    && (forall i :: 2 <= i < 6 ==> 0 <= HexDigitValue(s[i]))
    && !(0xD800 <= QuadValue(s[2..6]) < 0xE000)
  }

  /** The string literal's value (its getValue): the text between the
      quotes with each escape sequence replaced by the character it stands
      for. Text without a backslash is its own value. */
  function StringValue(source: string): (r: string)
    ensures |r| <= |source|
    ensures '\\' !in source ==> r == source
    decreases |source|
  {
    if source == [] then []
    else if |source| >= 2 && source[0] == '\\' && SimpleEscape(source[1]) then
      [Unescaped(source[1])] + StringValue(source[2..])
    else if UnicodeEscape(source) then
      [QuadValue(source[2..6]) as char] + StringValue(source[6..])
    else [source[0]] + StringValue(source[1..])
  }

  /** How one character is written inside a string literal: quote,
      backslash and the named control characters as escapes, everything
      else as itself. */
  function EscapeChar(c: char): (r: string)
    ensures |r| == 1 ==> r == [c] && c != '\\'
    ensures |r| == 2 ==> r[0] == '\\' && SimpleEscape(r[1]) && Unescaped(r[1]) == c
    ensures |r| == 1 || |r| == 2
  {
    if c == '"' then "\\\""
    else if c == '\\' then "\\\\"
    else if c == 8 as char then "\\b"
    else if c == '\t' then "\\t"
    else if c == '\n' then "\\n"
    else if c == 12 as char then "\\f"
    else if c == '\r' then "\\r"
    else [c]
  }

  /** A string written as literal text. */
  function Escape(v: string): string
    decreases |v|
  {
    if v == [] then [] else EscapeChar(v[0]) + Escape(v[1..])
  }

  /** Decoding undoes escaping: every string is the value of the literal
      text that escapes it. */
  lemma {:induction false} EscapeRoundTrip(v: string)
    ensures StringValue(Escape(v)) == v
    decreases |v|
  {
    if v != [] {
      var e, rest := EscapeChar(v[0]), Escape(v[1..]);
      EscapeRoundTrip(v[1..]);
      var t := e + rest;
      assert t[|e|..] == rest;
      if |e| == 2 {
        assert t[0] == '\\' && t[1] == e[1];
      } else {
        assert t[0] == v[0] && t[0] != '\\';
      }
      assert v == [v[0]] + v[1..];
    }
  }

  /** The keys of `props`, in order. */
  function KeysOf(props: seq<Property>): (r: seq<string>)
    ensures |r| == |props|
    ensures forall i :: 0 <= i < |props| ==> r[i] == props[i].key
    decreases |props|
  {
    if props == [] then [] else [props[0].key] + KeysOf(props[1..])
  }

  /** ASTJSONObject.hasProp: some property has key `key`. */
  function HasProp(props: seq<Property>, key: string): (r: bool)
    ensures r <==> exists i :: 0 <= i < |props| && props[i].key == key
    decreases |props|
  {
    props != [] && (props[0].key == key || HasProp(props[1..], key))
  }

  /** ASTJSONObject.getProps: the properties keyed `key`, in their original
      order. The result holds only properties of `props` with that key, and
      every property of `props` with that key is in it. */
  function GetProps(props: seq<Property>, key: string): seq<Property>
    decreases |props|
  {
    if props == [] then []
    else
      var rest := GetProps(props[1..], key);
      if props[0].key == key then [props[0]] + rest else rest
  }

  /** getProps selects exactly the properties keyed `key`. */
  lemma {:induction false} GetPropsSelects(props: seq<Property>, key: string)
    ensures forall i :: 0 <= i < |GetProps(props, key)| ==>
      GetProps(props, key)[i].key == key && GetProps(props, key)[i] in props
    ensures forall i :: 0 <= i < |props| && props[i].key == key ==> props[i] in GetProps(props, key)
    decreases |props|
  {
    if props != [] {
      GetPropsSelects(props[1..], key);
      forall i | 0 <= i < |props| && props[i].key == key
        ensures props[i] in GetProps(props, key)
      {
        if i > 0 {
          assert props[i] == props[1..][i - 1];
        }
      }
    }
  }

  /** getProps keeps the document order: its result is a subsequence of `props`. */
  lemma {:induction false} GetPropsSubsequence(props: seq<Property>, key: string)
    ensures IsSubsequence(GetProps(props, key), props)
    decreases |props|
  {
    if props != [] {
      GetPropsSubsequence(props[1..], key);
      var rest := GetProps(props[1..], key);
      if props[0].key == key {
        assert ([props[0]] + rest)[1..] == rest;
      }
    }
  }

  /** getProps returns as many properties as `key` occurs among the keys. */
  lemma {:induction false} GetPropsCount(props: seq<Property>, key: string)
    ensures |GetProps(props, key)| == multiset(KeysOf(props))[key]
    decreases |props|
  {
    if props != [] {
      GetPropsCount(props[1..], key);
      assert KeysOf(props) == [props[0].key] + KeysOf(props[1..]);
    }
  }

  /** hasProp(k) holds exactly when getProps(k) is non-empty. */
  lemma HasPropIffGetProps(props: seq<Property>, key: string)
    ensures HasProp(props, key) <==> GetProps(props, key) != []
  {
    if HasProp(props, key) {
      var i :| 0 <= i < |props| && props[i].key == key;
      GetPropsSelects(props, key);
      assert props[i] in GetProps(props, key);
    }
  }

  /** getProps distributes over concatenation of property lists. */
  lemma {:induction false} GetPropsConcat(ps: seq<Property>, qs: seq<Property>, key: string)
    ensures GetProps(ps + qs, key) == GetProps(ps, key) + GetProps(qs, key)
    decreases |ps|
  {
    if ps == [] {
      assert ps + qs == qs;
    } else {
      GetPropsConcat(ps[1..], qs, key);
      assert (ps + qs)[1..] == ps[1..] + qs;
    }
  }

  /** A key no property has selects nothing. */
  lemma {:induction false} GetPropsAbsent(props: seq<Property>, key: string)
    requires forall j :: 0 <= j < |props| ==> props[j].key != key
    ensures GetProps(props, key) == []
    decreases |props|
  {
    if props != [] {
      GetPropsAbsent(props[1..], key);
    }
  }

  /** A key that occurs once in an object is found exactly at that property. */
  lemma {:induction false} GetPropsUnique(props: seq<Property>, i: nat)
    requires i < |props|
    requires forall j :: 0 <= j < |props| && j != i ==> props[j].key != props[i].key
    ensures GetProps(props, props[i].key) == [props[i]]
    decreases i
  {
    var key := props[i].key;
    var rest := props[1..];
    if i == 0 {
      forall j | 0 <= j < |rest| ensures rest[j].key != key {
        assert rest[j] == props[j + 1];
      }
      GetPropsAbsent(rest, key);
      assert GetProps(props, key) == [props[0]] + [];
    } else {
      assert rest[i - 1] == props[i];
      forall j | 0 <= j < |rest| && j != i - 1 ensures rest[j].key != rest[i - 1].key {
        assert rest[j] == props[j + 1];
      }
      GetPropsUnique(rest, i - 1);
      assert props[0].key != key;
    }
  }

  /** No object anywhere in `v` has two properties with the same key. */
  predicate UniqueKeys(v: Value)
    decreases v
  {
    match v
    case Object(ps) =>
      (forall i, j :: 0 <= i < j < |ps| ==> ps[i].key != ps[j].key)
      && (forall i :: 0 <= i < |ps| ==> UniqueKeys(ps[i].value))
    case Array(vs) => forall i :: 0 <= i < |vs| ==> UniqueKeys(vs[i])
    case _ => true
  }

  /** No `null` occurs anywhere in `v`. */
  predicate NullFree(v: Value)
    decreases v
  {
    match v
    case Object(ps) => forall i :: 0 <= i < |ps| ==> NullFree(ps[i].value)
    case Array(vs) => forall i :: 0 <= i < |vs| ==> NullFree(vs[i])
    case Null => false
    case _ => true
  }

  /** `n` is `v` or a value nested somewhere inside it. */
  predicate Within(n: Value, v: Value)
    decreases v
  {
    n == v
    || (v.Object? && exists i :: 0 <= i < |v.props| && Within(n, v.props[i].value))
    || (v.Array? && exists i :: 0 <= i < |v.values| && Within(n, v.values[i]))
  }

  /** `p` is a property of `v` or of an object nested inside it. */
  predicate PropertyWithin(p: Property, v: Value)
    decreases v
  {
    (v.Object? && exists i :: 0 <= i < |v.props| && (v.props[i] == p || PropertyWithin(p, v.props[i].value)))
    || (v.Array? && exists i :: 0 <= i < |v.values| && PropertyWithin(p, v.values[i]))
  }
}

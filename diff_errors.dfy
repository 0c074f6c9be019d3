/** The differencer's exception: one of four error kinds, and a message made
    from the kind's template with its single `%s` replaced by a cause. */
module DiffErrors {

  import opened Wrappers

  /** SemanticJSONDiffError: the four things that can go wrong. */
  datatype SemDiffError =
    | FailedToParseModel
    | UnknownJsonValueType
    | AmbiguousProperty
    | InvalidJsonSemDiffType

  /** The message template of each error kind: "Failed to parse model '%s'",
      "Unknown json value type '%s'", "Ambiguous property '%s' in other
      document" and "Invalid semantic difference type '%s'". */
  function Template(e: SemDiffError): string
  {
    TemplateBefore(e) + "%s" + TemplateAfter(e)
  }

  /** Java's `String.format(template, arg)` for a template whose only
      conversion is one `%s`: the first `%s` is replaced by `arg`. */
  function Format(template: string, arg: string): string
    decreases |template|
  {
    if |template| < 2 then template
    else if template[0] == '%' && template[1] == 's' then arg + template[2..]
    else [template[0]] + Format(template[1..], arg)
  }

  /** Format puts the argument where the placeholder was, verbatim. */
  lemma {:induction false} FormatAtPlaceholder(before: string, after: string, arg: string)
    requires '%' !in before
    ensures Format(before + "%s" + after, arg) == before + arg + after
    decreases |before|
  {
    var t := before + "%s" + after;
    assert |t| >= 2;
    if before == [] {
      assert t == "%s" + after;
      assert t[0] == '%' && t[1] == 's' && t[2..] == after;
      assert Format(t, arg) == arg + t[2..];
    } else {
      assert t[0] == before[0];
      assert t[0] != '%';
      assert t[1..] == before[1..] + "%s" + after;
      assert Format(t, arg) == [t[0]] + Format(t[1..], arg);
      FormatAtPlaceholder(before[1..], after, arg);
      assert [before[0]] + before[1..] == before;
    }
  }

  /** The text of a template before its placeholder. */
  function TemplateBefore(e: SemDiffError): string
  {
    match e
    case FailedToParseModel => "Failed to parse model '"
    case UnknownJsonValueType => "Unknown json value type '"
    case AmbiguousProperty => "Ambiguous property '"
    case InvalidJsonSemDiffType => "Invalid semantic difference type '"
  }

  /** The text of a template after its placeholder. */
  function TemplateAfter(e: SemDiffError): string
  {
    match e
    case AmbiguousProperty => "' in other document"
    case _ => "'"
  }

  /** No template has a `%` in front of its placeholder. */
  lemma TemplateShape(e: SemDiffError)
    ensures '%' !in TemplateBefore(e)
  {
    match e
    case FailedToParseModel => assert '%' !in TemplateBefore(FailedToParseModel);
    case UnknownJsonValueType => assert '%' !in TemplateBefore(UnknownJsonValueType);
    case AmbiguousProperty => assert '%' !in TemplateBefore(AmbiguousProperty);
    case InvalidJsonSemDiffType => assert '%' !in TemplateBefore(InvalidJsonSemDiffType);
  }

  /** SemanticJSONDiffException: the error kind, the formatted message, and
      the exception it wraps, if any (described by its text). */
  datatype SemDiffException = SemDiffException(error: SemDiffError, message: string, wrapped: Option<string>)

  /** The three-argument constructor: the message is the template filled with
      the cause. */
  function NewWrappedException(error: SemDiffError, cause: string, wrapped: Option<string>): (x: SemDiffException)
    ensures x.error == error && x.wrapped == wrapped
    ensures x.message == TemplateBefore(error) + cause + TemplateAfter(error)
  {
    TemplateShape(error);
    FormatAtPlaceholder(TemplateBefore(error), TemplateAfter(error), cause);
    SemDiffException(error, Format(Template(error), cause), wrapped)
  }

  /** The two-argument constructor: the three-argument one with nothing wrapped. */
  function NewException(error: SemDiffError, cause: string): (x: SemDiffException)
    ensures x.error == error && x.wrapped == None
    ensures x.message == TemplateBefore(error) + cause + TemplateAfter(error)
  {
    NewWrappedException(error, cause, None)
  }

  /** getError returns the error kind given to the constructor. */
  function GetError(x: SemDiffException): SemDiffError
  {
    x.error
  }

  /** The ambiguity message names the key: "Ambiguous property 'k' in other document". */
  lemma AmbiguousPropertyMessage(key: string)
    ensures NewException(AmbiguousProperty, key).message
            == "Ambiguous property '" + key + "' in other document"
    ensures GetError(NewException(AmbiguousProperty, key)) == AmbiguousProperty
  {
  }

  /** The message determines the error kind and the cause: no two different
      (error, cause) pairs produce the same exception message. */
  lemma {:induction false} MessageDeterminesCause(e1: SemDiffError, c1: string, e2: SemDiffError, c2: string)
    requires NewException(e1, c1).message == NewException(e2, c2).message
    ensures e1 == e2 && c1 == c2
  {
    var m := NewException(e1, c1).message;
    var b, a := TemplateBefore(e1), TemplateAfter(e1);
    assert m[0] == TemplateBefore(e1)[0] && m[0] == TemplateBefore(e2)[0];
    FirstLetterDeterminesError(e1, e2);
    assert m == b + c1 + a && m == b + c2 + a;
    assert c1 == m[|b|..|m| - |a|];
    assert c2 == m[|b|..|m| - |a|];
  }

  /** The templates already differ in their first letter. */
  lemma FirstLetterDeterminesError(e1: SemDiffError, e2: SemDiffError)
    requires TemplateBefore(e1) != [] && TemplateBefore(e2) != []
    requires TemplateBefore(e1)[0] == TemplateBefore(e2)[0]
    ensures e1 == e2
  {
  }
}

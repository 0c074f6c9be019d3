/** The differencer's report messages: a one-line summary naming the property,
    and a multi-line rendering that adds the value or type and the source
    positions of the anchor node. Positions are supplied already rendered;
    the AST framework that computes them is not part of this model. */
module Messages {

  import opened Wrappers
  import opened Strings
  import opened JsonAst

  /** The five message classes. `ast` is the node given to the constructor
      (None where the source passes null); a null string argument is None. */
  datatype Message =
    | MissingPropertyMessage(ast: Option<Value>, missingProperty: string)
    | DifferentPropertyValueMessage(ast: Option<Value>, property: string, valueOfProperty: Option<string>)
    | DifferentPropertyTypeMessage(ast: Option<Value>, property: string, typeOfProperty: Option<string>)
    | EquivalentModelsMessage(ast: Option<Value>)
    | MissingProperty(ast: Option<Value>, missingProperty: string, valueOfMissingProperty: Option<string>)

  /** Java's string conversion of a possibly null string. */
  function Text(s: Option<string>): string
  {
    if s.Some? then s.value else "null"
  }

  /** getASTNode: the node given to the constructor. */
  function GetASTNode(m: Message): Option<Value>
  {
    m.ast
  }

  const PropertyPrefix: string := "Object in document has property '"
  const MissingSuffix: string := "' missing in other document."
  const DifferentValueSuffix: string := "', which is different on other document."
  const DifferentTypeSuffix: string := "', which is another type on other document."
  const EquivalentText: string := "Models are equivalent."
  const ValueHeading: string := "Value of different property:"
  const TypeHeading: string := "Type of different property:"
  const MissingValueHeading: string := "Value of missing property:"
  const StartLabel: string := "Source position start: "
  const EndLabel: string := "Source position end: "

  /** The fixed parts of a summary are single lines. */
  lemma SummaryPartsAreSingleLines()
    ensures '\n' !in PropertyPrefix && '\n' !in MissingSuffix
    ensures '\n' !in DifferentValueSuffix && '\n' !in DifferentTypeSuffix
  {
    PrefixIsSingleLine();
    MissingSuffixIsSingleLine();
    DifferentValueSuffixIsSingleLine();
    DifferentTypeSuffixIsSingleLine();
  }

  // One lemma per literal: unfolding all four in one proof is too costly.
  lemma PrefixIsSingleLine() ensures '\n' !in PropertyPrefix {}
  lemma MissingSuffixIsSingleLine() ensures '\n' !in MissingSuffix {}
  lemma DifferentValueSuffixIsSingleLine() ensures '\n' !in DifferentValueSuffix {}
  lemma DifferentTypeSuffixIsSingleLine() ensures '\n' !in DifferentTypeSuffix {}

  /** The headings and position labels are single lines. */
  lemma HeadingsAreSingleLines()
    ensures '\n' !in ValueHeading && '\n' !in TypeHeading && '\n' !in MissingValueHeading
    ensures '\n' !in StartLabel && '\n' !in EndLabel
  {
    ValueHeadingIsSingleLine();
    TypeHeadingIsSingleLine();
    MissingValueHeadingIsSingleLine();
    LabelsAreSingleLines();
  }

  lemma ValueHeadingIsSingleLine() ensures '\n' !in ValueHeading {}
  lemma TypeHeadingIsSingleLine() ensures '\n' !in TypeHeading {}
  lemma MissingValueHeadingIsSingleLine() ensures '\n' !in MissingValueHeading {}
  lemma LabelsAreSingleLines() ensures '\n' !in StartLabel && '\n' !in EndLabel {}

  /** getSimpleErrorMessage. */
  function SimpleErrorMessage(m: Message): string
  {
    match m
    case MissingPropertyMessage(_, p) => PropertyPrefix + p + MissingSuffix
    case DifferentPropertyValueMessage(_, p, _) => PropertyPrefix + p + DifferentValueSuffix
    case DifferentPropertyTypeMessage(_, p, _) => PropertyPrefix + p + DifferentTypeSuffix
    case EquivalentModelsMessage(_) => EquivalentText
    case MissingProperty(_, p, _) => PropertyPrefix + p + MissingSuffix
  }

  function StartLine(start: string): string { StartLabel + start }
  function EndLine(end: string): string { EndLabel + end }

  /** toString, with `start` and `end` the rendered source positions of the node. */
  function ToString(m: Message, start: string, end: string): string
  {
    var ls := LineSeparator;
    match m
    case MissingPropertyMessage(_, _) =>
      SimpleErrorMessage(m) + ls + StartLine(start) + ls + EndLine(end)
    case DifferentPropertyValueMessage(_, _, v) =>
      SimpleErrorMessage(m) + ls + ValueHeading + ls + Text(v) + ls
      + StartLine(start) + ls + EndLine(end)
    case DifferentPropertyTypeMessage(_, _, t) =>
      SimpleErrorMessage(m) + ls + TypeHeading + ls + Text(t) + ls
      + StartLine(start) + ls + EndLine(end)
    case EquivalentModelsMessage(_) =>
      SimpleErrorMessage(m)
    case MissingProperty(_, _, v) =>
      SimpleErrorMessage(m) + ls + MissingValueHeading + ls + Text(v) + ls
      + StartLine(start) + EndLine(end)
  }

  lemma NoNewlineInConcat(a: string, b: string)
    requires '\n' !in a && '\n' !in b
    ensures '\n' !in a + b
  {
  }

  lemma {:induction false} SplitFive(a: string, b: string, c: string, d: string, e: string)
    requires '\n' !in a && '\n' !in b && '\n' !in c && '\n' !in d && '\n' !in e
    ensures Split(a + "\n" + b + "\n" + c + "\n" + d + "\n" + e, '\n') == [a, b, c, d, e]
  {
    SplitFour(a, b, c, d);
    SplitAround(a + "\n" + b + "\n" + c + "\n" + d, e, '\n');
    SplitWithoutSeparator(e, '\n');
  }

  lemma {:induction false} SplitFour(a: string, b: string, c: string, d: string)
    requires '\n' !in a && '\n' !in b && '\n' !in c && '\n' !in d
    ensures Split(a + "\n" + b + "\n" + c + "\n" + d, '\n') == [a, b, c, d]
  {
    SplitThree(a, b, c);
    SplitAround(a + "\n" + b + "\n" + c, d, '\n');
    SplitWithoutSeparator(d, '\n');
  }

  lemma {:induction false} SplitThree(a: string, b: string, c: string)
    requires '\n' !in a && '\n' !in b && '\n' !in c
    ensures Split(a + "\n" + b + "\n" + c, '\n') == [a, b, c]
  {
    SplitWithoutSeparator(a, '\n');
    SplitWithoutSeparator(b, '\n');
    SplitWithoutSeparator(c, '\n');
    SplitAround(a, b, '\n');
    SplitAround(a + "\n" + b, c, '\n');
  }

  lemma NoNewlineInSummary(p: string, suffix: string)
    requires '\n' !in p && (suffix == MissingSuffix || suffix == DifferentValueSuffix || suffix == DifferentTypeSuffix)
    ensures '\n' !in PropertyPrefix + p + suffix
  {
    SummaryPartsAreSingleLines();
    NoNewlineInConcat(PropertyPrefix, p);
    NoNewlineInConcat(PropertyPrefix + p, suffix);
  }

  lemma NoNewlineInPositions(start: string, end: string)
    requires '\n' !in start && '\n' !in end
    ensures '\n' !in StartLine(start) && '\n' !in EndLine(end)
  {
    HeadingsAreSingleLines();
    NoNewlineInConcat(StartLabel, start);
    NoNewlineInConcat(EndLabel, end);
  }

  /** Read back line by line, a MissingPropertyMessage is its summary and
      the two position lines. */
  lemma MissingPropertyMessageLines(n: Option<Value>, p: string, start: string, end: string)
    requires '\n' !in p && '\n' !in start && '\n' !in end
    ensures Split(ToString(MissingPropertyMessage(n, p), start, end), '\n')
            == [PropertyPrefix + p + MissingSuffix, StartLine(start), EndLine(end)]
  {
    var m := MissingPropertyMessage(n, p);
    NoNewlineInSummary(p, MissingSuffix);
    NoNewlineInPositions(start, end);
    SplitThree(SimpleErrorMessage(m), StartLine(start), EndLine(end));
  }

  /** Read back line by line, a DifferentPropertyValueMessage is its
      summary, the heading "Value of different property:", the value (the
      text "null" when there is none) and the two position lines. */
  lemma DifferentValueMessageLines(n: Option<Value>, p: string, v: Option<string>, start: string, end: string)
    requires '\n' !in p && '\n' !in Text(v) && '\n' !in start && '\n' !in end
    ensures Split(ToString(DifferentPropertyValueMessage(n, p, v), start, end), '\n')
            == [PropertyPrefix + p + DifferentValueSuffix, ValueHeading, Text(v),
                StartLine(start), EndLine(end)]
  {
    var m := DifferentPropertyValueMessage(n, p, v);
    var parts := [SimpleErrorMessage(m), ValueHeading, Text(v), StartLine(start), EndLine(end)];
    NoNewlineInSummary(p, DifferentValueSuffix);
    NoNewlineInPositions(start, end);
    HeadingsAreSingleLines();
    SplitFive(parts[0], parts[1], parts[2], parts[3], parts[4]);
  }

  /** Read back line by line, a DifferentPropertyTypeMessage is its summary,
      the heading "Type of different property:", the type and the two
      position lines. */
  lemma DifferentTypeMessageLines(n: Option<Value>, p: string, t: Option<string>, start: string, end: string)
    requires '\n' !in p && '\n' !in Text(t) && '\n' !in start && '\n' !in end
    ensures Split(ToString(DifferentPropertyTypeMessage(n, p, t), start, end), '\n')
            == [PropertyPrefix + p + DifferentTypeSuffix, TypeHeading, Text(t),
                StartLine(start), EndLine(end)]
  {
    var m := DifferentPropertyTypeMessage(n, p, t);
    var parts := [SimpleErrorMessage(m), TypeHeading, Text(t), StartLine(start), EndLine(end)];
    NoNewlineInSummary(p, DifferentTypeSuffix);
    NoNewlineInPositions(start, end);
    HeadingsAreSingleLines();
    SplitFive(parts[0], parts[1], parts[2], parts[3], parts[4]);
  }

  /** Read back line by line, the legacy MissingProperty message is its
      summary, the heading "Value of missing property:", the value, and
      one last line where the start and end positions run together. */
  lemma LegacyMissingPropertyLines(n: Option<Value>, p: string, v: Option<string>, start: string, end: string)
    requires '\n' !in p && '\n' !in Text(v) && '\n' !in start && '\n' !in end
    ensures Split(ToString(MissingProperty(n, p, v), start, end), '\n')
            == [PropertyPrefix + p + MissingSuffix, MissingValueHeading, Text(v),
                StartLine(start) + EndLine(end)]
  {
    var m := MissingProperty(n, p, v);
    var parts := [SimpleErrorMessage(m), MissingValueHeading, Text(v), StartLine(start) + EndLine(end)];
    NoNewlineInSummary(p, MissingSuffix);
    NoNewlineInPositions(start, end);
    NoNewlineInConcat(StartLine(start), EndLine(end));
    HeadingsAreSingleLines();
    var ls := LineSeparator;
    assert ToString(m, start, end)
           == parts[0] + ls + parts[1] + ls + parts[2] + ls + (StartLine(start) + EndLine(end));
    SplitFour(parts[0], parts[1], parts[2], parts[3]);
  }

  /** The equivalence message reads the same whatever node it was given,
      and its rendering is just that text. */
  lemma EquivalentModelsText(n: Option<Value>, start: string, end: string)
    ensures SimpleErrorMessage(EquivalentModelsMessage(n)) == "Models are equivalent."
    ensures ToString(EquivalentModelsMessage(n), start, end) == "Models are equivalent."
    ensures GetASTNode(EquivalentModelsMessage(n)) == n
  {
  }

  /** The legacy MissingProperty message has the same summary as
      MissingPropertyMessage. */
  lemma LegacyMissingPropertySameText(n1: Option<Value>, n2: Option<Value>, p: string, v: Option<string>)
    ensures SimpleErrorMessage(MissingProperty(n1, p, v))
            == SimpleErrorMessage(MissingPropertyMessage(n2, p))
  {
  }

  /** The kinds of message that name a property. */
  predicate NamesProperty(m: Message)
  {
    m.MissingPropertyMessage? || m.DifferentPropertyValueMessage? || m.DifferentPropertyTypeMessage?
  }

  function PropertyOf(m: Message): string
    requires NamesProperty(m)
  {
    match m
    case MissingPropertyMessage(_, p) => p
    case DifferentPropertyValueMessage(_, p, _) => p
    case DifferentPropertyTypeMessage(_, p, _) => p
  }

  /** A summary is unambiguous: it tells which kind of report it is and
      which property it names, so the property name is kept unchanged. */
  lemma {:induction false} SimpleMessageDeterminesProperty(m1: Message, m2: Message)
    requires NamesProperty(m1) && NamesProperty(m2)
    requires SimpleErrorMessage(m1) == SimpleErrorMessage(m2)
    ensures PropertyOf(m1) == PropertyOf(m2)
    ensures m1.MissingPropertyMessage? == m2.MissingPropertyMessage?
    ensures m1.DifferentPropertyValueMessage? == m2.DifferentPropertyValueMessage?
  {
    var s := SimpleErrorMessage(m1);
    var s1, s2 := Suffix(m1), Suffix(m2);
    var x1, x2 := PropertyPrefix + PropertyOf(m1), PropertyPrefix + PropertyOf(m2);
    assert s == x1 + s1 && s == x2 + s2;
    SuffixLetters();
    // The suffixes already differ near their ends: " in other" against
    // " on other", and "different on" against "type on".
    assert s[|s| - 18] == s1[|s1| - 18] && s[|s| - 18] == s2[|s2| - 18];
    assert s[|s| - 20] == s1[|s1| - 20] && s[|s| - 20] == s2[|s2| - 20];
    assert s1 == s2;
    assert x1 == s[..|s| - |s1|] == x2;
    assert PropertyOf(m1) == x1[|PropertyPrefix|..];
    assert PropertyOf(m2) == x2[|PropertyPrefix|..];
  }

  lemma SuffixLetters()
    ensures |MissingSuffix| == 28 && |DifferentValueSuffix| == 40 && |DifferentTypeSuffix| == 43
    ensures MissingSuffix[28 - 18] == 'i' && DifferentValueSuffix[40 - 18] == 'o'
    ensures DifferentTypeSuffix[43 - 18] == 'o'
    ensures DifferentValueSuffix[40 - 20] == 't' && DifferentTypeSuffix[43 - 20] == 'e'
  {
  }

  function Suffix(m: Message): string
    requires NamesProperty(m)
  {
    match m
    case MissingPropertyMessage(_, _) => MissingSuffix
    case DifferentPropertyValueMessage(_, _, _) => DifferentValueSuffix
    case DifferentPropertyTypeMessage(_, _, _) => DifferentTypeSuffix
  }
}

# MontiCore JSON: semantic differencer, property calculators, printers and command-line tools

This project models the core of the MontiCore JSON language tooling in Dafny and proves properties of the model.

- **JSON tree.** Modelled as a value (`JsonAst.Value`):
  - an object is an ordered sequence of key/value properties, with duplicate keys allowed;
  - numbers keep their source text;
  - strings keep their source text without the quotes; their value, with the escape sequences decoded, is `JsonAst.StringValue`.
- **Semantic differencer** (`Differencer`, `Differences`, `Messages`, `DiffErrors`).
  - It walks two trees together, with the left tree as the baseline.
  - It reports missing properties, different values and type mismatches.
  - It fills in the enclosing property or array index on the way back up.
  - The differences become messages, and the two exception cases are explicit.
  - The walk is specified by the functions `Diff`, `DiffProps` and `DiffElems`.
  - The methods of the class `SemanticJsonDifferencer` do the walk as the code does: loops append to a result list and write into the difference objects in place. Each method is proved equal to the pure function (`Diff`, `ToMessages`) that defines its result.
  - It has two modes: `AsWritten` follows the code, and `Intended` corrects the two defects listed under Findings. Every property is stated for both modes.
- **Property calculators** (`PropertyCalculators`).
  - The full calculator collects every key in pre-order, together with an occurrence-count map, by a pre-order walk.
  - The top-level calculator's walk stops at each property.
  - Both are classes whose methods update the list and the map in place.
- **Printers.** Each one writes into an append-only text buffer with an indent counter (`IndentPrinting`).
  - The JSON pretty printer (`JsonPrinter`).
  - The XML printer with its key sanitiser (`XmlPrinter`).
  - The PlantUML `@startjson` printer (`PlantUmlPrinter`).
  - Each printer's methods are proved to produce a text function of the tree.
- **Command-line tools.**
  - `JsonTool`: JSONTool's option gating, `-pp` decision table and reports.
  - `JsonCli`: the older de.monticore.JSONCLI, with the same gating and the same reports.
  - `InteractiveCli`: the interactive shell. It has the token-prefix command matcher, the dispatch order, and the document and calculator state across commands.
  - Helpers for model names (`CommandLines`) and joined reports (`Reports`).

The object comparison fills in the enclosing property on every nested difference whose property is unset, even when an index is already set, as in SemanticJSONDifferencer.java:126-129.

The documentation of `report` (JSONTool.java:192-196, JSONCLI.java:215-219) says that an empty directory prints the reports to the console. The code always writes to `path + "/" + name`. `-r` without a value defaults to the empty path, so the three reports go to "/allProperties.txt", "/countedProperties.txt" and "/topLevelProperties.txt". The model follows the code (`Reports.EmptyDirectoryIsRoot`).

Parsing is a parameter:
- the differencer takes a `ParseOutcome`;
- JSONTool and JSONCLI take a flag saying whether the input parses;
- the interactive shell takes a parser function and a file reader.

The console is a string that the shell appends to. The files the shell writes form a map from name to contents.

## Model

| member | source | states |
|---|---|---|
| JsonAst.KeysOf | src/main/java/de/monticore/lang/json/_ast/ASTJSONObject.java:9 | the keys of a property list, one per property, in order |
| JsonAst.HasProp | src/main/java/de/monticore/lang/json/_ast/ASTJSONObject.java:8-10 | hasProp(k) holds exactly when some property has key k |
| JsonAst.GetPropsSelects | src/main/java/de/monticore/lang/json/_ast/ASTJSONObject.java:12-14 | getProps(k) holds only properties of the object keyed k, and every property keyed k |
| JsonAst.GetPropsSubsequence | src/main/java/de/monticore/lang/json/_ast/ASTJSONObject.java:13 | getProps(k) keeps document order: it is a subsequence of the property list |
| JsonAst.GetPropsCount | src/main/java/de/monticore/lang/json/_ast/ASTJSONObject.java:13 | the length of getProps(k) is the number of properties keyed k |
| JsonAst.HasPropIffGetProps | src/main/java/de/monticore/lang/json/_ast/ASTJSONObject.java:8-14 | hasProp(k) holds iff getProps(k) is non-empty |
| JsonAst.StringValue | src/main/java/de/monticore/lang/json/semdiff/SemanticJSONDifferencer.java:169 | getValue of a string literal: text without a backslash is its own value, and decoding never lengthens the text |
| JsonAst.EscapeRoundTrip | src/main/java/de/monticore/lang/json/semdiff/SemanticJSONDifferencer.java:169 | decoding undoes escaping: every string is the value of the literal text that escapes it |
| JsonAst.GetPropsConcat | src/main/java/de/monticore/lang/json/_ast/ASTJSONObject.java:13 | filtering distributes over concatenated property lists |
| JsonAst.GetPropsAbsent | src/main/java/de/monticore/lang/json/_ast/ASTJSONObject.java:13 | a key no property has selects nothing |
| JsonAst.GetPropsUnique | src/main/java/de/monticore/lang/json/_ast/ASTJSONObject.java:13 | a key that occurs once is found exactly at that property |
| Differences.MissingPropertyOf | src/main/java/de/monticore/lang/json/semdiff/SemanticJSONDifference.java:35-37 | kind MISSING_PROPERTY, the node and the property; index, value and type absent |
| Differences.MissingIndexOf | src/main/java/de/monticore/lang/json/semdiff/SemanticJSONDifference.java:39-41 | kind MISSING_PROPERTY, the node and the index; property, value and type absent |
| Differences.DifferentValueOf | src/main/java/de/monticore/lang/json/semdiff/SemanticJSONDifference.java:43-45 | kind DIFFERENT_VALUE and the value only |
| Differences.DifferentTypeOf | src/main/java/de/monticore/lang/json/semdiff/SemanticJSONDifference.java:47-49 | as written: kind DIFFERENT_VALUE, not DIFFERENT_TYPE, with the type set and the value absent |
| Differences.DifferentTypeCorrected | src/main/java/de/monticore/lang/json/semdiff/SemanticJSONDifference.java:47-49 | corrected: kind DIFFERENT_TYPE with the type set and the value absent |
| Differences.Difference.constructor | src/main/java/de/monticore/lang/json/semdiff/SemanticJSONDifference.java:26-33 | the object's contents are exactly the constructor's arguments |
| Differences.Difference.NewMissingProperty | src/main/java/de/monticore/lang/json/semdiff/SemanticJSONDifference.java:35-37 | a fresh object holding missingProperty(node, property) |
| Differences.Difference.NewMissingIndex | src/main/java/de/monticore/lang/json/semdiff/SemanticJSONDifference.java:39-41 | a fresh object holding missingProperty(node, index) |
| Differences.Difference.NewDifferentValue | src/main/java/de/monticore/lang/json/semdiff/SemanticJSONDifference.java:43-45 | a fresh object holding differentValue(node, value) |
| Differences.Difference.NewDifferentType | src/main/java/de/monticore/lang/json/semdiff/SemanticJSONDifference.java:47-49 | a fresh object holding differentType(node, type) as written |
| Differences.Difference.NewDifferentTypeCorrected | src/main/java/de/monticore/lang/json/semdiff/SemanticJSONDifference.java:47-49 | a fresh object holding the corrected differentType |
| Differences.Difference.SetProperty | src/main/java/de/monticore/lang/json/semdiff/SemanticJSONDifferencer.java:127-128 | writing the property changes only the property; the final kind is kept |
| Differences.Difference.SetIndex | src/main/java/de/monticore/lang/json/semdiff/SemanticJSONDifferencer.java:148-149 | writing the index changes only the index; the final kind is kept |
| DiffErrors.FormatAtPlaceholder | src/main/java/de/monticore/lang/json/semdiff/exceptions/SemanticJSONDiffException.java:17 | String.format puts the cause exactly where the single `%s` was |
| DiffErrors.NewWrappedException | src/main/java/de/monticore/lang/json/semdiff/exceptions/SemanticJSONDiffException.java:16-19 | the message is the error's template with the cause in place of `%s`; the error and the wrapped exception are kept |
| DiffErrors.NewException | src/main/java/de/monticore/lang/json/semdiff/exceptions/SemanticJSONDiffException.java:12-14 | the two-argument constructor is the three-argument one with nothing wrapped |
| DiffErrors.AmbiguousPropertyMessage | src/main/java/de/monticore/lang/json/semdiff/exceptions/SemanticJSONDiffException.java:16-23 | AMBIGUOUS_PROPERTY with key k gives "Ambiguous property 'k' in other document", and getError returns AMBIGUOUS_PROPERTY |
| DiffErrors.MessageDeterminesCause | src/main/java/de/monticore/lang/json/semdiff/exceptions/SemanticJSONDiffException.java:17 | two exceptions with the same message have the same error kind and the same cause |
| Messages.MissingPropertyMessageLines | src/main/java/de/monticore/lang/json/semdiff/messages/MissingPropertyMessage.java:19-33 | toString read line by line: "Object in document has property 'p' missing in other document.", then the start position line, then the end position line |
| Messages.DifferentValueMessageLines | src/main/java/de/monticore/lang/json/semdiff/messages/DifferentPropertyValueMessage.java:19-33 | toString read line by line: the summary naming p (without the value), "Value of different property:", the value, then the start and end lines |
| Messages.DifferentTypeMessageLines | src/main/java/de/monticore/lang/json/semdiff/messages/DifferentPropertyTypeMessage.java:19-33 | toString read line by line: the summary naming p, "Type of different property:", the stored type, then the start and end lines |
| Messages.LegacyMissingPropertyLines | src/main/java/de/monticore/lang/json/semdiff/messages/MissingProperty.java:22-38 | toString read line by line: the summary, "Value of missing property:", the value, and one last line where the start and end positions run together |
| Messages.EquivalentModelsText | src/main/java/de/monticore/lang/json/semdiff/messages/EquivalentModelsMessage.java:7-19 | "Models are equivalent." whatever the node; toString is the same text; the node is kept |
| Messages.LegacyMissingPropertySameText | src/main/java/de/monticore/lang/json/semdiff/messages/MissingProperty.java:22-25 | the legacy message's summary equals MissingPropertyMessage's |
| Messages.SimpleMessageDeterminesProperty | src/main/java/de/monticore/lang/json/semdiff/messages/MissingPropertyMessage.java:12-21 | a summary determines the message kind and the property name, so the name is stored unchanged |
| Differencer.FillProperty | src/main/java/de/monticore/lang/json/semdiff/SemanticJSONDifferencer.java:126-129 | each difference without a property gets p; the others are unchanged; nothing else changes |
| Differencer.FillIndex | src/main/java/de/monticore/lang/json/semdiff/SemanticJSONDifferencer.java:147-151 | each difference with neither property nor index gets k; the others are unchanged |
| Differencer.PropsFailurePersists | src/main/java/de/monticore/lang/json/semdiff/SemanticJSONDifferencer.java:115-122 | once the object loop has thrown, the result is that exception |
| Differencer.ElemsFailurePersists | src/main/java/de/monticore/lang/json/semdiff/SemanticJSONDifferencer.java:138-146 | once the array loop has thrown, the result is that exception |
| Differencer.MessagesFailurePersists | src/main/java/de/monticore/lang/json/semdiff/SemanticJSONDifferencer.java:61-63 | once a conversion has failed, the message loop's result is that failure |
| Differencer.SemanticJsonDifferencer.constructor | src/main/java/de/monticore/lang/json/semdiff/SemanticJSONDifferencer.java:34-36 | the differencer owns a fresh pretty printer |
| Differencer.SemanticJsonDifferencer.SemDiffJsonArtifacts | src/main/java/de/monticore/lang/json/semdiff/SemanticJSONDifferencer.java:38-50 | the result is that of the pure function `SemDiffArtifacts`: both artifacts parsed, the first first, failures as FAILED_TO_PARSE_MODEL naming the artifact, then the comparison |
| Differencer.SemanticJsonDifferencer.SemDiffAsts | src/main/java/de/monticore/lang/json/semdiff/SemanticJSONDifferencer.java:52-54 | the result of comparing two documents equals the pure definition: the walk's differences turned into messages |
| Differencer.SemanticJsonDifferencer.ToMessagesOf | src/main/java/de/monticore/lang/json/semdiff/SemanticJSONDifferencer.java:56-65 | the loop over the difference objects equals the pure function `ToMessages` on their contents |
| Differencer.SemanticJsonDifferencer.ToMessageOf | src/main/java/de/monticore/lang/json/semdiff/SemanticJSONDifferencer.java:67-86 | one difference object converts as the pure function `ToMessage` on its contents |
| Differencer.SemanticJsonDifferencer.SemDiffTrees | src/main/java/de/monticore/lang/json/semdiff/SemanticJSONDifferencer.java:88-111 | the dispatch succeeds or throws exactly as `Diff`; the objects returned are fresh and distinct, and hold `Diff`'s differences |
| Differencer.SemanticJsonDifferencer.SemDiffLeaf | src/main/java/de/monticore/lang/json/semdiff/SemanticJSONDifferencer.java:158-177 | booleans, strings or numbers of the same kind give fresh objects holding exactly `Diff`'s differences: none when equal, else one different-value difference with the left boolean, the left string's decoded value, or the printed right number |
| Differencer.SemanticJsonDifferencer.SemDiffObject | src/main/java/de/monticore/lang/json/semdiff/SemanticJSONDifferencer.java:113-134 | the object loop succeeds or throws exactly as `DiffProps` over all left properties, and returns its differences |
| Differencer.SemanticJsonDifferencer.SemDiffProperty | src/main/java/de/monticore/lang/json/semdiff/SemanticJSONDifferencer.java:115-131 | one turn of the object loop extends the result to `DiffProps` after one more property, keeping the earlier objects as a prefix |
| Differencer.SemanticJsonDifferencer.SemDiffArray | src/main/java/de/monticore/lang/json/semdiff/SemanticJSONDifferencer.java:136-156 | the index loop succeeds or throws exactly as `DiffElems` over all left elements, and returns its differences |
| Differencer.SemanticJsonDifferencer.SemDiffElement | src/main/java/de/monticore/lang/json/semdiff/SemanticJSONDifferencer.java:138-153 | one turn of the index loop extends the result to `DiffElems` after one more element, keeping the earlier objects as a prefix |
| Differencer.FillPropertyInPlace | src/main/java/de/monticore/lang/json/semdiff/SemanticJSONDifferencer.java:126-129 | the forEach over the objects leaves them holding `FillProperty` of their old contents |
| Differencer.FillIndexInPlace | src/main/java/de/monticore/lang/json/semdiff/SemanticJSONDifferencer.java:147-151 | the loop over the objects leaves them holding `FillIndex` of their old contents |
| DifferencerProperties.TypeNamesDistinguishKinds | src/main/java/de/monticore/lang/json/semdiff/SemanticJSONDifferencer.java:179-203 | two values get the same kind name ("object", "array", "boolean", "string", "number", "null") iff equalJSONType holds |
| DifferencerProperties.DifferentKindsGiveOneDifference | src/main/java/de/monticore/lang/json/semdiff/SemanticJSONDifferencer.java:89-91 | values of different kinds give exactly one difference: at the left node, with the left kind's name, no value, no property, no index, and no child compared |
| DifferencerProperties.LeafComparison | src/main/java/de/monticore/lang/json/semdiff/SemanticJSONDifferencer.java:158-177 | equal leaves give nothing; unequal leaves give one DIFFERENT_VALUE, whose value is the left boolean or the left string's decoded value (getValue), but the right number's printed text |
| DifferencerProperties.EscapedStringReportedByValue | src/main/java/de/monticore/lang/json/semdiff/SemanticJSONDifferencer.java:165-170 | a left string typed as `x\"y` is reported with the value `x"y`, not with the text as typed |
| DifferencerProperties.NullAgainstNull | src/main/java/de/monticore/lang/json/semdiff/SemanticJSONDifferencer.java:107-110 | as written Null vs Null throws UNKNOWN_JSON_VALUE_TYPE; corrected it is no difference |
| DifferencerProperties.ObjectDiffsHaveProperty | src/main/java/de/monticore/lang/json/semdiff/SemanticJSONDifferencer.java:117-130 | after an object comparison every difference has a property |
| DifferencerProperties.ArrayDiffsArePlaced | src/main/java/de/monticore/lang/json/semdiff/SemanticJSONDifferencer.java:138-153 | after an array comparison every difference has a property or an index |
| DifferencerProperties.AnchoredInLeft | src/main/java/de/monticore/lang/json/semdiff/SemanticJSONDifferencer.java:88-156 | every difference's node lies in the left tree, and its property is a property of the left tree |
| DifferencerProperties.ObjectResultsGrowInLeftOrder | src/main/java/de/monticore/lang/json/semdiff/SemanticJSONDifferencer.java:115-132 | the differences appear in left property order: those of earlier properties form a prefix |
| DifferencerProperties.ArrayResultsGrowInIndexOrder | src/main/java/de/monticore/lang/json/semdiff/SemanticJSONDifferencer.java:138-154 | the differences appear in index order: those of earlier indices form a prefix |
| DifferencerProperties.RightOnlyKeysIgnored | src/main/java/de/monticore/lang/json/semdiff/SemanticJSONDifferencer.java:115-116 | a right property whose key the left object lacks, inserted anywhere, changes nothing |
| DifferencerProperties.ExtraRightElementsIgnored | src/main/java/de/monticore/lang/json/semdiff/SemanticJSONDifferencer.java:138-139 | extra right elements beyond the left array's length change nothing |
| DifferencerProperties.AgainstEmptyObject | src/main/java/de/monticore/lang/json/semdiff/SemanticJSONDifferencer.java:117-118 | against an empty object, each left property gives one MISSING_PROPERTY with that property and no index, in order |
| DifferencerProperties.AgainstEmptyArray | src/main/java/de/monticore/lang/json/semdiff/SemanticJSONDifferencer.java:139-140 | against an empty array, each left index i gives one MISSING_PROPERTY with index i and no property, in order |
| DifferencerProperties.SinglePropertyDiff | src/main/java/de/monticore/lang/json/semdiff/SemanticJSONDifferencer.java:123-130 | a uniquely matched property compares its values and fills the left property into the nested differences |
| DifferencerProperties.SingleDifferenceMessages | src/main/java/de/monticore/lang/json/semdiff/SemanticJSONDifferencer.java:56-65 | one difference gives one message, or that conversion's failure |
| DifferencerProperties.DiffIsAsymmetric | src/main/java/de/monticore/lang/json/semdiff/SemanticJSONDifferencer.java:113-134 | `{"a": 1}` against `{}` reports "a" missing, while `{}` against `{"a": 1}` is equivalent |
| DifferencerProperties.FailureCauses | src/main/java/de/monticore/lang/json/semdiff/SemanticJSONDifferencer.java:107-122 | the walk throws only AMBIGUOUS_PROPERTY or, as written, UNKNOWN_JSON_VALUE_TYPE |
| DifferencerProperties.AmbiguousKeyFails | src/main/java/de/monticore/lang/json/semdiff/SemanticJSONDifferencer.java:120-122 | a left key matched by two or more right properties makes the whole comparison throw |
| DifferencerProperties.AmbiguousKeyNamed | src/main/java/de/monticore/lang/json/semdiff/SemanticJSONDifferencer.java:120-122 | when the properties before it compare without an exception, the first ambiguous key makes the comparison throw AMBIGUOUS_PROPERTY naming that key |
| DifferencerProperties.MissingKeyReported | src/main/java/de/monticore/lang/json/semdiff/SemanticJSONDifferencer.java:117-118 | a left key the right object lacks gives a MISSING_PROPERTY for that left property, whatever else the right object holds |
| DifferencerProperties.MissingIndexReported | src/main/java/de/monticore/lang/json/semdiff/SemanticJSONDifferencer.java:139-140 | each left index past the end of the right array gives a MISSING_PROPERTY with that index, whatever the right array holds |
| DifferencerProperties.AtMostOneMatch | src/main/java/de/monticore/lang/json/semdiff/SemanticJSONDifferencer.java:116 | in a right object with distinct keys a left key matches at most once |
| DifferencerProperties.UniqueRightKeysNeverFail | src/main/java/de/monticore/lang/json/semdiff/SemanticJSONDifferencer.java:113-134 | with distinct keys on the right, and no null on the left unless corrected, the walk never throws; duplicate left keys are no error |
| DifferencerProperties.DiffSelf | src/main/java/de/monticore/lang/json/semdiff/SemanticJSONDifferencer.java:88-177 | a tree with distinct keys, and without nulls unless corrected, has no difference to itself |
| DifferencerProperties.EquivalentDocumentsMessage | src/main/java/de/monticore/lang/json/semdiff/SemanticJSONDifferencer.java:52-59 | such a document compared with itself gives exactly one "Models are equivalent." message, with no node |
| DifferencerProperties.ToMessageLabels | src/main/java/de/monticore/lang/json/semdiff/SemanticJSONDifferencer.java:67-86 | a difference converts iff it has a property; the message keeps the node and is labelled key, plus "[index]" when an index is set |
| DifferencerProperties.MessagesUpToSpec | src/main/java/de/monticore/lang/json/semdiff/SemanticJSONDifferencer.java:60-64 | the loop succeeds iff every difference so far has a property, and then gives one message per difference, in order |
| DifferencerProperties.ToMessagesSpec | src/main/java/de/monticore/lang/json/semdiff/SemanticJSONDifferencer.java:56-65 | no differences give the equivalence message alone; otherwise one message per difference, in order, unless one cannot be labelled |
| DifferencerProperties.IndexedLabelExample | src/main/java/de/monticore/lang/json/semdiff/SemanticJSONDifferencer.java:80-86 | a missing array slot under property "models" is labelled "models[0]" |
| DifferencerProperties.RootLeafDifferenceNotLabelled | src/main/java/de/monticore/lang/json/semdiff/SemanticJSONDifferencer.java:80-81 | two unequal numbers at the root cannot be labelled: the conversion dereferences the missing property |
| DifferencerProperties.NullPropertyFailsAsWritten | src/main/java/de/monticore/lang/json/semdiff/SemanticJSONDifferencer.java:107-110 | as written `{"a": null}` against itself throws UNKNOWN_JSON_VALUE_TYPE |
| DifferencerProperties.NullPropertyEquivalentCorrected | src/main/java/de/monticore/lang/json/semdiff/SemanticJSONDifferencer.java:107-110 | corrected, `{"a": null}` against itself is equivalent |
| DifferencerProperties.TypeMismatchMessage | src/main/java/de/monticore/lang/json/semdiff/SemanticJSONDifferencer.java:71-74 | a property with values of different kinds gives, as written, a different-value message with no value, and corrected a different-type message naming the left kind |
| PropertyCalculators.FullPropertyCalculator.constructor | src/main/java/de/monticore/lang/json/_visitor/FullPropertyCalculator.java:18-19 | an empty list and an empty map, which together keep the counting invariant |
| PropertyCalculators.FullPropertyCalculator.Visit | src/main/java/de/monticore/lang/json/_visitor/FullPropertyCalculator.java:22-31 | the key is appended to the list; map[k] becomes its old value + 1, or 1 when absent, and no other entry changes; the invariant is kept |
| PropertyCalculators.FullPropertyCalculator.Traverse | src/main/java/de/monticore/lang/json/_visitor/FullPropertyCalculator.java:21-32 | a walk appends every key at every depth in pre-order and keeps the counting invariant |
| PropertyCalculators.FullPropertyCalculator.GetAllPropertyNames | src/main/java/de/monticore/lang/json/_visitor/FullPropertyCalculator.java:40-45 | walks only when the list is empty: then the list is all keys of the node; otherwise nothing changes, so a second call adds no duplicates |
| PropertyCalculators.FullPropertyCalculator.GetAllPropertyNamesCounted | src/main/java/de/monticore/lang/json/_visitor/FullPropertyCalculator.java:54-59 | walks only when the map is empty; since one walk fills both, neither getter after the other double-counts |
| PropertyCalculators.TopLevelPropertyCalculator.constructor | src/main/java/de/monticore/lang/json/_visitor/TopLevelPropertyCalculator.java:15 | an empty list |
| PropertyCalculators.TopLevelPropertyCalculator.Visit | src/main/java/de/monticore/lang/json/_visitor/TopLevelPropertyCalculator.java:29-32 | the key is appended to the list |
| PropertyCalculators.TopLevelPropertyCalculator.Traverse | src/main/java/de/monticore/lang/json/_visitor/TopLevelPropertyCalculator.java:29-38 | a walk with traverse(ASTJSONProperty) suppressed appends the outermost objects' keys in document order |
| PropertyCalculators.TopLevelPropertyCalculator.GetTopLevelPropertyNames | src/main/java/de/monticore/lang/json/_visitor/TopLevelPropertyCalculator.java:45-47 | returns the accumulated list; nothing is walked or cleared |
| PropertyCalculators.OccurrencesPositive | src/main/java/de/monticore/lang/json/_visitor/FullPropertyCalculator.java:27-31 | a key is counted at least once iff it is in the list |
| PropertyCalculators.VisitKeepsCounts | src/main/java/de/monticore/lang/json/_visitor/FullPropertyCalculator.java:22-31 | visit keeps the invariant: the map's keys are the distinct list elements, each mapped to its number of occurrences |
| PropertyCalculators.EmptyTogether | src/main/java/de/monticore/lang/json/_visitor/FullPropertyCalculator.java:40-59 | under the invariant the list is empty iff the map is, so both getters test the same thing |
| PropertyCalculators.DistinctKeysSpec | src/main/java/de/monticore/lang/json/_visitor/FullPropertyCalculator.java:19 | the distinct keys have no duplicate and are exactly the list's elements |
| PropertyCalculators.CountsSumToLength | src/main/java/de/monticore/lang/json/_visitor/FullPropertyCalculator.java:18-31 | the counts of the distinct keys, which are the map's keys, sum to the list's length |
| PropertyCalculators.TopKeysSubsequence | src/main/java/de/monticore/lang/json/_visitor/TopLevelPropertyCalculator.java:29-38 | for one document the top-level list is a subsequence of the full calculator's list |
| PropertyCalculators.NestedKeysAfterTheirProperty | src/main/java/de/monticore/lang/json/_visitor/FullPropertyCalculator.java:22-24 | a property's key precedes the keys inside its value; the shallow walk sees only the key |
| IndentPrinting.IndentPrinter.constructor | src/main/java/de/monticore/lang/json/prettyprint/JSONToPlantUML.java:24 | an empty buffer at level 0 |
| IndentPrinting.IndentPrinter.Print | src/main/java/de/monticore/lang/json/prettyprint/JSONPrettyPrinter.java:73 | the text is appended; the level is unchanged |
| IndentPrinting.IndentPrinter.Println | src/main/java/de/monticore/lang/json/prettyprint/JSONPrettyPrinter.java:62 | the text and a line break are appended |
| IndentPrinting.IndentPrinter.Indent | src/main/java/de/monticore/lang/json/prettyprint/JSONPrettyPrinter.java:63 | the level goes up by one; no text changes |
| IndentPrinting.IndentPrinter.Unindent | src/main/java/de/monticore/lang/json/prettyprint/JSONPrettyPrinter.java:72 | the level goes down by one; no text changes |
| IndentPrinting.IndentPrinter.ClearBuffer | src/main/java/de/monticore/lang/json/prettyprint/JSONPrettyPrinter.java:43 | the buffer is emptied |
| JsonPrinter.JsonPrettyPrinter.constructor | src/main/java/de/monticore/lang/json/prettyprint/JSONPrettyPrinter.java:21-26 | a fresh, empty printer |
| JsonPrinter.JsonPrettyPrinter.PrintJsonDocument | src/main/java/de/monticore/lang/json/prettyprint/JSONPrettyPrinter.java:42-46 | clears the buffer, so the result is the document's JSON text alone; the level is unchanged |
| JsonPrinter.JsonPrettyPrinter.PrintJsonNumber | src/main/java/de/monticore/lang/json/prettyprint/JSONPrettyPrinter.java:54-58 | clears the buffer; the result is the number's source text verbatim |
| JsonPrinter.JsonPrettyPrinter.Handle | src/main/java/de/monticore/lang/json/prettyprint/JSONPrettyPrinter.java:76-130 | leaves print as '"'+source+'"', their source text, their boolean value or "null"; the level is unchanged |
| JsonPrinter.JsonPrettyPrinter.HandleObject | src/main/java/de/monticore/lang/json/prettyprint/JSONPrettyPrinter.java:87-105 | "{" and a line break, each property as '"key": ' and its value followed by ", " and a line break (a line break after the last), then "}"; one indent and one unindent |
| JsonPrinter.JsonPrettyPrinter.HandleArray | src/main/java/de/monticore/lang/json/prettyprint/JSONPrettyPrinter.java:60-74 | the same with "[" and "]" around the elements |
| JsonPrinter.PropsStep | src/main/java/de/monticore/lang/json/prettyprint/JSONPrettyPrinter.java:90-97 | one loop turn prints property i and its separator, leaving the rest of the layout to print |
| JsonPrinter.ElemsStep | src/main/java/de/monticore/lang/json/prettyprint/JSONPrettyPrinter.java:64-71 | one loop turn prints element i and its separator, leaving the rest of the layout to print |
| XmlPrinter.ReplaceSpaces | src/main/java/de/monticore/lang/json/prettyprint/JSONToXML.java:177 | same length; every space becomes "_" and every other character stays |
| XmlPrinter.CleanKeyIsElementName | src/main/java/de/monticore/lang/json/prettyprint/JSONToXML.java:171-178 | the cleaned key is non-empty, has no spaces, starts with a character no lower than 'A' and does not start with "xml" |
| XmlPrinter.CleanKeyLength | src/main/java/de/monticore/lang/json/prettyprint/JSONToXML.java:172-177 | the key's length plus 1 when the first code is below 65 or the key starts with "xml" (case-sensitive), else plus 0 |
| XmlPrinter.CleanKeyInjective | src/main/java/de/monticore/lang/json/prettyprint/JSONToXML.java:171-178 | among keys without spaces that do not start with "_", distinct keys stay distinct |
| XmlPrinter.NoSpacesUnchanged | src/main/java/de/monticore/lang/json/prettyprint/JSONToXML.java:172-177 | a key without spaces is returned as is or with one "_" in front |
| XmlPrinter.CleanKeyCollisions | src/main/java/de/monticore/lang/json/prettyprint/JSONToXML.java:171-178 | "a b" and "a_b" share a name, as do "1" and "_1" |
| XmlPrinter.JsonToXml.constructor | src/main/java/de/monticore/lang/json/prettyprint/JSONToXML.java:23-28 | a fresh, empty printer |
| XmlPrinter.JsonToXml.PrintJsonDocument | src/main/java/de/monticore/lang/json/prettyprint/JSONToXML.java:44-48 | clears the buffer; succeeds iff no key is empty (cleanKey reads the first character), and then the result is the document's XML text |
| XmlPrinter.JsonToXml.PrintJsonNumber | src/main/java/de/monticore/lang/json/prettyprint/JSONToXML.java:56-60 | clears the buffer; the number's source text |
| XmlPrinter.JsonToXml.Handle | src/main/java/de/monticore/lang/json/prettyprint/JSONToXML.java:84-139 | appends the value's XML text; leaves as in JSON |
| XmlPrinter.JsonToXml.HandleObject | src/main/java/de/monticore/lang/json/prettyprint/JSONToXML.java:95-99 | the properties in order, with no wrapper element |
| XmlPrinter.JsonToXml.HandleProperty | src/main/java/de/monticore/lang/json/prettyprint/JSONToXML.java:101-114 | "<k>", a line break before an object or array, the value, then "</k>" with a line break, k the cleaned key |
| XmlPrinter.JsonToXml.HandleArray | src/main/java/de/monticore/lang/json/prettyprint/JSONToXML.java:62-82 | each element inside "<value>" and "</value>", with a line break after the opening tag for an object or array |
| XmlPrinter.JsonToXml.HandleElement | src/main/java/de/monticore/lang/json/prettyprint/JSONToXML.java:65-80 | one element appends `<value>`, a line break before a container, the element's XML, `</value>` and a line break; the level is restored |
| XmlPrinter.PropertyTagsMatch | src/main/java/de/monticore/lang/json/prettyprint/JSONToXML.java:102-114 | a property's element opens and closes with the same cleaned name |
| XmlPrinter.ObjectHasNoWrapper | src/main/java/de/monticore/lang/json/prettyprint/JSONToXML.java:95-99 | a one-property object prints as that property's element alone |
| XmlPrinter.LeavesAsInJson | src/main/java/de/monticore/lang/json/prettyprint/JSONToXML.java:84-139 | leaves print as in the JSON text |
| PlantUmlPrinter.JsonToPlantUml.constructor | src/main/java/de/monticore/lang/json/prettyprint/JSONToPlantUML.java:23-29 | a fresh printer with an empty buffer |
| PlantUmlPrinter.JsonToPlantUml.PrintJsonDocument | src/main/java/de/monticore/lang/json/prettyprint/JSONToPlantUML.java:45-91 | clears the buffer; "@startjson" and a line break, the body, a line break, "@endjson" |
| PlantUmlPrinter.JsonToPlantUml.Handle | src/main/java/de/monticore/lang/json/prettyprint/JSONToPlantUML.java:117-160 | appends the value's diagram text: leaves as quoted source, source text, boolean value or "null" |
| PlantUmlPrinter.JsonToPlantUml.HandleObject | src/main/java/de/monticore/lang/json/prettyprint/JSONToPlantUML.java:53-65 | "{" and a line break, each property as '"key": ' and value followed by "," and a line break (a line break after the last), then "}" |
| PlantUmlPrinter.JsonToPlantUml.HandleArray | src/main/java/de/monticore/lang/json/prettyprint/JSONToPlantUML.java:68-80 | the same with "[" and "]" around the elements |
| PlantUmlPrinter.Envelope | src/main/java/de/monticore/lang/json/prettyprint/JSONToPlantUML.java:82-91 | the diagram starts with "@startjson" and ends with "@endjson"; dropping the first 10 and last 8 characters leaves the body between two line breaks |
| PlantUmlPrinter.LeavesAsInJson | src/main/java/de/monticore/lang/json/prettyprint/JSONToPlantUML.java:117-160 | leaves print as in the JSON text |
| PlantUmlPrinter.JsonIsBodyPlusSpaces | src/main/java/de/monticore/lang/json/prettyprint/JSONToPlantUML.java:58-61 | the diagram body is a subsequence of the JSON text, which is longer by exactly one character per sibling separator: the JSON text is the body with one character inserted after each separator comma |
| CommandLines.OptionValue | src/main/java/de/monticore/lang/json/JSONTool.java:124 | getOptionValue(name, default): the first value when the option has one, else the default |
| CommandLines.LastIndexOf | src/main/java/de/monticore/lang/json/JSONTool.java:228 | lastIndexOf: -1 iff the character is absent; otherwise the position of the last occurrence |
| CommandLines.BaseName | src/main/java/de/monticore/lang/json/JSONTool.java:225 | File.getName contains no '/' |
| CommandLines.BaseNameAfterDirectory | src/main/java/de/monticore/lang/json/JSONTool.java:225 | the base name of a directory prefix plus a name without '/' is that name |
| CommandLines.LastIndexBeforeTail | src/main/java/de/monticore/lang/json/JSONTool.java:228 | the last occurrence is the one before a tail without it |
| CommandLines.ModelNameCutsLastExtension | src/main/java/de/monticore/lang/json/JSONTool.java:224-234 | "dir/base.ext" gives "base": only the last extension and the directories are dropped, whatever dots base holds |
| CommandLines.ModelNameWithoutExtension | src/main/java/de/monticore/lang/json/JSONTool.java:227-233 | a base name without a dot is the model name unchanged |
| CommandLines.ModelNameOfBaseName | src/main/java/de/monticore/JSONCLI.java:329-339 | the model name of de.monticore.JSONCLI, the same function, is a prefix of the base name and contains no '/' |
| Reports.EmptyDirectoryIsRoot | src/main/java/de/monticore/lang/json/JSONTool.java:197-207 | an empty report directory gives paths directly under "/", such as "/allProperties.txt", not console output |
| Reports.JoinLoop | src/main/java/de/monticore/lang/json/JSONTool.java:274-281 | the loop's text is the parts joined with the separator |
| Reports.EntryTexts | src/main/java/de/monticore/lang/json/JSONTool.java:302-303 | one "key (n)" entry per key, n the map's count |
| Reports.CountEntries | src/main/java/de/monticore/lang/json/JSONTool.java:302-303 | one "key (n)" entry per key, n its number of occurrences |
| Reports.EntriesOfCounted | src/main/java/de/monticore/lang/json/JSONTool.java:297-303 | with the calculator's counting map, the entries are the occurrence counts |
| Reports.CountedLoop | src/main/java/de/monticore/lang/json/JSONTool.java:298-308 | the iterator loop visits each key of the map exactly once, in some order, and its text is the entries joined with the separator |
| Reports.JoinSnoc | src/main/java/de/monticore/lang/json/JSONTool.java:275-280 | one more part adds the separator and the part, except after nothing |
| Reports.JoinEnds | src/main/java/de/monticore/lang/json/JSONTool.java:274-281 | an empty list gives ""; otherwise the text starts with the first part and ends with the last: no leading or trailing separator |
| JsonTool.AllPropertyNames | src/main/java/de/monticore/lang/json/JSONTool.java:268-282 | all keys in pre-order joined with ", " |
| JsonTool.CountedPropertyNames | src/main/java/de/monticore/lang/json/JSONTool.java:292-309 | one "key (n)" entry per distinct key, n its occurrences, joined with ", ", in the map's order |
| JsonTool.TopLevelPropertyNames | src/main/java/de/monticore/lang/json/JSONTool.java:318-333 | the top-level keys joined with ", " |
| JsonTool.Report | src/main/java/de/monticore/lang/json/JSONTool.java:199-214 | the three reports, in order, to dir + "/" + "allProperties.txt", "countedProperties.txt" and "topLevelProperties.txt" |
| JsonTool.PrettyPrintTable | src/main/java/de/monticore/lang/json/JSONTool.java:86-120 | "json" takes an optional file; "puml txt" without a file goes to the console, with a file to that file; "puml svg" renders SVG; anything else prints help; each iff |
| JsonTool.HelpBeforeParsing | src/main/java/de/monticore/lang/json/JSONTool.java:56-67 | -h, or a missing -i, prints help and returns; the input is read iff neither applies |
| JsonTool.FailedParseStops | src/main/java/de/monticore/lang/json/JSONTool.java:243-259 | an input that does not parse ends the run before any output |
| JsonTool.OutputsInOrder | src/main/java/de/monticore/lang/json/JSONTool.java:86-132 | pretty printing, reports and syntax objects come at most once each, in that order |
| JsonTool.UnknownPrettyPrintStops | src/main/java/de/monticore/lang/json/JSONTool.java:88-119 | an unknown -pp form prints help and stops: no report, no syntax objects |
| JsonTool.RunShowsOutputs | src/main/java/de/monticore/lang/json/JSONTool.java:86-132 | once the input parses, an output action is in the run iff it is among the outputs the options ask for |
| JsonTool.PrettyPrintRequested | src/main/java/de/monticore/lang/json/JSONTool.java:86-120 | `-pp` gives a pretty print to the file or console it names |
| JsonTool.PrettyPrintOnlyRequested | src/main/java/de/monticore/lang/json/JSONTool.java:85-86 | there is no pretty print without `-pp` |
| JsonTool.ReportsRequested | src/main/java/de/monticore/lang/json/JSONTool.java:123-126 | `-r` writes the reports into its directory iff given |
| JsonTool.SyntaxObjectsRequested | src/main/java/de/monticore/lang/json/JSONTool.java:129-132 | `-so` stores the syntax objects under the input's model name iff given |
| JsonTool.RequestedOutputsProduced | src/main/java/de/monticore/lang/json/JSONTool.java:86-132 | otherwise each of -pp, -r and -so is carried out iff given, the syntax objects under the input's model name |
| JsonCli.AllPropertyNames | src/main/java/de/monticore/JSONCLI.java:246-257 | a fresh calculator's getAllPropertyNames joined with ", " |
| JsonCli.CountedPropertyNames | src/main/java/de/monticore/JSONCLI.java:267-281 | "key (n)" entries for the distinct keys joined with ", ", in the map's order |
| JsonCli.TopLevelPropertyNames | src/main/java/de/monticore/JSONCLI.java:290-301 | the top-level keys joined with ", " |
| JsonCli.HelpBeforeParsing | src/main/java/de/monticore/JSONCLI.java:82-93 | -h, or a missing -i, prints help and stops; the input is read iff neither applies |
| JsonCli.FailedParseStops | src/main/java/de/monticore/JSONCLI.java:179-198 | an input that does not parse ends the run before any output |
| JsonCli.RunShowsOutputs | src/main/java/de/monticore/JSONCLI.java:113-128 | after a parse the outputs come in stage order, and an output is in the run iff the options ask for it |
| JsonCli.PrettyPrintRequested | src/main/java/de/monticore/JSONCLI.java:113-116 | `-pp` prints the document into its file iff given |
| JsonCli.ReportsRequested | src/main/java/de/monticore/JSONCLI.java:119-122 | `-r` writes the reports iff given |
| JsonCli.SyntaxObjectsRequested | src/main/java/de/monticore/JSONCLI.java:125-128 | `-so` stores the syntax objects under the input's model name iff given |
| JsonCli.OutputsAsRequested | src/main/java/de/monticore/JSONCLI.java:113-128 | after a parse, -pp, -r and -so are handled in that order, each iff given, the syntax objects under the input's model name |
| InteractiveCli.HasFormat | src/main/java/de/monticore/lang/json/JSONCLI.java:127-135 | the token loop returns true iff the format's tokens are the leading tokens of the line split on " " |
| InteractiveCli.MatchesTokenwise | src/main/java/de/monticore/lang/json/JSONCLI.java:128-134 | a format matches iff the line has at least as many tokens and each format token equals the token at its place; extra tokens are allowed |
| InteractiveCli.MatchesPrefix | src/main/java/de/monticore/lang/json/JSONCLI.java:127-135 | a line matching a format matches each prefix of it |
| InteractiveCli.Excludes | src/main/java/de/monticore/lang/json/JSONCLI.java:127-135 | formats with different first tokens never both match |
| InteractiveCli.Dispatch | src/main/java/de/monticore/lang/json/JSONCLI.java:86-122 | the if-chain of hasFormat calls selects the command of the line, in the source's order |
| InteractiveCli.ParseDispatch | src/main/java/de/monticore/lang/json/JSONCLI.java:96-101 | a line with the "parse" format but not the "parse -f" format is the parse-string command over the text after the first space |
| InteractiveCli.EmptyLineDoesNothing | src/main/java/de/monticore/lang/json/JSONCLI.java:90-92 | an empty line is no command |
| InteractiveCli.ParseFileFirst | src/main/java/de/monticore/lang/json/JSONCLI.java:96-98 | "parse -f" is tried before "parse": a line matching it is always the file command |
| InteractiveCli.PrintToFileFirst | src/main/java/de/monticore/lang/json/JSONCLI.java:102-104 | "print -f" is tried before "print" |
| InteractiveCli.CountedFirst | src/main/java/de/monticore/lang/json/JSONCLI.java:108-110 | "properties -a -c" is tried before "properties -a" |
| InteractiveCli.OnlyQuitQuits | src/main/java/de/monticore/lang/json/JSONCLI.java:117-119 | a line is the quit command iff its first token is "-q" |
| InteractiveCli.UnknownLineShowsHelp | src/main/java/de/monticore/lang/json/JSONCLI.java:120-122 | a non-empty line whose first token names no command prints the help |
| InteractiveCli.ParseTakesRest | src/main/java/de/monticore/lang/json/JSONCLI.java:99-101 | "parse" and a space take everything after the first space as the JSON text, spaces included |
| InteractiveCli.ParseFileTakesRest | src/main/java/de/monticore/lang/json/JSONCLI.java:96-98 | "parse -f " takes everything after the second space as the path |
| InteractiveCli.PrintToFileTakesRest | src/main/java/de/monticore/lang/json/JSONCLI.java:102-104 | "print -f " takes everything after the second space as the file |
| InteractiveCli.ParseWithoutText | src/main/java/de/monticore/lang/json/JSONCLI.java:99-101 | "parse" with no space has no payload: the split array has no element 1 |
| InteractiveCli.FileCommandsWithoutPath | src/main/java/de/monticore/lang/json/JSONCLI.java:96-104 | "parse -f" and "print -f" with no second space have no payload |
| InteractiveCli.JsonShell.constructor | src/main/java/de/monticore/lang/json/JSONCLI.java:61-69 | the banner is printed; two empty calculators; no document |
| InteractiveCli.JsonShell.PrintHelp | src/main/java/de/monticore/lang/json/JSONCLI.java:137-147 | the help text is appended to the console; nothing else changes |
| InteractiveCli.JsonShell.Refresh | src/main/java/de/monticore/lang/json/JSONCLI.java:71-75 | new empty calculators and no document |
| InteractiveCli.JsonShell.ParseString | src/main/java/de/monticore/lang/json/JSONCLI.java:149-153 | refresh, then the parser's result as the document; no cached property list survives |
| InteractiveCli.JsonShell.ParseFile | src/main/java/de/monticore/lang/json/JSONCLI.java:155-165 | refresh, then the file's document, or "Error: File not found." and no document |
| InteractiveCli.JsonShell.Print | src/main/java/de/monticore/lang/json/JSONCLI.java:167-186 | without a document the error line and nothing else; otherwise the JSON text to the console for "" or into the named file |
| InteractiveCli.JsonShell.AllPropertyNames | src/main/java/de/monticore/lang/json/JSONCLI.java:188-204 | without a document the error line; otherwise all keys joined with ", " |
| InteractiveCli.JsonShell.CountedPropertyNames | src/main/java/de/monticore/lang/json/JSONCLI.java:206-226 | without a document the error line; otherwise "key (n)" entries joined with "," and no space |
| InteractiveCli.JsonShell.TopLevelPropertyNames | src/main/java/de/monticore/lang/json/JSONCLI.java:228-244 | without a document the error line; otherwise the top-level keys joined with ", " |
| InteractiveCli.EffectOf | src/main/java/de/monticore/lang/json/JSONCLI.java:90-122 | only the parse commands replace the document, and only `print -f` writes a file, under the name it gives |
| InteractiveCli.SessionAppend | src/main/java/de/monticore/lang/json/JSONCLI.java:83-125 | commands run one after another: a run split in two is the second part on what the first left, with both outputs in turn |
| InteractiveCli.SessionKeepsDocument | src/main/java/de/monticore/lang/json/JSONCLI.java:96-101 | a run with no parse command leaves the document as it was |
| InteractiveCli.LastParseDecides | src/main/java/de/monticore/lang/json/JSONCLI.java:99-101 | after `parse <json>` and no later parse, the document is what the parser made of that text |
| InteractiveCli.ParseThenPrint | src/main/java/de/monticore/lang/json/JSONCLI.java:99-107 | `parse <json>` then `print` shows two prompts and the parsed document's JSON text, or the no-document error when the text did not parse |
| InteractiveCli.JsonShell.Execute | src/main/java/de/monticore/lang/json/JSONCLI.java:90-116 | one non-ending command keeps the shell's invariant and has exactly its effect: the document, the files and the console text per command (help text; parse result; file-not-found line; JSON text to console or file; the three property listings; the no-document error) |
| InteractiveCli.JsonShell.PrintPrompt | src/main/java/de/monticore/lang/json/JSONCLI.java:77-81 | the prompt is appended before each read |
| InteractiveCli.JsonShell.HandleLine | src/main/java/de/monticore/lang/json/JSONCLI.java:86-122 | the line's command is dispatched and has exactly its effect on document, files and console; `-q` and a command without its payload change nothing |
| InteractiveCli.JsonShell.Turn | src/main/java/de/monticore/lang/json/JSONCLI.java:86-89 | one pass of the loop: the prompt, then the command of the next line; a shell in the state the first lines left is afterwards in the state one more line leaves |
| InteractiveCli.JsonShell.ReadLines | src/main/java/de/monticore/lang/json/JSONCLI.java:84-124 | the loop runs until a command ends it (`stop` exactly when the last command read is "-q" or lacks its payload) or the lines run out; the commands are those of the lines read, and only the last may end the loop |
| InteractiveCli.JsonShell.HandleArgs | src/main/java/de/monticore/lang/json/JSONCLI.java:83-125 | the commands carried out are those of the lines read, in order; the loop ends at the first "-q" or missing payload, or when input runs out; the document, the files and the console afterwards are those of the session of the commands read, each after its prompt, plus one more prompt at the end of input |
| InteractiveCli.Run | src/main/java/de/monticore/lang/json/JSONCLI.java:83-125 | the console is the banner, the help, then the session of the lines read from an empty shell; a normal end is a "-q" line |

## Left out

- Parsing. The JSON parser is generated code and is not part of this model. A parse result is an `Option` of a document, and reading a file can fail; both are inputs of the model.
- Source positions come from the AST framework. A message's toString takes the rendered start and end positions as text.
- Node identity is not modelled. A difference's node is the left value itself, and equal subtrees are not told apart.
- IndentPrinter is modelled as an append-only buffer with a level counter. The indentation whitespace at line starts is not rendered, so the exact whitespace is not modelled.
- File and console output, the symbol table, json2od, the PlantUML file, SVG and PNG writers, and logging are left out. They appear only as actions in the tools' run sequences.
- The commons-cli option parser and the help dialog text are left out. A parsed command line is a map from option to values, and the help text is a placeholder.
- HashMap iteration order is unspecified in the source, so the counted reports take a ghost `order` of distinct keys. No ordering property is stated for them.
- JsonTool.PrettyPrintChoice: `-pp` with no values is treated as an empty list. commons-cli may return null there, which would throw.
- CommandLines.BaseName: File.getName is modelled as the text after the last '/'. Java's path normalisation of repeated or trailing slashes is not modelled.
- XmlPrinter.JsonToXml.PrintJsonDocument: for a document with an empty key it returns None. The source throws from cleanKey partway through, and the partial buffer is not modelled.
- JsonCli.TopLevelPropertyNames: the CLIs call a one-argument getTopLevelPropertyNames(node), which TopLevelPropertyCalculator.java does not define. It is modelled like the full calculator's getter: walk when the list is empty, then return it.
- JsonTool.AllPropertyNames: the calculator's zero-argument getters, called after the traverser's walk, are modelled as reads of the walked list and map.
- JsonTool.CountedPropertyNames: the same assumption as JsonTool.AllPropertyNames, for the map.
- JSONFullPrettyPrinter and the PlantUML printer's styling are not modelled.
- InteractiveCli.JsonShell.Print: the IOException of the file writer is not modelled. Writing always succeeds, into the shell's map of files.
- InteractiveCli.JsonShell.HandleArgs: a line whose payload is missing (a `PayloadMissing` command) stops the model's loop; in the source the `input.split(...)` index throws `ArrayIndexOutOfBoundsException` there, which leaves `handleArgs` altogether. The model does not represent that exception, only that nothing after the line is read or carried out. Likewise a read that returns null ends the model's loop as `EndOfInput`, where the source's `input.isEmpty()` throws a `NullPointerException`. The prompts, the order of reads and the effect of each command are kept.
- JsonAst.StringValue: MontiCore's string literal decoder is not part of this model. The model decodes the escapes of the string token: `\b`, `\t`, `\n`, `\f`, `\r`, `\"`, `\'`, `\\` and `\uXXXX`. A `\uXXXX` that names half of a surrogate pair is kept as typed, because a Dafny `char` cannot hold it.
- System.lineSeparator() is fixed to "\n" (the constant `Strings.LineSeparator`). The messages' line layout, and the MissingPropertyMessageLines, DifferentValueMessageLines and DifferentTypeMessageLines lemmas built on it, hold for that choice only.
- Differencer.NodeClassName: the UNKNOWN_JSON_VALUE_TYPE cause names only the node's class name. Object.toString's `@` and hash code are dropped. This is part of "Node identity is not modelled" above.
- Exceptions that end a run are outcomes. These are the differencer's NullPointerException for an unlabelled difference, the shell's ArrayIndexOutOfBoundsException (`PayloadMissing`), and JSONTool's failed-parse `get` (`ParseAborted`); none of them is rethrown.

## Findings

| source | as written | input that shows it | evidently intended | confidence | as-written member | corrected member |
|---|---|---|---|---|---|---|
| src/main/java/de/monticore/lang/json/semdiff/SemanticJSONDifferencer.java:107-110 | Null against null takes the empty `isJSONNull` branch and falls through to the UNKNOWN_JSON_VALUE_TYPE throw | `{"a": null}` compared with itself | no difference, so "Models are equivalent." | not executed | DifferencerProperties.NullPropertyFailsAsWritten | DifferencerProperties.NullPropertyEquivalentCorrected |
| src/main/java/de/monticore/lang/json/semdiff/SemanticJSONDifference.java:47-49 | differentType records kind DIFFERENT_VALUE, so toMessage builds a DifferentPropertyValueMessage whose value is null | `{"a": 1}` against `{"a": "x"}` | kind DIFFERENT_TYPE, giving a DifferentPropertyTypeMessage with type "number" | not executed | DifferencerProperties.TypeMismatchMessage | Differences.DifferentTypeCorrected |

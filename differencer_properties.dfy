/** What the semantic differencer guarantees, stated over the walk `Diff`
    and the message conversion `ToMessages`. */
module DifferencerProperties {

  import opened Wrappers
  import opened Strings
  import opened JsonAst
  import opened DiffErrors
  import opened Differences
  import opened Messages
  import opened JsonPrinter
  import opened Differencer

  // ---------------------------------------------------------------------
  // Kinds and leaves

  /** The kind names tell the six kinds apart: two values get the same
      name exactly when `equalJSONType` holds. */
  lemma TypeNamesDistinguishKinds(a: Value, b: Value)
    ensures JsonTypeName(a) == JsonTypeName(b) <==> EqualJsonType(a, b)
  {
  }

  /** Values of different kinds give exactly one difference, anchored at the
      left node, carrying the left kind's name and no value; the children
      are not compared. As written it is recorded as a different value. */
  lemma DifferentKindsGiveOneDifference(mode: Mode, n1: Value, n2: Value)
    requires !EqualJsonType(n1, n2)
    ensures Diff(mode, n1, n2).Success? && |Diff(mode, n1, n2).value| == 1
    ensures var d := Diff(mode, n1, n2).value[0];
      d.node == n1 && d.typeName == Some(JsonTypeName(n1)) && d.value == None
      && d.property == None && d.index == None
      && d.kind == (if mode == AsWritten then DifferentValue else DifferentType)
  {
  }

  /** Equal leaves give no difference; unequal leaves of one kind give one
      different value, whose payload is the left value for booleans and
      strings (the string's decoded value, not its text as typed) but the
      right number's printed text for numbers. */
  lemma LeafComparison(mode: Mode, n1: Value, n2: Value)
    requires EqualJsonType(n1, n2) && (n1.Boolean? || n1.Str? || n1.Number?)
    ensures Diff(mode, n1, n2).Success?
    ensures Diff(mode, n1, n2).value == [] <==> n1 == n2
    ensures n1 != n2 ==> Diff(mode, n1, n2).value == [DifferentValueOf(n1,
      if n1.Boolean? then BoolText(n1.b) else if n1.Str? then StringValue(n1.source) else n2.source)]
  {
  }

  /** A string with an escaped quote is reported by its value, with the
      quote itself, and not by the literal text with its backslash. */
  lemma EscapedStringReportedByValue(mode: Mode)
    ensures Diff(mode, Str("x\\\"y"), Str("z")) == Success([DifferentValueOf(Str("x\\\"y"), "x\"y")])
  {
    var s := "x\\\"y";
    assert s[0] == 'x' && s[1] == '\\' && SimpleEscape(s[2]) && s[3..] == "y";
    assert StringValue(s[3..]) == "y";
    assert StringValue(s[1..]) == "\"y";
    assert StringValue(s) == "x\"y";
  }

  /** Null against null: as written the dispatch falls through to
      UNKNOWN_JSON_VALUE_TYPE; corrected it is no difference. */
  lemma NullAgainstNull(mode: Mode)
    ensures mode == AsWritten ==>
      Diff(mode, Null, Null) == Failure(NewException(UnknownJsonValueType, "de.monticore.lang.json._ast.ASTJSONNull"))
    ensures mode == Intended ==> Diff(mode, Null, Null) == Success([])
  {
  }

  // ---------------------------------------------------------------------
  // Back-filling of property and index

  /** After an object comparison every difference has a property. */
  lemma {:induction false} ObjectDiffsHaveProperty(mode: Mode, o1: Value, o2: Value, n: nat)
    requires o1.Object? && o2.Object? && n <= |o1.props|
    ensures DiffProps(mode, o1, o2, n).Success? ==>
      forall i :: 0 <= i < |DiffProps(mode, o1, o2, n).value| ==> DiffProps(mode, o1, o2, n).value[i].property.Some?
    decreases n
  {
    if n > 0 {
      ObjectDiffsHaveProperty(mode, o1, o2, n - 1);
    }
  }

  /** After an array comparison every difference has a property or an index. */
  lemma {:induction false} ArrayDiffsArePlaced(mode: Mode, a1: Value, a2: Value, n: nat)
    requires a1.Array? && a2.Array? && n <= |a1.values|
    ensures DiffElems(mode, a1, a2, n).Success? ==>
      forall i :: 0 <= i < |DiffElems(mode, a1, a2, n).value| ==>
        DiffElems(mode, a1, a2, n).value[i].property.Some? || DiffElems(mode, a1, a2, n).value[i].index.Some?
    decreases n
  {
    if n > 0 {
      ArrayDiffsArePlaced(mode, a1, a2, n - 1);
    }
  }

  /** Every difference of `ds` is anchored inside `v`, and its property, if
      any, is a property of `v` or of an object nested in it. */
  predicate AnchoredIn(ds: seq<SemDiff>, v: Value)
  {
    forall i :: 0 <= i < |ds| ==>
      Within(ds[i].node, v) && (ds[i].property.Some? ==> PropertyWithin(ds[i].property.value, v))
  }

  /** Differences only ever point into the left document. */
  lemma {:induction false} AnchoredInLeft(mode: Mode, n1: Value, n2: Value)
    ensures Diff(mode, n1, n2).Success? ==> AnchoredIn(Diff(mode, n1, n2).value, n1)
    decreases n1, 1, 0
  {
    if EqualJsonType(n1, n2) {
      match n1
      case Object(ps) => PropsAnchoredInLeft(mode, n1, n2, |ps|);
      case Array(vs) => ElemsAnchoredInLeft(mode, n1, n2, |vs|);
      case _ =>
    }
  }

  lemma {:induction false} PropsAnchoredInLeft(mode: Mode, o1: Value, o2: Value, n: nat)
    requires o1.Object? && o2.Object? && n <= |o1.props|
    ensures DiffProps(mode, o1, o2, n).Success? ==> AnchoredIn(DiffProps(mode, o1, o2, n).value, o1)
    decreases o1, 0, n
  {
    if n > 0 && DiffProps(mode, o1, o2, n).Success? {
      PropsAnchoredInLeft(mode, o1, o2, n - 1);
      PropertyStepAnchored(mode, o1, o2, n - 1);
      AnchoredAppend(DiffProps(mode, o1, o2, n - 1).value, PropertyStep(mode, o1, o2, n - 1).value, o1);
    }
  }

  lemma {:induction false} PropertyStepAnchored(mode: Mode, o1: Value, o2: Value, i: nat)
    requires o1.Object? && o2.Object? && i < |o1.props|
    ensures PropertyStep(mode, o1, o2, i).Success? ==> AnchoredIn(PropertyStep(mode, o1, o2, i).value, o1)
    decreases o1, 0, 0
  {
    var p1 := o1.props[i];
    var props2 := GetProps(o2.props, p1.key);
    assert Within(o1, o1);
    assert PropertyWithin(p1, o1);
    if props2 != [] && |props2| <= 1 {
      AnchoredInLeft(mode, p1.value, props2[0].value);
      if Diff(mode, p1.value, props2[0].value).Success? {
        var nested := Diff(mode, p1.value, props2[0].value).value;
        var filled := FillProperty(nested, p1);
        forall j | 0 <= j < |filled|
          ensures Within(filled[j].node, o1) && PropertyWithin(filled[j].property.value, o1)
        {
          assert Within(nested[j].node, o1.props[i].value);
          if nested[j].property.Some? {
            assert PropertyWithin(nested[j].property.value, o1.props[i].value);
          }
        }
      }
    }
  }

  lemma {:induction false} ElemsAnchoredInLeft(mode: Mode, a1: Value, a2: Value, n: nat)
    requires a1.Array? && a2.Array? && n <= |a1.values|
    ensures DiffElems(mode, a1, a2, n).Success? ==> AnchoredIn(DiffElems(mode, a1, a2, n).value, a1)
    decreases a1, 0, n
  {
    if n > 0 && DiffElems(mode, a1, a2, n).Success? {
      ElemsAnchoredInLeft(mode, a1, a2, n - 1);
      ElementStepAnchored(mode, a1, a2, n - 1);
      AnchoredAppend(DiffElems(mode, a1, a2, n - 1).value, ElementStep(mode, a1, a2, n - 1).value, a1);
    }
  }

  lemma {:induction false} ElementStepAnchored(mode: Mode, a1: Value, a2: Value, i: nat)
    requires a1.Array? && a2.Array? && i < |a1.values|
    ensures ElementStep(mode, a1, a2, i).Success? ==> AnchoredIn(ElementStep(mode, a1, a2, i).value, a1)
    decreases a1, 0, 0
  {
    assert Within(a1, a1);
    if i < |a2.values| {
      AnchoredInLeft(mode, a1.values[i], a2.values[i]);
      if Diff(mode, a1.values[i], a2.values[i]).Success? {
        var nested := Diff(mode, a1.values[i], a2.values[i]).value;
        var filled := FillIndex(nested, i);
        forall j | 0 <= j < |filled|
          ensures Within(filled[j].node, a1)
          ensures filled[j].property.Some? ==> PropertyWithin(filled[j].property.value, a1)
        {
          assert Within(nested[j].node, a1.values[i]);
          if nested[j].property.Some? {
            assert PropertyWithin(nested[j].property.value, a1.values[i]);
          }
        }
      }
    }
  }

  lemma AnchoredAppend(ds1: seq<SemDiff>, ds2: seq<SemDiff>, v: Value)
    requires AnchoredIn(ds1, v) && AnchoredIn(ds2, v)
    ensures AnchoredIn(ds1 + ds2, v)
  {
    forall i | 0 <= i < |ds1 + ds2|
      ensures Within((ds1 + ds2)[i].node, v)
      ensures (ds1 + ds2)[i].property.Some? ==> PropertyWithin((ds1 + ds2)[i].property.value, v)
    {
      if i >= |ds1| {
        assert (ds1 + ds2)[i] == ds2[i - |ds1|];
      }
    }
  }

  // ---------------------------------------------------------------------
  // One-directional walk and order

  /** The differences after `k` left properties are a prefix of those after
      `n >= k`: results appear in left property order. */
  lemma {:induction false} ObjectResultsGrowInLeftOrder(mode: Mode, o1: Value, o2: Value, k: nat, n: nat)
    requires o1.Object? && o2.Object? && k <= n <= |o1.props|
    requires DiffProps(mode, o1, o2, n).Success?
    ensures DiffProps(mode, o1, o2, k).Success?
    ensures DiffProps(mode, o1, o2, k).value <= DiffProps(mode, o1, o2, n).value
    decreases n
  {
    if k < n {
      ObjectResultsGrowInLeftOrder(mode, o1, o2, k, n - 1);
    }
  }

  /** The same for arrays, in index order. */
  lemma {:induction false} ArrayResultsGrowInIndexOrder(mode: Mode, a1: Value, a2: Value, k: nat, n: nat)
    requires a1.Array? && a2.Array? && k <= n <= |a1.values|
    requires DiffElems(mode, a1, a2, n).Success?
    ensures DiffElems(mode, a1, a2, k).Success?
    ensures DiffElems(mode, a1, a2, k).value <= DiffElems(mode, a1, a2, n).value
    decreases n
  {
    if k < n {
      ArrayResultsGrowInIndexOrder(mode, a1, a2, k, n - 1);
    }
  }

  /** Inserting a property with another key leaves a key's matches as they were. */
  lemma InsertedKeyInvisible(ps: seq<Property>, j: nat, p: Property, key: string)
    requires j <= |ps| && key != p.key
    ensures GetProps(ps[..j] + [p] + ps[j..], key) == GetProps(ps, key)
  {
    GetPropsConcat(ps[..j] + [p], ps[j..], key);
    GetPropsConcat(ps[..j], [p], key);
    GetPropsConcat(ps[..j], ps[j..], key);
    assert ps[..j] + ps[j..] == ps;
    assert GetProps([p], key) == [];
  }

  /** A right-hand property whose key the left object lacks, inserted
      anywhere, changes nothing. */
  lemma {:induction false} RightOnlyKeysIgnored(mode: Mode, o1: Value, o2: Value, j: nat, p: Property, n: nat)
    requires o1.Object? && o2.Object? && j <= |o2.props| && n <= |o1.props|
    requires !HasProp(o1.props, p.key)
    ensures DiffProps(mode, o1, Object(o2.props[..j] + [p] + o2.props[j..]), n) == DiffProps(mode, o1, o2, n)
    decreases n
  {
    if n > 0 {
      RightOnlyKeysIgnored(mode, o1, o2, j, p, n - 1);
      var key := o1.props[n - 1].key;
      InsertedKeyInvisible(o2.props, j, p, key);
    }
  }

  /** Extra right elements beyond the left array's length change nothing. */
  lemma {:induction false} ExtraRightElementsIgnored(mode: Mode, a1: Value, a2: Value, x: Value, n: nat)
    requires a1.Array? && a2.Array? && n <= |a1.values| <= |a2.values|
    ensures DiffElems(mode, a1, Array(a2.values + [x]), n) == DiffElems(mode, a1, a2, n)
    decreases n
  {
    if n > 0 {
      ExtraRightElementsIgnored(mode, a1, a2, x, n - 1);
      assert (a2.values + [x])[n - 1] == a2.values[n - 1];
    }
  }

  /** Against an empty object every left property is missing, in order. */
  lemma {:induction false} AgainstEmptyObject(mode: Mode, o1: Value, n: nat)
    requires o1.Object? && n <= |o1.props|
    ensures DiffProps(mode, o1, Object([]), n).Success?
    ensures |DiffProps(mode, o1, Object([]), n).value| == n
    ensures forall i :: 0 <= i < n ==>
      DiffProps(mode, o1, Object([]), n).value[i] == MissingPropertyOf(o1, o1.props[i])
    decreases n
  {
    if n > 0 {
      AgainstEmptyObject(mode, o1, n - 1);
    }
  }

  /** Against an empty array every left index is missing, in order. */
  lemma {:induction false} AgainstEmptyArray(mode: Mode, a1: Value, n: nat)
    requires a1.Array? && n <= |a1.values|
    ensures DiffElems(mode, a1, Array([]), n).Success?
    ensures |DiffElems(mode, a1, Array([]), n).value| == n
    ensures forall i :: 0 <= i < n ==> DiffElems(mode, a1, Array([]), n).value[i] == MissingIndexOf(a1, i)
    decreases n
  {
    if n > 0 {
      AgainstEmptyArray(mode, a1, n - 1);
    }
  }

  /** Two one-property objects with the same key compare as their values,
      with the left property filled in. */
  lemma SinglePropertyDiff(mode: Mode, k: string, v1: Value, v2: Value)
    ensures var nested := Diff(mode, v1, v2);
      Diff(mode, Object([Property(k, v1)]), Object([Property(k, v2)]))
        == if nested.Failure? then Failure(nested.error) else Success(FillProperty(nested.value, Property(k, v1)))
  {
    var o1, o2 := Object([Property(k, v1)]), Object([Property(k, v2)]);
    GetPropsUnique(o2.props, 0);
    assert GetProps(o2.props, k) == [Property(k, v2)];
    var nested := Diff(mode, v1, v2);
    var step := PropertyStep(mode, o1, o2, 0);
    assert step == if nested.Failure? then nested else Success(FillProperty(nested.value, Property(k, v1)));
    assert DiffProps(mode, o1, o2, 0) == Success([]);
    var r := DiffProps(mode, o1, o2, 1);
    if step.Success? {
      assert r == Success([] + step.value);
      assert [] + step.value == step.value;
    }
    assert Diff(mode, o1, o2) == r;
  }

  /** One difference converts to one message, or to its failure. */
  lemma SingleDifferenceMessages(d: SemDiff)
    ensures ToMessages([d]) == if ToMessage(d).Failure? then Failure(ToMessage(d).error) else Success([ToMessage(d).value])
  {
    assert MessagesUpTo([d], 0) == Success([]);
    assert [d][0] == d;
    var m := ToMessage(d);
    if m.Success? {
      assert [] + [m.value] == [m.value];
    }
  }

  /** The walk is one-directional: `{"a": 1}` against `{}` misses "a", but
      `{}` against `{"a": 1}` is equivalent. */
  lemma DiffIsAsymmetric(mode: Mode)
    ensures var o := Object([Property("a", Number("1"))]);
      SemDiffDocuments(mode, Document(o), Document(Object([])))
        == Success([MissingPropertyMessage(Some(o), "a")])
      && SemDiffDocuments(mode, Document(Object([])), Document(o))
        == Success([EquivalentModelsMessage(None)])
  {
    var o := Object([Property("a", Number("1"))]);
    AgainstEmptyObject(mode, o, 1);
    var m := MissingPropertyOf(o, o.props[0]);
    var r := DiffProps(mode, o, Object([]), 1);
    assert r.value == [m];
    assert Diff(mode, o, Object([])) == r;
    SingleDifferenceMessages(m);
    assert DiffProps(mode, Object([]), o, 0) == Success([]);
  }

  // ---------------------------------------------------------------------
  // When the walk throws

  /** The walk throws only for an ambiguous right key or, as written, for
      a null. */
  predicate ExpectedFailure(mode: Mode, r: Outcome)
  {
    r.Failure? ==> r.error.error == AmbiguousProperty || (mode == AsWritten && r.error.error == UnknownJsonValueType)
  }

  lemma {:induction false} FailureCauses(mode: Mode, n1: Value, n2: Value)
    ensures ExpectedFailure(mode, Diff(mode, n1, n2))
    decreases n1, 1, 0
  {
    if EqualJsonType(n1, n2) {
      match n1
      case Object(ps) => PropsFailureCauses(mode, n1, n2, |ps|);
      case Array(vs) => ElemsFailureCauses(mode, n1, n2, |vs|);
      case _ =>
    }
  }

  lemma {:induction false} PropsFailureCauses(mode: Mode, o1: Value, o2: Value, n: nat)
    requires o1.Object? && o2.Object? && n <= |o1.props|
    ensures ExpectedFailure(mode, DiffProps(mode, o1, o2, n))
    decreases o1, 0, n
  {
    if n > 0 {
      PropsFailureCauses(mode, o1, o2, n - 1);
      var p1 := o1.props[n - 1];
      var props2 := GetProps(o2.props, p1.key);
      if |props2| == 1 {
        FailureCauses(mode, p1.value, props2[0].value);
      }
    }
  }

  lemma {:induction false} ElemsFailureCauses(mode: Mode, a1: Value, a2: Value, n: nat)
    requires a1.Array? && a2.Array? && n <= |a1.values|
    ensures ExpectedFailure(mode, DiffElems(mode, a1, a2, n))
    decreases a1, 0, n
  {
    if n > 0 {
      ElemsFailureCauses(mode, a1, a2, n - 1);
      if n - 1 < |a2.values| {
        FailureCauses(mode, a1.values[n - 1], a2.values[n - 1]);
      }
    }
  }

  /** A left key matched by two or more right properties makes the whole
      comparison throw. */
  lemma AmbiguousKeyFails(mode: Mode, o1: Value, o2: Value, i: nat)
    requires o1.Object? && o2.Object? && i < |o1.props|
    requires |GetProps(o2.props, o1.props[i].key)| > 1
    ensures Diff(mode, o1, o2).Failure?
  {
    assert DiffProps(mode, o1, o2, i + 1).Failure?;
    PropsFailurePersists(mode, o1, o2, i + 1, |o1.props|);
  }

  /** The first ambiguous key decides the outcome: when the properties
      before it compare without an exception, the comparison throws
      AMBIGUOUS_PROPERTY naming that key. */
  lemma AmbiguousKeyNamed(mode: Mode, o1: Value, o2: Value, i: nat)
    requires o1.Object? && o2.Object? && i < |o1.props|
    requires DiffProps(mode, o1, o2, i).Success?
    requires |GetProps(o2.props, o1.props[i].key)| > 1
    ensures Diff(mode, o1, o2) == Failure(NewException(AmbiguousProperty, o1.props[i].key))
  {
    assert DiffProps(mode, o1, o2, i + 1) == Failure(NewException(AmbiguousProperty, o1.props[i].key));
    PropsFailurePersists(mode, o1, o2, i + 1, |o1.props|);
  }

  /** A left key the right object lacks is reported as a missing property
      of that left property, whatever else the right object holds. */
  lemma MissingKeyReported(mode: Mode, o1: Value, o2: Value, i: nat)
    requires o1.Object? && o2.Object? && i < |o1.props|
    requires GetProps(o2.props, o1.props[i].key) == []
    requires Diff(mode, o1, o2).Success?
    ensures MissingPropertyOf(o1, o1.props[i]) in Diff(mode, o1, o2).value
  {
    ObjectResultsGrowInLeftOrder(mode, o1, o2, i + 1, |o1.props|);
    var before := DiffProps(mode, o1, o2, i + 1).value;
    assert before == DiffProps(mode, o1, o2, i).value + [MissingPropertyOf(o1, o1.props[i])];
    assert before[|before| - 1] == MissingPropertyOf(o1, o1.props[i]);
    assert Diff(mode, o1, o2).value[|before| - 1] == before[|before| - 1];
  }

  /** A left index past the end of the right array is reported as a
      missing index, whatever the right array holds. */
  lemma MissingIndexReported(mode: Mode, a1: Value, a2: Value, i: nat)
    requires a1.Array? && a2.Array? && |a2.values| <= i < |a1.values|
    requires Diff(mode, a1, a2).Success?
    ensures MissingIndexOf(a1, i) in Diff(mode, a1, a2).value
  {
    ArrayResultsGrowInIndexOrder(mode, a1, a2, i + 1, |a1.values|);
    var before := DiffElems(mode, a1, a2, i + 1).value;
    assert before == DiffElems(mode, a1, a2, i).value + [MissingIndexOf(a1, i)];
    assert before[|before| - 1] == MissingIndexOf(a1, i);
    assert Diff(mode, a1, a2).value[|before| - 1] == before[|before| - 1];
  }

  /** On a right object with distinct keys, a left key matches at most once. */
  lemma AtMostOneMatch(o2: Value, key: string)
    requires o2.Object? && UniqueKeys(o2)
    ensures |GetProps(o2.props, key)| <= 1
  {
    HasPropIffGetProps(o2.props, key);
    if HasProp(o2.props, key) {
      var i :| 0 <= i < |o2.props| && o2.props[i].key == key;
      GetPropsUnique(o2.props, i);
    }
  }

  /** With distinct keys in every right object, and a left side free of
      nulls unless corrected, the walk never throws; duplicate keys on the
      left are no obstacle. */
  lemma {:induction false} UniqueRightKeysNeverFail(mode: Mode, n1: Value, n2: Value)
    requires UniqueKeys(n2) && (mode == Intended || NullFree(n1))
    ensures Diff(mode, n1, n2).Success?
    decreases n1, 1, 0
  {
    if EqualJsonType(n1, n2) {
      match n1
      case Object(ps) => PropsNeverFail(mode, n1, n2, |ps|);
      case Array(vs) => ElemsNeverFail(mode, n1, n2, |vs|);
      case _ =>
    }
  }

  lemma {:induction false} PropsNeverFail(mode: Mode, o1: Value, o2: Value, n: nat)
    requires o1.Object? && o2.Object? && n <= |o1.props|
    requires UniqueKeys(o2) && (mode == Intended || NullFree(o1))
    ensures DiffProps(mode, o1, o2, n).Success?
    decreases o1, 0, n
  {
    if n > 0 {
      PropsNeverFail(mode, o1, o2, n - 1);
      var p1 := o1.props[n - 1];
      var props2 := GetProps(o2.props, p1.key);
      AtMostOneMatch(o2, p1.key);
      if |props2| == 1 {
        GetPropsSelects(o2.props, p1.key);
        assert props2[0] in o2.props;
        var j :| 0 <= j < |o2.props| && o2.props[j] == props2[0];
        assert UniqueKeys(o2.props[j].value);
        UniqueRightKeysNeverFail(mode, p1.value, props2[0].value);
        assert PropertyStep(mode, o1, o2, n - 1).Success?;
      }
    }
  }

  lemma {:induction false} ElemsNeverFail(mode: Mode, a1: Value, a2: Value, n: nat)
    requires a1.Array? && a2.Array? && n <= |a1.values|
    requires UniqueKeys(a2) && (mode == Intended || NullFree(a1))
    ensures DiffElems(mode, a1, a2, n).Success?
    decreases a1, 0, n
  {
    if n > 0 {
      ElemsNeverFail(mode, a1, a2, n - 1);
      if n - 1 < |a2.values| {
        UniqueRightKeysNeverFail(mode, a1.values[n - 1], a2.values[n - 1]);
      }
    }
  }

  // ---------------------------------------------------------------------
  // Equivalence

  /** A document with distinct keys, free of nulls unless corrected, has no
      difference to itself. */
  lemma {:induction false} DiffSelf(mode: Mode, v: Value)
    requires UniqueKeys(v) && (mode == Intended || NullFree(v))
    ensures Diff(mode, v, v) == Success([])
    decreases v, 1, 0
  {
    match v
    case Object(ps) => PropsSelf(mode, v, |ps|);
    case Array(vs) => ElemsSelf(mode, v, |vs|);
    case _ =>
  }

  lemma {:induction false} PropsSelf(mode: Mode, o: Value, n: nat)
    requires o.Object? && n <= |o.props|
    requires UniqueKeys(o) && (mode == Intended || NullFree(o))
    ensures DiffProps(mode, o, o, n) == Success([])
    decreases o, 0, n
  {
    if n > 0 {
      PropsSelf(mode, o, n - 1);
      PropertyStepSelf(mode, o, n - 1);
      var empty: seq<SemDiff> := [];
      assert empty + empty == [];
      assert DiffProps(mode, o, o, n) == Success(empty + empty);
    }
  }

  lemma {:induction false} PropertyStepSelf(mode: Mode, o: Value, i: nat)
    requires o.Object? && i < |o.props|
    requires UniqueKeys(o) && (mode == Intended || NullFree(o))
    ensures PropertyStep(mode, o, o, i) == Success([])
    decreases o, 0, 0
  {
    var p := o.props[i];
    GetPropsUnique(o.props, i);
    assert GetProps(o.props, p.key) == [p];
    DiffSelf(mode, p.value);
    assert FillProperty([], p) == [];
  }

  lemma {:induction false} ElemsSelf(mode: Mode, a: Value, n: nat)
    requires a.Array? && n <= |a.values|
    requires UniqueKeys(a) && (mode == Intended || NullFree(a))
    ensures DiffElems(mode, a, a, n) == Success([])
    decreases a, 0, n
  {
    if n > 0 {
      ElemsSelf(mode, a, n - 1);
      DiffSelf(mode, a.values[n - 1]);
      assert FillIndex([], n - 1) == [];
      assert ElementStep(mode, a, a, n - 1) == Success([]);
      var empty: seq<SemDiff> := [];
      assert empty + empty == [];
      assert DiffElems(mode, a, a, n) == Success(empty + empty);
    }
  }

  /** Equivalent documents give exactly one "Models are equivalent." message,
      with no node. */
  lemma EquivalentDocumentsMessage(mode: Mode, d: Document)
    requires UniqueKeys(d.value) && (mode == Intended || NullFree(d.value))
    ensures SemDiffDocuments(mode, d, d) == Success([EquivalentModelsMessage(None)])
    ensures SimpleErrorMessage(EquivalentModelsMessage(None)) == "Models are equivalent."
  {
    DiffSelf(mode, d.value);
  }

  // ---------------------------------------------------------------------
  // Messages

  /** A difference can be turned into a message exactly when it has a
      property; the message keeps the node and is labelled with the key,
      plus "[index]" when an index is set. */
  lemma ToMessageLabels(d: SemDiff)
    ensures ToMessage(d).Success? <==> d.property.Some?
    ensures ToMessage(d).Success? ==>
      GetASTNode(ToMessage(d).value) == Some(d.node)
      && PropertyOf(ToMessage(d).value) == d.property.value.key
         + (if d.index.Some? then "[" + NatToString(d.index.value) + "]" else "")
  {
  }

  /** The conversion loop fails exactly when a difference lacks a property,
      and otherwise gives one message per difference, in order. */
  lemma {:induction false} MessagesUpToSpec(ds: seq<SemDiff>, n: nat)
    requires n <= |ds|
    ensures MessagesUpTo(ds, n).Success? <==> forall i :: 0 <= i < n ==> ds[i].property.Some?
    ensures MessagesUpTo(ds, n).Success? ==>
      |MessagesUpTo(ds, n).value| == n
      && forall i :: 0 <= i < n ==> MessagesUpTo(ds, n).value[i] == ToMessage(ds[i]).value
    decreases n
  {
    if n > 0 {
      MessagesUpToSpec(ds, n - 1);
      ToMessageLabels(ds[n - 1]);
      if !ds[n - 1].property.Some? {
        assert MessagesUpTo(ds, n).Failure?;
      }
    }
  }

  /** toMessages: no differences give the equivalence message alone;
      otherwise one message per difference, in order, unless some
      difference has no property to be labelled with. */
  lemma ToMessagesSpec(ds: seq<SemDiff>)
    ensures ds == [] ==> ToMessages(ds) == Success([EquivalentModelsMessage(None)])
    ensures ds != [] ==>
      (ToMessages(ds).Success? <==> forall i :: 0 <= i < |ds| ==> ds[i].property.Some?)
    ensures ds != [] && ToMessages(ds).Success? ==>
      |ToMessages(ds).value| == |ds|
      && forall i :: 0 <= i < |ds| ==> ToMessages(ds).value[i] == ToMessage(ds[i]).value
  {
    if ds != [] {
      MessagesUpToSpec(ds, |ds|);
    }
  }

  /** A missing array slot under a property is labelled "key[index]". */
  lemma IndexedLabelExample(mode: Mode)
    ensures var models := Array([Number("1")]);
      SemDiffDocuments(mode, Document(Object([Property("models", models)])),
                             Document(Object([Property("models", Array([]))])))
        == Success([MissingPropertyMessage(Some(models), "models[0]")])
  {
    var models := Array([Number("1")]);
    AgainstEmptyArray(mode, models, 1);
    var missing := MissingIndexOf(models, 0);
    var r := DiffElems(mode, models, Array([]), 1);
    assert r.value == [missing];
    assert Diff(mode, models, Array([])) == r;
    SinglePropertyDiff(mode, "models", models, Array([]));
    var filled := missing.(property := Some(Property("models", models)));
    assert FillProperty([missing], Property("models", models)) == [filled];
    assert NatToString(0) == "0";
    assert PropertyName(filled) == Some("models" + "[" + "0" + "]");
    assert "models" + "[" + "0" + "]" == "models[0]";
    SingleDifferenceMessages(filled);
    assert ToMessage(filled) == Success(MissingPropertyMessage(Some(models), "models[0]"));
    var outer := Diff(mode, Object([Property("models", models)]), Object([Property("models", Array([]))]));
    assert outer == Success([filled]);
  }

  /** Two unequal numbers at the root cannot be labelled, because no
      property encloses them: the conversion dereferences a missing one. */
  lemma RootLeafDifferenceNotLabelled(mode: Mode)
    ensures SemDiffDocuments(mode, Document(Number("1")), Document(Number("2"))) == Failure(NullPointer)
  {
    var d := DifferentValueOf(Number("1"), "2");
    assert Diff(mode, Number("1"), Number("2")) == Success([d]);
    SingleDifferenceMessages(d);
  }

  // ---------------------------------------------------------------------
  // The two defects

  /** As written, a document holding a null is not even equivalent to
      itself: the comparison throws UNKNOWN_JSON_VALUE_TYPE. */
  lemma NullPropertyFailsAsWritten()
    ensures var d := Document(Object([Property("a", Null)]));
      SemDiffDocuments(AsWritten, d, d).Failure?
      && SemDiffDocuments(AsWritten, d, d).error.Raised?
      && SemDiffDocuments(AsWritten, d, d).error.exception.error == UnknownJsonValueType
  {
    var o := Object([Property("a", Null)]);
    var e := NewException(UnknownJsonValueType, NodeClassName(Null));
    NullAgainstNull(AsWritten);
    SinglePropertyDiff(AsWritten, "a", Null, Null);
    assert Diff(AsWritten, o, o) == Failure(e);
    assert SemDiffDocuments(AsWritten, Document(o), Document(o)) == Failure(Raised(e));
  }

  /** Corrected, the same document is equivalent to itself. */
  lemma NullPropertyEquivalentCorrected()
    ensures var d := Document(Object([Property("a", Null)]));
      SemDiffDocuments(Intended, d, d) == Success([EquivalentModelsMessage(None)])
  {
    EquivalentDocumentsMessage(Intended, Document(Object([Property("a", Null)])));
  }

  /** A property whose two values are of different kinds. As written, the
      message is a different-value message with no value; corrected, it is
      a different-type message naming the left kind. */
  lemma TypeMismatchMessage(mode: Mode, k: string, v1: Value, v2: Value)
    requires !EqualJsonType(v1, v2)
    ensures mode == AsWritten ==>
      SemDiffDocuments(mode, Document(Object([Property(k, v1)])), Document(Object([Property(k, v2)])))
        == Success([DifferentPropertyValueMessage(Some(v1), k, None)])
    ensures mode == Intended ==>
      SemDiffDocuments(mode, Document(Object([Property(k, v1)])), Document(Object([Property(k, v2)])))
        == Success([DifferentPropertyTypeMessage(Some(v1), k, Some(JsonTypeName(v1)))])
  {
    SinglePropertyDiff(mode, k, v1, v2);
    var t := TypeMismatch(mode, v1);
    var filled := t.(property := Some(Property(k, v1)));
    assert FillProperty([t], Property(k, v1)) == [filled];
    SingleDifferenceMessages(filled);
  }
}

/** SemanticJSONDifference: one difference found by the differencer. The
    record is built by four factories; its kind never changes afterwards,
    while the differencer fills in the enclosing property or array index
    as the comparison returns up the tree. */
module Differences {

  import opened Wrappers
  import opened JsonAst

  /** The KIND enum. */
  datatype Kind = MissingProperty | DifferentValue | DifferentType

  /** The contents of a difference at one moment: the node of the left
      document it is anchored at, and the optional parts a `null` field
      leaves unset in the source. */
  datatype SemDiff = SemDiff(
    kind: Kind,
    node: Value,
    property: Option<Property>,
    index: Option<nat>,
    value: Option<string>,
    typeName: Option<string>)

  /** missingProperty(node, property): a left property with no counterpart. */
  function MissingPropertyOf(node: Value, property: Property): (d: SemDiff)
    ensures d.kind == MissingProperty && d.node == node && d.property == Some(property)
    ensures d.index == None && d.value == None && d.typeName == None
  {
    SemDiff(MissingProperty, node, Some(property), None, None, None)
  }

  /** missingProperty(node, index): a left array slot with no counterpart. */
  function MissingIndexOf(node: Value, index: nat): (d: SemDiff)
    ensures d.kind == MissingProperty && d.node == node && d.index == Some(index)
    ensures d.property == None && d.value == None && d.typeName == None
  {
    SemDiff(MissingProperty, node, None, Some(index), None, None)
  }

  /** differentValue(node, value): two unequal leaves of the same kind. */
  function DifferentValueOf(node: Value, value: string): (d: SemDiff)
    ensures d.kind == DifferentValue && d.node == node && d.value == Some(value)
    ensures d.property == None && d.index == None && d.typeName == None
  {
    SemDiff(DifferentValue, node, None, None, Some(value), None)
  }

  /** differentType(node, type) as written: the kind it records is
      DIFFERENT_VALUE, not DIFFERENT_TYPE, and no value is set. */
  function DifferentTypeOf(node: Value, typeName: string): (d: SemDiff)
    ensures d.kind == DifferentValue && d.kind != DifferentType
    ensures d.node == node && d.typeName == Some(typeName) && d.value == None
    ensures d.property == None && d.index == None
  {
    SemDiff(DifferentValue, node, None, None, None, Some(typeName))
  }

  /** differentType(node, type) as evidently intended: kind DIFFERENT_TYPE. */
  function DifferentTypeCorrected(node: Value, typeName: string): (d: SemDiff)
    ensures d.kind == DifferentType
    ensures d.node == node && d.typeName == Some(typeName) && d.value == None
    ensures d.property == None && d.index == None
  {
    SemDiff(DifferentType, node, None, None, None, Some(typeName))
  }

  /** A difference object. `kind` is final; the other fields are the ones
      the differencer writes to while back-filling. */
  class Difference {
    const kind: Kind
    var node: Value
    var property: Option<Property>
    var index: Option<nat>
    var value: Option<string>
    var typeName: Option<string>

    /** The current contents of the object. */
    function Record(): SemDiff
      reads this
    {
      SemDiff(kind, node, property, index, value, typeName)
    }

    /** The private constructor behind the factories. */
    constructor (d: SemDiff)
      ensures Record() == d
    {
      kind := d.kind;
      node := d.node;
      property := d.property;
      index := d.index;
      value := d.value;
      typeName := d.typeName;
    }

    static method NewMissingProperty(node: Value, property: Property) returns (d: Difference)
      ensures fresh(d) && d.Record() == MissingPropertyOf(node, property)
    {
      d := new Difference(MissingPropertyOf(node, property));
    }

    static method NewMissingIndex(node: Value, index: nat) returns (d: Difference)
      ensures fresh(d) && d.Record() == MissingIndexOf(node, index)
    {
      d := new Difference(MissingIndexOf(node, index));
    }

    static method NewDifferentValue(node: Value, value: string) returns (d: Difference)
      ensures fresh(d) && d.Record() == DifferentValueOf(node, value)
    {
      d := new Difference(DifferentValueOf(node, value));
    }

    static method NewDifferentType(node: Value, typeName: string) returns (d: Difference)
      ensures fresh(d) && d.Record() == DifferentTypeOf(node, typeName)
    {
      d := new Difference(DifferentTypeOf(node, typeName));
    }

    static method NewDifferentTypeCorrected(node: Value, typeName: string) returns (d: Difference)
      ensures fresh(d) && d.Record() == DifferentTypeCorrected(node, typeName)
    {
      d := new Difference(DifferentTypeCorrected(node, typeName));
    }

    /** The differencer's `e.property = p`: only the property changes. */
    method SetProperty(p: Property)
      modifies this
      ensures Record() == old(Record()).(property := Some(p))
    {
      property := Some(p);
    }

    /** The differencer's `diff.index = i`: only the index changes. */
    method SetIndex(i: nat)
      modifies this
      ensures Record() == old(Record()).(index := Some(i))
    {
      index := Some(i);
    }
  }

  /** `ds` holds distinct objects whose current contents are `records`. */
  ghost predicate Holds(ds: seq<Difference>, records: seq<SemDiff>)
    reads set i | 0 <= i < |ds| :: ds[i]
  {
    |ds| == |records|
    && (forall i :: 0 <= i < |ds| ==> ds[i].Record() == records[i])
    && (forall i, j :: 0 <= i < j < |ds| ==> ds[i] != ds[j])
  }
}

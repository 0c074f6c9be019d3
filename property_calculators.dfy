/** FullPropertyCalculator and TopLevelPropertyCalculator: the visitors that
    collect property keys. The traverser that drives a visitor is modelled as
    plain pre-order recursion over the tree. */
module PropertyCalculators {

  import opened JsonAst
  import opened Strings

  // ---------------------------------------------------------------------
  // What the walks collect

  /** Every property key at every depth, in pre-order document order: a
      property's key comes before the keys inside its value. */
  function AllKeys(v: Value): seq<string>
    decreases v, 1, 0
  {
    match v
    case Object(ps) => PropsKeys(v, |ps|)
    case Array(vs) => ElemsKeys(v, |vs|)
    case _ => []
  }

  /** The keys collected from the first `n` properties of object `o`. */
  function PropsKeys(o: Value, n: nat): seq<string>
    requires o.Object? && n <= |o.props|
    decreases o, 0, n
  {
    if n == 0 then []
    else PropsKeys(o, n - 1) + [o.props[n - 1].key] + AllKeys(o.props[n - 1].value)
  }

  /** The keys collected from the first `n` elements of array `a`. */
  function ElemsKeys(a: Value, n: nat): seq<string>
    requires a.Array? && n <= |a.values|
    decreases a, 0, n
  {
    if n == 0 then [] else ElemsKeys(a, n - 1) + AllKeys(a.values[n - 1])
  }

  /** The keys of the outermost objects: the walk stops at every property,
      but goes on through arrays. */
  function TopKeys(v: Value): seq<string>
    decreases v, 1, 0
  {
    match v
    case Object(ps) => TopPropsKeys(v, |ps|)
    case Array(vs) => TopElemsKeys(v, |vs|)
    case _ => []
  }

  function TopPropsKeys(o: Value, n: nat): seq<string>
    requires o.Object? && n <= |o.props|
  {
    if n == 0 then [] else TopPropsKeys(o, n - 1) + [o.props[n - 1].key]
  }

  function TopElemsKeys(a: Value, n: nat): seq<string>
    requires a.Array? && n <= |a.values|
    decreases a, 0, n
  {
    if n == 0 then [] else TopElemsKeys(a, n - 1) + TopKeys(a.values[n - 1])
  }

  // ---------------------------------------------------------------------
  // Counting

  /** How often `k` occurs in `s`. */
  function Occurrences(s: seq<string>, k: string): nat
  {
    if s == [] then 0
    else Occurrences(s[..|s| - 1], k) + (if s[|s| - 1] == k then 1 else 0)
  }

  /** The counting map's invariant: its keys are the distinct elements of the
      list, and each maps to its number of occurrences. */
  ghost predicate Counted(s: seq<string>, m: map<string, int>)
  {
    (forall k :: k in m <==> k in s)
    && forall k :: k in m ==> m[k] == Occurrences(s, k)
  }

  /** No element twice. */
  predicate NoDuplicates(ks: seq<string>)
  {
    forall i, j :: 0 <= i < j < |ks| ==> ks[i] != ks[j]
  }

  /** The distinct elements of `s`, in order of first occurrence. */
  function DistinctKeys(s: seq<string>): seq<string>
  {
    if s == [] then []
    else
      var p := s[..|s| - 1];
      if s[|s| - 1] in p then DistinctKeys(p) else DistinctKeys(p) + [s[|s| - 1]]
  }

  /** The sum of the counts `m` holds for `ks`. */
  function Total(m: map<string, int>, ks: seq<string>): int
    requires forall i :: 0 <= i < |ks| ==> ks[i] in m
  {
    if ks == [] then 0 else Total(m, ks[..|ks| - 1]) + m[ks[|ks| - 1]]
  }

  /** The sum of the occurrence counts of `ks` in `s`. */
  function SumOccurrences(s: seq<string>, ks: seq<string>): nat
  {
    if ks == [] then 0 else SumOccurrences(s, ks[..|ks| - 1]) + Occurrences(s, ks[|ks| - 1])
  }

  // ---------------------------------------------------------------------
  // The calculators

  class FullPropertyCalculator {
    var properties: seq<string>
    var propertyMap: map<string, int>

    ghost predicate Valid()
      reads this
    {
      Counted(properties, propertyMap)
    }

    constructor ()
      ensures properties == [] && propertyMap == map[] && Valid()
    {
      properties := [];
      propertyMap := map[];
    }

    /** visit(ASTJSONProperty): the key goes at the end of the list, and its
        count goes up by one, or starts at one. */
    method Visit(key: string)
      requires Valid()
      modifies this
      ensures properties == old(properties) + [key]
      ensures propertyMap == old(propertyMap)[key := if key in old(propertyMap) then old(propertyMap)[key] + 1 else 1]
      ensures Valid()
    {
      VisitKeepsCounts(properties, propertyMap, key);
      properties := properties + [key];
      if key in propertyMap {
        propertyMap := propertyMap[key := propertyMap[key] + 1];
      } else {
        propertyMap := propertyMap[key := 1];
      }
    }

    /** The traverser's walk over a value, visiting every property. */
    method Traverse(v: Value)
      requires Valid()
      modifies this
      ensures properties == old(properties) + AllKeys(v)
      ensures Valid()
      decreases v, 1
    {
      match v
      case Object(_) => TraverseObject(v);
      case Array(_) => TraverseArray(v);
      case _ => assert properties == old(properties) + [];
    }

    method TraverseObject(o: Value)
      requires o.Object? && Valid()
      modifies this
      ensures properties == old(properties) + AllKeys(o)
      ensures Valid()
      decreases o, 0
    {
      var i := 0;
      while i < |o.props|
        invariant 0 <= i <= |o.props|
        invariant properties == old(properties) + PropsKeys(o, i)
        invariant Valid()
      {
        var p := o.props[i];
        Visit(p.key);
        Traverse(p.value);
        Regroup(old(properties), PropsKeys(o, i), [p.key], AllKeys(p.value));
        i := i + 1;
      }
    }

    method TraverseArray(a: Value)
      requires a.Array? && Valid()
      modifies this
      ensures properties == old(properties) + AllKeys(a)
      ensures Valid()
      decreases a, 0
    {
      var i := 0;
      while i < |a.values|
        invariant 0 <= i <= |a.values|
        invariant properties == old(properties) + ElemsKeys(a, i)
        invariant Valid()
      {
        Traverse(a.values[i]);
        ConcatAssoc(old(properties), ElemsKeys(a, i), AllKeys(a.values[i]));
        i := i + 1;
      }
    }

    /** getAllPropertyNames: walks the tree only while the list is empty, so
        a second call returns the list it already holds. */
    method GetAllPropertyNames(node: Value) returns (r: seq<string>)
      requires Valid()
      modifies this
      ensures r == properties && Valid()
      ensures old(properties) == [] ==> properties == AllKeys(node)
      ensures old(properties) != [] ==> properties == old(properties) && propertyMap == old(propertyMap)
    {
      if |properties| == 0 {
        Traverse(node);
      }
      r := properties;
    }

    /** getAllPropertyNamesCounted: walks the tree only while the map is
        empty. The map is empty exactly when the list is, so neither getter
        counts a tree twice after the other. */
    method GetAllPropertyNamesCounted(node: Value) returns (m: map<string, int>)
      requires Valid()
      modifies this
      ensures m == propertyMap && Valid()
      ensures old(propertyMap) == map[] ==> properties == AllKeys(node)
      ensures old(propertyMap) != map[] ==> properties == old(properties) && propertyMap == old(propertyMap)
    {
      EmptyTogether(properties, propertyMap);
      if |propertyMap| == 0 {
        Traverse(node);
      }
      m := propertyMap;
    }
  }

  class TopLevelPropertyCalculator {
    var properties: seq<string>

    constructor ()
      ensures properties == []
    {
      properties := [];
    }

    /** visit(ASTJSONProperty): the key goes at the end of the list. */
    method Visit(key: string)
      modifies this
      ensures properties == old(properties) + [key]
    {
      properties := properties + [key];
    }

    /** The traverser's walk with traverse(ASTJSONProperty) suppressed: a
        property is visited, but its value is not entered. */
    method Traverse(v: Value)
      modifies this
      ensures properties == old(properties) + TopKeys(v)
      decreases v, 1
    {
      match v
      case Object(ps) =>
        var i := 0;
        while i < |ps|
          invariant 0 <= i <= |ps|
          invariant properties == old(properties) + TopPropsKeys(v, i)
        {
          Visit(ps[i].key);
          ConcatAssoc(old(properties), TopPropsKeys(v, i), [ps[i].key]);
          i := i + 1;
        }
      case Array(vs) =>
        var i := 0;
        while i < |vs|
          invariant 0 <= i <= |vs|
          invariant properties == old(properties) + TopElemsKeys(v, i)
        {
          Traverse(vs[i]);
          ConcatAssoc(old(properties), TopElemsKeys(v, i), TopKeys(vs[i]));
          i := i + 1;
        }
      case _ => assert properties == old(properties) + [];
    }

    /** getTopLevelPropertyNames: the list as accumulated; nothing is walked
        or cleared. */
    method GetTopLevelPropertyNames() returns (r: seq<string>)
      ensures r == properties
    {
      r := properties;
    }
  }

  // ---------------------------------------------------------------------
  // Properties

  lemma Regroup(a: seq<string>, b: seq<string>, c: seq<string>, d: seq<string>)
    ensures a + b + c + d == a + (b + c + d)
  {
    ConcatAssoc(a, b, c);
    ConcatAssoc(a, b + c, d);
  }

  lemma {:induction false} OccurrencesAppend(s: seq<string>, x: string, k: string)
    ensures Occurrences(s + [x], k) == Occurrences(s, k) + (if x == k then 1 else 0)
  {
    assert (s + [x])[..|s|] == s;
  }

  /** A key occurs in a list exactly when it is counted at least once. */
  lemma {:induction false} OccurrencesPositive(s: seq<string>, k: string)
    ensures Occurrences(s, k) > 0 <==> k in s
    decreases |s|
  {
    if s != [] {
      var p := s[..|s| - 1];
      OccurrencesPositive(p, k);
      assert s == p + [s[|s| - 1]];
      assert k in s <==> k in p || k == s[|s| - 1];
    }
  }

  /** visit keeps the counting invariant. */
  lemma VisitKeepsCounts(s: seq<string>, m: map<string, int>, key: string)
    requires Counted(s, m)
    ensures Counted(s + [key], m[key := if key in m then m[key] + 1 else 1])
  {
    var m' := m[key := if key in m then m[key] + 1 else 1];
    forall k
      ensures k in m' <==> k in s + [key]
      ensures k in m' ==> m'[k] == Occurrences(s + [key], k)
    {
      OccurrencesAppend(s, key, k);
      OccurrencesPositive(s, k);
    }
  }

  /** The map is empty exactly when the list is. */
  lemma EmptyTogether(s: seq<string>, m: map<string, int>)
    requires Counted(s, m)
    ensures s == [] <==> m == map[]
  {
    if s != [] {
      assert s[0] in m;
    }
    if m != map[] {
      var k :| k in m;
      assert k in s;
    }
  }

  lemma {:induction false} DistinctKeysSpec(s: seq<string>)
    ensures NoDuplicates(DistinctKeys(s))
    ensures forall k :: k in DistinctKeys(s) <==> k in s
    decreases |s|
  {
    if s != [] {
      var p := s[..|s| - 1];
      DistinctKeysSpec(p);
      assert s == p + [s[|s| - 1]];
    }
  }

  /** Adding `x` to the list adds one to the sum over distinct keys
      containing `x`, and nothing to one without it. */
  lemma {:induction false} SumOccurrencesAppend(s: seq<string>, x: string, ks: seq<string>)
    requires NoDuplicates(ks)
    ensures SumOccurrences(s + [x], ks) == SumOccurrences(s, ks) + (if x in ks then 1 else 0)
    decreases |ks|
  {
    if ks != [] {
      var init := ks[..|ks| - 1];
      SumOccurrencesAppend(s, x, init);
      OccurrencesAppend(s, x, ks[|ks| - 1]);
      assert ks == init + [ks[|ks| - 1]];
      assert x in ks <==> x in init || x == ks[|ks| - 1];
    }
  }

  lemma {:induction false} SumOverDistinct(s: seq<string>)
    ensures SumOccurrences(s, DistinctKeys(s)) == |s|
    decreases |s|
  {
    if s != [] {
      var p, x := s[..|s| - 1], s[|s| - 1];
      assert s == p + [x];
      SumOverDistinct(p);
      DistinctKeysSpec(p);
      SumOccurrencesAppend(p, x, DistinctKeys(p));
      if x !in p {
        var ks := DistinctKeys(p) + [x];
        assert ks[..|ks| - 1] == DistinctKeys(p);
        OccurrencesAppend(p, x, x);
        OccurrencesPositive(p, x);
      }
    }
  }

  lemma {:induction false} TotalOfCounts(s: seq<string>, m: map<string, int>, ks: seq<string>)
    requires Counted(s, m) && forall i :: 0 <= i < |ks| ==> ks[i] in s
    ensures forall i :: 0 <= i < |ks| ==> ks[i] in m
    ensures Total(m, ks) == SumOccurrences(s, ks)
    decreases |ks|
  {
    if ks != [] {
      TotalOfCounts(s, m, ks[..|ks| - 1]);
    }
  }

  /** The counts sum to the length of the list: the distinct keys, each
      counted once, cover the map's keys, and their counts add up to |s|. */
  lemma CountsSumToLength(s: seq<string>, m: map<string, int>)
    requires Counted(s, m)
    ensures NoDuplicates(DistinctKeys(s))
    ensures forall k :: k in DistinctKeys(s) <==> k in m
    ensures Total(m, DistinctKeys(s)) == |s|
  {
    DistinctKeysSpec(s);
    TotalOfCounts(s, m, DistinctKeys(s));
    SumOverDistinct(s);
  }

  /** The top-level keys are a subsequence of all keys. */
  lemma {:induction false} TopKeysSubsequence(v: Value)
    ensures IsSubsequence(TopKeys(v), AllKeys(v))
    decreases v, 1, 0
  {
    match v
    case Object(ps) => TopPropsSubsequence(v, |ps|);
    case Array(vs) => TopElemsSubsequence(v, |vs|);
    case _ => SubsequenceOfEmpty(AllKeys(v));
  }

  lemma {:induction false} TopPropsSubsequence(o: Value, n: nat)
    requires o.Object? && n <= |o.props|
    ensures IsSubsequence(TopPropsKeys(o, n), PropsKeys(o, n))
    decreases o, 0, n
  {
    if n == 0 {
      SubsequenceOfEmpty(PropsKeys(o, n));
    } else {
      var k, rest := [o.props[n - 1].key], AllKeys(o.props[n - 1].value);
      TopPropsSubsequence(o, n - 1);
      SubsequenceOfSelf(k);
      SubsequenceOfEmpty(rest);
      SubsequenceConcat(k, k, [], rest);
      assert k + [] == k;
      SubsequenceConcat(TopPropsKeys(o, n - 1), PropsKeys(o, n - 1), k, k + rest);
      ConcatAssoc(PropsKeys(o, n - 1), k, rest);
    }
  }

  lemma {:induction false} TopElemsSubsequence(a: Value, n: nat)
    requires a.Array? && n <= |a.values|
    ensures IsSubsequence(TopElemsKeys(a, n), ElemsKeys(a, n))
    decreases a, 0, n
  {
    if n == 0 {
      SubsequenceOfEmpty(ElemsKeys(a, n));
    } else {
      TopElemsSubsequence(a, n - 1);
      TopKeysSubsequence(a.values[n - 1]);
      SubsequenceConcat(TopElemsKeys(a, n - 1), ElemsKeys(a, n - 1), TopKeys(a.values[n - 1]), AllKeys(a.values[n - 1]));
    }
  }

  /** A property's key comes first, then the keys inside its value. */
  lemma NestedKeysAfterTheirProperty(k: string, v: Value)
    ensures AllKeys(Object([Property(k, v)])) == [k] + AllKeys(v)
    ensures TopKeys(Object([Property(k, v)])) == [k]
  {
    var o := Object([Property(k, v)]);
    assert PropsKeys(o, 1) == [] + [k] + AllKeys(v);
    assert [] + [k] + AllKeys(v) == [k] + AllKeys(v);
    assert TopPropsKeys(o, 1) == [] + [k];
  }
}

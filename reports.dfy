/** The property reports the command-line tools print: the key lists joined
    by a separator, and the counted keys as "key (n)" entries in the map's
    iteration order, which is unspecified. */
module Reports {

  import opened Strings
  import opened PropertyCalculators

  /** The loop of allPropertyNames and topLevelPropertyNames: each element,
      followed by `sep` unless it is the last. */
  method JoinLoop(parts: seq<string>, sep: string) returns (content: string)
    ensures content == Join(parts, sep)
  {
    content := "";
    var i := 0;
    while i < |parts|
      invariant 0 <= i <= |parts|
      invariant content == JoinedSoFar(parts[..i], sep, i < |parts|)
    {
      JoinedStep(parts[..i], parts[i], sep, i + 1 < |parts|);
      assert parts[..i + 1] == parts[..i] + [parts[i]];
      content := content + parts[i];
      if i < |parts| - 1 {
        content := content + sep;
      }
      i := i + 1;
    }
    assert parts[..|parts|] == parts;
  }

  /** What the joining loops have built after the parts `done`: those parts
      joined, and one more separator when a part is still to come. */
  function JoinedSoFar(done: seq<string>, sep: string, more: bool): string
  {
    if done == [] then "" else Join(done, sep) + (if more then sep else "")
  }

  /** One turn of a joining loop: the part, then a separator unless it was
      the last. */
  lemma JoinedStep(done: seq<string>, x: string, sep: string, more: bool)
    ensures JoinedSoFar(done, sep, true) + x + (if more then sep else "") == JoinedSoFar(done + [x], sep, more)
  {
    JoinSnoc(done, x, sep);
  }

  const AllPropertiesReport: string := "allProperties.txt"
  const CountedPropertiesReport: string := "countedProperties.txt"
  const TopLevelPropertiesReport: string := "topLevelProperties.txt"

  /** Where `report` writes one report: the directory, "/" and the report's
      name, also when the directory is empty. */
  function ReportFile(dir: string, name: string): string
  {
    dir + "/" + name
  }

  /** An empty report directory does not mean the console: the reports then
      go to files directly under the root directory. */
  lemma EmptyDirectoryIsRoot(name: string)
    ensures ReportFile("", name) == "/" + name
    ensures ReportFile("", AllPropertiesReport) == "/allProperties.txt"
    ensures ReportFile("", CountedPropertiesReport) == "/countedProperties.txt"
    ensures ReportFile("", TopLevelPropertiesReport) == "/topLevelProperties.txt"
  {
  }

  /** One entry of the counted report. */
  function EntryText(key: string, count: nat): string
  {
    key + " (" + NatToString(count) + ")"
  }

  /** The entries of `m` for the keys `order`, in that order. */
  function EntryTexts(m: map<string, int>, order: seq<string>): (r: seq<string>)
    requires forall i :: 0 <= i < |order| ==> order[i] in m && m[order[i]] >= 0
    ensures |r| == |order|
    ensures forall i :: 0 <= i < |order| ==> r[i] == EntryText(order[i], m[order[i]])
  {
    seq(|order|, i requires 0 <= i < |order| => EntryText(order[i], m[order[i]]))
  }

  /** The counted report's entries for the keys `order`, each with its
      number of occurrences in `keys`. */
  function CountEntries(keys: seq<string>, order: seq<string>): (r: seq<string>)
    ensures |r| == |order|
    ensures forall i :: 0 <= i < |order| ==> r[i] == EntryText(order[i], Occurrences(keys, order[i]))
  {
    seq(|order|, i requires 0 <= i < |order| => EntryText(order[i], Occurrences(keys, order[i])))
  }

  /** With a map that counts `keys`, the entries it gives are the counts of
      the keys. */
  lemma EntriesOfCounted(keys: seq<string>, m: map<string, int>, order: seq<string>)
    requires Counted(keys, m) && forall i :: 0 <= i < |order| ==> order[i] in m
    ensures forall i :: 0 <= i < |order| ==> m[order[i]] >= 0
    ensures EntryTexts(m, order) == CountEntries(keys, order)
  {
  }

  /** The loop of countedPropertyNames over the map's entries. The entries
      come in some order the map chooses; every key comes exactly once. */
  method CountedLoop(m: map<string, int>, sep: string) returns (content: string, ghost order: seq<string>)
    requires forall k :: k in m ==> m[k] >= 0
    ensures NoDuplicates(order) && (forall k :: k in order <==> k in m)
    ensures content == Join(EntryTexts(m, order), sep)
  {
    var keys := m.Keys;
    content := "";
    order := [];
    while keys != {}
      invariant keys <= m.Keys && NoDuplicates(order)
      invariant forall k :: k in order <==> k in m && k !in keys
      invariant content == JoinedSoFar(EntryTexts(m, order), sep, keys != {})
      decreases |keys|
    {
      var k :| k in keys;
      keys := keys - {k};
      JoinedStep(EntryTexts(m, order), EntryText(k, m[k]), sep, keys != {});
      EntryTextsSnoc(m, order, k);
      content := content + EntryText(k, m[k]);
      if keys != {} {
        content := content + sep;
      }
      order := order + [k];
    }
  }

  lemma EntryTextsSnoc(m: map<string, int>, order: seq<string>, k: string)
    requires forall i :: 0 <= i < |order| ==> order[i] in m && m[order[i]] >= 0
    requires k in m && m[k] >= 0
    ensures EntryTexts(m, order + [k]) == EntryTexts(m, order) + [EntryText(k, m[k])]
  {
  }

  /** Joining one more part adds the separator and the part, except after
      nothing. */
  lemma {:induction false} JoinSnoc(xs: seq<string>, y: string, sep: string)
    ensures Join(xs + [y], sep) == if xs == [] then y else Join(xs, sep) + sep + y
    decreases |xs|
  {
    if |xs| == 1 {
      assert (xs + [y])[1..] == [y];
    } else if |xs| > 1 {
      JoinSnoc(xs[1..], y, sep);
      assert (xs + [y])[1..] == xs[1..] + [y];
      ConcatAssoc(xs[0] + sep, Join(xs[1..], sep), sep);
      ConcatAssoc(xs[0] + sep, Join(xs[1..], sep) + sep, y);
    }
  }

  /** A joined report has no leading and no trailing separator: it starts
      with the first part and ends with the last, and an empty list gives
      the empty text. */
  lemma JoinEnds(parts: seq<string>, sep: string)
    ensures parts == [] ==> Join(parts, sep) == ""
    ensures parts != [] ==>
      |Join(parts, sep)| >= |parts[0]| && |Join(parts, sep)| >= |parts[|parts| - 1]|
      && Join(parts, sep)[..|parts[0]|] == parts[0]
      && Join(parts, sep)[|Join(parts, sep)| - |parts[|parts| - 1]|..] == parts[|parts| - 1]
  {
    if |parts| > 1 {
      var n := |parts|;
      var rest := Join(parts[1..], sep);
      ConcatAssoc(parts[0], sep, rest);
      assert Join(parts, sep) == parts[0] + (sep + rest);
      ConcatParts(parts[0], sep + rest);
      var front := Join(parts[..n - 1], sep);
      JoinSnoc(parts[..n - 1], parts[n - 1], sep);
      assert parts[..n - 1] + [parts[n - 1]] == parts;
      assert Join(parts, sep) == (front + sep) + parts[n - 1];
      ConcatParts(front + sep, parts[n - 1]);
    }
  }
}

/** The pool of participant names: the raw name matches with repeats removed,
    first occurrences kept in order (what spreading a JavaScript Set does), cut
    to the first five. */
module NamePool {

  /** At most this many names take part in assignments. */
  const MaxNames: nat := 5

  predicate NoDuplicates(s: seq<string>)
  {
    forall i, j :: 0 <= i < j < |s| ==> s[i] != s[j]
  }

  /** Index of the first occurrence of `x` in `s`. */
  function FirstIndex(s: seq<string>, x: string): (r: nat)
    requires x in s
    ensures r < |s| && s[r] == x
  {
    if x in s[..|s| - 1] then FirstIndex(s[..|s| - 1], x) else |s| - 1
  }

  /** No occurrence of `x` comes before its first index. */
  lemma {:induction false} FirstIndexIsFirst(s: seq<string>, x: string)
    requires x in s
    ensures forall k :: 0 <= k < FirstIndex(s, x) ==> s[k] != x
  {
    if x in s[..|s| - 1] {
      FirstIndexIsFirst(s[..|s| - 1], x);
    } else {
      assert forall k :: 0 <= k < |s| - 1 ==> s[k] == s[..|s| - 1][k];
    }
  }

  /** [...new Set(s)]: the elements of `s` in insertion order, each once. An
      element is added when it is met and is not yet present. */
  function Distinct(s: seq<string>): seq<string>
  {
    if |s| == 0 then []
    else if s[|s| - 1] in Distinct(s[..|s| - 1]) then Distinct(s[..|s| - 1])
    else Distinct(s[..|s| - 1]) + [s[|s| - 1]]
  }

  /** The de-duplicated sequence holds exactly the elements of the input,
      each once, in the order of their first occurrences in the input. */
  lemma {:induction false} DistinctFollowsFirstOccurrence(s: seq<string>)
    ensures forall x :: x in Distinct(s) <==> x in s
    ensures NoDuplicates(Distinct(s))
    ensures forall i, j :: 0 <= i < j < |Distinct(s)| ==>
      FirstIndex(s, Distinct(s)[i]) < FirstIndex(s, Distinct(s)[j])
  {
    if |s| > 0 {
      var init := s[..|s| - 1];
      DistinctFollowsFirstOccurrence(init);
      assert s == init + [s[|s| - 1]];
      var d := Distinct(s);
      assert forall y :: y in init ==> FirstIndex(s, y) == FirstIndex(init, y);
      forall i, j | 0 <= i < j < |d|
        ensures FirstIndex(s, d[i]) < FirstIndex(s, d[j])
      {
        assert d[i] in Distinct(init);
      }
    }
  }

  /** [...new Set(nameMatches)].slice(0, 5). */
  function UniqueNames(nameMatches: seq<string>): (r: seq<string>)
  {
    var d := Distinct(nameMatches);
    if |d| <= MaxNames then d else d[..MaxNames]
  }

  /** The name pool has no repeats, at most five entries, only names that were
      matched, in the order of their first match; it is the start of the
      de-duplicated matches, so a name is kept whenever a kept name first
      occurs no earlier; it holds five names when five distinct ones were
      matched, and every matched name otherwise. */
  lemma UniqueNamesPool(nameMatches: seq<string>)
    ensures var r := UniqueNames(nameMatches);
      && |r| <= MaxNames
      && r == Distinct(nameMatches)[..|r|]
      && NoDuplicates(r)
      && (forall x :: x in r ==> x in nameMatches)
      && (forall i, j :: 0 <= i < j < |r| ==>
            FirstIndex(nameMatches, r[i]) < FirstIndex(nameMatches, r[j]))
      && (forall x, i ::
            (x in nameMatches && 0 <= i < |r| && FirstIndex(nameMatches, x) <= FirstIndex(nameMatches, r[i]))
            ==> x in r)
      && (|Distinct(nameMatches)| >= MaxNames ==> |r| == MaxNames)
      && (|Distinct(nameMatches)| < MaxNames ==> forall x :: x in nameMatches ==> x in r)
  {
    DistinctFollowsFirstOccurrence(nameMatches);
    var d := Distinct(nameMatches);
    var r := UniqueNames(nameMatches);
    assert forall k :: 0 <= k < |r| ==> r[k] == d[k];
    forall x, i | x in nameMatches && 0 <= i < |r| &&
        FirstIndex(nameMatches, x) <= FirstIndex(nameMatches, r[i])
      ensures x in r
    {
      assert x in d;
      var j :| 0 <= j < |d| && d[j] == x;
      if j > i {
        assert false;
      }
      assert r[j] == x;
    }
  }
}

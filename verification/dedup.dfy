/** Order-preserving removal of checklist items whose title was already seen. */
module Dedup {
  import opened Sequences

  /** A checklist entry: a title and a one-line detail. */
  datatype Item = Item(title: string, detail: string)

  /** The titles occurring in a list. */
  function Titles(s: seq<Item>): set<string>
  {
    set x | x in s :: x.title
  }

  /** No title occurs twice. */
  ghost predicate DistinctTitles(s: seq<Item>)
  {
    forall i, j :: 0 <= i < j < |s| ==> s[i].title != s[j].title
  }

  /** Position `i` holds the first item of `s` with its title. */
  predicate FirstOfTitle(s: seq<Item>, i: nat)
    requires i < |s|
  {
    forall j :: 0 <= j < i ==> s[j].title != s[i].title
  }

  /** The items of `s` that are first of their title, in their order in `s`. */
  function FirstOccurrences(s: seq<Item>): seq<Item>
  {
    if s == [] then []
    else FirstOccurrences(s[..|s| - 1]) + When(FirstOfTitle(s, |s| - 1), s[|s| - 1])
  }

  lemma TitlesStep(s: seq<Item>, i: nat)
    requires i < |s|
    ensures Titles(s[..i + 1]) == Titles(s[..i]) + {s[i].title}
  {
    assert s[..i + 1] == s[..i] + [s[i]];
  }

  /** The item at `i` is first of its title exactly when its title is unseen
      among the items before it. */
  lemma FirstOfTitleUnseen(s: seq<Item>, i: nat)
    requires i < |s|
    ensures FirstOfTitle(s, i) <==> s[i].title !in Titles(s[..i])
  {
    if s[i].title in Titles(s[..i]) {
      var x :| x in s[..i] && x.title == s[i].title;
      var j :| 0 <= j < i && s[..i][j] == x;
      assert s[j].title == s[i].title;
    }
  }

  lemma FirstOccurrencesStep(s: seq<Item>, i: nat)
    requires i < |s|
    ensures FirstOccurrences(s[..i + 1]) ==
      FirstOccurrences(s[..i]) + When(s[i].title !in Titles(s[..i]), s[i])
  {
    var p := s[..i + 1];
    assert p[..i] == s[..i];
    FirstOfTitleUnseen(s, i);
    assert FirstOfTitle(p, i) == FirstOfTitle(s, i);
  }

  /** Every title of the input is kept. */
  lemma {:induction false} FirstOccurrencesTitles(s: seq<Item>)
    ensures Titles(FirstOccurrences(s)) == Titles(s)
  {
    if s != [] {
      var n := |s| - 1;
      FirstOccurrencesTitles(s[..n]);
      FirstOccurrencesStep(s, n);
      TitlesStep(s, n);
      assert s[..n + 1] == s;
    }
  }

  /** No title is kept twice. */
  lemma {:induction false} FirstOccurrencesDistinct(s: seq<Item>)
    ensures DistinctTitles(FirstOccurrences(s))
  {
    if s != [] {
      var n := |s| - 1;
      FirstOccurrencesDistinct(s[..n]);
      FirstOccurrencesTitles(s[..n]);
      FirstOccurrencesStep(s, n);
      assert s[..n + 1] == s;
      var prefix := FirstOccurrences(s[..n]);
      var r := FirstOccurrences(s);
      forall i, j | 0 <= i < j < |r|
        ensures r[i].title != r[j].title
      {
        if j >= |prefix| {
          assert r[i] in prefix;
        }
      }
    }
  }

  /** An item is kept exactly when it is the first of its title in the input. */
  lemma {:induction false} FirstOccurrencesMembers(s: seq<Item>)
    ensures forall x :: x in FirstOccurrences(s) <==>
      exists i :: 0 <= i < |s| && s[i] == x && FirstOfTitle(s, i)
  {
    if s != [] {
      var n := |s| - 1;
      var p := s[..n];
      FirstOccurrencesMembers(p);
      forall x
        ensures x in FirstOccurrences(s) <==> exists i :: 0 <= i < |s| && s[i] == x && FirstOfTitle(s, i)
      {
        if x in FirstOccurrences(p) {
          var i :| 0 <= i < |p| && p[i] == x && FirstOfTitle(p, i);
          assert s[i] == x && FirstOfTitle(s, i);
        }
        if exists i :: 0 <= i < |s| && s[i] == x && FirstOfTitle(s, i) {
          var i :| 0 <= i < |s| && s[i] == x && FirstOfTitle(s, i);
          if i < n {
            assert p[i] == x && FirstOfTitle(p, i);
          }
        }
      }
    }
  }

  /** The positions of the items `FirstOccurrences` keeps. */
  function FirstPositions(s: seq<Item>): seq<nat>
  {
    if s == [] then []
    else FirstPositions(s[..|s| - 1]) + When(FirstOfTitle(s, |s| - 1), |s| - 1)
  }

  /** The result is a subsequence of the input: the kept items sit at
      strictly increasing positions, each the first of its title. */
  lemma {:induction false} FirstOccurrencesSubsequence(s: seq<Item>)
    ensures |FirstPositions(s)| == |FirstOccurrences(s)|
    ensures forall k :: 0 <= k < |FirstPositions(s)| ==>
      FirstPositions(s)[k] < |s| && FirstOfTitle(s, FirstPositions(s)[k]) &&
      FirstOccurrences(s)[k] == s[FirstPositions(s)[k]]
    ensures forall k, l :: 0 <= k < l < |FirstPositions(s)| ==> FirstPositions(s)[k] < FirstPositions(s)[l]
  {
    if s != [] {
      var n := |s| - 1;
      var p := s[..n];
      FirstOccurrencesSubsequence(p);
      forall k | 0 <= k < |FirstPositions(p)|
        ensures FirstOfTitle(s, FirstPositions(p)[k]) && p[FirstPositions(p)[k]] == s[FirstPositions(p)[k]]
      {
        var i := FirstPositions(p)[k];
        assert FirstOfTitle(p, i);
      }
    }
  }

  /** A list without repeated titles is left as it is. */
  lemma {:induction false} FirstOccurrencesOfDistinct(s: seq<Item>)
    requires DistinctTitles(s)
    ensures FirstOccurrences(s) == s
  {
    if s != [] {
      var n := |s| - 1;
      assert DistinctTitles(s[..n]);
      FirstOccurrencesOfDistinct(s[..n]);
      assert FirstOfTitle(s, n);
      assert s[..n] + [s[n]] == s;
    }
  }

  /** Removing repeated titles a second time changes nothing. */
  lemma FirstOccurrencesIdempotent(s: seq<Item>)
    ensures FirstOccurrences(FirstOccurrences(s)) == FirstOccurrences(s)
  {
    FirstOccurrencesDistinct(s);
    FirstOccurrencesOfDistinct(FirstOccurrences(s));
  }

  /** Keeps the first item of each title, tracking the titles seen so far. */
  method Dedupe(items: seq<Item>) returns (out: seq<Item>)
    ensures out == FirstOccurrences(items)
  {
    var seen: set<string> := {};
    out := [];
    for i := 0 to |items|
      invariant out == FirstOccurrences(items[..i])
      invariant seen == Titles(items[..i])
    {
      var item := items[i];
      FirstOccurrencesStep(items, i);
      TitlesStep(items, i);
      if item.title !in seen {
        out := out + [item];
        seen := seen + {item.title};
      }
    }
    assert items[..|items|] == items;
  }
}

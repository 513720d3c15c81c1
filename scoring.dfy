/**
 * `calculate_relevance_score` (backend/main.py:257-267): every part of the
 * query whose normalised form occurs in the normalised
 * "title artist original-title" text adds a fixed weight.
 */
module Scoring {
  import opened Text
  import opened Normalize

  /** The score one matching query part adds (main.py:266). */
  const TokenWeight: nat := 20000

  /** The text a query is compared against (main.py:261). */
  function TargetText(title: string, artist: string, originalTitle: string): string {
    title + " " + artist + " " + originalTitle
  }

  /** A query part counts when its key is non-empty and occurs in the
      target's key (main.py:264-266). */
  predicate PartMatches(part: string, targetNorm: string) {
    var p := NormalizeForComparison(part);
    p != [] && Contains(targetNorm, p)
  }

  /** How many of `parts` match, counted in order. */
  function MatchCount(parts: seq<string>, targetNorm: string): (n: nat)
    ensures n <= |parts|
  {
    if parts == [] then 0
    else
      var last := |parts| - 1;
      MatchCount(parts[..last], targetNorm) + (if PartMatches(parts[last], targetNorm) then 1 else 0)
  }

  /** Which parts match, position by position. */
  function Hits(parts: seq<string>, targetNorm: string): (hs: seq<bool>)
    ensures |hs| == |parts|
    ensures forall i :: 0 <= i < |parts| ==> hs[i] == PartMatches(parts[i], targetNorm)
  {
    seq(|parts|, i requires 0 <= i < |parts| => PartMatches(parts[i], targetNorm))
  }

  lemma MatchCountAppend(parts: seq<string>, i: nat, targetNorm: string)
    requires i < |parts|
    ensures var p := NormalizeForComparison(parts[i]);
      MatchCount(parts[..i + 1], targetNorm)
      == MatchCount(parts[..i], targetNorm) + (if p != [] && Contains(targetNorm, p) then 1 else 0)
  {
    assert parts[..i + 1][..i] == parts[..i];
  }

  /** The positions of the matching parts. */
  function MatchingParts(parts: seq<string>, targetNorm: string): set<nat> {
    var hs := Hits(parts, targetNorm);
    set i: nat | i < |hs| && hs[i]
  }

  function CountTrue(bs: seq<bool>): nat {
    if bs == [] then 0 else CountTrue(bs[..|bs| - 1]) + (if bs[|bs| - 1] then 1 else 0)
  }

  lemma {:induction false} CountTrueIsCard(bs: seq<bool>)
    ensures CountTrue(bs) == |set i: nat | i < |bs| && bs[i]|
  {
    if bs != [] {
      var last := |bs| - 1;
      CountTrueIsCard(bs[..last]);
      var before := set i: nat | i < last && bs[..last][i];
      var all := set i: nat | i < |bs| && bs[i];
      assert forall i: nat :: i in before <==> i < last && i in all;
      if bs[last] {
        assert all == before + {last};
      } else {
        assert all == before;
      }
    }
  }

  lemma {:induction false} MatchCountIsCountTrue(parts: seq<string>, targetNorm: string)
    ensures MatchCount(parts, targetNorm) == CountTrue(Hits(parts, targetNorm))
  {
    if parts != [] {
      var last := |parts| - 1;
      MatchCountIsCountTrue(parts[..last], targetNorm);
      assert Hits(parts, targetNorm)[..last] == Hits(parts[..last], targetNorm);
    }
  }

  /** The count is the number of matching positions: a part that occurs
      twice in the query counts twice. */
  lemma MatchCountIsMatchingParts(parts: seq<string>, targetNorm: string)
    ensures MatchCount(parts, targetNorm) == |MatchingParts(parts, targetNorm)|
  {
    MatchCountIsCountTrue(parts, targetNorm);
    CountTrueIsCard(Hits(parts, targetNorm));
  }

  /** When every part matches, all of them count. */
  lemma {:induction false} MatchCountAll(parts: seq<string>, targetNorm: string)
    requires forall i :: 0 <= i < |parts| ==> PartMatches(parts[i], targetNorm)
    ensures MatchCount(parts, targetNorm) == |parts|
  {
    if parts != [] {
      MatchCountAll(parts[..|parts| - 1], targetNorm);
    }
  }

  lemma WeightStep(n: nat)
    ensures TokenWeight * (n + 1) == TokenWeight * n + TokenWeight
  {
  }

  /** The score `calculate_relevance_score` returns. */
  function RelevanceScore(query: string, title: string, artist: string, originalTitle: string): nat {
    if query == [] then 0
    else TokenWeight * MatchCount(Words(query), NormalizeForComparison(TargetText(title, artist, originalTitle)))
  }

  /** main.py:257-267: the loop over the query parts. */
  method CalculateRelevanceScore(query: string, title: string, artist: string, originalTitle: string)
    returns (score: nat)
    ensures score == RelevanceScore(query, title, artist, originalTitle)
  {
    if query == [] {
      return 0;
    }
    score := 0;
    var queryParts := Words(query);
    var targetNorm := NormalizeForComparison(TargetText(title, artist, originalTitle));
    var i := 0;
    ghost var count := 0;
    while i < |queryParts|
      invariant 0 <= i <= |queryParts|
      invariant count == MatchCount(queryParts[..i], targetNorm)
      invariant score == TokenWeight * count
    {
      var partNorm := NormalizeForComparison(queryParts[i]);
      MatchCountAppend(queryParts, i, targetNorm);
      if partNorm != [] && Contains(targetNorm, partNorm) {
        WeightStep(count);
        score := score + TokenWeight;
        count := count + 1;
      }
      i := i + 1;
    }
    assert queryParts[..i] == queryParts;
  }

  /** The score is the weight times the number of matching query parts: a
      multiple of the weight, at most the weight per part, zero for an
      empty query. */
  lemma RelevanceScoreCounts(query: string, title: string, artist: string, originalTitle: string)
    ensures var parts := Words(query);
      var target := NormalizeForComparison(TargetText(title, artist, originalTitle));
      && RelevanceScore(query, title, artist, originalTitle) == TokenWeight * |MatchingParts(parts, target)|
      && RelevanceScore(query, title, artist, originalTitle) % TokenWeight == 0
      && RelevanceScore(query, title, artist, originalTitle) <= TokenWeight * |parts|
  {
    var parts := Words(query);
    var target := NormalizeForComparison(TargetText(title, artist, originalTitle));
    var n := MatchCount(parts, target);
    MatchCountIsMatchingParts(parts, target);
    if query == [] {
      assert parts == [];
      assert n == 0;
    }
    assert RelevanceScore(query, title, artist, originalTitle) == TokenWeight * n;
    WeightedBound(n, |parts|);
  }

  lemma WeightedBound(n: nat, m: nat)
    requires n <= m
    ensures (TokenWeight * n) % TokenWeight == 0 && TokenWeight * n <= TokenWeight * m
  {
  }

  /** A query part that occurs in the parsed title matches, because the
      title's key is a prefix of the target's key. */
  lemma TitleMatchCounts(part: string, title: string, artist: string, originalTitle: string)
    requires NormalizeForComparison(part) != []
    requires Contains(NormalizeForComparison(title), NormalizeForComparison(part))
    ensures PartMatches(part, NormalizeForComparison(TargetText(title, artist, originalTitle)))
  {
    var rest := " " + artist + " " + originalTitle;
    assert TargetText(title, artist, originalTitle) == title + rest;
    NormalizeConcat(title, rest);
    ContainsAppend(NormalizeForComparison(title), NormalizeForComparison(rest), NormalizeForComparison(part));
  }

  /** A title containing every query word earns the full score. */
  lemma {:induction false} FullMatchFullScore(query: string, title: string, artist: string, originalTitle: string)
    requires query != []
    requires forall w :: w in Words(query) ==>
      NormalizeForComparison(w) != [] && Contains(NormalizeForComparison(title), NormalizeForComparison(w))
    ensures RelevanceScore(query, title, artist, originalTitle) == TokenWeight * |Words(query)|
  {
    var parts := Words(query);
    var target := NormalizeForComparison(TargetText(title, artist, originalTitle));
    forall i | 0 <= i < |parts| ensures PartMatches(parts[i], target) {
      assert parts[i] in parts;
      TitleMatchCounts(parts[i], title, artist, originalTitle);
    }
    MatchCountAll(parts, target);
  }

  /** The case of the query's letters never changes whether a part matches. */
  lemma PartMatchIgnoresCase(part: string, targetNorm: string)
    ensures PartMatches(Lower(part), targetNorm) == PartMatches(part, targetNorm)
  {
    NormalizeIgnoresCase(part);
  }
}

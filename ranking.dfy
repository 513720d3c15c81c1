/**
 * `temp_results.sort(key=lambda x: x["score"], reverse=True)`
 * (backend/main.py:336): a stable sort by descending score.  Python's sort
 * keeps entries with equal keys in their original order even when
 * reversed; the model specifies it by an insertion sort with that property.
 */
module Ranking {
  import opened Items

  predicate SortedByScore(xs: seq<Scored>) {
    forall i, j :: 0 <= i < j < |xs| ==> xs[i].score >= xs[j].score
  }

  /** Places `x` after every entry scoring at least as much. */
  function Insert(x: Scored, xs: seq<Scored>): seq<Scored> {
    if xs == [] then [x]
    else if x.score > xs[0].score then [x] + xs
    else [xs[0]] + Insert(x, xs[1..])
  }

  /** Inserts the entries in their original order. */
  function SortByScore(xs: seq<Scored>): seq<Scored> {
    if xs == [] then []
    else Insert(xs[|xs| - 1], SortByScore(xs[..|xs| - 1]))
  }

  /** The entries with score `s`, in order. */
  function WithScore(xs: seq<Scored>, s: int): seq<Scored> {
    if xs == [] then []
    else (if xs[0].score == s then [xs[0]] else []) + WithScore(xs[1..], s)
  }

  lemma {:induction false} WithScoreConcat(a: seq<Scored>, b: seq<Scored>, s: int)
    ensures WithScore(a + b, s) == WithScore(a, s) + WithScore(b, s)
  {
    if a == [] {
      assert a + b == b;
    } else {
      var ab := a + b;
      assert ab != [] && ab[0] == a[0] && ab[1..] == a[1..] + b;
      var head := if a[0].score == s then [a[0]] else [];
      assert WithScore(ab, s) == head + WithScore(a[1..] + b, s);
      WithScoreConcat(a[1..], b, s);
      assert WithScore(a, s) == head + WithScore(a[1..], s);
    }
  }

  lemma {:induction false} WithScoreNone(xs: seq<Scored>, s: int)
    requires forall i :: 0 <= i < |xs| ==> xs[i].score < s
    ensures WithScore(xs, s) == []
  {
    if xs != [] {
      WithScoreNone(xs[1..], s);
    }
  }

  lemma {:induction false} InsertPermutes(x: Scored, xs: seq<Scored>)
    ensures multiset(Insert(x, xs)) == multiset(xs) + multiset{x}
  {
    if xs != [] && x.score <= xs[0].score {
      InsertPermutes(x, xs[1..]);
      assert xs == [xs[0]] + xs[1..];
    }
  }

  /** An inserted sequence holds the new entry and the old ones, nothing else. */
  lemma InsertMembers(x: Scored, xs: seq<Scored>)
    ensures forall y :: y in Insert(x, xs) <==> y == x || y in xs
  {
    InsertPermutes(x, xs);
    forall y ensures y in Insert(x, xs) <==> y == x || y in xs {
      assert y in Insert(x, xs) <==> y in multiset(Insert(x, xs));
      assert y in xs <==> y in multiset(xs);
    }
  }

  lemma {:induction false} InsertSorted(x: Scored, xs: seq<Scored>)
    requires SortedByScore(xs)
    ensures SortedByScore(Insert(x, xs))
  {
    if xs != [] && x.score <= xs[0].score {
      var tail := xs[1..];
      var rest := Insert(x, tail);
      assert SortedByScore(tail) by {
        assert forall i :: 0 <= i < |tail| ==> tail[i] == xs[i + 1];
      }
      InsertSorted(x, tail);
      InsertMembers(x, tail);
      forall k | 0 <= k < |rest| ensures xs[0].score >= rest[k].score {
        assert rest[k] in rest;
        if rest[k] != x {
          var j :| 0 <= j < |tail| && tail[j] == rest[k];
          assert xs[j + 1] == rest[k];
        }
      }
      assert Insert(x, xs) == [xs[0]] + rest;
    }
  }

  lemma WithScoreSingle(x: Scored, s: int)
    ensures WithScore([x], s) == if x.score == s then [x] else []
  {
    assert [x][1..] == [];
  }

  lemma {:induction false} InsertStable(x: Scored, xs: seq<Scored>, s: int)
    requires SortedByScore(xs)
    ensures WithScore(Insert(x, xs), s) == WithScore(xs, s) + WithScore([x], s)
  {
    WithScoreSingle(x, s);
    if xs == [] {
    } else if x.score > xs[0].score {
      assert Insert(x, xs) == [x] + xs;
      WithScoreConcat([x], xs, s);
      if x.score == s {
        assert forall i :: 0 <= i < |xs| ==> xs[i].score <= xs[0].score;
        WithScoreNone(xs, s);
      }
    } else {
      var tail := xs[1..];
      var rest := Insert(x, tail);
      assert SortedByScore(tail) by {
        assert forall i :: 0 <= i < |tail| ==> tail[i] == xs[i + 1];
      }
      InsertStable(x, tail, s);
      assert Insert(x, xs) == [xs[0]] + rest;
      assert xs == [xs[0]] + tail;
      WithScoreConcat([xs[0]], rest, s);
      WithScoreConcat([xs[0]], tail, s);
    }
  }

  /** The sort is ordered, a permutation, and stable: for every score the
      entries with that score keep their relative order. */
  lemma {:induction false} SortByScoreProps(xs: seq<Scored>)
    ensures SortedByScore(SortByScore(xs))
    ensures multiset(SortByScore(xs)) == multiset(xs)
    ensures forall s :: WithScore(SortByScore(xs), s) == WithScore(xs, s)
  {
    SortSorted(xs);
    SortPermutes(xs);
    forall s ensures WithScore(SortByScore(xs), s) == WithScore(xs, s) {
      SortStable(xs, s);
    }
  }

  lemma {:induction false} SortSorted(xs: seq<Scored>)
    ensures SortedByScore(SortByScore(xs))
  {
    if xs != [] {
      var init := xs[..|xs| - 1];
      SortSorted(init);
      InsertSorted(xs[|xs| - 1], SortByScore(init));
    }
  }

  lemma {:induction false} SortPermutes(xs: seq<Scored>)
    ensures multiset(SortByScore(xs)) == multiset(xs)
  {
    if xs != [] {
      var init := xs[..|xs| - 1];
      SortPermutes(init);
      InsertPermutes(xs[|xs| - 1], SortByScore(init));
      assert xs == init + [xs[|xs| - 1]];
    }
  }

  lemma {:induction false} SortStable(xs: seq<Scored>, s: int)
    ensures WithScore(SortByScore(xs), s) == WithScore(xs, s)
  {
    if xs != [] {
      var init := xs[..|xs| - 1];
      var x := xs[|xs| - 1];
      var sorted := SortByScore(init);
      assert SortByScore(xs) == Insert(x, sorted);
      SortStable(init, s);
      SortSorted(init);
      InsertStable(x, sorted, s);
      assert xs == init + [x];
      WithScoreConcat(init, [x], s);
    }
  }

  /** Sorting keeps every property its entries have. */
  lemma SortKeepsEntries(xs: seq<Scored>, x: Scored)
    ensures x in SortByScore(xs) <==> x in xs
  {
    SortByScoreProps(xs);
    assert x in SortByScore(xs) <==> x in multiset(SortByScore(xs));
    assert x in xs <==> x in multiset(xs);
  }

  predicate DistinctIds(xs: seq<Scored>) {
    forall i, j :: 0 <= i < j < |xs| ==> xs[i].data.videoId != xs[j].data.videoId
  }

  lemma {:induction false} InsertDistinct(x: Scored, xs: seq<Scored>)
    requires DistinctIds(xs)
    requires forall y :: y in xs ==> y.data.videoId != x.data.videoId
    ensures DistinctIds(Insert(x, xs))
  {
    if xs != [] && x.score <= xs[0].score {
      var rest := Insert(x, xs[1..]);
      InsertDistinct(x, xs[1..]);
      InsertMembers(x, xs[1..]);
      forall k | 0 <= k < |rest| ensures rest[k].data.videoId != xs[0].data.videoId {
        assert rest[k] in rest;
        if rest[k] != x {
          var j :| 0 <= j < |xs[1..]| && xs[1..][j] == rest[k];
          assert xs[j + 1] == rest[k];
        }
      }
      assert Insert(x, xs) == [xs[0]] + rest;
    }
  }

  /** No two entries share a video id after sorting if none did before. */
  lemma {:induction false} SortKeepsDistinctIds(xs: seq<Scored>)
    requires DistinctIds(xs)
    ensures DistinctIds(SortByScore(xs))
  {
    if xs != [] {
      var last := |xs| - 1;
      var sorted := SortByScore(xs[..last]);
      SortKeepsDistinctIds(xs[..last]);
      SortByScoreProps(xs[..last]);
      forall y | y in sorted ensures y.data.videoId != xs[last].data.videoId {
        assert y in multiset(sorted);
        var j :| 0 <= j < last && xs[..last][j] == y;
        assert xs[j] == y;
      }
      InsertDistinct(xs[last], sorted);
    }
  }
}

/**
 * What the search pass keeps, stated without its `seen_ids` state: a hit is
 * admitted exactly when it has an id, passes the negative filter, and no
 * earlier hit with the same id passed it.  From that: the results have
 * distinct ids, none is filtered, every passing id is represented, and they
 * come ranked by relevance first.
 */
module SearchProps {
  import opened Wrappers
  import opened Text
  import opened Attributes
  import opened Scoring
  import opened Items
  import opened Ranking
  import opened SearchEndpoint

  predicate Admitted(items: seq<Tagged>, k: nat)
    requires k < |items|
  {
    VideoId(items[k]) != [] && !Excluded(items[k])
    && forall j :: 0 <= j < k && !Excluded(items[j]) ==> VideoId(items[j]) != VideoId(items[k])
  }

  /** The admitted hits, in order. */
  function Admit(items: seq<Tagged>): seq<Tagged> {
    if items == [] then []
    else
      var last := |items| - 1;
      Admit(items[..last]) + (if Admitted(items, last) then [items[last]] else [])
  }

  /** The ids of the hits that pass the negative filter. */
  function PassedIds(items: seq<Tagged>): set<string> {
    set j | 0 <= j < |items| && VideoId(items[j]) != [] && !Excluded(items[j]) :: VideoId(items[j])
  }

  function IdsOf(xs: seq<Scored>): set<string> {
    set x | x in xs :: x.data.videoId
  }

  function KeptIds(ts: seq<Tagged>): set<string> {
    set t | t in ts :: VideoId(t)
  }

  lemma {:induction false} PassedIdsStep(items: seq<Tagged>)
    requires items != []
    ensures var last := |items| - 1;
      var t := items[last];
      PassedIds(items)
      == PassedIds(items[..last]) + (if VideoId(t) != [] && !Excluded(t) then {VideoId(t)} else {})
  {
    var last := |items| - 1;
    var p := items[..last];
    assert forall j :: 0 <= j < last ==> p[j] == items[j];
  }

  lemma {:induction false} AdmittedStep(items: seq<Tagged>)
    requires items != []
    ensures var last := |items| - 1;
      var t := items[last];
      Admitted(items, last)
      <==> VideoId(t) != [] && !Excluded(t) && VideoId(t) !in PassedIds(items[..last])
  {
    var last := |items| - 1;
    var p := items[..last];
    var t := items[last];
    assert forall j :: 0 <= j < last ==> p[j] == items[j];
    if VideoId(t) != [] && !Excluded(t) {
      if VideoId(t) in PassedIds(p) {
        var j :| 0 <= j < last && VideoId(p[j]) != [] && !Excluded(p[j]) && VideoId(p[j]) == VideoId(t);
        assert items[j] == p[j];
      } else {
        forall j | 0 <= j < last && !Excluded(items[j]) ensures VideoId(items[j]) != VideoId(t) {
          assert items[j] == p[j];
        }
      }
    }
  }

  lemma RunStep(items: seq<Tagged>)
    requires items != []
    ensures var last := |items| - 1;
      var t := items[last];
      var before := Run(items[..last]);
      Run(items)
      == if VideoId(t) == [] || VideoId(t) in before.seen || Excluded(t) then before
         else State(before.seen + {VideoId(t)}, before.kept + [t])
  {
    var last := |items| - 1;
    assert Run(items) == Step(Run(items[..last]), items[last]);
  }

  lemma {:induction false} RunSeen(items: seq<Tagged>)
    ensures Run(items).seen == PassedIds(items)
  {
    if items != [] {
      RunSeen(items[..|items| - 1]);
      PassedIdsStep(items);
      RunStep(items);
    }
  }

  lemma {:induction false} RunKept(items: seq<Tagged>)
    ensures Run(items).kept == Admit(items)
  {
    if items != [] {
      var last := |items| - 1;
      var p := items[..last];
      RunKept(p);
      RunSeen(p);
      AdmittedStep(items);
      RunStep(items);
    }
  }

  lemma {:induction false} RunKeptIdsAreSeen(items: seq<Tagged>)
    ensures KeptIds(Run(items).kept) == Run(items).seen
  {
    if items != [] {
      var last := |items| - 1;
      var t := items[last];
      var before := Run(items[..last]);
      RunKeptIdsAreSeen(items[..last]);
      RunStep(items);
      if !(VideoId(t) == [] || VideoId(t) in before.seen || Excluded(t)) {
        assert KeptIds(before.kept + [t]) == KeptIds(before.kept) + {VideoId(t)};
      }
    }
  }

  /** The loop's bookkeeping is the reference one: `seen_ids` holds the
      passing ids, the hits reaching `temp_results` are exactly the admitted
      ones in order, and their ids are exactly `seen_ids`. */
  lemma RunIsAdmit(items: seq<Tagged>)
    ensures Run(items).seen == PassedIds(items)
    ensures Run(items).kept == Admit(items)
    ensures KeptIds(Run(items).kept) == Run(items).seen
  {
    RunSeen(items);
    RunKept(items);
    RunKeptIdsAreSeen(items);
  }

  /** Every admitted hit is one of the input hits, has an id, and passes
      the negative filter. */
  lemma {:induction false} AdmitSound(items: seq<Tagged>)
    ensures forall t :: t in Admit(items) ==> t in items && VideoId(t) != [] && !Excluded(t)
  {
    if items != [] {
      var last := |items| - 1;
      var p := items[..last];
      AdmitSound(p);
      assert Admit(items) == Admit(p) + (if Admitted(items, last) then [items[last]] else []);
      forall t | t in Admit(items) ensures t in items && VideoId(t) != [] && !Excluded(t) {
        if t in Admit(p) {
          var j :| 0 <= j < last && p[j] == t;
          assert items[j] == t;
        }
      }
    }
  }

  /** No id is admitted twice. */
  lemma {:induction false} AdmitDistinct(items: seq<Tagged>)
    ensures forall i, j :: 0 <= i < j < |Admit(items)| ==> VideoId(Admit(items)[i]) != VideoId(Admit(items)[j])
  {
    if items != [] {
      var last := |items| - 1;
      var p := items[..last];
      var a := Admit(p);
      AdmitDistinct(p);
      if Admitted(items, last) {
        AdmitSound(p);
        forall i | 0 <= i < |a| ensures VideoId(a[i]) != VideoId(items[last]) {
          assert a[i] in a;
          var j :| 0 <= j < last && p[j] == a[i];
          assert items[j] == a[i];
        }
      }
    }
  }

  /** The dedup keeps the first hit of an id that passes the filter, not
      the first hit of the id: a filtered hit does not block a later one
      with the same id. */
  lemma FilteredHitDoesNotBlock(first: Tagged, second: Tagged)
    requires VideoId(first) == VideoId(second) != []
    requires Excluded(first) && !Excluded(second)
    ensures Admit([first, second]) == [second]
  {
    var items := [first, second];
    assert items[..1] == [first];
    assert [first][..0] == [];
    assert !Admitted([first], 0);
    assert Admit([first]) == [];
    assert Admitted(items, 1);
  }

  /** Songs come first: a video hit sharing its id with a passing song hit
      is never admitted. */
  lemma SongWinsOverVideo(songs: seq<RawItem>, videos: seq<RawItem>, i: nat, j: nat)
    requires i < |songs| && j < |videos|
    requires !Excluded(Tagged(songs[i], "song"))
    requires VideoId(Tagged(songs[i], "song")) == VideoId(Tagged(videos[j], "video"))
    ensures !Admitted(Merged(songs, videos), |songs| + j)
  {
    var items := Merged(songs, videos);
    assert items[i] == Tagged(songs[i], "song");
    assert items[|songs| + j] == Tagged(videos[j], "video");
  }

  /** When both pass, only the first is kept. */
  lemma RepeatedIdKeepsFirst(first: Tagged, second: Tagged)
    requires VideoId(first) == VideoId(second) != []
    requires !Excluded(first) && !Excluded(second)
    ensures Admit([first, second]) == [first]
  {
    var items := [first, second];
    assert items[..1] == [first];
    assert [first][..0] == [];
    assert Admitted([first], 0);
    assert Admit([first]) == [first];
    assert !Admitted(items, 1) by {
      assert !Excluded(items[0]) && VideoId(items[0]) == VideoId(items[1]);
    }
  }

  /** The admitted hits scored have distinct ids, and each is a passing hit. */
  lemma ScoredAdmitted(q: string, items: seq<Tagged>)
    ensures var scored := ClassifyAll(q, Admit(items));
      && DistinctIds(scored)
      && (forall x :: x in scored ==>
            WellScored(q, x) && x.data.videoId != [] && !ContainsAny(Lower(x.data.originalTitle), NegativeKeywords))
  {
    var a := Admit(items);
    var scored := ClassifyAll(q, a);
    AdmitSound(items);
    AdmitDistinct(items);
    forall i, j | 0 <= i < j < |scored| ensures scored[i].data.videoId != scored[j].data.videoId {
      assert scored[i].data.videoId == VideoId(a[i]);
    }
    forall x | x in scored
      ensures WellScored(q, x) && x.data.videoId != [] && !ContainsAny(Lower(x.data.originalTitle), NegativeKeywords)
    {
      var k :| 0 <= k < |scored| && scored[k] == x;
      assert a[k] in a;
    }
  }

  /** Scoring keeps the ids. */
  lemma ScoredIds(q: string, ts: seq<Tagged>)
    ensures IdsOf(ClassifyAll(q, ts)) == KeptIds(ts)
  {
    var scored := ClassifyAll(q, ts);
    forall x | x in scored ensures x.data.videoId in KeptIds(ts) {
      var k :| 0 <= k < |scored| && scored[k] == x;
      assert ts[k] in ts;
    }
    forall t | t in ts ensures VideoId(t) in IdsOf(scored) {
      var k :| 0 <= k < |ts| && ts[k] == t;
      assert scored[k] in scored;
    }
  }

  /** The ranked entries of a search pass: sorted by score, a stable
      permutation of the admitted hits scored, with distinct ids, none
      filtered, and exactly the passing ids. */
  lemma RankedProps(q: string, items: seq<Tagged>)
    ensures var r := Ranked(q, items);
      var scored := ClassifyAll(q, Admit(items));
      && SortedByScore(r)
      && multiset(r) == multiset(scored)
      && (forall s :: WithScore(r, s) == WithScore(scored, s))
      && DistinctIds(r)
      && (forall x :: x in r ==>
            WellScored(q, x) && x.data.videoId != [] && !ContainsAny(Lower(x.data.originalTitle), NegativeKeywords))
      && IdsOf(r) == PassedIds(items)
      && |r| <= |items|
  {
    var r := Ranked(q, items);
    var scored := ClassifyAll(q, Admit(items));
    RunIsAdmit(items);
    assert r == SortByScore(scored);
    SortByScoreProps(scored);
    ScoredAdmitted(q, items);
    SortKeepsDistinctIds(scored);
    forall x ensures x in r <==> x in scored {
      SortKeepsEntries(scored, x);
    }
    assert IdsOf(r) == IdsOf(scored);
    ScoredIds(q, Admit(items));
    AdmitLength(items);
    assert |r| == |multiset(r)| == |multiset(scored)| == |scored|;
  }

  /** Results come ranked by relevance first: no result matches fewer
      query parts than one after it. */
  lemma RankedByRelevance(q: string, items: seq<Tagged>)
    ensures var r := Ranked(q, items);
      forall i, j :: 0 <= i < j < |r| ==> RelevanceOf(q, r[i]) >= RelevanceOf(q, r[j])
  {
    var r := Ranked(q, items);
    RankedProps(q, items);
    forall i, j | 0 <= i < j < |r| ensures RelevanceOf(q, r[i]) >= RelevanceOf(q, r[j]) {
      assert r[i] in r && r[j] in r;
      RelevanceDominates(q, r[i], r[j]);
    }
  }

  lemma {:induction false} AdmitLength(items: seq<Tagged>)
    ensures |Admit(items)| <= |items|
  {
    if items != [] {
      AdmitLength(items[..|items| - 1]);
    }
  }

  /** A successful search returns the ranked entries' records. */
  lemma SearchSucceeds(q: string, provider: Provider, songs: seq<RawItem>, videos: seq<RawItem>)
    requires q != []
    requires provider(q + QuerySuffix, "songs", SongLimit) == Fetched(songs)
    requires provider(q + QuerySuffix, "videos", VideoLimit) == Fetched(videos)
    ensures SearchSpec(Some(q), provider).results == DataOf(Ranked(q, Merged(songs, videos)))
    ensures |SearchSpec(Some(q), provider).results| <= |songs| + |videos|
  {
    RankedProps(q, Merged(songs, videos));
  }

  /** Either provider call failing gives the empty envelope. */
  lemma SearchFailsEmpty(q: string, provider: Provider)
    requires provider(q + QuerySuffix, "songs", SongLimit).Failed?
      || provider(q + QuerySuffix, "videos", VideoLimit).Failed?
    ensures SearchSpec(Some(q), provider) == EmptyEnvelope()
  {
  }
}

/**
 * The body of the `/api/search` endpoint (backend/main.py:271-339): two
 * provider queries, songs before videos, a single pass that drops repeated
 * ids and negative titles and scores the rest, then a stable sort by
 * descending score.
 */
module SearchEndpoint {
  import opened Wrappers
  import opened Text
  import opened Attributes
  import opened Parser
  import opened Scoring
  import opened Items
  import opened Ranking

  /** The response body (main.py:274, 334, 339). */
  datatype Envelope = Envelope(results: seq<SongItem>, nextPageToken: Option<string>)

  /** What one provider call gives: the hits, or an exception. */
  datatype Fetch = Fetched(items: seq<RawItem>) | Failed

  /** The music provider's `search(query, filter, limit)`; its network
      behaviour is outside the model. */
  type Provider = (string, string, nat) -> Fetch

  const QuerySuffix: string := " カラオケ"
  const SongLimit: nat := 20
  const VideoLimit: nat := 40

  function EmptyEnvelope(): Envelope {
    Envelope([], None)
  }

  /** The list built by the two tagging loops (main.py:284-290). */
  function Merged(songs: seq<RawItem>, videos: seq<RawItem>): seq<Tagged> {
    seq(|songs|, i requires 0 <= i < |songs| => Tagged(songs[i], "song"))
    + seq(|videos|, i requires 0 <= i < |videos| => Tagged(videos[i], "video"))
  }

  /** main.py:284-290: every song hit tagged `song`, then every video hit
      tagged `video`, in provider order. */
  method MergeResults(songs: seq<RawItem>, videos: seq<RawItem>) returns (all: seq<Tagged>)
    ensures |all| == |songs| + |videos|
    ensures forall i :: 0 <= i < |songs| ==> all[i] == Tagged(songs[i], "song")
    ensures forall j :: 0 <= j < |videos| ==> all[|songs| + j] == Tagged(videos[j], "video")
    ensures all == Merged(songs, videos)
  {
    all := [];
    for i := 0 to |songs|
      invariant |all| == i
      invariant forall k :: 0 <= k < i ==> all[k] == Tagged(songs[k], "song")
    {
      all := all + [Tagged(songs[i], "song")];
    }
    for j := 0 to |videos|
      invariant |all| == |songs| + j
      invariant forall k :: 0 <= k < |songs| ==> all[k] == Tagged(songs[k], "song")
      invariant forall k :: 0 <= k < j ==> all[|songs| + k] == Tagged(videos[k], "video")
    {
      all := all + [Tagged(videos[j], "video")];
    }
  }

  /** The loop's bookkeeping: `seen_ids`, and the hits that reached
      `temp_results`, in order. */
  datatype State = State(seen: set<string>, kept: seq<Tagged>)

  /** The filtering part of one iteration of main.py:292-330.  An id joins
      `seen` only when its hit passes the negative filter, so a repeated id
      is still admitted if every earlier hit with it was filtered out. */
  function Step(st: State, t: Tagged): State {
    var vid := VideoId(t);
    if vid == [] || vid in st.seen then st
    else if Excluded(t) then st
    else State(st.seen + {vid}, st.kept + [t])
  }

  /** The state after the loop has visited `items`. */
  function Run(items: seq<Tagged>): State {
    if items == [] then State({}, [])
    else Step(Run(items[..|items| - 1]), items[|items| - 1])
  }

  /** `temp_results` for the kept hits: each one scored (main.py:322-329). */
  function ClassifyAll(q: string, ts: seq<Tagged>): (r: seq<Scored>)
    ensures |r| == |ts| && forall i :: 0 <= i < |ts| ==> r[i] == Classify(q, ts[i])
  {
    seq(|ts|, i requires 0 <= i < |ts| => Classify(q, ts[i]))
  }

  lemma ClassifyAllAppend(q: string, ts: seq<Tagged>, t: Tagged, entry: Scored)
    requires entry == Classify(q, t)
    ensures ClassifyAll(q, ts + [t]) == ClassifyAll(q, ts) + [entry]
  {
  }

  /** The sorted entries of a successful search. */
  function Ranked(q: string, items: seq<Tagged>): seq<Scored> {
    SortByScore(ClassifyAll(q, Run(items).kept))
  }

  function DataOf(xs: seq<Scored>): (r: seq<SongItem>)
    ensures |r| == |xs| && forall i :: 0 <= i < |xs| ==> r[i] == xs[i].data
  {
    seq(|xs|, i requires 0 <= i < |xs| => xs[i].data)
  }

  /** What the endpoint returns for query `q` against `provider`. */
  function SearchSpec(q: Option<string>, provider: Provider): (e: Envelope)
    ensures e.nextPageToken.None?
    ensures q.None? || q.value == [] ==> e.results == []
  {
    if q.None? || q.value == [] then EmptyEnvelope()
    else
      var searchQuery := q.value + QuerySuffix;
      match provider(searchQuery, "songs", SongLimit)
      case Failed => EmptyEnvelope()
      case Fetched(songs) =>
        match provider(searchQuery, "videos", VideoLimit)
        case Failed => EmptyEnvelope()
        case Fetched(videos) => Envelope(DataOf(Ranked(q.value, Merged(songs, videos))), None)
  }

  /** main.py:300-329: the record and score of a hit that passed the filters. */
  method ScoreItem(query: string, item: Tagged) returns (entry: Scored)
    ensures entry == Classify(query, item)
  {
    var originalTitle := item.item.title;
    var apiArtistName := ApiArtist(item.item);
    var channelName := ChannelName(apiArtistName);
    var attrs := DetermineAttributes(originalTitle, channelName);
    var parsed := ParseMetadata(originalTitle, apiArtistName, channelName, item.resultType);
    var songObj := SongItem(VideoId(item), parsed.title, parsed.artist, originalTitle,
                            DurationOf(item.item.duration), channelName, item.resultType,
                            attrs.isNoGuide, attrs.hasVocal, parsed.key, item.resultType);
    var score := 0;
    var relevance := CalculateRelevanceScore(query, parsed.title, parsed.artist, originalTitle);
    score := score + relevance;
    if !attrs.hasVocal {
      score := score + OffVocalBonus;
    }
    if ContainsAny(channelName, TrustedKaraokeChannels) {
      score := score + TrustedBonus;
    }
    if item.resultType == "song" {
      score := score + SongBonus;
    }
    assert songObj == MakeSong(item);
    entry := Scored(songObj, score);
  }

  /** The pass of main.py:292-330 over the merged hits. */
  method ScoreAll(query: string, allItems: seq<Tagged>) returns (tempResults: seq<Scored>)
    ensures tempResults == ClassifyAll(query, Run(allItems).kept)
  {
    tempResults := [];
    var seenIds: set<string> := {};
    var i := 0;
    while i < |allItems|
      invariant 0 <= i <= |allItems|
      invariant seenIds == Run(allItems[..i]).seen
      invariant tempResults == ClassifyAll(query, Run(allItems[..i]).kept)
    {
      var item := allItems[i];
      assert allItems[..i + 1][..i] == allItems[..i];
      ghost var before := Run(allItems[..i]);
      ghost var kept := before.kept;
      assert Run(allItems[..i + 1]) == Step(before, item);
      var vid := VideoId(item);
      if vid != [] && vid !in seenIds {
        var originalTitle := item.item.title;
        var titleLower := Lower(originalTitle);
        assert Excluded(item) <==> ContainsAny(titleLower, NegativeKeywords);
        if !ContainsAny(titleLower, NegativeKeywords) {
          var entry := ScoreItem(query, item);
          ClassifyAllAppend(query, kept, item, entry);
          tempResults := tempResults + [entry];
          seenIds := seenIds + {vid};
        }
      }
      i := i + 1;
    }
    assert allItems[..i] == allItems;
  }

  /** `search` (main.py:271-339). */
  method Search(q: Option<string>, provider: Provider) returns (e: Envelope)
    ensures e == SearchSpec(q, provider)
  {
    if q.None? || q.value == [] {
      return EmptyEnvelope();
    }
    var query := q.value;
    var searchQuery := query + QuerySuffix;
    var songResults := provider(searchQuery, "songs", SongLimit);
    if songResults.Failed? {
      return EmptyEnvelope();
    }
    var videoResults := provider(searchQuery, "videos", VideoLimit);
    if videoResults.Failed? {
      return EmptyEnvelope();
    }
    var allItems := MergeResults(songResults.items, videoResults.items);
    var tempResults := ScoreAll(query, allItems);
    var ranked := SortByScore(tempResults);
    e := Envelope(DataOf(ranked), None);
  }
}

/**
 * The records the search endpoint handles (backend/main.py:56-71, 284-329):
 * a hit as the provider returns it, the hit tagged with its result type,
 * the `SongItem` the endpoint builds from it, and the score it ranks by.
 */
module Items {
  import opened Wrappers
  import opened Text
  import opened Patterns
  import opened Normalize
  import opened Attributes
  import opened Parser
  import opened Scoring

  /** A hit from the music provider.  A missing title reads as the empty
      string (main.py:296); `artists` holds the artist names in order. */
  datatype RawItem = RawItem(videoId: Option<string>, title: string, artists: seq<string>, duration: Option<string>)

  /** A hit with the `_type` the endpoint attaches to it (main.py:285-290). */
  datatype Tagged = Tagged(item: RawItem, resultType: string)

  /** `SongItem` (main.py:56-71); `kind` is its `type` field. */
  datatype SongItem = SongItem(
    videoId: string, title: string, artist: string, originalTitle: string,
    duration: string, channel: string, resultType: string,
    isNoGuide: bool, hasVocal: bool, key: Option<string>, kind: string)

  /** An entry of `temp_results` (main.py:329). */
  datatype Scored = Scored(data: SongItem, score: int)

  const FallbackChannel: string := "YouTube Music"
  const FallbackDuration: string := "00:00"
  const OffVocalBonus: nat := 5000
  const TrustedBonus: nat := 3000
  const SongBonus: nat := 100

  /** `item.get("videoId")`, with a missing id read as the empty one:
      both are falsy and skipped alike (main.py:293-294). */
  function VideoId(t: Tagged): string {
    match t.item.videoId
    case Some(v) => v
    case None => []
  }

  /** The negative-keyword filter (main.py:297-298). */
  predicate Excluded(t: Tagged) {
    ContainsAny(Lower(t.item.title), NegativeKeywords)
  }

  /** The first artist's name, or empty (main.py:300-301). */
  function ApiArtist(item: RawItem): string {
    if item.artists == [] then [] else item.artists[0]
  }

  /** main.py:302: the provider's artist name, or YouTube Music when it has none. */
  function ChannelName(apiArtist: string): (r: string)
    ensures r != []
    ensures apiArtist != [] ==> r == apiArtist
    ensures apiArtist == [] ==> r == FallbackChannel
  {
    if apiArtist == [] then FallbackChannel else apiArtist
  }

  /** `item.get("duration") or "00:00"` (main.py:313). */
  function DurationOf(d: Option<string>): (r: string)
    ensures r != []
    ensures d.Some? && d.value != [] ==> r == d.value
    ensures d.None? || d.value == [] ==> r == FallbackDuration
  {
    match d
    case Some(s) => if s == [] then FallbackDuration else s
    case None => FallbackDuration
  }

  /** The bonuses added to the relevance score (main.py:325-327). */
  function Bonus(hasVocal: bool, channel: string, resultType: string): (b: nat)
    ensures b <= OffVocalBonus + TrustedBonus + SongBonus
    ensures b < TokenWeight
  {
    (if !hasVocal then OffVocalBonus else 0)
    + (if IsTrustedChannel(channel) then TrustedBonus else 0)
    + (if resultType == "song" then SongBonus else 0)
  }

  /** The `SongItem` built for a hit that passed the filters (main.py:300-320):
      the parsed title, artist and key, the two flags judged on the
      channel, and the hit's own id, title, duration and type. */
  function MakeSong(t: Tagged): (s: SongItem)
    ensures s.videoId == VideoId(t) && s.originalTitle == t.item.title
    ensures s.resultType == t.resultType && s.kind == t.resultType
    ensures s.channel == ChannelName(ApiArtist(t.item)) && s.duration == DurationOf(t.item.duration)
    ensures s.channel != [] && s.duration != []
    ensures var p := ParseMetadata(t.item.title, ApiArtist(t.item), s.channel, t.resultType);
      s.title == p.title && s.artist == p.artist && s.key == p.key
    ensures var a := DetermineAttributes(t.item.title, s.channel);
      s.isNoGuide == a.isNoGuide && s.hasVocal == a.hasVocal
    ensures s.key.Some? ==> IsCanonicalKey(s.key.value)
  {
    var api := ApiArtist(t.item);
    var channel := ChannelName(api);
    var attrs := DetermineAttributes(t.item.title, channel);
    var parsed := ParseMetadata(t.item.title, api, channel, t.resultType);
    SongItem(VideoId(t), parsed.title, parsed.artist, t.item.title, DurationOf(t.item.duration),
             channel, t.resultType, attrs.isNoGuide, attrs.hasVocal, parsed.key, t.resultType)
  }

  /** The relevance part of an entry's score, recomputed from its record. */
  function RelevanceOf(q: string, s: Scored): nat {
    RelevanceScore(q, s.data.title, s.data.artist, s.data.originalTitle)
  }

  /** An entry whose score is its relevance plus the bonuses its record earns. */
  predicate WellScored(q: string, s: Scored) {
    s.score == RelevanceOf(q, s) + Bonus(s.data.hasVocal, s.data.channel, s.data.resultType)
  }

  /** The scored entry for a hit (main.py:322-329). */
  function Classify(q: string, t: Tagged): (s: Scored)
    ensures s.data == MakeSong(t)
    ensures WellScored(q, s)
  {
    var song := MakeSong(t);
    Scored(song, RelevanceScore(q, song.title, song.artist, song.originalTitle)
                 + Bonus(song.hasVocal, song.channel, t.resultType))
  }

  lemma WeightGap(n1: nat, n2: nat)
    requires n1 > n2
    ensures TokenWeight * n1 >= TokenWeight * n2 + TokenWeight
  {
  }

  /** Relevance dominates: one more matching query part outweighs every
      bonus, so a higher score never has a lower relevance, and at equal
      relevance the bonuses alone decide. */
  lemma {:induction false} RelevanceDominates(q: string, s1: Scored, s2: Scored)
    requires WellScored(q, s1) && WellScored(q, s2)
    ensures RelevanceOf(q, s1) > RelevanceOf(q, s2) ==> s1.score > s2.score
    ensures s1.score >= s2.score ==> RelevanceOf(q, s1) >= RelevanceOf(q, s2)
    ensures RelevanceOf(q, s1) == RelevanceOf(q, s2) ==>
      s1.score - s2.score
      == Bonus(s1.data.hasVocal, s1.data.channel, s1.data.resultType)
       - Bonus(s2.data.hasVocal, s2.data.channel, s2.data.resultType)
  {
    var d1, d2 := s1.data, s2.data;
    RelevanceScoreCounts(q, d1.title, d1.artist, d1.originalTitle);
    RelevanceScoreCounts(q, d2.title, d2.artist, d2.originalTitle);
    var n1 := |MatchingParts(Words(q), NormalizeForComparison(TargetText(d1.title, d1.artist, d1.originalTitle)))|;
    var n2 := |MatchingParts(Words(q), NormalizeForComparison(TargetText(d2.title, d2.artist, d2.originalTitle)))|;
    if n1 > n2 {
      WeightGap(n1, n2);
    } else if n2 > n1 {
      WeightGap(n2, n1);
    }
  }

  /** A result from a trusted channel gets both channel bonuses, since such
      a channel always counts as vocal-free. */
  lemma TrustedChannelBonus(hasVocal: bool, title: string, channel: string, resultType: string)
    requires IsTrustedChannel(channel)
    requires hasVocal == DetermineAttributes(title, channel).hasVocal
    ensures Bonus(hasVocal, channel, resultType) >= OffVocalBonus + TrustedBonus
  {
    TrustedChannelIsOffVocal(title, channel);
  }
}

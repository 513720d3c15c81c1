/**
 * The configuration tables of backend/main.py and `determine_attributes`,
 * which infers from text alone whether a result lacks a guide melody and
 * whether it has a vocal track.
 */
module Attributes {
  import opened Text

  /** Channels whose uploads count as vocal-free (main.py:23-40). */
  const TrustedKaraokeChannels: seq<string> := [
    "カラオケ歌っちゃ王", "歌っちゃ王", "JOYSOUND CHANNEL", "JOYSOUND",
    "カラオケDAM公式チャンネル", "Karaoke", "J-POP Karaoke", "GARAOKE",
    "TJ KARAOKE", "カラオケまねきねこ", "Victor Entertainment", "Sony Music",
    "UNIVERSAL MUSIC", "ニコカラチャンネル", "On-boc", "EdKara"
  ]

  /** Title words that mark a track as vocal-free (main.py:43-46). */
  const OffVocalKeywords: seq<string> := [
    "instrumental", "off vocal", "backing track", "karaoke",
    "インスト", "オフボーカル", "カラオケ", "ガイド"
  ]

  /** Title words that exclude a result altogether (main.py:49-53). */
  const NegativeKeywords: seq<string> := [
    "歌ってみ", "×(修正版あり)", "bgm", "orgel", "オルゴール", "medley", "メドレー",
    "reaction", "リアクション", "切り抜き"
  ]

  /** Title words that mark a track as having no guide melody (main.py:86). */
  const NoGuideMarkers: seq<string> := [
    "ガイドなし", "ガイド無し", "no guide", "ガイドメロディなし", "ガイドメロディ無し"
  ]

  /** Python's `any(k in s for k in ks)`. */
  function ContainsAny(s: string, ks: seq<string>): (r: bool)
    ensures r <==> exists k :: k in ks && Contains(s, k)
  {
    if ks == [] then false
    else
      assert forall k :: k in ks <==> k == ks[0] || k in ks[1..];
      Contains(s, ks[0]) || ContainsAny(s, ks[1..])
  }

  predicate IsTrustedChannel(channel: string) {
    ContainsAny(channel, TrustedKaraokeChannels)
  }

  datatype Attrs = Attrs(isNoGuide: bool, hasVocal: bool)

  /** `determine_attributes` (main.py:84-94). */
  function DetermineAttributes(title: string, channel: string): (r: Attrs)
    ensures r.isNoGuide <==> exists m :: m in NoGuideMarkers && Contains(Lower(title), m)
    ensures !r.hasVocal <==>
      (exists c :: c in TrustedKaraokeChannels && Contains(channel, c))
      || (exists k :: k in OffVocalKeywords && Contains(Lower(title), k))
  {
    var titleLower := Lower(title);
    var isNoGuide := ContainsAny(titleLower, NoGuideMarkers);
    var hasVocal := !(IsTrustedChannel(channel) || ContainsAny(titleLower, OffVocalKeywords));
    Attrs(isNoGuide, hasVocal)
  }

  /** A result from a trusted channel is vocal-free whatever its title says. */
  lemma TrustedChannelIsOffVocal(title: string, channel: string)
    requires IsTrustedChannel(channel)
    ensures !DetermineAttributes(title, channel).hasVocal
  {
  }

  /** Every no-guide marker except the English one contains ガイド, an
      off-vocal keyword; so a title holding any of them is always judged
      vocal-free, whatever else it holds. */
  lemma JapaneseNoGuideIsOffVocal(title: string, channel: string)
    requires exists m :: m in NoGuideMarkers && m != "no guide" && Contains(Lower(title), m)
    ensures !DetermineAttributes(title, channel).hasVocal
  {
    var t := Lower(title);
    var m :| m in NoGuideMarkers && m != "no guide" && Contains(t, m);
    assert m[..3] == "ガイド";
    ContainsPrefixOf(t, m, 3);
    assert "ガイド" in OffVocalKeywords;
  }

  /** In particular a title containing ガイドなし never has `has_vocal`. */
  lemma NoGuideKanaIsOffVocal(title: string, channel: string)
    requires Contains(Lower(title), "ガイドなし")
    ensures !DetermineAttributes(title, channel).hasVocal
  {
    assert "ガイドなし" in NoGuideMarkers;
    JapaneseNoGuideIsOffVocal(title, channel);
  }
}

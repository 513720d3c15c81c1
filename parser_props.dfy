/**
 * Properties of `parse_metadata`: the dispatch priority, where a pitch key
 * can come from, the title and artist of every grammar's paths, and a few
 * titles worked out in full.
 */
module ParserProps {
  import opened Wrappers
  import opened Text
  import opened Patterns
  import opened Normalize
  import opened Attributes
  import opened Parser

  /** The texts the grammars produce are cleaned on the way out (main.py:255). */
  lemma FromRaw(o: string, apiArtist: string, channel: string, resultType: string, raw: Parsed)
    requires ParseRaw(o, apiArtist, channel, resultType) == raw
    ensures ParseMetadata(o, apiArtist, channel, resultType) == Parsed(CleanText(raw.title), CleanText(raw.artist), raw.key)
  {
  }

  /** The NicoKara grammar is chosen by the marker alone: the result type
      makes no difference to what is parsed. */
  lemma NicoKaraIgnoresResultType(o: string, apiArtist: string, channel: string, k1: string, k2: string)
    requires IsNico(o, channel)
    ensures ParseMetadata(o, apiArtist, channel, k1) == ParseMetadata(o, apiArtist, channel, k2)
    ensures ParseMetadata(o, apiArtist, channel, k1).key.None?
  {
  }

  /** A result type other than video or song leaves the texts as they came,
      only cleaned, and gives no key. */
  lemma OtherResultTypePassesThrough(o: string, apiArtist: string, channel: string, resultType: string)
    requires !IsNico(o, channel) && resultType != "video" && resultType != "song"
    ensures ParseMetadata(o, apiArtist, channel, resultType) == Parsed(CleanText(o), CleanText(apiArtist), None)
  {
  }

  /** The chorus-practice variant of the JOYSOUND channel: the artist is the
      fixed label, the title the contents of the first 「…」 or else the
      title without the marker. */
  lemma JoyChorusShape(o: string, apiArtist: string)
    requires !IsNico(o, "JOYSOUND CHANNEL") && Contains(o, "【合唱練習用】")
    ensures var r := ParseMetadata(o, apiArtist, "JOYSOUND CHANNEL", "video");
      && r.artist == "合唱練習用"
      && r.key.None?
      && r.title == CleanText(match Search(CornerQuote, o)
                              case Some(m) => Group(o, m)
                              case None => Strip(Replace(o, "【合唱練習用】", "")))
  {
    assert SelectBranch(o, apiArtist, "JOYSOUND CHANNEL", "video").JoyChorus?;
    assert ParseRaw(o, apiArtist, "JOYSOUND CHANNEL", "video") == ParseJoyChorus(o);
    ChorusLabelClean();
  }

  lemma ChorusLabelClean()
    ensures CleanText("合唱練習用") == "合唱練習用"
  {
    var l := "合唱練習用";
    assert Replace(l, [IdeographicSpace], [' ']) == l by {
      ReplaceAbsent(l, IdeographicSpace, ' ');
    }
    StripStripped(l);
  }

  lemma {:induction false} AbsentChar(s: string, c: char)
    requires !Contains(s, [c])
    ensures c !in s
  {
    if c in s {
      var i :| 0 <= i < |s| && s[i] == c;
      assert Occurs(s, [c], i);
    }
  }

  /** When the tag-stripped title of a generic video has a slash, the title
      is what precedes the first one, so it never contains a slash. */
  lemma {:induction false} GenericVideoTitleHasNoSlash(o: string, apiArtist: string, channel: string)
    requires SelectBranch(o, apiArtist, channel, "video").GenericVideo?
    requires Contains(StripKaraokeTags(o), "/")
    ensures '/' !in ParseMetadata(o, apiArtist, channel, "video").title
  {
    var c := StripKaraokeTags(o);
    var parts := SplitFirst(c, "/").value;
    assert ParseRaw(o, apiArtist, channel, "video").title == parts.0;
    AbsentChar(parts.0, '/');
  }

  /** The generic video grammar on the tag-stripped title: the first slash
      splits title and artist, the artist losing its [カラオケ] badge; else the
      first spaced hyphen splits; else the whole is the title, and the channel
      is the artist only when it names a label. */
  lemma GenericVideoShape(o: string, apiArtist: string, channel: string)
    requires SelectBranch(o, apiArtist, channel, "video").GenericVideo?
    ensures var r := ParseMetadata(o, apiArtist, channel, "video");
      var c := StripKaraokeTags(o);
      match SplitFirst(c, "/")
      case Some((a, b)) => r == Parsed(CleanText(a), CleanText(Strip(Replace(b, "[カラオケ]", ""))), None)
      case None =>
        match SplitFirst(c, " - ")
        case Some((a, b)) => r == Parsed(CleanText(a), CleanText(b), None)
        case None =>
          r == Parsed(CleanText(c), if ContainsAny(channel, LabelMarkers) then CleanText(channel) else [], None)
  {
    assert ParseRaw(o, apiArtist, channel, "video") == ParseGenericVideo(o, channel);
    assert CleanText([]) == [];
  }

  /** No tag character of the generic grammar: neither bracket that opens a
      badge or a guide tag, nor ガ. */
  predicate NoBadgeChars(t: string) {
    '（' !in t && '(' !in t && '[' !in t && 'ガ' !in t
  }

  /** The tag removal of main.py:101-102 leaves alone a title with no opening
      parenthesis of either width and no ガ: none of its three literal tags or
      its guide tag can occur there. */
  lemma StripKaraokeTagsPlain(o: string)
    requires '（' !in o && '(' !in o && 'ガ' !in o
    ensures StripKaraokeTags(o) == o
  {
    ReplaceKeepsPrefix(o, [], "（カラオケ）", "");
    ReplaceKeepsPrefix(o, [], "(Karaoke)", "");
    ReplaceKeepsPrefix(o, [], "(Official)", "");
    assert o + [] == o;
    GuideTagAbsent(o);
  }

  /** A generic video titled "<title>/<singer> [カラオケ]" gives that title and
      singer, cleaned. */
  lemma GenericVideoSlashBadge(o: string, apiArtist: string, channel: string, title: string, singer: string)
    requires SelectBranch(o, apiArtist, channel, "video").GenericVideo?
    requires o == title + "/" + singer + " [カラオケ]"
    requires '/' !in title && NoBadgeChars(title) && NoBadgeChars(singer)
    ensures ParseMetadata(o, apiArtist, channel, "video") == Parsed(CleanText(title), CleanText(Strip(singer)), None)
  {
    var badge := "[カラオケ]";
    var b := singer + " " + badge;
    assert o == title + ['/'] + b;
    assert NoBadgeChars(title + "/" + singer + " ") && 'ガ' !in badge;
    assert o == (title + "/" + singer + " ") + badge;
    StripKaraokeTagsPlain(o);
    SplitFirstChar(title, '/', b);
    ReplaceKeepsPrefix(singer + " ", badge, badge, "");
    ReplaceWhole(badge, "");
    assert Replace(b, badge, "") == singer + " ";
    StripTrailingSpace(singer);
    GenericVideoShape(o, apiArtist, channel);
  }

  /** The slash form as a concrete title: 残酷な天使のテーゼ/高橋洋子 [カラオケ]
      as a video of a channel no special grammar claims. */
  lemma GenericVideoSlashExample(o: string, apiArtist: string, channel: string)
    requires o == "残酷な天使のテーゼ/高橋洋子 [カラオケ]"
    requires SelectBranch(o, apiArtist, channel, "video").GenericVideo?
    ensures ParseMetadata(o, apiArtist, channel, "video") == Parsed("残酷な天使のテーゼ", "高橋洋子", None)
  {
    var title, singer := "残酷な天使のテーゼ", "高橋洋子";
    assert o == title + "/" + singer + " [カラオケ]";
    SlashExampleChars(title, singer);
    SlashExampleClean(title, singer);
    GenericVideoSlashBadge(o, apiArtist, channel, title, singer);
  }

  /** The two parts of that title hold no tag character... */
  lemma SlashExampleChars(title: string, singer: string)
    requires title == "残酷な天使のテーゼ" && singer == "高橋洋子"
    ensures '/' !in title && NoBadgeChars(title) && NoBadgeChars(singer)
  {
  }

  /** ...and are already clean. */
  lemma SlashExampleClean(title: string, singer: string)
    requires title == "残酷な天使のテーゼ" && singer == "高橋洋子"
    ensures CleanText(title) == title && CleanText(Strip(singer)) == singer
  {
    assert IdeographicSpace !in title && IdeographicSpace !in singer;
    assert !IsSpace(title[0]) && !IsSpace(title[|title| - 1]);
    assert !IsSpace(singer[0]) && !IsSpace(singer[|singer| - 1]);
    StripStripped(singer);
    CleanTextOfClean(title);
    CleanTextOfClean(singer);
  }

  /** In the 歌っちゃ王 song grammar a prefix-form tag ("Key: N") decides the
      key even if a suffix-form tag ("N Key") comes earlier in the title. */
  lemma UtacchaouSongPrefixWins(o: string, apiArtist: string, channel: string, m: Match)
    requires SelectBranch(o, apiArtist, channel, "song").UtacchaouSong?
    requires Search(KeyPrefix, o) == Some(m)
    ensures ParseMetadata(o, apiArtist, channel, "song").key == Some(NormalizeKey(Group(o, m)) + "KEY")
  {
    assert ParseRaw(o, apiArtist, channel, "song") == ParseUtacchaouSong(o, apiArtist);
  }

  /** The same precedence in the 歌っちゃ王 video grammar, on its prepared title. */
  lemma UtacchaouVideoPrefixWins(o: string, apiArtist: string, channel: string, m: Match)
    requires SelectBranch(o, apiArtist, channel, "video").UtacchaouVideo?
    requires Search(KeyPrefix, UtacchaouVideoTitle(o)) == Some(m)
    ensures ParseMetadata(o, apiArtist, channel, "video").key
      == Some(NormalizeKey(Group(UtacchaouVideoTitle(o), m)) + "KEY")
  {
    assert ParseRaw(o, apiArtist, channel, "video") == ParseUtacchaouVideo(o);
  }

  /** The まねきねこ grammar takes its key verbatim from the first
      already-canonical tag. */
  lemma ManekinekoKeyVerbatim(o: string, apiArtist: string, channel: string, m: Match)
    requires SelectBranch(o, apiArtist, channel, "song").Manekineko?
    requires Search(CanonicalKey, o) == Some(m)
    ensures ParseMetadata(o, apiArtist, channel, "song").key == Some(Group(o, m))
  {
    assert ParseRaw(o, apiArtist, channel, "song") == ParseManekineko(o, apiArtist);
  }

  /** The sign glyphs the source accepts all normalise to ASCII. */
  lemma KeyGlyphExamples()
    ensures NormalizeKey("＋3") + "KEY" == "+3KEY"
    ensures NormalizeKey("ー3") + "KEY" == "-3KEY"
    ensures NormalizeKey("－2") + "KEY" == "-2KEY"
  {
  }

  /** A karaoke-label song title with a slash splits at the first one,
      dropping the audio marker from the artist; without a slash the
      provider's artist stands. */
  lemma KaraokeSongShape(o: string, apiArtist: string, channel: string)
    requires SelectBranch(o, apiArtist, channel, "song").KaraokeSong?
    ensures var r := ParseMetadata(o, apiArtist, channel, "song");
      match SplitFirst(o, "/")
      case Some((a, b)) => r == Parsed(CleanText(a), CleanText(Strip(Replace(b, "【カラオケ音源】", ""))), None)
      case None => r == Parsed(CleanText(o), CleanText(apiArtist), None)
  {
    assert ParseRaw(o, apiArtist, channel, "song") == ParseKaraokeSong(o, apiArtist);
  }

  /** The standard JOYSOUND grammar: without a slash the title is the
      badge-free title and there is no artist. */
  lemma JoyStandardWithoutSlash(o: string, apiArtist: string)
    requires SelectBranch(o, apiArtist, "JOYSOUND CHANNEL", "video").JoyStandard?
    requires !Contains(Strip(Replace(Replace(o, "【karaoke】", ""), "【JOYSOUND】", "")), "/")
    ensures ParseMetadata(o, apiArtist, "JOYSOUND CHANNEL", "video")
      == Parsed(CleanText(Strip(Replace(Replace(o, "【karaoke】", ""), "【JOYSOUND】", ""))), [], None)
  {
    assert ParseRaw(o, apiArtist, "JOYSOUND CHANNEL", "video") == ParseJoyStandard(o);
    assert CleanText([]) == [];
  }

  /** The まねきねこ grammar keeps the provider's artist when the title has
      neither a performed-by tag nor a final bracket. */
  lemma ManekinekoArtistFallback(o: string, apiArtist: string, channel: string)
    requires SelectBranch(o, apiArtist, channel, "song").Manekineko?
    requires Search(CanonicalKey, o).None?
    requires Search(PerformedByLong, o).None? && Search(TrailingBracket, o).None?
    ensures ParseMetadata(o, apiArtist, channel, "song").artist == CleanText(apiArtist)
    ensures ParseMetadata(o, apiArtist, channel, "song").key.None?
  {
    assert ParseRaw(o, apiArtist, channel, "song") == ParseManekineko(o, apiArtist);
  }

  /** The 歌っちゃ王 song grammar keeps the provider's artist when no
      original-singer tag remains after the key is taken out. */
  lemma UtacchaouSongArtistFallback(o: string, apiArtist: string, channel: string)
    requires SelectBranch(o, apiArtist, channel, "song").UtacchaouSong?
    requires Search(OriginalSinger, ExtractKey(o).0).None?
    ensures ParseMetadata(o, apiArtist, channel, "song").artist == CleanText(apiArtist)
  {
    assert ParseRaw(o, apiArtist, channel, "song") == ParseUtacchaouSong(o, apiArtist);
  }

  /** A 《…》 free of noise words gives the artist, the text in front the title. */
  lemma NicoKaraAngleShape(o: string, apiArtist: string, channel: string, resultType: string, m: AngleMatch)
    requires IsNico(o, channel)
    requires SearchAngle(o) == Some(m)
    requires !ContainsAny(Lower(o[m.innerStart..m.innerEnd]), AngleNoise)
    ensures ParseMetadata(o, apiArtist, channel, resultType)
      == Parsed(CleanText(NicoClean(o[m.outerStart..m.outerEnd])), CleanText(NicoClean(o[m.innerStart..m.innerEnd])), None)
  {
    assert ParseRaw(o, apiArtist, channel, resultType) == ParseNicoKara(o);
  }

  /** Without a noise-free 《…》 the first slash of either width splits title
      and artist; without one the whole title is the title and there is no
      artist. */
  lemma NicoKaraSlashShape(o: string, apiArtist: string, channel: string, resultType: string)
    requires IsNico(o, channel) && !CleanAngle(o)
    ensures var r := ParseMetadata(o, apiArtist, channel, resultType);
      match IndexOfAnyFrom(o, "/／", 0)
      case Some(i) => r == Parsed(CleanText(NicoClean(o[..i])), CleanText(NicoClean(o[i + 1..])), None)
      case None => r == Parsed(CleanText(NicoClean(o)), [], None)
  {
    assert ParseRaw(o, apiArtist, channel, resultType) == ParseNicoKara(o);
    NicoKaraSlashRaw(o);
  }

  lemma NicoKaraSlashRaw(o: string)
    requires !CleanAngle(o)
    ensures match IndexOfAnyFrom(o, "/／", 0)
      case Some(i) => ParseNicoKara(o) == Parsed(NicoClean(o[..i]), NicoClean(o[i + 1..]), None)
      case None => ParseNicoKara(o) == Parsed(NicoClean(o), [], None)
  {
  }

  /** The standard JOYSOUND grammar with a slash: each side, stripped, loses
      an outer text when it ends in a parenthesis (the reading in brackets is
      preferred). */
  lemma JoyStandardWithSlash(o: string, apiArtist: string, a: string, b: string)
    requires SelectBranch(o, apiArtist, "JOYSOUND CHANNEL", "video").JoyStandard?
    requires SplitFirst(Strip(Replace(Replace(o, "【karaoke】", ""), "【JOYSOUND】", "")), "/") == Some((a, b))
    ensures ParseMetadata(o, apiArtist, "JOYSOUND CHANNEL", "video")
      == Parsed(CleanText(ExtractJp(Strip(a))), CleanText(ExtractJp(Strip(b))), None)
  {
    assert ParseRaw(o, apiArtist, "JOYSOUND CHANNEL", "video") == ParseJoyStandard(o);
  }

  /** The 歌っちゃ王 video grammar on its prepared title, after the key is
      taken out: an original-singer tag gives the artist and is removed from
      the title. */
  lemma UtacchaouVideoSingerShape(o: string, apiArtist: string, channel: string, m: Match)
    requires SelectBranch(o, apiArtist, channel, "video").UtacchaouVideo?
    requires Search(OriginalSinger, ExtractKey(UtacchaouVideoTitle(o)).0) == Some(m)
    ensures var r := ParseMetadata(o, apiArtist, channel, "video");
      var (t1, key) := ExtractKey(UtacchaouVideoTitle(o));
      r == Parsed(CleanText(Strip(Sub(OriginalSinger, t1))), CleanText(Strip(Group(t1, m))), key)
  {
    var (t1, key) := ExtractKey(UtacchaouVideoTitle(o));
    UtacchaouVideoSingerRaw(o, m);
    SelectsUtacchaouVideo(o, apiArtist, channel);
    FromRaw(o, apiArtist, channel, "video", ParseUtacchaouVideo(o));
  }

  /** The dispatch step alone, kept apart so that the lemmas above reason
      about one grammar at a time. */
  lemma SelectsUtacchaouVideo(o: string, apiArtist: string, channel: string)
    requires SelectBranch(o, apiArtist, channel, "video").UtacchaouVideo?
    ensures ParseRaw(o, apiArtist, channel, "video") == ParseUtacchaouVideo(o)
  {
  }

  lemma UtacchaouVideoSingerRaw(o: string, m: Match)
    requires Search(OriginalSinger, ExtractKey(UtacchaouVideoTitle(o)).0) == Some(m)
    ensures var (t1, key) := ExtractKey(UtacchaouVideoTitle(o));
      ParseUtacchaouVideo(o) == Parsed(Strip(Sub(OriginalSinger, t1)), Strip(Group(t1, m)), key)
  {
  }

  /** Without an original-singer tag the first spaced slash, or else the
      first slash, splits title and artist, the artist losing its [カラオケ]
      badge. */
  lemma UtacchaouVideoSlashShape(o: string, apiArtist: string, channel: string, a: string, b: string)
    requires SelectBranch(o, apiArtist, channel, "video").UtacchaouVideo?
    requires var t1 := ExtractKey(UtacchaouVideoTitle(o)).0;
      && Search(OriginalSinger, t1).None?
      && (SplitFirst(t1, " / ") == Some((a, b)) || (SplitFirst(t1, " / ").None? && SplitFirst(t1, "/") == Some((a, b))))
    ensures ParseMetadata(o, apiArtist, channel, "video")
      == Parsed(CleanText(Strip(a)), CleanText(Strip(Replace(b, "[カラオケ]", ""))), ExtractKey(UtacchaouVideoTitle(o)).1)
  {
    assert ParseRaw(o, apiArtist, channel, "video") == ParseUtacchaouVideo(o);
  }

  /** A spaced slash holds a slash. */
  lemma SlashInSpacedSlash(t: string)
    ensures Contains(t, " / ") ==> Contains(t, "/")
  {
    if Contains(t, " / ") {
      var i := IndexOf(t, " / ").value;
      assert t[i + 1..i + 2] == t[i..i + 3][1..2];
      assert Occurs(t, "/", i + 1);
      ContainsIff(t, "/");
    }
  }

  /** Without an original-singer tag or a slash the title is all there is. */
  lemma UtacchaouVideoNoSlash(o: string, apiArtist: string, channel: string)
    requires SelectBranch(o, apiArtist, channel, "video").UtacchaouVideo?
    requires var t1 := ExtractKey(UtacchaouVideoTitle(o)).0;
      Search(OriginalSinger, t1).None? && !Contains(t1, "/")
    ensures var (t1, key) := ExtractKey(UtacchaouVideoTitle(o));
      ParseMetadata(o, apiArtist, channel, "video") == Parsed(CleanText(Strip(t1)), [], key)
  {
    var t1 := ExtractKey(UtacchaouVideoTitle(o)).0;
    SlashInSpacedSlash(t1);
    assert ParseRaw(o, apiArtist, channel, "video") == ParseUtacchaouVideo(o);
    assert CleanText([]) == [];
  }

  /** The EdKara grammar on the title without its karaoke lead: a
      performed-by tag gives the artist, the text before the tag without
      bracketed parts the title; otherwise a spaced hyphen splits, the artist
      cut at the first bracket or instrumental marker and freed of
      "Karaoke♪"; otherwise a slash splits; otherwise the title loses its
      【…】 tags and there is no artist. */
  lemma EdKaraShape(o: string, apiArtist: string, channel: string)
    requires SelectBranch(o, apiArtist, channel, "video").EdKara?
    ensures var r := ParseMetadata(o, apiArtist, channel, "video");
      var t := Strip(Sub(KaraokeLead, o));
      && r.key.None?
      && match Search(PerformedBy, t)
         case Some(m) =>
           r.title == CleanText(Strip(Sub(AnyBracket, SplitHead(t, Matched(t, m))))) && r.artist == CleanText(Strip(Group(t, m)))
         case None =>
           match SplitFirst(t, " - ")
           case Some((a, b)) =>
             r.title == CleanText(Strip(a)) && r.artist == CleanText(Strip(Sub(KaraokeWord, CutAtArtistCutoff(Strip(b)))))
           case None =>
             match SplitFirst(t, "/")
             case Some((a, b)) => r.title == CleanText(Strip(a)) && r.artist == CleanText(Strip(b))
             case None => r.title == CleanText(Strip(Sub(LenticularTag, t))) && r.artist == []
  {
    SelectsEdKara(o, apiArtist, channel);
    FromRaw(o, apiArtist, channel, "video", ParseEdKara(o));
    EdKaraRaw(o);
    assert CleanText([]) == [];
  }

  /** The dispatch step alone, as for 歌っちゃ王 videos. */
  lemma SelectsEdKara(o: string, apiArtist: string, channel: string)
    requires SelectBranch(o, apiArtist, channel, "video").EdKara?
    ensures ParseRaw(o, apiArtist, channel, "video") == ParseEdKara(o)
  {
  }

  lemma EdKaraRaw(o: string)
    ensures var r := ParseEdKara(o);
      var t := Strip(Sub(KaraokeLead, o));
      match Search(PerformedBy, t)
      case Some(m) => r.title == Strip(Sub(AnyBracket, SplitHead(t, Matched(t, m)))) && r.artist == Strip(Group(t, m))
      case None =>
        match SplitFirst(t, " - ")
        case Some((a, b)) => r.title == Strip(a) && r.artist == Strip(Sub(KaraokeWord, CutAtArtistCutoff(Strip(b))))
        case None =>
          match SplitFirst(t, "/")
          case Some((a, b)) => r.title == Strip(a) && r.artist == Strip(b)
          case None => r.title == Strip(Sub(LenticularTag, t)) && r.artist == []
  {
  }

  /** The まねきねこ grammar after its key is taken out: a long performed-by
      tag, or else a bracket that ends the title, gives the artist and is
      removed; otherwise the provider's artist stands; the title then loses
      its karaoke badges. */
  lemma ManekinekoShape(o: string, apiArtist: string, channel: string)
    requires SelectBranch(o, apiArtist, channel, "song").Manekineko?
    ensures var r := ParseMetadata(o, apiArtist, channel, "song");
      var t1 := if Search(CanonicalKey, o).Some? then Sub(CanonicalKey, o) else o;
      var t2 :=
        if Search(PerformedByLong, t1).Some? then Sub(PerformedByLong, t1)
        else if Search(TrailingBracket, t1).Some? then Sub(TrailingBracket, t1)
        else t1;
      && r.title == CleanText(Strip(Replace(Replace(t2, "（カラオケ）", ""), "(カラオケ)", "")))
      && match Search(PerformedByLong, t1)
         case Some(m) => r.artist == CleanText(Strip(Group(t1, m)))
         case None =>
           match Search(TrailingBracket, t1)
           case Some(m) => r.artist == CleanText(Strip(Group(t1, m)))
           case None => r.artist == CleanText(apiArtist)
  {
    assert ParseRaw(o, apiArtist, channel, "song") == ParseManekineko(o, apiArtist);
  }

  /** The 歌っちゃ王 song grammar after its key is taken out: an
      original-singer tag gives the artist and is removed; the title then
      loses its karaoke badges and guide tags, keeping whatever else remains
      (an emptied [] of a removed key tag included). */
  lemma UtacchaouSongShape(o: string, apiArtist: string, channel: string)
    requires SelectBranch(o, apiArtist, channel, "song").UtacchaouSong?
    ensures var r := ParseMetadata(o, apiArtist, channel, "song");
      var (t1, key) := ExtractKey(o);
      var t2 := if Search(OriginalSinger, t1).Some? then Sub(OriginalSinger, t1) else t1;
      && r.key == key
      && r.title == CleanText(Strip(Sub(GuideKaraokeTag, Replace(Replace(t2, "（カラオケ）", ""), "(カラオケ)", ""))))
      && match Search(OriginalSinger, t1)
         case Some(m) => r.artist == CleanText(Strip(Group(t1, m)))
         case None => r.artist == CleanText(apiArtist)
  {
    assert ParseRaw(o, apiArtist, channel, "song") == ParseUtacchaouSong(o, apiArtist);
  }

  /** A suffix-form pitch tag with a long-vowel dash as its sign:
      曲 ー3Key keeps 曲 and gives the key -3KEY. */
  lemma SuffixKeyExample(s: string)
    requires s == "曲 ー3Key"
    ensures ExtractKey(s) == ("曲 ", Some("-3KEY"))
  {
    SuffixExampleNoPrefix(s);
    SuffixExampleSearch(s);
    SuffixExampleSub(s);
    assert Group(s, Match(2, 7, 2, 4)) == "ー3";
    KeyGlyphExamples();
  }

  lemma SuffixExampleNoPrefix(s: string)
    requires s == "曲 ー3Key"
    ensures Search(KeyPrefix, s).None?
  {
    assert s[0..4] == "曲 ー3" && s[5..7] == "ey";
    KeyPrefixAbsent(s, 0, 4);
    KeyPrefixAbsent(s, 5, 7);
    SuffixExampleKeyWord(s);
  }

  /** The only Key in that title is followed by nothing that could be a number. */
  lemma SuffixExampleKeyWord(s: string)
    requires s == "曲 ー3Key"
    ensures MatchAt(KeyPrefix, s, 4).None?
  {
    assert SkipSpace(s, 7) == 7;
    assert SkipDigits(s, 7) == 7;
  }

  lemma SuffixExampleSearch(s: string)
    requires s == "曲 ー3Key"
    ensures Search(KeySuffix, s) == Some(Match(2, 7, 2, 4))
  {
    assert KeyWordAt(s, 4, 3);
    KeySuffixFound(s, 2, 3, 4, 4, 3);
    SuffixExampleNoEarlier(s);
    SearchFirst(KeySuffix, s, 2, Match(2, 7, 2, 4));
  }

  /** Neither 曲 nor the space after it starts a number. */
  lemma SuffixExampleNoEarlier(s: string)
    requires s == "曲 ー3Key"
    ensures forall j :: 0 <= j < 2 ==> MatchAt(KeySuffix, s, j).None?
  {
    assert MatchAt(KeySuffix, s, 0).None? by { assert SkipDigits(s, 0) == 0; }
    assert MatchAt(KeySuffix, s, 1).None? by { assert SkipDigits(s, 1) == 1; }
  }

  lemma SuffixExampleSub(s: string)
    requires s == "曲 ー3Key"
    ensures Sub(KeySuffix, s) == "曲 "
  {
    SuffixExampleNoEarlier(s);
    assert KeyWordAt(s, 4, 3);
    KeySuffixFound(s, 2, 3, 4, 4, 3);
    SubSkip(KeySuffix, s, 0, 2);
    assert SubFrom(KeySuffix, s, 2) == SubFrom(KeySuffix, s, 7) == [];
    assert s[0..2] == "曲 ";
  }

  /** A 歌っちゃ王 song listing with a prefix-form pitch tag and an
      original-singer tag: テスト（カラオケ）[Key:+2][原曲歌手:サンプル] gives
      the title テスト[] (the emptied brackets of the key tag remain), the
      artist サンプル and the key +2KEY. */
  lemma UtacchaouSongExample(o: string, apiArtist: string, channel: string)
    requires o == "テスト（カラオケ）[Key:+2][原曲歌手:サンプル]"
    requires apiArtist == "歌っちゃ王" && !Contains(channel, "ニコカラ")
    ensures ParseMetadata(o, apiArtist, channel, "song") == Parsed("テスト[]", "サンプル", Some("+2KEY"))
  {
    var x, k, y := "テスト（カラオケ）[", "Key:+2", "][原曲歌手:サンプル]";
    var head, q := "テスト（カラオケ）[]", "[原曲歌手:サンプル]";
    SongExamplePieces(o, x, k, y);
    SongExampleKey(o, x, k, y);
    assert x + y == head + q;
    SongExampleSinger(x + y, head, q);
    SongExampleTitle(head);
    SongExampleArtist(x + y, head, q);
    SongExampleBranch(o, apiArtist, channel);
    UtacchaouSongShape(o, apiArtist, channel);
  }

  lemma SongExamplePieces(o: string, x: string, k: string, y: string)
    requires o == "テスト（カラオケ）[Key:+2][原曲歌手:サンプル]"
    requires x == "テスト（カラオケ）[" && k == "Key:+2" && y == "][原曲歌手:サンプル]"
    ensures o == x + k + y
  {
  }

  lemma SongExampleBranch(o: string, apiArtist: string, channel: string)
    requires o == "テスト（カラオケ）[Key:+2][原曲歌手:サンプル]"
    requires apiArtist == "歌っちゃ王" && !Contains(channel, "ニコカラ")
    ensures SelectBranch(o, apiArtist, channel, "song").UtacchaouSong?
  {
    ContainsHead(o, "ニコカラ");
    ContainsHead(apiArtist, "まねきねこ");
    ContainsHead(apiArtist, "Manekineko");
    assert Occurs(apiArtist, "歌っちゃ王", 0);
    ContainsIff(apiArtist, "歌っちゃ王");
  }

  /** The key tag Key:+2 is the first prefix-form tag; deleting it leaves
      its brackets behind. */
  lemma SongExampleKey(o: string, x: string, k: string, y: string)
    requires x == "テスト（カラオケ）[" && k == "Key:+2" && y == "][原曲歌手:サンプル]"
    requires o == x + k + y
    ensures ExtractKey(o) == (x + y, Some("+2KEY"))
  {
    var m := Match(10, 16, 14, 16);
    SongExampleKeyAt(o, x, k, y);
    SongExampleKeyBefore(o, x, k, y);
    SearchFirst(KeyPrefix, o, 10, m);
    SongExampleKeySub(o, x, k, y);
    assert Group(o, m) == k[4..];
    assert NormalizeKey("+2") + "KEY" == "+2KEY";
  }

  lemma SongExampleKeyAt(o: string, x: string, k: string, y: string)
    requires x == "テスト（カラオケ）[" && k == "Key:+2" && y == "][原曲歌手:サンプル]"
    requires o == x + k + y
    ensures MatchAt(KeyPrefix, o, 10) == Some(Match(10, 16, 14, 16))
  {
    assert forall i :: 0 <= i < 6 ==> o[10 + i] == k[i];
    assert o[16] == y[0];
    assert KeyWordAt(o, 10, 3);
    KeyPrefixFound(o, 10, 3, 13, 14, 14, 15, 16);
  }

  lemma SongExampleKeyBefore(o: string, x: string, k: string, y: string)
    requires x == "テスト（カラオケ）[" && k == "Key:+2" && y == "][原曲歌手:サンプル]"
    requires o == x + k + y
    ensures forall j :: 0 <= j < 10 ==> MatchAt(KeyPrefix, o, j).None?
  {
    assert o[0..10] == x;
    KeyPrefixAbsent(o, 0, 10);
  }

  lemma SongExampleKeySub(o: string, x: string, k: string, y: string)
    requires x == "テスト（カラオケ）[" && k == "Key:+2" && y == "][原曲歌手:サンプル]"
    requires o == x + k + y
    requires MatchAt(KeyPrefix, o, 10) == Some(Match(10, 16, 14, 16))
    ensures Sub(KeyPrefix, o) == x + y
  {
    SongExampleKeyBefore(o, x, k, y);
    SongExampleKeyAfter(o, x, k, y);
    SubSkip(KeyPrefix, o, 0, 10);
    SubNoMatch(KeyPrefix, o, 16);
    assert SubFrom(KeyPrefix, o, 10) == SubFrom(KeyPrefix, o, 16);
    assert o[0..10] == x && o[16..] == y;
  }

  lemma SongExampleKeyAfter(o: string, x: string, k: string, y: string)
    requires x == "テスト（カラオケ）[" && k == "Key:+2" && y == "][原曲歌手:サンプル]"
    requires o == x + k + y
    ensures forall j :: 16 <= j ==> MatchAt(KeyPrefix, o, j).None?
  {
    assert o[16..|o|] == y;
    KeyPrefixAbsent(o, 16, |o|);
  }

  /** The first original-singer tag is [原曲歌手:サンプル]: the full-width
      parenthesis before it opens no such tag. */
  lemma SongExampleSinger(t1: string, head: string, q: string)
    requires head == "テスト（カラオケ）[]" && q == "[原曲歌手:サンプル]"
    requires t1 == head + q
    ensures Search(OriginalSinger, t1) == Some(Match(11, 22, 17, 21))
    ensures Sub(OriginalSinger, t1) == head
  {
    var m := Match(11, 22, 17, 21);
    SongExampleSingerAt(t1, head, q);
    SongExampleNoSingerBefore(t1, head, q);
    SearchFirst(OriginalSinger, t1, 11, m);
    SubSkip(OriginalSinger, t1, 0, 11);
    assert SubFrom(OriginalSinger, t1, 11) == SubFrom(OriginalSinger, t1, 22) == [];
    assert t1[0..11] == head;
  }

  lemma SongExampleSingerAt(t1: string, head: string, q: string)
    requires head == "テスト（カラオケ）[]" && q == "[原曲歌手:サンプル]"
    requires t1 == head + q
    ensures MatchAt(OriginalSinger, t1, 11) == Some(Match(11, 22, 17, 21))
  {
    var alts := ["原曲歌手", "オリジナルアーティスト", "オリジナル歌手"];
    assert t1[11] == '[' && t1[16] == ':';
    assert t1[12..16] == q[1..5] == alts[0];
    assert FirstLiteral(t1, 12, alts, false) == Some(16);
    SongExampleSingerClose(t1, head, q);
  }

  lemma SongExampleSingerClose(t1: string, head: string, q: string)
    requires head == "テスト（カラオケ）[]" && q == "[原曲歌手:サンプル]"
    requires t1 == head + q
    ensures LazyToChar(t1, 17, "])】］）") == Some(21)
  {
    var closers := "])】］）";
    assert forall i :: 17 <= i < 22 ==> t1[i] == q[i - 11];
    assert LazyToChar(t1, 21, closers) == Some(21);
    assert LazyToChar(t1, 20, closers) == Some(21);
    assert LazyToChar(t1, 19, closers) == Some(21);
    assert LazyToChar(t1, 18, closers) == Some(21);
  }

  lemma SongExampleNoSingerBefore(t1: string, head: string, q: string)
    requires head == "テスト（カラオケ）[]" && q == "[原曲歌手:サンプル]"
    requires t1 == head + q
    ensures forall j :: 0 <= j < 11 ==> MatchAt(OriginalSinger, t1, j).None?
  {
    forall j | 0 <= j < 11 ensures MatchAt(OriginalSinger, t1, j).None? {
      OriginalSingerStart(t1, j);
      assert t1[j] == head[j] && t1[j + 1] == (head + q)[j + 1];
      assert head[j] in "[(【［（" ==> j == 3 || j == 9;
    }
  }

  /** What remains of the title after the tags: テスト[]. */
  lemma SongExampleTitle(t2: string)
    requires t2 == "テスト（カラオケ）[]"
    ensures CleanText(Strip(Sub(GuideKaraokeTag, Replace(Replace(t2, "（カラオケ）", ""), "(カラオケ)", "")))) == "テスト[]"
  {
    var x, y := "テスト", "（カラオケ）[]";
    assert t2 == x + y;
    ReplaceKeepsPrefix(x, y, "（カラオケ）", "");
    assert y[..6] == "（カラオケ）" && y[6..] == "[]";
    assert Replace("[]", "（カラオケ）", "") == "[]";
    var t3 := x + "[]";
    assert Replace(t2, "（カラオケ）", "") == t3;
    ReplaceKeepsPrefix(t3, [], "(カラオケ)", "");
    assert t3 + [] == t3;
    SongExampleTitleClean(t3);
  }

  lemma SongExampleTitleClean(t3: string)
    requires t3 == "テスト[]"
    ensures CleanText(Strip(Sub(GuideKaraokeTag, t3))) == t3
  {
    GuideTagAbsent(t3);
    assert !IsSpace(t3[0]) && !IsSpace(t3[|t3| - 1]);
    assert IdeographicSpace !in t3;
    StripStripped(t3);
    CleanTextOfClean(t3);
  }

  /** The singer tag's group is サンプル, already clean. */
  lemma SongExampleArtist(t1: string, head: string, q: string)
    requires head == "テスト（カラオケ）[]" && q == "[原曲歌手:サンプル]"
    requires t1 == head + q
    ensures CleanText(Strip(Group(t1, Match(11, 22, 17, 21)))) == "サンプル"
  {
    assert Group(t1, Match(11, 22, 17, 21)) == q[6..10];
    SongExampleArtistClean(q[6..10]);
  }

  lemma SongExampleArtistClean(a: string)
    requires a == "サンプル"
    ensures CleanText(Strip(a)) == a
  {
    assert !IsSpace(a[0]) && !IsSpace(a[|a| - 1]);
    assert IdeographicSpace !in a;
    StripStripped(a);
    CleanTextOfClean(a);
  }
}

# Karaoke search engine — a verified model

The backend answers one question: given a query `q`, which karaoke tracks on
YouTube Music match it, and how should they be listed? `backend/main.py` asks
the music provider for songs and videos matching `q + " カラオケ"`. From each
noisy upload title it recovers a clean title, an artist and a pitch key, and
it judges whether the track lacks a guide melody and whether it has a vocal
track. It drops repeated and unwanted uploads, scores every survivor by how
many query words it matches (with bonuses for vocal-free, trusted-channel and
song results), and returns them sorted by descending score.

The model is written in Dafny. The modules follow the program's structure:

- `Text`: the parts of Python's `str` that the engine uses (`in`, `find`,
  `rfind`, `replace`, `strip`, `split()`, `lower()`).
- `Patterns`: the regular expressions that `main.py` applies to titles, as
  explicit matchers. Each one has Python's backtracking semantics, worked out
  by hand per pattern. `Search` is `re.search` and `Sub` is `re.sub` with an
  empty replacement. Two expressions are modelled elsewhere. The character
  class of main.py:81 is the predicate `Normalize.Ignorable`, applied by
  `Normalize.DropIgnorable`. The `[/／]` search and split of main.py:124-125
  is `Text.IndexOfAnyFrom` on the characters `/` and `／`.
- `Normalize`: `clean_text` and `normalize_for_comparison`.
- `Attributes`: the configuration tables and `determine_attributes`.
- `Parser` and `ParserProps`: `parse_metadata`. A `Branch` datatype names the
  source-specific grammars in the order the source tries them. `SelectBranch`
  is the dispatch, and each grammar is one function. The source reassigns
  locals along a straight-line chain with no loop, so the model uses let
  bindings.
- `Scoring`: `calculate_relevance_score`. A method with the source's loop is
  proved against a specification function.
- `Items`: the records of the endpoint (`SongItem` and the scored entry) and
  the per-hit classification.
- `Ranking`: the stable sort by descending score.
- `SearchEndpoint` and `SearchProps`: the `/api/search` body. The main pass is
  the method `ScoreAll`, whose loop invariant ties `seen_ids` and `temp_results` to a fold
  over the hits seen so far. `SearchProps` proves the fold equal to a
  characterisation that has no state: a hit is kept exactly when it has an
  id, passes the negative filter, and no earlier hit with the same id passed
  the filter.

The music provider is a function parameter `(query, filter, limit) -> Fetch`.
Either call failing yields the empty envelope, as the source's exception
handler does.

Three behaviours of the code are easy to misread, and the model follows the
code in each:

- In both 歌っちゃ王 grammars, the video one and the song one, a pitch tag in
  square brackets (such as `[Key:+2]`) leaves `[]` behind in the title. Only
  the tag's text is deleted and the brackets stay
  (`re.sub` at main.py:168-170 and main.py:238-240). So
  `テスト（カラオケ）[Key:+2][原曲歌手:サンプル]` as a song gives the title
  `テスト[]`, not `テスト`.
- Full-width digits in a pitch tag are kept as they are. Only the sign glyphs
  are normalised, so `３Key` gives `３KEY`.
- `normalize_for_comparison` does not delete every dash. `-` and `−` are
  deleted, and so is the full-width `－`, which NFKC turns into `-`. `–`, `—`
  and `ー` are kept.

## Model

| member | source | states |
|---|---|---|
| Normalize.CleanText | backend/main.py:74-76 | empty input gives empty output; no full-width space remains, neither end is whitespace, and each character is from the input or is a space (its value: CleanTextIsCleanOf) |
| Normalize.CleanTextIdempotent | backend/main.py:74-76 | cleaning a cleaned text changes nothing |
| Normalize.CleanTextIsCleanOf | backend/main.py:74-76 | the cleaned text is a slice of the input with every full-width space made a plain space, and only whitespace of the input lies outside that slice |
| Normalize.CleanTextOfClean | backend/main.py:74-76 | a text with no full-width space and no whitespace at either end is its own clean form |
| Normalize.NormalizeForComparison | backend/main.py:78-82 | empty input gives an empty key; no key character is in the deleted class or is an upper-case ASCII letter (its value: NormalizeChar with NormalizeConcat) |
| Normalize.NormalizeIdempotent | backend/main.py:78-82 | normalising a key again changes nothing |
| Normalize.NormalizeConcat | backend/main.py:78-82 | the key of a concatenation is the concatenation of the keys |
| Normalize.NormalizeIgnoresCase | backend/main.py:80 | lower-casing the text first gives the same key |
| Normalize.NormalizeChar | backend/main.py:80-81 | the key of one character is its NFKC and lower-case fold, or nothing when the fold is in the deleted class; with NormalizeConcat this fixes the key of every text |
| Normalize.NormalizeNormal | backend/main.py:78-82 | a text made only of characters that no step changes or deletes is its own key |
| Normalize.Nfkc | backend/main.py:80 | the NFKC form has the input's length, and each character is the NFKC form of the input character at its index: a full-width ASCII character becomes its ASCII twin and the ideographic space a plain space |
| Normalize.DropIgnorable | backend/main.py:81 | `re.sub` of the character class: every character kept is from the input and outside the class (its value: DropIgnorableConcat and DropIgnorableNormal) |
| Normalize.DropIgnorableConcat | backend/main.py:81 | the deletion distributes over concatenation |
| Normalize.DropIgnorableNormal | backend/main.py:81 | a text with no character of the class is left unchanged |
| Normalize.DashKeys | backend/main.py:80-81 | `-`, `−` and `－` (the last through NFKC) have the empty key; `–`, `—` and `ー` are each their own key |
| Attributes.ContainsAny | backend/main.py:86-91 | `any(k in s for k in ks)` holds exactly when some table entry occurs in `s` |
| Attributes.DetermineAttributes | backend/main.py:84-94 | `is_no_guide` holds exactly when the lower-cased title contains a no-guide marker; `has_vocal` is false exactly when the channel contains a trusted channel or the lower-cased title contains an off-vocal keyword |
| Attributes.TrustedChannelIsOffVocal | backend/main.py:89-90 | a trusted channel never has a vocal track |
| Attributes.IsTrustedChannel | backend/main.py:89 | definition only; its value is stated by TrustedChannelIsOffVocal (no vocal track) and by Items.TrustedChannelBonus (the 3000 bonus of main.py:326) |
| Attributes.JapaneseNoGuideIsOffVocal | backend/main.py:86-92 | a title holding any Japanese no-guide marker, whatever else it holds, has no vocal track, because each such marker contains the keyword ガイド |
| Attributes.NoGuideKanaIsOffVocal | backend/main.py:86-92 | in particular a title containing ガイドなし has no vocal track |
| Text.IndexOfFrom | backend/main.py:148-149 | `str.find`: the first occurrence at or after the start, and no occurrence when it gives none |
| Text.IndexOfAnyFrom | backend/main.py:124-125 | the `[/／]` search and split: the first index at or after `from` holding a character of `cs`, with none before it; none when no such character occurs there |
| Text.LastIndexOf | backend/main.py:149 | `str.rfind` of one character: the last index below `upto` holding `c`, with no `c` between it and `upto`; none when `c` does not occur below `upto` |
| Text.ContainsIff | backend/main.py:105 | `t in s` holds exactly when `t` occurs at some index of `s` |
| Text.ContainsAppend | backend/main.py:266 | an occurrence in a text is still one after more text is appended |
| Text.Strip | backend/main.py:76 | `str.strip` gives a result that has whitespace at neither end and whose characters come from the input (its value: StripIsStripOf and StripUnique) |
| Text.StripIsStripOf | backend/main.py:76 | the result of `strip` is a slice `s[lo..hi]` with only whitespace before `lo` and after `hi` |
| Text.StripUnique | backend/main.py:76 | any such slice with whitespace at neither end is the result of `strip`, so these two facts determine it |
| Text.StripTrailingSpace | backend/main.py:207 | one more trailing space does not change the result of `strip` |
| Text.SplitHead | backend/main.py:193 | `s.split(sep)[0]`: a prefix of `s` that ends at the first occurrence of `sep`, with none before it, or all of `s` when `sep` is absent |
| Text.Words | backend/main.py:260 | `str.split()` gives only non-empty words with no whitespace in them (its value: WordsKeepsChars and WordsOfJoined) |
| Text.WordsKeepsChars | backend/main.py:260 | the words, joined, are exactly the non-whitespace characters of the input, in order |
| Text.WordsOfJoined | backend/main.py:260 | splitting non-empty words without whitespace, joined by single spaces, gives those words back: no run is split or merged |
| Text.ReplaceCharMap | backend/main.py:76 | replacing one character by another maps the text position by position and keeps its length |
| Text.ReplaceKeepsPrefix | backend/main.py:101 | `replace` leaves a prefix without the pattern's first character unchanged |
| Text.Replace | backend/main.py:101 | definition only; its value is stated by ReplaceCharMap, ReplaceKeepsPrefix, ReplaceWhole and the lemmas beside them (ReplaceCharRemoves, ReplaceAbsent, ReplaceChars) |
| Text.Lower | backend/main.py:85 | `str.lower()`: the result has the input's length, and each character is the lower-case form of the input character at its index (ASCII and full-width Latin capitals folded) |
| Patterns.MatchAt | backend/main.py:162-163 | a match starts where it was tried and lies inside the subject; the captured group of the two pitch-tag patterns is an optional sign glyph followed by digits; the group of the canonical-key pattern is canonical |
| Patterns.SearchFrom | backend/main.py:164-165 | `re.search`: the match returned starts leftmost, and there is none at any earlier position |
| Patterns.SubNoMatch | backend/main.py:168 | `re.sub` leaves a text in which the pattern matches nowhere unchanged |
| Patterns.SearchFirst | backend/main.py:164-165 | a match at `i` with none earlier is the one `re.search` returns |
| Patterns.SubSkip | backend/main.py:168 | `re.sub` copies through every position where the pattern does not match |
| Patterns.Search | backend/main.py:164-165 | definition only: `re.search` is SearchFrom at index 0; its value is stated by SearchFrom (the match is leftmost) and SearchFirst |
| Patterns.Sub | backend/main.py:168 | definition only: `re.sub` with an empty replacement is SubFrom at index 0, whose contract keeps only characters of the input; SubNoMatch and SubSkip state its value |
| Patterns.SearchAngle | backend/main.py:113 | a match found has its two groups in order inside the title: the text before `《`, then the contents up to `》` |
| Patterns.KeyPrefixFound | backend/main.py:162 | wherever the text has Key or キー (any case), spaces, an optional colon of either width, spaces, an optional sign glyph and digits not followed by another digit, the prefix pattern matches there with the sign and digits as its group, and `re.search` finds a match no later |
| Patterns.KeySuffixFound | backend/main.py:163 | wherever the text has an optional sign glyph, digits, spaces and Key or キー, the suffix pattern matches there with the sign and digits as its group, and `re.search` finds a match no later |
| Patterns.CanonicalKeyFound | backend/main.py:218 | wherever the text has an optional `+` or `-`, digits and KEY, the canonical-key pattern matches there, and `re.search` finds a match no later |
| Patterns.OriginalSingerFound | backend/main.py:175 | wherever the text has an opening bracket, one of the three original-singer words, a colon of either width, and then text with no closer or newline up to a closer, the original-singer pattern matches there with that text as its group, and `re.search` finds a match no later |
| Patterns.KeyPrefixAbsent | backend/main.py:162 | a stretch with no k, K or キ holds no start of a prefix-form tag |
| Patterns.OriginalSingerStart | backend/main.py:175 | an original-singer tag starts with an opening bracket followed by 原 or オ |
| Patterns.GuideTagAbsent | backend/main.py:102 | a text without ガ has no guide tag, so its removal changes nothing |
| Parser.SelectBranch | backend/main.py:105-251 | ニコカラ in the title or the channel selects the NicoKara grammar whatever the result type; otherwise video grammars are chosen exactly for result type video, song grammars only for song; the chorus grammar is chosen exactly for the JOYSOUND channel with the chorus marker; any other result type selects none |
| Parser.IsNico | backend/main.py:105 | definition only; its value is stated by SelectBranch: the NicoKara grammar is chosen exactly when it holds |
| Parser.StripKaraokeTags | backend/main.py:101-102 | definition only; its value is stated by ParserProps.StripKaraokeTagsPlain, and GenericVideoShape states the generic grammar on its result |
| Parser.SplitFirst | backend/main.py:146 | `s.split(sep, 1)`: none exactly when `sep` is absent; otherwise `s` is head + sep + tail and the head holds no `sep` |
| Parser.SplitFirstChar | backend/main.py:146 | splitting at a one-character separator that the head does not contain gives that head and the rest |
| Parser.NormalizeKey | backend/main.py:172 | length and digits are kept; ＋ and + become `+`, each of the five dash glyphs and - becomes `-`; a signed number stays one |
| Parser.CanonicalKeyOf | backend/main.py:171-173 | the key is the normalised capture followed by `KEY`, and is canonical |
| Parser.ExtractKey | backend/main.py:162-173 | a prefix-form tag anywhere wins over a suffix-form one, and every match of the chosen form is deleted; no key exactly when neither form occurs, and then the title is unchanged; a key is canonical |
| Parser.ParseNicoKara | backend/main.py:105-133 | the NicoKara grammar gives no key |
| Parser.NicoClean | backend/main.py:106-111 | definition only; NicoKaraAngleShape and NicoKaraSlashShape state the title and artist it gives on each NicoKara path |
| Parser.CleanAngle | backend/main.py:113-120 | definition only; when it holds NicoKaraAngleShape gives the title and artist, and when it fails NicoKaraSlashShape does |
| Parser.ParseJoyChorus | backend/main.py:139-142 | the chorus grammar gives no key |
| Parser.ExtractJp | backend/main.py:147-151 | for a text that ends with `)` and contains `(`, the result is what lies between the last `(` and the final `)`, and holds no `(`; any other text is returned as it is |
| Parser.ParseJoyStandard | backend/main.py:143-155 | the standard JOYSOUND grammar gives no key |
| Parser.ParseUtacchaouVideo | backend/main.py:157-186 | a key from the 歌っちゃ王 video grammar is canonical |
| Parser.UtacchaouVideoTitle | backend/main.py:158-160 | definition only; UtacchaouVideoSingerShape, UtacchaouVideoSlashShape and UtacchaouVideoNoSlash state the grammar on its result |
| Parser.SplitSlashArtist | backend/main.py:180-186 | definition only; UtacchaouVideoSlashShape states its two slash cases and UtacchaouVideoNoSlash its case without a slash |
| Parser.CutAtArtistCutoff | backend/main.py:197-199 | the artist candidate is cut at the start of the first cutoff match, and kept whole when there is none |
| Parser.ParseEdKara | backend/main.py:188-204 | the EdKara grammar gives no key |
| Parser.ParseGenericVideo | backend/main.py:205-212 | the generic video grammar gives no key |
| Parser.ParseManekineko | backend/main.py:216-229 | a key from the まねきねこ grammar is canonical |
| Parser.ParseUtacchaouSong | backend/main.py:231-249 | a key from the 歌っちゃ王 song grammar is canonical |
| Parser.ParseKaraokeSong | backend/main.py:251-253 | the karaoke-label grammar gives no key |
| Parser.ParseRaw | backend/main.py:96-253 | a key is canonical and comes only from the two 歌っちゃ王 grammars or the まねきねこ grammar |
| Parser.ParseMetadata | backend/main.py:96-255 | the same two facts hold for the cleaned result of `parse_metadata` |
| ParserProps.NicoKaraIgnoresResultType | backend/main.py:105 | under the NicoKara marker the result type makes no difference, and there is no key |
| ParserProps.OtherResultTypePassesThrough | backend/main.py:97-99 | a result type other than video or song returns the cleaned title, the cleaned provider artist and no key |
| ParserProps.FromRaw | backend/main.py:255 | `parse_metadata` returns the cleaned title and artist of the chosen grammar, with its key |
| ParserProps.NicoKaraSlashShape | backend/main.py:124-133 | without a noise-free 《…》, the first slash of either width splits the title: the text before it is the title and the text after it the artist, both nico-cleaned; without a slash the whole title is the title and there is no artist |
| ParserProps.JoyChorusShape | backend/main.py:138-142 | for the JOYSOUND channel with the chorus marker, the artist is 合唱練習用, there is no key, and the title is the first 「…」 contents or else the title without the marker, stripped |
| ParserProps.ChorusLabelClean | backend/main.py:142 | the fixed chorus label survives cleaning unchanged |
| ParserProps.AbsentChar | backend/main.py:206 | a character that `in` does not find occurs nowhere in the text |
| ParserProps.GenericVideoTitleHasNoSlash | backend/main.py:206-207 | when the tag-stripped title of a generic video has a slash, the parsed title holds no slash |
| ParserProps.GenericVideoShape | backend/main.py:205-212 | on the tag-stripped title: the first slash splits title and artist, the artist losing its [カラオケ] badge; else the first " - " splits them; else the whole is the title and the channel is the artist exactly when it names Official, Music or Records; never a key |
| ParserProps.GenericVideoSlashBadge | backend/main.py:205-207 | a generic video titled `<title>/<singer> [カラオケ]` gives that title and that singer, cleaned |
| ParserProps.StripKaraokeTagsPlain | backend/main.py:101-102 | a title with no opening parenthesis of either width and no ガ is left unchanged by the tag removal |
| ParserProps.GenericVideoSlashExample | backend/main.py:205-207 | 残酷な天使のテーゼ/高橋洋子 [カラオケ] gives the title 残酷な天使のテーゼ, the artist 高橋洋子 and no key |
| ParserProps.UtacchaouSongPrefixWins | backend/main.py:233-243 | in the 歌っちゃ王 song grammar the key comes from the first prefix-form tag whenever one exists |
| ParserProps.UtacchaouVideoPrefixWins | backend/main.py:162-173 | the same precedence in the 歌っちゃ王 video grammar |
| ParserProps.ManekinekoKeyVerbatim | backend/main.py:218-220 | the まねきねこ key is the first canonical tag, taken as it is |
| ParserProps.KeyGlyphExamples | backend/main.py:172-173 | ＋3 gives +3KEY, ー3 gives -3KEY, －2 gives -2KEY |
| ParserProps.KaraokeSongShape | backend/main.py:251-253 | a karaoke-label song splits at the first slash and removes the audio marker from the artist; without a slash the provider artist stands |
| ParserProps.JoyStandardWithoutSlash | backend/main.py:144-155 | without a slash the standard JOYSOUND title is the badge-free title and there is no artist |
| ParserProps.ManekinekoArtistFallback | backend/main.py:216-229 | with no canonical key, no performed-by tag and no final bracket, the まねきねこ artist is the provider artist and there is no key |
| ParserProps.UtacchaouSongArtistFallback | backend/main.py:244-247 | without an original-singer tag the 歌っちゃ王 song artist is the provider artist |
| ParserProps.NicoKaraAngleShape | backend/main.py:113-123 | a 《…》 free of noise words makes its contents the artist and the text before it the title, both nico-cleaned |
| ParserProps.JoyStandardWithSlash | backend/main.py:145-153 | with a slash, the standard JOYSOUND title and artist are the two sides, each stripped and reduced by `extract_jp` to the text in its final parentheses |
| ParserProps.UtacchaouVideoSingerShape | backend/main.py:157-179 | in the 歌っちゃ王 video grammar, after the key is taken out, an original-singer tag gives the artist and is removed from the title |
| ParserProps.UtacchaouVideoSlashShape | backend/main.py:180-184 | without an original-singer tag, the first " / ", or else the first slash, splits title and artist, the artist losing its [カラオケ] badge; the key is that of ExtractKey |
| ParserProps.UtacchaouVideoNoSlash | backend/main.py:185-186 | without an original-singer tag or a slash, the prepared title without its key is the title and there is no artist |
| ParserProps.EdKaraShape | backend/main.py:188-204 | after the karaoke lead is removed: a performed-by tag gives the artist and the bracket-free text before it the title; else " - " splits, the artist cut at the first bracket or instrumental marker and freed of Karaoke♪; else a slash splits; else the title loses its 【…】 tags and there is no artist; never a key |
| ParserProps.ManekinekoShape | backend/main.py:216-229 | after the key is taken out, a long performed-by tag, or else a bracket that ends the title, gives the artist and is removed, otherwise the provider artist stands; the title then loses its karaoke badges |
| ParserProps.UtacchaouSongShape | backend/main.py:231-249 | the key is that of ExtractKey; an original-singer tag in the rest gives the artist and is removed, otherwise the provider artist stands; the title then loses its karaoke badges and guide tags, keeping any emptied [] of a key tag |
| ParserProps.SuffixKeyExample | backend/main.py:163-172 | 曲 ー3Key keeps 曲 and gives the key -3KEY |
| ParserProps.UtacchaouSongExample | backend/main.py:231-249 | the song テスト（カラオケ）[Key:+2][原曲歌手:サンプル] of 歌っちゃ王 gives the title テスト[], the artist サンプル and the key +2KEY |
| Scoring.MatchCount | backend/main.py:263-266 | at most one count per query part |
| Scoring.MatchCountAppend | backend/main.py:263-266 | one more query part adds one to the count exactly when it matches |
| Scoring.MatchCountIsMatchingParts | backend/main.py:263-266 | the count equals the number of query positions whose part matches, so a repeated part counts twice |
| Scoring.MatchCountAll | backend/main.py:263-266 | when every part matches, all of them count |
| Scoring.CalculateRelevanceScore | backend/main.py:257-267 | the loop returns the specified score: 0 for an empty query, else 20000 times the number of query parts whose non-empty key occurs in the key of "title artist original_title" |
| Scoring.RelevanceScoreCounts | backend/main.py:257-267 | the score is 20000 times the number of matching positions, a multiple of 20000, and at most 20000 per query part |
| Scoring.RelevanceScore | backend/main.py:257-267 | definition only; its value is stated by RelevanceScoreCounts (20000 per matching query part) and MatchCountIsMatchingParts, and CalculateRelevanceScore computes it |
| Scoring.CountTrueIsCard | backend/main.py:266 | counting the hits one by one gives the size of the set of hit positions |
| Scoring.MatchCountIsCountTrue | backend/main.py:263-266 | the running count equals the count over the hit flags |
| Scoring.TitleMatchCounts | backend/main.py:261-266 | a part whose key occurs in the parsed title's key matches the whole target |
| Scoring.FullMatchFullScore | backend/main.py:257-267 | a title containing every query word earns 20000 per word |
| Scoring.PartMatchIgnoresCase | backend/main.py:264-266 | the case of a query part never changes whether it matches |
| Items.ChannelName | backend/main.py:302 | the provider artist when there is one, otherwise YouTube Music; never empty |
| Items.DurationOf | backend/main.py:313 | a present non-empty duration is kept; a missing or empty one gives 00:00; never empty |
| Items.VideoId | backend/main.py:293 | definition only; its value is stated by MakeSong (the record's id) and by the SearchProps lemmas on the kept ids |
| Items.Excluded | backend/main.py:297-298 | definition only; its value is stated by SearchProps.RunStep (a matching hit is skipped) and AdmitSound (no kept hit matches) |
| Items.ApiArtist | backend/main.py:300-301 | definition only; MakeSong states the channel and the parsed fields it gives |
| Items.Bonus | backend/main.py:325-327 | the bonuses total at most 8100, less than one matching query part |
| Items.MakeSong | backend/main.py:300-320 | title, artist and key are those of `parse_metadata` on the hit with its channel; the two flags are those of `determine_attributes` on the title and channel; the channel and duration are ChannelName and DurationOf; id, original title and result type are the hit's own; a key is canonical |
| Items.Classify | backend/main.py:322-329 | the score is the relevance plus 5000 for no vocal, 3000 for a trusted channel and 100 for a song |
| Items.WeightGap | backend/main.py:266 | one more matching part means at least 20000 more |
| Items.RelevanceDominates | backend/main.py:323-327 | more relevance always means a higher score; a score at least as high never has lower relevance; at equal relevance the bonuses alone decide |
| Items.TrustedChannelBonus | backend/main.py:325-326 | a trusted channel earns both the vocal-free and the trusted bonus |
| Ranking.InsertPermutes | backend/main.py:336 | insertion adds exactly the one entry |
| Ranking.Insert | backend/main.py:336 | definition only; its value is stated by InsertPermutes, InsertSorted, InsertStable and InsertMembers |
| Ranking.SortByScore | backend/main.py:336 | definition only; its value is stated by SortByScoreProps: sorted, a permutation and stable |
| Ranking.InsertSorted | backend/main.py:336 | insertion keeps the descending order |
| Ranking.InsertStable | backend/main.py:336 | the inserted entry goes after every entry with the same score |
| Ranking.WithScoreConcat | backend/main.py:336 | selecting one score distributes over concatenation |
| Ranking.WithScoreNone | backend/main.py:336 | no entry is selected at a score above them all |
| Ranking.InsertMembers | backend/main.py:336 | an entry is in the result of an insertion exactly when it is the new entry or was there before |
| Ranking.SortSorted | backend/main.py:336 | the sort yields non-increasing scores |
| Ranking.SortPermutes | backend/main.py:336 | the sort is a permutation of its input |
| Ranking.SortStable | backend/main.py:336 | for any score the sort keeps the entries with that score in input order |
| Ranking.SortByScoreProps | backend/main.py:336 | the sort is in non-increasing score order, is a permutation, and is stable: for every score the entries with it keep their order |
| Ranking.SortKeepsEntries | backend/main.py:336 | an entry is in the sorted list exactly when it is in the input |
| Ranking.InsertDistinct | backend/main.py:336 | inserting an entry with a new id keeps ids distinct |
| Ranking.SortKeepsDistinctIds | backend/main.py:336 | sorting keeps ids distinct |
| SearchEndpoint.MergeResults | backend/main.py:284-290 | every song hit tagged song, then every video hit tagged video, in provider order |
| SearchEndpoint.Merged | backend/main.py:284-290 | definition only; MergeResults states that the loops build it |
| SearchEndpoint.DataOf | backend/main.py:337 | the records of the entries, in order |
| SearchEndpoint.SearchSpec | backend/main.py:273-274 | the next-page token is always none; a missing or empty query gives no results |
| SearchEndpoint.ClassifyAll | backend/main.py:322-329 | each kept hit at its position is mapped to its classification |
| SearchEndpoint.ScoreItem | backend/main.py:300-329 | the record and score built for a hit are its classification |
| SearchEndpoint.ScoreAll | backend/main.py:292-330 | the loop returns the classification of exactly the hits the fold keeps; its invariant keeps `seen_ids` and `temp_results` equal to the fold over the hits seen so far |
| SearchEndpoint.Search | backend/main.py:271-339 | the endpoint returns the specified envelope: empty for a missing or empty query or a failed call, else the records of the ranked kept hits |
| SearchProps.PassedIdsStep | backend/main.py:298 | one more hit adds its id to the passing ids exactly when it has one and passes the filter |
| SearchProps.AdmittedStep | backend/main.py:294-298 | the last hit is kept exactly when it has an id, passes the filter, and its id is not among the earlier passing ids |
| SearchProps.RunStep | backend/main.py:292-330 | one iteration: a hit without an id, with an id already in `seen_ids`, or matching a negative keyword leaves the state unchanged; any other hit adds its id and is kept |
| SearchProps.RunSeen | backend/main.py:294-330 | `seen_ids` after the loop holds exactly the ids of the hits that passed the filter |
| SearchProps.RunKept | backend/main.py:292-330 | the hits that reach `temp_results` are exactly the admitted ones, in order |
| SearchProps.RunKeptIdsAreSeen | backend/main.py:329-330 | the ids of the kept hits are exactly `seen_ids` |
| SearchProps.RunIsAdmit | backend/main.py:292-330 | the same three facts together: the stateful pass equals the stateless characterisation |
| SearchEndpoint.Step | backend/main.py:292-330 | definition only; its value is stated by SearchProps.RunStep |
| SearchEndpoint.Run | backend/main.py:292-330 | definition only; its value is stated by SearchProps.RunSeen, RunKept and RunIsAdmit, and ScoreAll's invariant keeps it |
| SearchProps.AdmitSound | backend/main.py:293-298 | every kept hit comes from the input, has an id and passes the negative filter |
| SearchProps.AdmitDistinct | backend/main.py:294 | no id is kept twice |
| SearchProps.SongWinsOverVideo | backend/main.py:284-294 | a video hit sharing its id with a passing song hit is never kept |
| SearchProps.FilteredHitDoesNotBlock | backend/main.py:298-330 | a filtered hit does not block a later passing hit with the same id |
| SearchProps.RepeatedIdKeepsFirst | backend/main.py:294 | of two passing hits with one id, only the first is kept |
| SearchProps.ScoredIds | backend/main.py:300-329 | scoring keeps each hit's id, so the scored entries carry exactly the kept ids |
| SearchProps.ScoredAdmitted | backend/main.py:292-329 | the scored kept hits have distinct ids, non-empty and unfiltered, and correct scores |
| SearchProps.RankedProps | backend/main.py:292-337 | the final entries are sorted, a stable permutation of the scored kept hits, with distinct ids and correct scores, none filtered, exactly the passing ids, and no more than there were hits |
| SearchEndpoint.Ranked | backend/main.py:292-336 | definition only; its value is stated by SearchProps.RankedProps |
| SearchProps.RankedByRelevance | backend/main.py:323-336 | no entry matches fewer query parts than an entry after it |
| SearchProps.AdmitLength | backend/main.py:292-330 | no more hits are kept than given |
| SearchProps.SearchSucceeds | backend/main.py:276-339 | when both provider calls succeed, the results are the records of the ranked entries, at most as many as the hits returned |
| SearchProps.SearchFailsEmpty | backend/main.py:332-334 | either provider call failing gives the empty envelope |

## Left out

- Unicode tables: `str.lower()` covers only ASCII and full-width Latin letters. NFKC covers only the full-width ASCII block and the ideographic space. `\d` covers only ASCII and full-width digits. `re.IGNORECASE` folds only ASCII, so the Kelvin sign and other non-ASCII case pairs (which Python also folds) are not folded.
- The FastAPI application, the CORS middleware and the Mangum handler: HTTP plumbing with no logic of the engine.
- The pydantic `SongItem` class is modelled only as a plain record. Its validation and defaults play no part, since the endpoint sets every field.
- The music provider client (its construction and network calls) becomes a parameter. The model does not assume that it respects the limits 20 and 40.
- The logging of the exception message is dropped.
- Exceptions other than a failing provider call are not modelled, for example a hit whose title is `None` or whose artist entry has no name. Hits are assumed to be well-formed: a title (empty when missing), a list of artist names, an optional id and an optional duration.
- Python's Timsort is modelled as an insertion sort, but the properties proved determine the output: sorted, a permutation and stable.
- The cloud provisioning script, the CDK app configuration and the local development launcher have no behaviour to verify.
- CleanText: its own contract states the shape of the result; its value is stated by CleanTextIsCleanOf instead, because a slice statement in the function's own contract makes every proof that uses CleanText costlier.
- NormalizeForComparison: its own contract states what no key contains; its value is stated by NormalizeChar with NormalizeConcat and by NormalizeNormal, for the same reason.
- Strip: its own contract states the shape of the result; StripIsStripOf and StripUnique state its value.
- Words: its own contract states that the words are non-empty and free of whitespace; WordsKeepsChars and WordsOfJoined state which words they are.
- MatchAt: its own contract states only that a match is sound; KeyPrefixFound, KeySuffixFound and CanonicalKeyFound state where the pitch-tag patterns must match, OriginalSingerFound where the original-singer pattern must, and SuffixKeyExample and UtacchaouSongExample show keys found in concrete titles. The other patterns (the guide, NicoKara, performed-by, bracket and cutoff patterns) have no completeness lemma.
- ParseNicoKara: its own contract states only that there is no key; NicoKaraAngleShape and NicoKaraSlashShape state the title and artist of every path.
- ParseJoyStandard: its own contract states only that there is no key; JoyStandardWithSlash and JoyStandardWithoutSlash state the title and artist.
- ParseUtacchaouVideo: its own contract states only that a key is canonical; UtacchaouVideoSingerShape, UtacchaouVideoSlashShape and UtacchaouVideoNoSlash state the title and artist, with UtacchaouVideoPrefixWins for the key.
- ParseEdKara: its own contract states only that there is no key; EdKaraShape states the title and artist of every path.
- ParseGenericVideo: its own contract states only that there is no key; GenericVideoShape states the title and artist of every path.
- ParseManekineko: its own contract states only that a key is canonical; ManekinekoShape and ManekinekoKeyVerbatim state the title, the artist and the key.
- ParseUtacchaouSong: its own contract states only that a key is canonical; UtacchaouSongShape states the title, the artist and the key, and UtacchaouSongExample works it out for one title.

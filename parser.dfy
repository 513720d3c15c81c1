/**
 * `parse_metadata` (backend/main.py:96-255): recovers a clean title, artist
 * and pitch key from a noisy result title, by the first of several
 * source-specific grammars whose guard holds.
 *
 * The source reassigns the locals `title`, `artist`, `key` and `temp_title`
 * along a straight-line chain of branches with no loop; each reassignment is
 * a `var` binding here.
 */
module Parser {
  import opened Wrappers
  import opened Text
  import opened Patterns
  import opened Normalize
  import opened Attributes

  datatype Parsed = Parsed(title: string, artist: string, key: Option<string>)

  /** The grammars, in the order the source tries them. */
  datatype Branch =
    | NicoKara         // main.py:105-133
    | JoyChorus        // main.py:138-142
    | JoyStandard      // main.py:143-155
    | UtacchaouVideo   // main.py:157-186
    | EdKara           // main.py:188-204
    | GenericVideo     // main.py:205-212
    | Manekineko       // main.py:216-229
    | UtacchaouSong    // main.py:231-249
    | KaraokeSong      // main.py:251-253
    | Passthrough      // no branch applies

  predicate IsNico(title: string, channel: string) {
    Contains(title, "ニコカラ") || Contains(channel, "ニコカラ")
  }

  predicate IsVideoBranch(b: Branch) {
    b.JoyChorus? || b.JoyStandard? || b.UtacchaouVideo? || b.EdKara? || b.GenericVideo?
  }

  predicate IsSongBranch(b: Branch) {
    b.Manekineko? || b.UtacchaouSong? || b.KaraokeSong?
  }

  /** The dispatch of main.py:105, 136-138, 157, 188, 205, 215-216, 231, 251:
      the NicoKara marker wins over everything; otherwise a video title goes
      to a video grammar and a song title to a song grammar or none. */
  function SelectBranch(title: string, apiArtist: string, channel: string, resultType: string): (b: Branch)
    ensures b.NicoKara? <==> IsNico(title, channel)
    ensures IsVideoBranch(b) <==> !IsNico(title, channel) && resultType == "video"
    ensures IsSongBranch(b) ==> !IsNico(title, channel) && resultType == "song"
    ensures b.JoyChorus? <==>
      !IsNico(title, channel) && resultType == "video" && channel == "JOYSOUND CHANNEL"
      && Contains(title, "【合唱練習用】")
    ensures !IsNico(title, channel) && resultType != "video" && resultType != "song" ==> b.Passthrough?
  {
    if IsNico(title, channel) then NicoKara
    else if resultType == "video" then
      if channel == "JOYSOUND CHANNEL" then
        if Contains(title, "【合唱練習用】") then JoyChorus else JoyStandard
      else if Contains(channel, "歌っちゃ王") then UtacchaouVideo
      else if Contains(channel, "EdKara") then EdKara
      else GenericVideo
    else if resultType == "song" then
      if Contains(apiArtist, "まねきねこ") || Contains(apiArtist, "Manekineko") then Manekineko
      else if Contains(apiArtist, "歌っちゃ王") then UtacchaouSong
      else if Contains(apiArtist, "カラオケ") || Contains(apiArtist, "Karaoke") then KaraokeSong
      else Passthrough
    else Passthrough
  }

  /** `s.split(sep, 1)` when `sep in s`: the text around the first `sep`. */
  function SplitFirst(s: string, sep: string): (r: Option<(string, string)>)
    requires sep != []
    ensures r.None? <==> !Contains(s, sep)
    ensures r.Some? ==> s == r.value.0 + sep + r.value.1
    ensures r.Some? ==> !Contains(r.value.0, sep)
  {
    match IndexOf(s, sep)
    case Some(i) =>
      var head := s[..i];
      assert s == head + sep + s[i + |sep|..];
      forall j: nat | Occurs(head, sep, j) ensures Occurs(s, sep, j) {
        assert s[j..j + |sep|] == head[j..j + |sep|];
      }
      assert IndexOf(head, sep).None?;
      Some((head, s[i + |sep|..]))
    case None => None
  }

  /** Splitting at a character that the text in front of it lacks gives back both sides. */
  lemma SplitFirstChar(a: string, c: char, b: string)
    requires c !in a
    ensures SplitFirst(a + [c] + b, [c]) == Some((a, b))
  {
    var s := a + [c] + b;
    assert Occurs(s, [c], |a|) by {
      assert s[|a|..|a| + 1] == [c];
    }
    forall j: nat | j < |a| ensures !Occurs(s, [c], j) {
      assert s[j] == a[j] && s[j..j + 1] == [s[j]];
    }
    assert IndexOf(s, [c]) == Some(|a|);
    assert s[..|a|] == a && s[|a| + 1..] == b;
  }

  /** The karaoke badges removed before the generic grammar (main.py:101-102, 159-160). */
  function StripKaraokeTags(t: string): string {
    Sub(GuideKaraokeTag, Replace(Replace(Replace(t, "（カラオケ）", ""), "(Karaoke)", ""), "(Official)", ""))
  }

  function NormalizeSignChar(c: char): char {
    if c == '＋' then '+' else if c in "−–—ー－" then '-' else c
  }

  /** The key normalisation of main.py:172 and 242: the full-width plus
      becomes `+`, the five dash glyphs become `-`, digits stay as they are. */
  function NormalizeKey(raw: string): (r: string)
    ensures |r| == |raw|
    ensures forall i :: 0 <= i < |raw| && IsDigit(raw[i]) ==> r[i] == raw[i]
    ensures forall i :: 0 <= i < |raw| && raw[i] in "+＋" ==> r[i] == '+'
    ensures forall i :: 0 <= i < |raw| && raw[i] in "-−–—ー－" ==> r[i] == '-'
    ensures SignedNumber(raw, KeySigns) ==> SignedNumber(r, "+-")
  {
    var r := seq(|raw|, i requires 0 <= i < |raw| => NormalizeSignChar(raw[i]));
    assert |raw| > 0 ==> r[1..] == seq(|raw| - 1, i requires 0 <= i < |raw| - 1 => NormalizeSignChar(raw[1..][i]));
    r
  }

  /** The pitch-tag extraction shared by both 歌っちゃ王 grammars
      (main.py:162-173, 233-243): a prefix-form tag anywhere wins over a
      suffix-form one; every match of the chosen form is deleted. */
  function ExtractKey(t: string): (r: (string, Option<string>))
    ensures r.1.Some? ==> IsCanonicalKey(r.1.value)
    ensures r.1.None? <==> Search(KeyPrefix, t).None? && Search(KeySuffix, t).None?
    ensures r.1.None? ==> r.0 == t
    ensures Search(KeyPrefix, t).Some? ==>
      r == (Sub(KeyPrefix, t), Some(NormalizeKey(Group(t, Search(KeyPrefix, t).value)) + "KEY"))
    ensures Search(KeyPrefix, t).None? && Search(KeySuffix, t).Some? ==>
      r == (Sub(KeySuffix, t), Some(NormalizeKey(Group(t, Search(KeySuffix, t).value)) + "KEY"))
  {
    match Search(KeyPrefix, t)
    case Some(m) => (Sub(KeyPrefix, t), Some(CanonicalKeyOf(Group(t, m))))
    case None =>
      match Search(KeySuffix, t)
      case Some(m) => (Sub(KeySuffix, t), Some(CanonicalKeyOf(Group(t, m))))
      case None => (t, None)
  }

  function CanonicalKeyOf(raw: string): (k: string)
    requires SignedNumber(raw, KeySigns)
    ensures k == NormalizeKey(raw) + "KEY" && IsCanonicalKey(k)
  {
    var n := NormalizeKey(raw);
    var k := n + "KEY";
    assert k[..|k| - 3] == n && k[|k| - 3..] == "KEY";
    k
  }

  /** `nico_clean` (main.py:106-111). */
  function NicoClean(t: string): string {
    if t == [] then [] else Strip(Replace(Sub(NicoNoise, Sub(NicoKaraTag, t)), "ニコカラ", ""))
  }

  const AngleNoise: seq<string> := ["off vocal", "offvocal", "key", "キー", "guide", "ガイド", "karaoke", "カラオケ"]

  /** The first 《…》 exists and its contents hold none of the noise words (main.py:115-120). */
  predicate CleanAngle(o: string) {
    var angle := SearchAngle(o);
    angle.Some? && !ContainsAny(Lower(o[angle.value.innerStart..angle.value.innerEnd]), AngleNoise)
  }

  /** main.py:113-133: a 《…》 whose inner text is free of noise words gives
      title and artist; otherwise the first slash (either width) splits. */

  function ParseNicoKara(o: string): (r: Parsed)
    ensures r.key.None?
  {
    var angle := SearchAngle(o);
    var (t, a) :=
      if CleanAngle(o) then (o[angle.value.outerStart..angle.value.outerEnd], o[angle.value.innerStart..angle.value.innerEnd])
      else
        match IndexOfAnyFrom(o, "/／", 0)
        case Some(i) => (o[..i], o[i + 1..])
        case None => (o, []);
    Parsed(NicoClean(t), NicoClean(a), None)
  }

  /** main.py:139-142. */
  function ParseJoyChorus(o: string): (r: Parsed)
    ensures r.key.None?
  {
    var title :=
      match Search(CornerQuote, o)
      case Some(m) => Group(o, m)
      case None => Strip(Replace(o, "【合唱練習用】", ""));
    Parsed(title, "合唱練習用", None)
  }

  /** `extract_jp` (main.py:147-151): the contents of a final parenthesis. */
  function ExtractJp(t: string): (r: string)
    ensures |r| <= |t|
    ensures |t| > 0 && t[|t| - 1] == ')' && '(' in t ==>
      |r| + 2 <= |t| && '(' !in r && t == t[..|t| - |r| - 2] + "(" + r + ")"
    ensures !(|t| > 0 && t[|t| - 1] == ')' && '(' in t) ==> r == t
  {
    if |t| > 0 && t[|t| - 1] == ')' then
      match LastIndexOf(t, '(', |t|)
      case Some(lo) =>
        var r := t[lo + 1..|t| - 1];
        assert t == t[..lo] + "(" + r + ")";
        r
      case None => t
    else t
  }

  /** main.py:144-155. */
  function ParseJoyStandard(o: string): (r: Parsed)
    ensures r.key.None?
  {
    var temp := Strip(Replace(Replace(o, "【karaoke】", ""), "【JOYSOUND】", ""));
    match SplitFirst(temp, "/")
    case Some((a, b)) => Parsed(ExtractJp(Strip(a)), ExtractJp(Strip(b)), None)
    case None => Parsed(temp, [], None)
  }

  /** The title as the 歌っちゃ王 video grammar prepares it (main.py:158-160). */
  function UtacchaouVideoTitle(o: string): string {
    StripKaraokeTags(Strip(Sub(LenticularTag, o)))
  }

  /** The artist split used when no original-singer tag exists (main.py:181-186). */
  function SplitSlashArtist(t: string): (string, string) {
    match SplitFirst(t, " / ")
    case Some((a, b)) => (Strip(a), Strip(Replace(b, "[カラオケ]", "")))
    case None =>
      match SplitFirst(t, "/")
      case Some((a, b)) => (Strip(a), Strip(Replace(b, "[カラオケ]", "")))
      case None => (Strip(t), [])
  }

  /** main.py:157-186. */
  function ParseUtacchaouVideo(o: string): (r: Parsed)
    ensures r.key.Some? ==> IsCanonicalKey(r.key.value)
  {
    var (t1, key) := ExtractKey(UtacchaouVideoTitle(o));
    match Search(OriginalSinger, t1)
    case Some(m) => Parsed(Strip(Sub(OriginalSinger, t1)), Strip(Group(t1, m)), key)
    case None =>
      var (title, artist) := SplitSlashArtist(t1);
      Parsed(title, artist, key)
  }

  /** The artist candidate up to the first bracket or instrumental marker
      (main.py:197-199). */
  function CutAtArtistCutoff(candidate: string): (r: string)
    ensures |r| <= |candidate| && r == candidate[..|r|]
    ensures Search(ArtistCutoff, candidate).None? ==> r == candidate
    ensures Search(ArtistCutoff, candidate).Some? ==> |r| == Search(ArtistCutoff, candidate).value.start
  {
    match Search(ArtistCutoff, candidate)
    case Some(c) => candidate[..c.start]
    case None => candidate
  }

  /** main.py:188-204. */
  function ParseEdKara(o: string): (r: Parsed)
    ensures r.key.None?
  {
    var t := Strip(Sub(KaraokeLead, o));
    match Search(PerformedBy, t)
    case Some(m) =>
      Parsed(Strip(Sub(AnyBracket, SplitHead(t, Matched(t, m)))), Strip(Group(t, m)), None)
    case None =>
      match SplitFirst(t, " - ")
      case Some((a, b)) =>
        Parsed(Strip(a), Strip(Sub(KaraokeWord, CutAtArtistCutoff(Strip(b)))), None)
      case None =>
        match SplitFirst(t, "/")
        case Some((a, b)) => Parsed(Strip(a), Strip(b), None)
        case None => Parsed(Strip(Sub(LenticularTag, t)), [], None)
  }

  const LabelMarkers: seq<string> := ["Official", "Music", "Records"]

  /** main.py:205-212, on the tag-stripped title of main.py:101-102. */
  function ParseGenericVideo(o: string, channel: string): (r: Parsed)
    ensures r.key.None?
  {
    var c := StripKaraokeTags(o);
    match SplitFirst(c, "/")
    case Some((a, b)) => Parsed(a, Strip(Replace(b, "[カラオケ]", "")), None)
    case None =>
      match SplitFirst(c, " - ")
      case Some((a, b)) => Parsed(a, b, None)
      case None => Parsed(c, if ContainsAny(channel, LabelMarkers) then channel else [], None)
  }

  /** main.py:216-229. */
  function ParseManekineko(o: string, apiArtist: string): (r: Parsed)
    ensures r.key.Some? ==> IsCanonicalKey(r.key.value)
  {
    var (t1, key) :=
      match Search(CanonicalKey, o)
      case Some(m) => (Sub(CanonicalKey, o), Some(Group(o, m)))
      case None => (o, None);
    var (t2, artist) :=
      match Search(PerformedByLong, t1)
      case Some(m) => (Sub(PerformedByLong, t1), Strip(Group(t1, m)))
      case None =>
        match Search(TrailingBracket, t1)
        case Some(m) => (Sub(TrailingBracket, t1), Strip(Group(t1, m)))
        case None => (t1, apiArtist);
    Parsed(Strip(Replace(Replace(t2, "（カラオケ）", ""), "(カラオケ)", "")), artist, key)
  }

  /** main.py:231-249. */
  function ParseUtacchaouSong(o: string, apiArtist: string): (r: Parsed)
    ensures r.key.Some? ==> IsCanonicalKey(r.key.value)
  {
    var (t1, key) := ExtractKey(o);
    var (t2, artist) :=
      match Search(OriginalSinger, t1)
      case Some(m) => (Sub(OriginalSinger, t1), Strip(Group(t1, m)))
      case None => (t1, apiArtist);
    var t3 := Replace(Replace(t2, "（カラオケ）", ""), "(カラオケ)", "");
    Parsed(Strip(Sub(GuideKaraokeTag, t3)), artist, key)
  }

  /** main.py:251-253. */
  function ParseKaraokeSong(o: string, apiArtist: string): (r: Parsed)
    ensures r.key.None?
  {
    match SplitFirst(o, "/")
    case Some((a, b)) => Parsed(a, Strip(Replace(b, "【カラオケ音源】", "")), None)
    case None => Parsed(o, apiArtist, None)
  }

  /** The grammar chosen by `SelectBranch`, before the final cleaning. */
  function ParseRaw(o: string, apiArtist: string, channel: string, resultType: string): (r: Parsed)
    ensures r.key.Some? ==> IsCanonicalKey(r.key.value)
    ensures r.key.Some? ==>
      var b := SelectBranch(o, apiArtist, channel, resultType);
      b.UtacchaouVideo? || b.UtacchaouSong? || b.Manekineko?
  {
    match SelectBranch(o, apiArtist, channel, resultType)
    case NicoKara => ParseNicoKara(o)
    case JoyChorus => ParseJoyChorus(o)
    case JoyStandard => ParseJoyStandard(o)
    case UtacchaouVideo => ParseUtacchaouVideo(o)
    case EdKara => ParseEdKara(o)
    case GenericVideo => ParseGenericVideo(o, channel)
    case Manekineko => ParseManekineko(o, apiArtist)
    case UtacchaouSong => ParseUtacchaouSong(o, apiArtist)
    case KaraokeSong => ParseKaraokeSong(o, apiArtist)
    case Passthrough => Parsed(o, apiArtist, None)
  }

  /** `parse_metadata` (main.py:96-255).  A key is produced only by the two
      歌っちゃ王 grammars and the まねきねこ grammar, and always in canonical
      form: an optional ASCII sign, digits, `KEY`. */
  function ParseMetadata(o: string, apiArtist: string, channel: string, resultType: string): (r: Parsed)
    ensures r.key.Some? ==> IsCanonicalKey(r.key.value)
    ensures r.key.Some? ==>
      var b := SelectBranch(o, apiArtist, channel, resultType);
      b.UtacchaouVideo? || b.UtacchaouSong? || b.Manekineko?
  {
    var raw := ParseRaw(o, apiArtist, channel, resultType);
    Parsed(CleanText(raw.title), CleanText(raw.artist), raw.key)
  }
}

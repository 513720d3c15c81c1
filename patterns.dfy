/**
 * The regular expressions of backend/main.py, each written out as an explicit
 * matcher with the semantics of Python's backtracking `re` engine: `MatchAt`
 * says where the pattern, tried at index `i`, ends and what its one capture
 * group spans; `Search` is `re.search` (leftmost start) and `Sub` is
 * `re.sub(p, "", s)` (every leftmost non-overlapping match deleted).
 *
 * Where a pattern could backtrack, the comment on its case says why the
 * greedy first choice is the only one that can succeed, so that no search
 * over alternatives is needed.  `.` never matches a newline; `.*?` is lazy,
 * so it stops at the first place where the rest of the pattern matches.
 */
module Patterns {
  import opened Wrappers
  import opened Text

  /** A match `s[start..end]` whose capture group is `s[gStart..gEnd]`.
      Patterns without a group use the whole match as their group. */
  datatype Match = Match(start: nat, end: nat, gStart: nat, gEnd: nat)

  /** Matches are never empty and lie inside the subject. */
  predicate WellFormed(m: Match, s: string) {
    m.start < m.end <= |s| && m.start <= m.gStart <= m.gEnd <= m.end
  }

  function Group(s: string, m: Match): string
    requires WellFormed(m, s)
  {
    s[m.gStart..m.gEnd]
  }

  function Matched(s: string, m: Match): string
    requires WellFormed(m, s)
  {
    s[m.start..m.end]
  }

  /** The plus and minus glyphs a pitch tag may start with (main.py:162-163, 233-234). */
  const KeySigns: string := "+＋-−–—ー－"

  /** `t` is an optional sign from `signs` followed by at least one digit. */
  predicate SignedNumber(t: string, signs: string) {
    |t| >= 1 && (if t[0] in signs then |t| >= 2 && AllDigits(t[1..]) else AllDigits(t))
  }

  /** The canonical pitch tag: an ASCII sign or none, digits, then `KEY`. */
  predicate IsCanonicalKey(k: string) {
    |k| >= 4 && k[|k| - 3..] == "KEY" && SignedNumber(k[..|k| - 3], "+-")
  }

  datatype Pattern =
    | GuideKaraokeTag   // main.py:102 — "[" or "(", ガイド, lazily up to 無し/なし + カラオケ, then "]" or ")"
    | NicoKaraTag       // main.py:108 — 【, ニコカラ or カラオケ, lazily up to 】
    | NicoNoise         // main.py:109 — optional opener, an off-vocal/karaoke/guide word, optional closer
    | LenticularTag     // main.py:158, 204 — 【 lazily up to 】
    | KeyPrefix         // main.py:162, 233 — Key/キー, optional colon, signed number (the group)
    | KeySuffix         // main.py:163, 234 — signed number (the group), spaces, Key/キー
    | OriginalSinger    // main.py:175, 244 — opener, 原曲歌手 and kin, colon, group lazily up to a closer
    | KaraokeLead       // main.py:189 — at the start only: optional 練習用, Karaoke/カラオケ, notes, spaces
    | PerformedBy       // main.py:190 — opener, "Originally Performed by"/"Original Artist", colons/spaces, group
    | AnyBracket        // main.py:194 — an opener lazily up to a closer
    | ArtistCutoff      // main.py:197 — a bracket opener or the word Instrumental / Off Vocal
    | KaraokeWord       // main.py:200 — Karaoke followed by musical notes
    | CornerQuote       // main.py:140 — 「 group lazily up to 」
    | CanonicalKey      // main.py:218, 220 — optional ASCII sign, digits, KEY
    | PerformedByLong   // main.py:221, 225 — "[Originally Performed By " group lazily up to "]"
    | TrailingBracket   // main.py:222, 228 — "[" group lazily up to a "]" that ends the string

  /** The first of `alts` found at `i` (an alternation whose branches can
      never both match at one index), returning where it ends. */
  function FirstLiteral(s: string, i: nat, alts: seq<string>, ci: bool): (r: Option<nat>)
    requires forall a :: a in alts ==> a != []
    ensures r.Some? ==> i < r.value <= |s|
  {
    if alts == [] then None
    else
      assert alts[0] in alts;
      assert forall a :: a in alts[1..] ==> a in alts;
      if (if ci then OccursCI(s, alts[0], i) else Occurs(s, alts[0], i)) then Some(i + |alts[0]|)
      else FirstLiteral(s, i, alts[1..], ci)
  }

  /** A lazy `.*?` followed by one character of `closers`: the first closer at
      or after `j`, provided no newline comes before it. */
  function LazyToChar(s: string, j: nat, closers: string): (r: Option<nat>)
    decreases |s| - j
    ensures r.Some? ==> j <= r.value < |s| && s[r.value] in closers
    ensures r.Some? ==> forall k :: j <= k < r.value ==> s[k] !in closers && s[k] != '\n'
  {
    if j >= |s| then None
    else if s[j] in closers then Some(j)
    else if s[j] == '\n' then None
    else LazyToChar(s, j + 1, closers)
  }

  /** The tail of the guide tag: 無し or なし, カラオケ, then "]" or ")". */
  predicate GuideTailAt(s: string, j: nat) {
    (Occurs(s, "無し", j) || Occurs(s, "なし", j)) && Occurs(s, "カラオケ", j + 2)
    && j + 6 < |s| && s[j + 6] in "])"
  }

  function LazyGuideTail(s: string, j: nat): (r: Option<nat>)
    requires j <= |s|
    decreases |s| - j
    ensures r.Some? ==> j <= r.value && GuideTailAt(s, r.value)
  {
    if GuideTailAt(s, j) then Some(j)
    else if j == |s| || s[j] == '\n' then None
    else LazyGuideTail(s, j + 1)
  }

  /** Python's `$` without MULTILINE: the end, or just before a final newline. */
  predicate AtEnd(s: string, k: nat) {
    k == |s| || (k + 1 == |s| && s[k] == '\n')
  }

  function LazyToFinalBracket(s: string, j: nat): (r: Option<nat>)
    requires j <= |s|
    decreases |s| - j
    ensures r.Some? ==> j <= r.value < |s| && s[r.value] == ']' && AtEnd(s, r.value + 1)
  {
    if j < |s| && s[j] == ']' && AtEnd(s, j + 1) then Some(j)
    else if j == |s| || s[j] == '\n' then None
    else LazyToFinalBracket(s, j + 1)
  }

  /** The end of a run of colons and spaces (`[:\s]*`). */
  function SkipColonSpace(s: string, i: nat): (r: nat)
    requires i <= |s|
    decreases |s| - i
    ensures i <= r <= |s|
  {
    if i < |s| && (s[i] == ':' || IsSpace(s[i])) then SkipColonSpace(s, i + 1) else i
  }

  /** `Key` in any ASCII case, or キー. */
  function KeyWordEnd(s: string, i: nat): (r: Option<nat>)
    ensures r.Some? ==> i < r.value <= |s|
  {
    FirstLiteral(s, i, ["key", "キー"], true)
  }

  /** The keyword of the noise pattern, in its order of alternatives. */
  function NoiseWordEnd(s: string, j: nat): (r: Option<nat>)
    requires j <= |s|
    ensures r.Some? ==> j < r.value <= |s|
  {
    var rest := ["オフボーカル", "karaoke", "カラオケ", "instrumental", "インスト", "guide", "ガイド"];
    if OccursCI(s, "off", j) then
      var w := SkipSpace(s, j + 3);
      if OccursCI(s, "vocal", w) then Some(w + 5) else FirstLiteral(s, j, rest, true)
    else FirstLiteral(s, j, rest, true)
  }

  /** `r` is absent or a well-formed match starting at `i`. */
  predicate StartsAt(r: Option<Match>, s: string, i: nat) {
    r.Some? ==> r.value.start == i && WellFormed(r.value, s)
  }

  /** A pattern tried at `i`. */
  function MatchAt(p: Pattern, s: string, i: nat): (r: Option<Match>)
    ensures StartsAt(r, s, i)
    ensures r.Some? && (p.KeyPrefix? || p.KeySuffix?) ==> SignedNumber(Group(s, r.value), KeySigns)
    ensures r.Some? && p.CanonicalKey? ==> IsCanonicalKey(Group(s, r.value))
  {
    if i >= |s| then None
    else match p
      case GuideKaraokeTag => GuideKaraokeTagAt(s, i)
      case NicoKaraTag => NicoKaraTagAt(s, i)
      case NicoNoise => NicoNoiseAt(s, i)
      case LenticularTag => BracketedAt(s, i, "【", "】")
      case KeyPrefix => KeyPrefixAt(s, i)
      case KeySuffix => KeySuffixAt(s, i)
      case OriginalSinger => OriginalSingerAt(s, i)
      case KaraokeLead => KaraokeLeadAt(s, i)
      case PerformedBy => PerformedByAt(s, i)
      case AnyBracket => BracketedAt(s, i, "[(【", "])】")
      case ArtistCutoff => ArtistCutoffAt(s, i)
      case KaraokeWord => KaraokeWordAt(s, i)
      case CornerQuote => CornerQuoteAt(s, i)
      case CanonicalKey => CanonicalKeyAt(s, i)
      case PerformedByLong => PerformedByLongAt(s, i)
      case TrailingBracket => TrailingBracketAt(s, i)
  }

  function GuideKaraokeTagAt(s: string, i: nat): (r: Option<Match>)
    requires i < |s|
    ensures StartsAt(r, s, i)
  {
    if s[i] in "[(" && Occurs(s, "ガイド", i + 1) then
      match LazyGuideTail(s, i + 4)
      case Some(j) => Some(Match(i, j + 7, i, j + 7))
      case None => None
    else None
  }

  function NicoKaraTagAt(s: string, i: nat): (r: Option<Match>)
    requires i < |s|
    ensures StartsAt(r, s, i)
  {
    if s[i] == '【' && (Occurs(s, "ニコカラ", i + 1) || Occurs(s, "カラオケ", i + 1)) then
      match LazyToChar(s, i + 5, "】")
      case Some(k) => Some(Match(i, k + 1, i, k + 1))
      case None => None
    else None
  }

  /** The lazy middle of this pattern succeeds at once when empty, because
      the closing bracket after it is optional; so the match is the optional
      opener, the word and a closer right after it.  When an opener is present
      but no word follows it, trying the word at the opener itself fails too. */
  function NicoNoiseAt(s: string, i: nat): (r: Option<Match>)
    requires i < |s|
    ensures StartsAt(r, s, i)
  {
    var b := if s[i] in "【[(" then i + 1 else i;
    match NoiseWordEnd(s, b)
    case Some(e) =>
      var end := if e < |s| && s[e] in "】])" then e + 1 else e;
      Some(Match(i, end, i, end))
    case None => None
  }

  /** An opener lazily up to the first closer on its line. */
  function BracketedAt(s: string, i: nat, openers: string, closers: string): (r: Option<Match>)
    requires i < |s|
    ensures StartsAt(r, s, i)
  {
    if s[i] in openers then
      match LazyToChar(s, i + 1, closers)
      case Some(k) => Some(Match(i, k + 1, i, k + 1))
      case None => None
    else None
  }

  /** Giving back spaces, the colon or the sign only puts a space, colon or
      sign where a digit is needed, so the greedy path is the only one. */
  function KeyPrefixAt(s: string, i: nat): (r: Option<Match>)
    requires i < |s|
    ensures StartsAt(r, s, i)
    ensures r.Some? ==> SignedNumber(Group(s, r.value), KeySigns)
  {
    match KeyWordEnd(s, i)
    case None => None
    case Some(j) =>
      var j1 := SkipSpace(s, j);
      var j2 := if j1 < |s| && s[j1] in ":：" then j1 + 1 else j1;
      var g := SkipSpace(s, j2);
      var d0 := if g < |s| && s[g] in KeySigns then g + 1 else g;
      var d := SkipDigits(s, d0);
      if d > d0 then
        assert g < d0 ==> s[g..d][1..] == s[d0..d];
        Some(Match(i, d, g, d))
      else None
  }

  /** Giving back a digit puts a digit where Key/キー is needed. */
  function KeySuffixAt(s: string, i: nat): (r: Option<Match>)
    requires i < |s|
    ensures StartsAt(r, s, i)
    ensures r.Some? ==> SignedNumber(Group(s, r.value), KeySigns)
  {
    var d0 := if s[i] in KeySigns then i + 1 else i;
    var d := SkipDigits(s, d0);
    if d == d0 then None
    else
      match KeyWordEnd(s, SkipSpace(s, d))
      case Some(e) =>
        assert i < d0 ==> s[i..d][1..] == s[d0..d];
        Some(Match(i, e, i, d))
      case None => None
  }

  function OriginalSingerAt(s: string, i: nat): (r: Option<Match>)
    requires i < |s|
    ensures StartsAt(r, s, i)
  {
    if s[i] in "[(【［（" then
      match FirstLiteral(s, i + 1, ["原曲歌手", "オリジナルアーティスト", "オリジナル歌手"], false)
      case Some(j) =>
        if j < |s| && s[j] in ":：" then
          (match LazyToChar(s, j + 1, "])】］）")
           case Some(k) => Some(Match(i, k + 1, j + 1, k))
           case None => None)
        else None
      case None => None
    else None
  }

  /** Anchored at the start; without 練習用 the word would have to start at 練. */
  function KaraokeLeadAt(s: string, i: nat): (r: Option<Match>)
    requires i < |s|
    ensures StartsAt(r, s, i)
  {
    if i != 0 then None
    else
      var j := if Occurs(s, "練習用", 0) then 3 else 0;
      match FirstLiteral(s, j, ["karaoke", "カラオケ"], true)
      case Some(k) =>
        var e := SkipSpace(s, SkipChars(s, k, "♬♪"));
        Some(Match(0, e, 0, e))
      case None => None
  }

  /** Giving back part of the colon/space run starts the group on a colon or
      space, and the search for the closer then fails where it did. */
  function PerformedByAt(s: string, i: nat): (r: Option<Match>)
    requires i < |s|
    ensures StartsAt(r, s, i)
  {
    if s[i] in "([【" then
      match FirstLiteral(s, i + 1, ["originally performed by", "original artist"], true)
      case Some(j) =>
        var g := SkipColonSpace(s, j);
        if g == j then None
        else
          (match LazyToChar(s, g, "])】")
           case Some(k) => Some(Match(i, k + 1, g, k))
           case None => None)
      case None => None
    else None
  }

  function ArtistCutoffAt(s: string, i: nat): (r: Option<Match>)
    requires i < |s|
    ensures StartsAt(r, s, i)
  {
    if s[i] in "【[(" then Some(Match(i, i + 1, i, i + 1))
    else
      match FirstLiteral(s, i, ["instrumental", "off vocal"], true)
      case Some(e) => Some(Match(i, e, i, e))
      case None => None
  }

  function KaraokeWordAt(s: string, i: nat): (r: Option<Match>)
    requires i < |s|
    ensures StartsAt(r, s, i)
  {
    if OccursCI(s, "karaoke", i) then
      var e := SkipChars(s, i + 7, "♬♪");
      Some(Match(i, e, i, e))
    else None
  }

  function CornerQuoteAt(s: string, i: nat): (r: Option<Match>)
    requires i < |s|
    ensures StartsAt(r, s, i)
  {
    if s[i] == '「' then
      match LazyToChar(s, i + 1, "」")
      case Some(k) => Some(Match(i, k + 1, i + 1, k))
      case None => None
    else None
  }

  function CanonicalKeyAt(s: string, i: nat): (r: Option<Match>)
    requires i < |s|
    ensures StartsAt(r, s, i)
    ensures r.Some? ==> IsCanonicalKey(Group(s, r.value))
  {
    var d0 := if s[i] in "+-" then i + 1 else i;
    var d := SkipDigits(s, d0);
    if d > d0 && Occurs(s, "KEY", d) then
      var k := s[i..d + 3];
      assert k[..|k| - 3] == s[i..d] && k[|k| - 3..] == s[d..d + 3];
      assert i < d0 ==> s[i..d][1..] == s[d0..d];
      Some(Match(i, d + 3, i, d + 3))
    else None
  }

  function PerformedByLongAt(s: string, i: nat): (r: Option<Match>)
    requires i < |s|
    ensures StartsAt(r, s, i)
  {
    var lit := "originally performed by ";
    if s[i] == '[' && OccursCI(s, lit, i + 1) then
      match LazyToChar(s, i + 1 + |lit|, "]")
      case Some(k) => Some(Match(i, k + 1, i + 1 + |lit|, k))
      case None => None
    else None
  }

  function TrailingBracketAt(s: string, i: nat): (r: Option<Match>)
    requires i < |s|
    ensures StartsAt(r, s, i)
  {
    if s[i] == '[' then
      match LazyToFinalBracket(s, i + 1)
      case Some(k) => Some(Match(i, k + 1, i + 1, k))
      case None => None
    else None
  }

  /** `re.search` from index `from`: the match with the leftmost start. */
  function SearchFrom(p: Pattern, s: string, from: nat): (r: Option<Match>)
    decreases |s| - from
    ensures r.Some? ==> from <= r.value.start && WellFormed(r.value, s)
    ensures r.Some? ==> MatchAt(p, s, r.value.start) == r
    ensures r.Some? ==> forall j :: from <= j < r.value.start ==> MatchAt(p, s, j).None?
    ensures r.None? ==> forall j :: from <= j ==> MatchAt(p, s, j).None?
  {
    if from >= |s| then None
    else
      match MatchAt(p, s, from)
      case Some(m) => Some(m)
      case None => SearchFrom(p, s, from + 1)
  }

  function Search(p: Pattern, s: string): Option<Match> {
    SearchFrom(p, s, 0)
  }

  /** `re.sub(p, "", s[i..])`: scanning left to right, each match is deleted
      and scanning resumes at its end; other characters are kept. */
  function SubFrom(p: Pattern, s: string, i: nat): (r: string)
    decreases |s| - i
    ensures forall c :: c in r ==> c in s
  {
    if i >= |s| then []
    else
      match MatchAt(p, s, i)
      case Some(m) => SubFrom(p, s, m.end)
      case None => [s[i]] + SubFrom(p, s, i + 1)
  }

  function Sub(p: Pattern, s: string): string {
    SubFrom(p, s, 0)
  }

  /** A string in which the pattern matches nowhere is left unchanged. */
  lemma {:induction false} SubNoMatch(p: Pattern, s: string, i: nat)
    requires i <= |s|
    requires forall j :: i <= j ==> MatchAt(p, s, j).None?
    ensures SubFrom(p, s, i) == s[i..]
    decreases |s| - i
  {
    if i < |s| {
      SubNoMatch(p, s, i + 1);
      assert s[i..] == [s[i]] + s[i + 1..];
    }
  }

  /** `s[i..i + n]` is one spelling the Key/キー alternative accepts. */
  predicate KeyWordAt(s: string, i: nat, n: nat) {
    i + n <= |s|
    && ((n == 2 && s[i] == 'キ' && s[i + 1] == 'ー')
        || (n == 3 && forall k :: 0 <= k < 3 ==> FoldCase(s[i + k]) == "key"[k]))
  }

  lemma KeyWordMatches(s: string, e: nat, n: nat)
    requires KeyWordAt(s, e, n)
    ensures KeyWordEnd(s, e) == Some(e + n)
    ensures !IsSpace(s[e]) && !IsDigit(s[e])
  {
    if n == 2 {
      assert !OccursCI(s, "key", e) by {
        assert FoldCase(s[e]) != FoldCase("key"[0]);
      }
      assert OccursCI(s, "キー", e);
      var alts: seq<string> := ["key", "キー"];
      assert alts[1..] == ["キー"];
      assert FirstLiteral(s, e, ["キー"], true) == Some(e + 2);
    } else {
      assert OccursCI(s, "key", e) by {
        forall k | 0 <= k < 3 ensures FoldCase(s[e + k]) == FoldCase("key"[k]) {
        }
      }
      assert FoldCase(s[e + 0]) == "key"[0];
      assert s[e] == 'k' || s[e] == 'K';
    }
  }

  /** Without ガ no guide tag can match, so its removal changes nothing. */
  lemma GuideTagAbsent(s: string)
    requires 'ガ' !in s
    ensures Sub(GuideKaraokeTag, s) == s
  {
    forall j | 0 <= j ensures MatchAt(GuideKaraokeTag, s, j).None? {
      OccursFirst(s, "ガイド", j + 1);
    }
    SubNoMatch(GuideKaraokeTag, s, 0);
  }

  /** Positions where the pattern does not match are copied through by `Sub`. */
  lemma {:induction false} SubSkip(p: Pattern, s: string, i: nat, k: nat)
    requires i <= k <= |s|
    requires forall j :: i <= j < k ==> MatchAt(p, s, j).None?
    ensures SubFrom(p, s, i) == s[i..k] + SubFrom(p, s, k)
    decreases k - i
  {
    if i < k {
      assert MatchAt(p, s, i).None?;
      assert SubFrom(p, s, i) == [s[i]] + SubFrom(p, s, i + 1);
      SubSkip(p, s, i + 1, k);
      SeqSplitHead(s, i, k, SubFrom(p, s, k));
    }
  }

  lemma SeqSplitHead(s: string, i: nat, k: nat, rest: string)
    requires i < k <= |s|
    ensures [s[i]] + (s[i + 1..k] + rest) == s[i..k] + rest
  {
    assert s[i..k] == [s[i]] + s[i + 1..k];
  }

  /** The Key/キー alternative can only start at k, K or キ. */
  lemma KeyWordStart(s: string, j: nat)
    ensures KeyWordEnd(s, j).Some? ==> j < |s| && s[j] in "kKキ"
  {
    var alts := ["key", "キー"];
    if KeyWordEnd(s, j).Some? {
      if OccursCI(s, "key", j) {
        assert FoldCase(s[j + 0]) == FoldCase("key"[0]);
      } else {
        var tail: seq<string> := ["キー"];
        assert alts[1..] == tail;
        assert FirstLiteral(s, j, alts, true) == FirstLiteral(s, j, tail, true);
        assert tail[1..] == [];
        assert FirstLiteral(s, j, tail[1..], true).None?;
        assert OccursCI(s, tail[0], j);
        assert FoldCase(s[j + 0]) == FoldCase("キー"[0]);
      }
    }
  }

  /** A stretch without k, K or キ holds no start of a prefix-form pitch tag. */
  lemma KeyPrefixAbsent(s: string, i: nat, k: nat)
    requires i <= k <= |s|
    requires 'k' !in s[i..k] && 'K' !in s[i..k] && 'キ' !in s[i..k]
    ensures forall j :: i <= j < k ==> MatchAt(KeyPrefix, s, j).None?
  {
    forall j | i <= j < k ensures MatchAt(KeyPrefix, s, j).None? {
      KeyWordStart(s, j);
      assert s[j] == s[i..k][j - i];
    }
  }

  /** An alternation of literals can only start with the first character
      of one of them. */
  lemma {:induction false} FirstLiteralStart(s: string, i: nat, alts: seq<string>)
    requires forall a :: a in alts ==> a != []
    ensures FirstLiteral(s, i, alts, false).Some? ==> i < |s| && exists a :: a in alts && s[i] == a[0]
    decreases |alts|
  {
    if alts != [] && FirstLiteral(s, i, alts, false).Some? {
      assert alts[0] in alts;
      if Occurs(s, alts[0], i) {
        assert s[i..i + |alts[0]|][0] == s[i];
      } else {
        assert forall a :: a in alts[1..] ==> a in alts;
        FirstLiteralStart(s, i, alts[1..]);
        var a :| a in alts[1..] && s[i] == a[0];
        assert a in alts;
      }
    }
  }

  /** An original-singer tag starts with an opening bracket followed by 原
      or オ. */
  lemma OriginalSingerStart(s: string, j: nat)
    ensures MatchAt(OriginalSinger, s, j).Some? ==> j + 1 < |s| && s[j] in "[(【［（" && s[j + 1] in "原オ"
  {
    var alts := ["原曲歌手", "オリジナルアーティスト", "オリジナル歌手"];
    if MatchAt(OriginalSinger, s, j).Some? {
      FirstLiteralStart(s, j + 1, alts);
    }
  }

  /** A pattern that matches at `i` is found by `Search` there or earlier. */
  lemma SearchNoLater(p: Pattern, s: string, i: nat)
    requires MatchAt(p, s, i).Some?
    ensures Search(p, s).Some? && Search(p, s).value.start <= i
  {
  }

  /** The leftmost match is the one `Search` returns. */
  lemma SearchFirst(p: Pattern, s: string, i: nat, m: Match)
    requires MatchAt(p, s, i) == Some(m)
    requires forall j :: 0 <= j < i ==> MatchAt(p, s, j).None?
    ensures Search(p, s) == Some(m)
  {
    SearchNoLater(p, s, i);
  }

  /** The pitch-tag patterns match where their matchers do. */
  lemma FoundAt(p: Pattern, s: string, i: nat, m: Match)
    requires p == CanonicalKey || p == KeyPrefix || p == KeySuffix
    requires i < |s|
    requires p == CanonicalKey ==> CanonicalKeyAt(s, i) == Some(m)
    requires p == KeyPrefix ==> KeyPrefixAt(s, i) == Some(m)
    requires p == KeySuffix ==> KeySuffixAt(s, i) == Some(m)
    ensures MatchAt(p, s, i) == Some(m)
    ensures Search(p, s).Some? && Search(p, s).value.start <= i
  {
    SearchNoLater(p, s, i);
  }

  /** `d0` is past an optional sign from `signs` at `i`. */
  predicate OptionalSign(s: string, i: nat, d0: nat, signs: string) {
    d0 == i || (d0 == i + 1 && i < |s| && s[i] in signs)
  }

  /** Completeness of the canonical tag: where `s` has, from `i`, an ASCII
      sign or none (up to `d0`), digits (up to `d`) and `KEY`, the pattern
      matches there and `Search` finds a match no later. */
  lemma CanonicalKeyFound(s: string, i: nat, d0: nat, d: nat)
    requires OptionalSign(s, i, d0, "+-")
    requires d0 < d && DigitRun(s, d0, d) && Occurs(s, "KEY", d)
    ensures MatchAt(CanonicalKey, s, i) == Some(Match(i, d + 3, i, d + 3))
    ensures Search(CanonicalKey, s).Some? && Search(CanonicalKey, s).value.start <= i
  {
    CanonicalKeyAtFound(s, i, d0, d);
    FoundAt(CanonicalKey, s, i, Match(i, d + 3, i, d + 3));
  }

  lemma CanonicalKeyAtFound(s: string, i: nat, d0: nat, d: nat)
    requires OptionalSign(s, i, d0, "+-")
    requires d0 < d && DigitRun(s, d0, d) && Occurs(s, "KEY", d)
    ensures i < |s| && CanonicalKeyAt(s, i) == Some(Match(i, d + 3, i, d + 3))
  {
    assert s[d] == "KEY"[0];
    SkipDigitsRun(s, d0, d);
  }

  /** Completeness of the suffix form: where `s` has, from `i`, a sign or
      none (up to `d0`), digits (up to `d`), spaces (up to `w`) and Key/キー
      (`n` characters), the pattern matches there with the sign and digits as
      its group, and `Search` finds a match no later. */
  lemma KeySuffixFound(s: string, i: nat, d0: nat, d: nat, w: nat, n: nat)
    requires OptionalSign(s, i, d0, KeySigns)
    requires d0 < d && DigitRun(s, d0, d)
    requires SpaceRun(s, d, w) && KeyWordAt(s, w, n)
    ensures MatchAt(KeySuffix, s, i) == Some(Match(i, w + n, i, d))
    ensures Search(KeySuffix, s).Some? && Search(KeySuffix, s).value.start <= i
  {
    KeySuffixAtFound(s, i, d0, d, w, n);
    FoundAt(KeySuffix, s, i, Match(i, w + n, i, d));
  }

  lemma KeySuffixAtFound(s: string, i: nat, d0: nat, d: nat, w: nat, n: nat)
    requires OptionalSign(s, i, d0, KeySigns)
    requires d0 < d && DigitRun(s, d0, d)
    requires SpaceRun(s, d, w) && KeyWordAt(s, w, n)
    ensures i < |s| && KeySuffixAt(s, i) == Some(Match(i, w + n, i, d))
  {
    KeyWordMatches(s, w, n);
    SkipSpaceRun(s, d, w);
    SkipDigitsRun(s, d0, d);
    SignBeforeDigit(s, i, d0, KeySigns);
  }

  /** Where the sign is optional, a digit at `i` means there is none. */
  lemma SignBeforeDigit(s: string, i: nat, d0: nat, signs: string)
    requires OptionalSign(s, i, d0, signs) && d0 < |s| && IsDigit(s[d0])
    requires forall c :: c in signs ==> !IsDigit(c)
    ensures (if s[i] in signs then i + 1 else i) == d0
  {
  }

  /** Completeness of the prefix form: where `s` has, from `i`, Key/キー
      (`n` characters), spaces (up to `c`), a colon of either width or none
      (up to `c'`), spaces (up to `g`), a sign or none (up to `d0`) and digits
      (up to `d`) not followed by another digit, the pattern matches there with
      the sign and digits as its group, and `Search` finds a match no later. */
  lemma KeyPrefixFound(s: string, i: nat, n: nat, c: nat, c': nat, g: nat, d0: nat, d: nat)
    requires KeyWordAt(s, i, n) && SpaceRun(s, i + n, c)
    requires OptionalSign(s, c, c', ":：") && SpaceRun(s, c', g)
    requires OptionalSign(s, g, d0, KeySigns) && d0 < d && DigitRun(s, d0, d)
    requires d == |s| || !IsDigit(s[d])
    ensures MatchAt(KeyPrefix, s, i) == Some(Match(i, d, g, d))
    ensures Search(KeyPrefix, s).Some? && Search(KeyPrefix, s).value.start <= i
  {
    KeyPrefixAtFound(s, i, n, c, c', g, d0, d);
    FoundAt(KeyPrefix, s, i, Match(i, d, g, d));
  }

  lemma KeyPrefixAtFound(s: string, i: nat, n: nat, c: nat, c': nat, g: nat, d0: nat, d: nat)
    requires KeyWordAt(s, i, n) && SpaceRun(s, i + n, c)
    requires OptionalSign(s, c, c', ":：") && SpaceRun(s, c', g)
    requires OptionalSign(s, g, d0, KeySigns) && d0 < d && DigitRun(s, d0, d)
    requires d == |s| || !IsDigit(s[d])
    ensures i < |s| && KeyPrefixAt(s, i) == Some(Match(i, d, g, d))
  {
    KeyWordMatches(s, i, n);
    SkipDigitsRun(s, d0, d);
    SignBeforeDigit(s, g, d0, KeySigns);
    assert !IsSpace(s[g]) && s[g] !in ":：" by {
      SignOrDigitIsNoSeparator(s[g]);
    }
    var j1, j2 := KeyPrefixSpaces(s, i + n, c, c', g);
    KeyPrefixAtSteps(s, i, i + n, j1, j2, g, d0, d);
  }

  lemma SignOrDigitIsNoSeparator(c: char)
    requires c in KeySigns || IsDigit(c)
    ensures !IsSpace(c) && c !in ":："
  {
  }

  /** The spaces, colon and spaces between the keyword and the number. */
  lemma KeyPrefixSpaces(s: string, j: nat, c: nat, c': nat, g: nat) returns (j1: nat, j2: nat)
    requires SpaceRun(s, j, c) && OptionalSign(s, c, c', ":：") && SpaceRun(s, c', g)
    requires g < |s| && !IsSpace(s[g]) && s[g] !in ":："
    ensures j1 == SkipSpace(s, j)
    ensures j2 == (if j1 < |s| && s[j1] in ":：" then j1 + 1 else j1)
    ensures SkipSpace(s, j2) == g
  {
    if c' == c {
      SkipSpaceRun(s, j, g);
      SkipSpaceRun(s, g, g);
      j1, j2 := g, g;
    } else {
      SkipSpaceRun(s, j, c);
      SkipSpaceRun(s, c', g);
      j1, j2 := c, c';
    }
  }

  lemma KeyPrefixAtSteps(s: string, i: nat, j: nat, j1: nat, j2: nat, g: nat, d0: nat, d: nat)
    requires i < |s| && KeyWordEnd(s, i) == Some(j) && j <= |s|
    requires j1 == SkipSpace(s, j)
    requires j2 == (if j1 < |s| && s[j1] in ":：" then j1 + 1 else j1)
    requires j2 <= |s| && g == SkipSpace(s, j2)
    requires d0 == (if g < |s| && s[g] in KeySigns then g + 1 else g)
    requires d0 <= |s| && SkipDigits(s, d0) == d && d > d0
    ensures KeyPrefixAt(s, i) == Some(Match(i, d, g, d))
  {
  }

  /** A lazy group followed by a closer ends at the first closer, when no
      newline comes before it. */
  lemma {:induction false} LazyToCharFound(s: string, j: nat, closers: string, k: nat)
    requires j <= k < |s| && s[k] in closers
    requires forall t :: j <= t < k ==> s[t] !in closers && s[t] != '\n'
    ensures LazyToChar(s, j, closers) == Some(k)
    decreases k - j
  {
    if j < k {
      LazyToCharFound(s, j + 1, closers, k);
    }
  }

  /** `s[i..i + n]` is one of the three original-singer words. */
  predicate SingerWordAt(s: string, i: nat, n: nat) {
    (n == 4 && Occurs(s, "原曲歌手", i))
    || (n == 11 && Occurs(s, "オリジナルアーティスト", i))
    || (n == 7 && Occurs(s, "オリジナル歌手", i))
  }

  /** An occurrence of `t` at `i` fixes each character it covers. */
  lemma OccursChar(s: string, t: string, i: nat, k: nat)
    requires k < |t|
    ensures Occurs(s, t, i) ==> s[i + k] == t[k]
  {
    if Occurs(s, t, i) {
      assert s[i + k] == s[i..i + |t|][k];
    }
  }

  /** The alternation finds whichever of the three words is present: they
      differ at their first or their sixth character. */
  lemma SingerWordMatches(s: string, i: nat, n: nat)
    requires SingerWordAt(s, i, n)
    ensures FirstLiteral(s, i, ["原曲歌手", "オリジナルアーティスト", "オリジナル歌手"], false) == Some(i + n)
  {
    var alts := ["原曲歌手", "オリジナルアーティスト", "オリジナル歌手"];
    if n != 4 {
      assert s[i] == s[i..i + n][0] == 'オ';
      OccursChar(s, alts[0], i, 0);
      var rest := alts[1..];
      assert rest == [alts[1], alts[2]];
      if n == 11 {
        assert Occurs(s, rest[0], i);
        assert FirstLiteral(s, i, rest, false) == Some(i + 11);
      } else {
        assert s[i + 5] == s[i..i + 7][5] == '歌';
        OccursChar(s, rest[0], i, 5);
        assert rest[1..] == [alts[2]];
        assert FirstLiteral(s, i, rest[1..], false) == Some(i + 7);
        assert FirstLiteral(s, i, rest, false) == Some(i + 7);
      }
      assert FirstLiteral(s, i, alts, false) == FirstLiteral(s, i, rest, false);
    }
  }

  /** Completeness of the original-singer tag: where `s` has, from `i`, an
      opening bracket, one of the three words (`n` characters), a colon of
      either width, and then text without a closer or a newline up to a
      closer at `k`, the pattern matches there with that text as its group,
      and `Search` finds a match no later. */
  lemma OriginalSingerFound(s: string, i: nat, n: nat, k: nat)
    requires i < |s| && s[i] in "[(【［（" && SingerWordAt(s, i + 1, n)
    requires i + n + 1 < |s| && s[i + n + 1] in ":："
    requires i + n + 2 <= k < |s| && s[k] in "])】］）"
    requires forall t :: i + n + 2 <= t < k ==> s[t] !in "])】］）" && s[t] != '\n'
    ensures MatchAt(OriginalSinger, s, i) == Some(Match(i, k + 1, i + n + 2, k))
    ensures Search(OriginalSinger, s).Some? && Search(OriginalSinger, s).value.start <= i
  {
    SingerWordMatches(s, i + 1, n);
    LazyToCharFound(s, i + n + 2, "])】］）", k);
    assert OriginalSingerAt(s, i) == Some(Match(i, k + 1, i + n + 2, k));
    SearchNoLater(OriginalSinger, s, i);
  }

  /** The angle-bracket search of main.py:113: a lazy group, optional
      whitespace, then a lazy group inside 《 and 》.  It yields the text
      before the first 《…》 on its line (without the spaces in front of 《)
      and the text inside. */
  datatype AngleMatch = AngleMatch(outerStart: nat, outerEnd: nat, innerStart: nat, innerEnd: nat)

  predicate AngleWellFormed(m: AngleMatch, s: string) {
    m.outerStart <= m.outerEnd < m.innerStart <= m.innerEnd < |s|
  }

  /** The lazy first group tried with end `j`, for a fixed start `i`. */
  function AngleAt(s: string, i: nat, j: nat): (r: Option<AngleMatch>)
    requires i <= j <= |s|
    decreases |s| - j
    ensures r.Some? ==> r.value.outerStart == i && AngleWellFormed(r.value, s)
    ensures r.Some? ==> s[r.value.innerStart - 1] == '《' && s[r.value.innerEnd] == '》'
  {
    var k := SkipSpace(s, j);
    var inner := if k < |s| && s[k] == '《' then LazyToChar(s, k + 1, "》") else None;
    if inner.Some? then Some(AngleMatch(i, j, k + 1, inner.value))
    else if j < |s| && s[j] != '\n' then AngleAt(s, i, j + 1)
    else None
  }

  function SearchAngleFrom(s: string, i: nat): (r: Option<AngleMatch>)
    requires i <= |s|
    decreases |s| - i
    ensures r.Some? ==> AngleWellFormed(r.value, s)
  {
    match AngleAt(s, i, i)
    case Some(m) => Some(m)
    case None => if i < |s| then SearchAngleFrom(s, i + 1) else None
  }

  function SearchAngle(s: string): (r: Option<AngleMatch>)
    ensures r.Some? ==> AngleWellFormed(r.value, s)
  {
    SearchAngleFrom(s, 0)
  }
}

/**
 * String primitives that the engine borrows from Python's `str`: substring
 * search (`in`, `find`, `rfind`), `replace`, `strip`, `split()`, `lower()`.
 * Strings are sequences of Unicode scalar values.
 */
module Text {
  import opened Wrappers

  /** Python's `str.isspace()`; also what `\s`, `strip()` and `split()` use. */
  predicate IsSpace(c: char) {
    c == ' ' || '\t' <= c <= '\r' || '\U{001C}' <= c <= '\U{001F}'
    || c == '\U{0085}' || c == '\U{00A0}' || c == '\U{1680}'
    || '\U{2000}' <= c <= '\U{200A}' || c == '\U{2028}' || c == '\U{2029}'
    || c == '\U{202F}' || c == '\U{205F}' || c == '\U{3000}'
  }

  /** The decimal digits `\d` matches: ASCII and full-width. */
  predicate IsDigit(c: char) {
    '0' <= c <= '9' || '０' <= c <= '９'
  }

  predicate AllDigits(s: string) {
    forall i :: 0 <= i < |s| ==> IsDigit(s[i])
  }

  /** `t` occurs in `s` at index `i`. */
  predicate Occurs(s: string, t: string, i: nat) {
    i + |t| <= |s| && s[i..i + |t|] == t
  }

  /** An occurrence puts the first character of `t` into `s`. */
  lemma OccursFirst(s: string, t: string, i: nat)
    ensures Occurs(s, t, i) && t != [] ==> t[0] in s
  {
    if Occurs(s, t, i) && t != [] {
      assert s[i] == s[i..i + |t|][0];
    }
  }

  /** The first occurrence of `t` in `s` at or after `from` (`str.find`). */
  function IndexOfFrom(s: string, t: string, from: nat): (r: Option<nat>)
    decreases |s| - from
    ensures r.Some? ==> from <= r.value && Occurs(s, t, r.value)
    ensures r.Some? ==> forall j :: from <= j < r.value ==> !Occurs(s, t, j)
    ensures r.None? ==> forall j :: from <= j ==> !Occurs(s, t, j)
  {
    if from + |t| > |s| then None
    else if s[from..from + |t|] == t then Some(from)
    else IndexOfFrom(s, t, from + 1)
  }

  function IndexOf(s: string, t: string): Option<nat> {
    IndexOfFrom(s, t, 0)
  }

  /** Python's `s.split(sep)[0]`: the text before the first `sep`, or all of `s`. */
  function SplitHead(s: string, sep: string): (r: string)
    requires |sep| > 0
    ensures |r| <= |s| && r == s[..|r|]
    ensures IndexOf(s, sep).Some? ==> Occurs(s, sep, |r|) && forall j :: 0 <= j < |r| ==> !Occurs(s, sep, j)
    ensures IndexOf(s, sep).None? ==> r == s
  {
    match IndexOf(s, sep)
    case Some(k) => s[..k]
    case None => s
  }

  /** Python's `t in s`. */
  predicate Contains(s: string, t: string) {
    IndexOf(s, t).Some?
  }

  lemma ContainsIff(s: string, t: string)
    ensures Contains(s, t) <==> exists i: nat :: Occurs(s, t, i)
  {
  }

  /** A string containing `t` holds the first character of `t`. */
  lemma ContainsHead(s: string, t: string)
    ensures Contains(s, t) && t != [] ==> t[0] in s
  {
    if Contains(s, t) && t != [] {
      OccursFirst(s, t, IndexOf(s, t).value);
    }
  }

  /** An occurrence of a longer marker is an occurrence of each of its prefixes. */
  lemma {:induction false} ContainsPrefixOf(s: string, t: string, n: nat)
    requires Contains(s, t) && n <= |t|
    ensures Contains(s, t[..n])
  {
    var i := IndexOf(s, t).value;
    assert s[i..i + |t|][..n] == s[i..i + n];
    assert Occurs(s, t[..n], i);
  }

  /** An occurrence in a text is an occurrence in any extension of it. */
  lemma {:induction false} ContainsAppend(s: string, rest: string, t: string)
    requires Contains(s, t)
    ensures Contains(s + rest, t)
  {
    var i := IndexOf(s, t).value;
    assert (s + rest)[i..i + |t|] == s[i..i + |t|];
    assert Occurs(s + rest, t, i);
  }

  /** The first index of a character of `cs` (`re.search(r"[...]", s)`). */
  function IndexOfAnyFrom(s: string, cs: string, from: nat): (r: Option<nat>)
    decreases |s| - from
    ensures r.Some? ==> from <= r.value < |s| && s[r.value] in cs
    ensures r.Some? ==> forall j :: from <= j < r.value ==> s[j] !in cs
    ensures r.None? ==> forall j :: from <= j < |s| ==> s[j] !in cs
  {
    if from >= |s| then None
    else if s[from] in cs then Some(from)
    else IndexOfAnyFrom(s, cs, from + 1)
  }

  /** The last index of `c` before `upto` (`str.rfind`). */
  function LastIndexOf(s: string, c: char, upto: nat): (r: Option<nat>)
    requires upto <= |s|
    ensures r.Some? ==> r.value < upto && s[r.value] == c
    ensures r.Some? ==> forall j :: r.value < j < upto ==> s[j] != c
    ensures r.None? ==> forall j :: 0 <= j < upto ==> s[j] != c
  {
    if upto == 0 then None
    else if s[upto - 1] == c then Some(upto - 1)
    else LastIndexOf(s, c, upto - 1)
  }

  /** Python's `s.replace(pat, rep)` for a non-empty `pat`: leftmost, non-overlapping. */
  function Replace(s: string, pat: string, rep: string): (r: string)
    requires |pat| > 0
    decreases |s|
  {
    if |s| < |pat| then s
    else if s[..|pat|] == pat then rep + Replace(s[|pat|..], pat, rep)
    else [s[0]] + Replace(s[1..], pat, rep)
  }

  /** Replacing one character by another leaves no copy of the first. */
  lemma {:induction false} ReplaceCharRemoves(s: string, a: char, b: char)
    requires a != b
    ensures a !in Replace(s, [a], [b])
    decreases |s|
  {
    if |s| >= 1 {
      ReplaceCharRemoves(s[1..], a, b);
    }
  }

  /** Replacing one character by another maps the string character by character. */
  lemma {:induction false} ReplaceCharMap(s: string, a: char, b: char)
    ensures |Replace(s, [a], [b])| == |s|
    ensures forall k :: 0 <= k < |s| ==> Replace(s, [a], [b])[k] == (if s[k] == a then b else s[k])
    decreases |s|
  {
    if |s| >= 1 {
      ReplaceCharMap(s[1..], a, b);
      var head := if s[..1] == [a] then [b] else [s[0]];
      assert s[..1] == [s[0]];
      assert Replace(s, [a], [b]) == head + Replace(s[1..], [a], [b]);
    }
  }

  /** A string without `pat` is left as it is by `replace`. */
  lemma {:induction false} ReplaceAbsent(s: string, a: char, b: char)
    requires a !in s
    ensures Replace(s, [a], [b]) == s
    decreases |s|
  {
    if |s| >= 1 {
      assert s[..1] == [s[0]];
      ReplaceAbsent(s[1..], a, b);
      assert [s[0]] + s[1..] == s;
    }
  }

  /** A prefix holding no copy of the pattern's first character is left as it is. */
  lemma {:induction false} ReplaceKeepsPrefix(x: string, y: string, pat: string, rep: string)
    requires |pat| > 0 && pat[0] !in x
    ensures Replace(x + y, pat, rep) == x + Replace(y, pat, rep)
    decreases |x|
  {
    if x != [] {
      var s := x + y;
      assert s[0] == x[0] && s[1..] == x[1..] + y;
      assert |s| >= |pat| ==> s[..|pat|][0] == x[0];
      ReplaceKeepsPrefix(x[1..], y, pat, rep);
    } else {
      assert x + y == y;
    }
  }

  lemma ReplaceWhole(pat: string, rep: string)
    requires |pat| > 0
    ensures Replace(pat, pat, rep) == rep
  {
    assert pat[..|pat|] == pat && pat[|pat|..] == [];
  }

  /** Every character `replace` yields comes from `s` or from `rep`. */
  lemma {:induction false} ReplaceChars(s: string, pat: string, rep: string, c: char)
    requires |pat| > 0 && c in Replace(s, pat, rep)
    ensures c in s || c in rep
    decreases |s|
  {
    if |s| >= |pat| {
      if s[..|pat|] == pat {
        if c !in rep {
          ReplaceChars(s[|pat|..], pat, rep, c);
        }
      } else if c != s[0] {
        ReplaceChars(s[1..], pat, rep, c);
      }
    }
  }

  function TrimStart(s: string): (r: string)
    ensures |r| <= |s|
    ensures r != [] ==> !IsSpace(r[0])
    ensures forall i :: 0 <= i < |s| - |r| ==> IsSpace(s[i])
  {
    if |s| > 0 && IsSpace(s[0]) then
      var r := TrimStart(s[1..]);
      assert forall i :: 1 <= i < |s| ==> s[i] == s[1..][i - 1];
      r
    else s
  }

  function TrimEnd(s: string): (r: string)
    ensures |r| <= |s|
    ensures r != [] ==> !IsSpace(r[|r| - 1])
    ensures forall i :: |r| <= i < |s| ==> IsSpace(s[i])
  {
    if |s| > 0 && IsSpace(s[|s| - 1]) then
      var r := TrimEnd(s[..|s| - 1]);
      assert forall i :: 0 <= i < |s| - 1 ==> s[i] == s[..|s| - 1][i];
      r
    else s
  }
  /** What `TrimStart` keeps is a suffix of `s`. */
  lemma {:induction false} TrimStartIsSuffix(s: string)
    ensures TrimStart(s) == s[|s| - |TrimStart(s)|..]
    decreases |s|
  {
    if |s| > 0 && IsSpace(s[0]) {
      TrimStartIsSuffix(s[1..]);
      assert s[1..][|s| - 1 - |TrimStart(s[1..])|..] == s[|s| - |TrimStart(s)|..];
    }
  }

  /** What `TrimEnd` keeps is a prefix of `s`. */
  lemma {:induction false} TrimEndIsPrefix(s: string)
    ensures TrimEnd(s) == s[..|TrimEnd(s)|]
    decreases |s|
  {
    if |s| > 0 && IsSpace(s[|s| - 1]) {
      TrimEndIsPrefix(s[..|s| - 1]);
      assert s[..|s| - 1][..|TrimEnd(s)|] == s[..|TrimEnd(s)|];
    }
  }


  /** `r` is the slice `s[lo..hi]` and everything of `s` outside it is whitespace. */
  predicate IsStripOf(s: string, r: string, lo: nat, hi: nat) {
    lo <= hi <= |s| && r == s[lo..hi]
    && (forall k :: 0 <= k < lo ==> IsSpace(s[k]))
    && (forall k :: hi <= k < |s| ==> IsSpace(s[k]))
  }

  /** Python's `s.strip()`: the slice of `s` between its leading and its
      trailing run of whitespace. */
  function Strip(s: string): (r: string)
    ensures r == [] || (!IsSpace(r[0]) && !IsSpace(r[|r| - 1]))
    ensures forall c :: c in r ==> c in s
  {
    var t := TrimStart(s);
    var r := TrimEnd(t);
    TrimStartIsSuffix(s);
    TrimEndIsPrefix(t);
    SliceChars(s, |s| - |t|, |s|);
    SliceChars(t, 0, |r|);
    r
  }

  /** What `strip` keeps is a slice of `s` with only whitespace around it;
      `StripUnique` shows it is the only such slice. */
  lemma StripIsStripOf(s: string)
    ensures exists lo: nat, hi: nat :: IsStripOf(s, Strip(s), lo, hi)
  {
    var t := TrimStart(s);
    var r := TrimEnd(t);
    assert Strip(s) == r;
    TrimStartIsSuffix(s);
    TrimEndIsPrefix(t);
    TrimmedParts(s, t, r);
    assert IsStripOf(s, Strip(s), |s| - |t|, |s| - |t| + |r|);
  }

  /** A whitespace prefix cut off `s`, then a whitespace suffix cut off the rest. */
  lemma TrimmedParts(s: string, t: string, r: string)
    requires |t| <= |s| && t == s[|s| - |t|..]
    requires forall k :: 0 <= k < |s| - |t| ==> IsSpace(s[k])
    requires |r| <= |t| && r == t[..|r|]
    requires forall k :: |r| <= k < |t| ==> IsSpace(t[k])
    ensures IsStripOf(s, r, |s| - |t|, |s| - |t| + |r|)
  {
    var lo := |s| - |t|;
    assert r == s[lo..lo + |r|];
    forall k | lo + |r| <= k < |s| ensures IsSpace(s[k]) {
      assert s[k] == t[k - lo];
    }
  }

  /** The slice `strip` returns is the only one with whitespace around it
      and none at its ends. */
  lemma StripUnique(s: string, r: string, lo: nat, hi: nat)
    requires IsStripOf(s, r, lo, hi)
    requires r == [] || (!IsSpace(r[0]) && !IsSpace(r[|r| - 1]))
    ensures Strip(s) == r
  {
    var x := Strip(s);
    StripIsStripOf(s);
    var lo': nat, hi': nat :| IsStripOf(s, x, lo', hi');
    StripSlicesAgree(s, r, lo, hi, x, lo', hi');
  }

  lemma StripSlicesAgree(s: string, r: string, lo: nat, hi: nat, x: string, lo': nat, hi': nat)
    requires IsStripOf(s, r, lo, hi) && IsStripOf(s, x, lo', hi')
    requires r == [] || (!IsSpace(r[0]) && !IsSpace(r[|r| - 1]))
    requires x == [] || (!IsSpace(x[0]) && !IsSpace(x[|x| - 1]))
    ensures r == x
  {
    StripSliceEmpty(s, r, lo, hi);
    StripSliceEmpty(s, x, lo', hi');
    if r != [] {
      assert s[lo] == r[0] && s[lo'] == x[0];
      assert s[hi - 1] == r[|r| - 1] && s[hi' - 1] == x[|x| - 1];
      assert lo == lo' && hi == hi';
    }
  }

  predicate AllSpace(s: string) {
    forall k :: 0 <= k < |s| ==> IsSpace(s[k])
  }

  lemma StripSliceEmpty(s: string, r: string, lo: nat, hi: nat)
    requires IsStripOf(s, r, lo, hi)
    requires r == [] || (!IsSpace(r[0]) && !IsSpace(r[|r| - 1]))
    ensures r == [] <==> AllSpace(s)
  {
    assert r == [] ==> AllSpace(s);
    assert AllSpace(s) ==> r == [] by {
      if r != [] {
        assert r[0] == s[lo];
      }
    }
  }

  /** Every character of a slice occurs in the whole string. */
  lemma SliceChars(s: string, lo: nat, hi: nat)
    requires lo <= hi <= |s|
    ensures forall c :: c in s[lo..hi] ==> c in s
  {
    forall c | c in s[lo..hi] ensures c in s {
      var k :| 0 <= k < hi - lo && s[lo..hi][k] == c;
      assert s[lo + k] == c;
    }
  }

  /** One more trailing space makes no difference to `strip`. */
  lemma StripTrailingSpace(x: string)
    ensures Strip(x + " ") == Strip(x)
  {
    var r := Strip(x);
    StripIsStripOf(x);
    var lo: nat, hi: nat :| IsStripOf(x, r, lo, hi);
    var y := x + " ";
    assert y[lo..hi] == x[lo..hi];
    assert forall k :: 0 <= k < lo ==> y[k] == x[k];
    assert forall k :: hi <= k < |x| ==> y[k] == x[k];
    assert IsStripOf(y, r, lo, hi);
    StripUnique(y, r, lo, hi);
  }

  /** A string already stripped is a fixed point of `strip`. */
  lemma StripStripped(s: string)
    requires s == [] || (!IsSpace(s[0]) && !IsSpace(s[|s| - 1]))
    ensures Strip(s) == s
  {
  }

  /** The length of the run of non-space characters starting at `i`. */
  function NonSpaceEnd(s: string, i: nat): (r: nat)
    requires i <= |s|
    decreases |s| - i
    ensures i <= r <= |s|
    ensures forall k :: i <= k < r ==> !IsSpace(s[k])
    ensures r == |s| || IsSpace(s[r])
  {
    if i == |s| || IsSpace(s[i]) then i else NonSpaceEnd(s, i + 1)
  }

  predicate NoSpace(w: string) {
    forall k :: 0 <= k < |w| ==> !IsSpace(w[k])
  }

  /** The non-space characters of `s`, in order. */
  function NonSpaceChars(s: string): string {
    if s == [] then [] else (if IsSpace(s[0]) then [] else [s[0]]) + NonSpaceChars(s[1..])
  }

  function Flatten(ws: seq<string>): string {
    if ws == [] then [] else ws[0] + Flatten(ws[1..])
  }

  lemma {:induction false} NonSpaceCharsConcat(a: string, b: string)
    ensures NonSpaceChars(a + b) == NonSpaceChars(a) + NonSpaceChars(b)
  {
    if a == [] {
      assert a + b == b;
    } else {
      assert (a + b)[0] == a[0] && (a + b)[1..] == a[1..] + b;
      NonSpaceCharsConcat(a[1..], b);
    }
  }

  lemma {:induction false} NonSpaceCharsOfWord(w: string)
    requires NoSpace(w)
    ensures NonSpaceChars(w) == w
  {
    if w != [] {
      assert !IsSpace(w[0]);
      NonSpaceCharsOfWord(w[1..]);
    }
  }

  /** Python's `s.split()`: the maximal runs of non-space characters.  The
      words are non-empty and hold no whitespace; `WordsKeepsChars` shows they
      spell the non-space characters of `s` in order, `WordsOfJoined` that no
      run is split. */
  function Words(s: string): (ws: seq<string>)
    decreases |s|
    ensures forall w :: w in ws ==> w != [] && NoSpace(w)
  {
    var t := TrimStart(s);
    if t == [] then
      []
    else
      var n := NonSpaceEnd(t, 0);
      assert n > 0 && |t[n..]| < |s|;
      var w := t[..n];
      assert w != [] && NoSpace(w);
      [w] + Words(t[n..])
  }

  /** The words hold every non-whitespace character of `s`, in order, and nothing else. */
  lemma {:induction false} WordsKeepsChars(s: string)
    ensures Flatten(Words(s)) == NonSpaceChars(s)
    decreases |s|
  {
    if s == [] {
    } else if IsSpace(s[0]) {
      WordsDropSpace(s);
      WordsKeepsChars(s[1..]);
    } else {
      var n := FirstWord(s);
      var w, rest := s[..n], s[n..];
      WordsCons(w, rest);
      WordsKeepsChars(rest);
      FlattenCons(w, Words(rest));
      NonSpaceCharsConcat(w, rest);
      NonSpaceCharsOfWord(w);
    }
  }

  /** Leading whitespace does not change the words. */
  lemma WordsDropSpace(s: string)
    requires s != [] && IsSpace(s[0])
    ensures Words(s) == Words(s[1..])
  {
    assert TrimStart(s) == TrimStart(s[1..]);
  }

  /** A string starting with a non-space splits into its first run of
      non-space characters and a rest that is empty or starts with a space. */
  lemma FirstWord(s: string) returns (n: nat)
    requires s != [] && !IsSpace(s[0])
    ensures 0 < n <= |s| && s == s[..n] + s[n..]
    ensures NoSpace(s[..n])
    ensures s[n..] == [] || IsSpace(s[n..][0])
  {
    n := NonSpaceEnd(s, 0);
    assert forall k :: 0 <= k < n ==> s[..n][k] == s[k];
  }

  lemma FlattenCons(w: string, ws: seq<string>)
    ensures Flatten([w] + ws) == w + Flatten(ws)
  {
    assert ([w] + ws)[0] == w && ([w] + ws)[1..] == ws;
  }

  /** Words joined by single spaces. */
  function JoinSpaced(ws: seq<string>): string {
    if ws == [] then [] else if |ws| == 1 then ws[0] else ws[0] + " " + JoinSpaced(ws[1..])
  }

  lemma NonSpaceEndOfWord(w: string, rest: string)
    requires w != [] && NoSpace(w)
    requires rest == [] || IsSpace(rest[0])
    ensures NonSpaceEnd(w + rest, 0) == |w|
  {
    var t := w + rest;
    assert forall k :: 0 <= k < |w| ==> t[k] == w[k];
    assert |w| == |t| || t[|w|] == rest[0];
  }

  /** A leading word followed by a space or nothing is the first word. */
  lemma WordsCons(w: string, rest: string)
    requires w != [] && NoSpace(w)
    requires rest == [] || IsSpace(rest[0])
    ensures Words(w + rest) == [w] + Words(rest)
  {
    var s := w + rest;
    assert s[0] == w[0];
    assert TrimStart(s) == s;
    NonSpaceEndOfWord(w, rest);
    assert s[..|w|] == w && s[|w|..] == rest;
  }

  /** Splitting words joined by spaces gives the words back. */
  lemma {:induction false} WordsOfJoined(ws: seq<string>)
    requires forall i :: 0 <= i < |ws| ==> ws[i] != [] && NoSpace(ws[i])
    ensures Words(JoinSpaced(ws)) == ws
  {
    if ws != [] {
      var w := ws[0];
      ConsSeq(ws);
      if |ws| == 1 {
        WordsOfWord(w);
      } else {
        WordsConsSpace(w, JoinSpaced(ws[1..]));
        WordsOfJoined(ws[1..]);
      }
    }
  }

  lemma ConsSeq<T>(xs: seq<T>)
    requires xs != []
    ensures xs == [xs[0]] + xs[1..]
  {
  }

  lemma WordsOfWord(w: string)
    requires w != [] && NoSpace(w)
    ensures Words(w) == [w]
  {
    var rest := w[|w|..];
    WordsCons(w, rest);
    assert w + rest == w;
    assert TrimStart(rest) == rest;
  }

  /** A word, a space and a rest: the word comes first, then the rest's words. */
  lemma WordsConsSpace(w: string, x: string)
    requires w != [] && NoSpace(w)
    ensures Words(w + " " + x) == [w] + Words(x)
  {
    var rest := " " + x;
    assert w + " " + x == w + rest;
    WordsCons(w, rest);
    assert rest[1..] == x;
    WordsDropSpace(rest);
  }

  /** Python's `str.lower()` on the letters this model covers: ASCII and full-width Latin. */
  function LowerChar(c: char): (r: char)
    ensures !('A' <= r <= 'Z') && !('Ａ' <= r <= 'Ｚ')
  {
    if 'A' <= c <= 'Z' || 'Ａ' <= c <= 'Ｚ' then (c as int + 32) as char else c
  }

  function Lower(s: string): (r: string)
    ensures |r| == |s|
    ensures forall i :: 0 <= i < |s| ==> r[i] == LowerChar(s[i])
  {
    seq(|s|, i requires 0 <= i < |s| => LowerChar(s[i]))
  }

  /** The ASCII case folding `re.IGNORECASE` applies to the model's patterns. */
  function FoldCase(c: char): char {
    if 'A' <= c <= 'Z' then (c as int + 32) as char else c
  }

  /** `lit` occurs at `i`, ignoring ASCII case. */
  predicate OccursCI(s: string, lit: string, i: nat) {
    i + |lit| <= |s| && forall k :: 0 <= k < |lit| ==> FoldCase(s[i + k]) == FoldCase(lit[k])
  }

  /** The end of the run of characters satisfying `\s` starting at `i`. */
  function SkipSpace(s: string, i: nat): (r: nat)
    requires i <= |s|
    decreases |s| - i
    ensures i <= r <= |s| && (r == |s| || !IsSpace(s[r]))
    ensures forall k :: i <= k < r ==> IsSpace(s[k])
  {
    if i < |s| && IsSpace(s[i]) then SkipSpace(s, i + 1) else i
  }

  /** The end of the run of characters of `cs` starting at `i`. */
  function SkipChars(s: string, i: nat, cs: string): (r: nat)
    requires i <= |s|
    decreases |s| - i
    ensures i <= r <= |s| && (r == |s| || s[r] !in cs)
    ensures forall k :: i <= k < r ==> s[k] in cs
  {
    if i < |s| && s[i] in cs then SkipChars(s, i + 1, cs) else i
  }

  /** The end of the run of digits starting at `i` (the greedy `\d+`, `\d*`). */
  function SkipDigits(s: string, i: nat): (r: nat)
    requires i <= |s|
    decreases |s| - i
    ensures i <= r <= |s| && (r == |s| || !IsDigit(s[r]))
    ensures AllDigits(s[i..r])
  {
    if i < |s| && IsDigit(s[i]) then SkipDigits(s, i + 1) else i
  }

  /** `s[i..j]` is all whitespace. */
  predicate SpaceRun(s: string, i: nat, j: nat) {
    i <= j <= |s| && forall k :: i <= k < j ==> IsSpace(s[k])
  }

  /** `s[i..j]` is all digits. */
  predicate DigitRun(s: string, i: nat, j: nat) {
    i <= j <= |s| && forall k :: i <= k < j ==> IsDigit(s[k])
  }

  /** A run of whitespace followed by a non-space character or the end is skipped whole. */
  lemma {:induction false} SkipSpaceRun(s: string, i: nat, j: nat)
    requires SpaceRun(s, i, j) && (j == |s| || !IsSpace(s[j]))
    ensures SkipSpace(s, i) == j
    decreases j - i
  {
    if i < j {
      SkipSpaceRun(s, i + 1, j);
    }
  }

  /** A run of digits followed by a non-digit or the end is skipped whole. */
  lemma {:induction false} SkipDigitsRun(s: string, i: nat, j: nat)
    requires DigitRun(s, i, j) && (j == |s| || !IsDigit(s[j]))
    ensures SkipDigits(s, i) == j
    decreases j - i
  {
    if i < j {
      SkipDigitsRun(s, i + 1, j);
    }
  }
}

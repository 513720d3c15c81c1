/**
 * The two text normalisers of backend/main.py: `clean_text`, applied to every
 * field the engine outputs, and `normalize_for_comparison`, the key used for
 * substring matching when scoring.
 */
module Normalize {
  import opened Text

  const IdeographicSpace: char := '\U{3000}'

  /** What `replace("　", " ")` does to one character. */
  function SpaceFold(c: char): char {
    if c == IdeographicSpace then ' ' else c
  }

  /** `r` is `text[lo..hi]` with full-width spaces made plain, and everything
      of `text` outside that slice is whitespace. */
  predicate IsCleanOf(text: string, r: string, lo: nat, hi: nat) {
    lo <= hi <= |text| && |r| == hi - lo
    && (forall k :: 0 <= k < |r| ==> r[k] == SpaceFold(text[lo + k]))
    && (forall k :: 0 <= k < lo ==> IsSpace(text[k]))
    && (forall k :: hi <= k < |text| ==> IsSpace(text[k]))
  }

  /** `clean_text` (main.py:74-76): the empty string stays empty; otherwise
      full-width spaces become spaces and surrounding whitespace is trimmed. */
  function CleanText(text: string): (r: string)
    ensures text == [] ==> r == []
    ensures r == [] || (!IsSpace(r[0]) && !IsSpace(r[|r| - 1]))
    ensures IdeographicSpace !in r
    ensures forall c :: c in r ==> c in text || c == ' '
  {
    if text == [] then
      []
    else
      var replaced := Replace(text, [IdeographicSpace], [' ']);
      ReplaceCharRemoves(text, IdeographicSpace, ' ');
      forall c | c in replaced ensures c in text || c == ' ' {
        ReplaceChars(text, [IdeographicSpace], [' '], c);
      }
      Strip(replaced)
  }

  /** The cleaned text is a slice of `text` with full-width spaces made
      plain, and only whitespace lies outside that slice. */
  lemma CleanTextIsCleanOf(text: string)
    ensures exists lo: nat, hi: nat :: IsCleanOf(text, CleanText(text), lo, hi)
  {
    if text == [] {
      assert IsCleanOf(text, CleanText(text), 0, 0);
    } else {
      var replaced := Replace(text, [IdeographicSpace], [' ']);
      assert CleanText(text) == Strip(replaced);
      StripIsStripOf(replaced);
      CleanSlice(text, replaced, Strip(replaced));
    }
  }

  lemma CleanSlice(text: string, replaced: string, r: string)
    requires replaced == Replace(text, [IdeographicSpace], [' '])
    requires exists lo: nat, hi: nat :: IsStripOf(replaced, r, lo, hi)
    ensures exists lo: nat, hi: nat :: IsCleanOf(text, r, lo, hi)
  {
    ReplaceCharMap(text, IdeographicSpace, ' ');
    var lo: nat, hi: nat :| IsStripOf(replaced, r, lo, hi);
    forall k | 0 <= k < |r| ensures r[k] == SpaceFold(text[lo + k]) {
      assert r[k] == replaced[lo + k];
    }
    forall k | 0 <= k < |text| && IsSpace(replaced[k]) ensures IsSpace(text[k]) {
      assert replaced[k] == SpaceFold(text[k]);
    }
    assert IsCleanOf(text, r, lo, hi);
  }

  /** A text already free of ideographic spaces and of outer whitespace is its own clean form. */
  lemma CleanTextOfClean(s: string)
    requires IdeographicSpace !in s
    requires s == [] || (!IsSpace(s[0]) && !IsSpace(s[|s| - 1]))
    ensures CleanText(s) == s
  {
    ReplaceAbsent(s, IdeographicSpace, ' ');
    StripStripped(s);
  }

  lemma CleanTextIdempotent(text: string)
    ensures CleanText(CleanText(text)) == CleanText(text)
  {
    var once := CleanText(text);
    if once != [] {
      ReplaceAbsent(once, IdeographicSpace, ' ');
      StripStripped(once);
    }
  }

  /** The part of Unicode NFKC folding the model covers: full-width ASCII
      forms become ASCII and the ideographic space becomes a space. */
  function NfkcChar(c: char): (r: char)
    ensures !('\U{FF01}' <= r <= '\U{FF5E}') && r != IdeographicSpace
  {
    if '\U{FF01}' <= c <= '\U{FF5E}' then (c as int - 0xFEE0) as char
    else if c == IdeographicSpace then ' '
    else c
  }

  function Nfkc(s: string): (r: string)
    ensures |r| == |s| && forall i :: 0 <= i < |s| ==> r[i] == NfkcChar(s[i])
  {
    seq(|s|, i requires 0 <= i < |s| => NfkcChar(s[i]))
  }

  /** The characters `normalize_for_comparison` deletes (main.py:81):
      marks, brackets, separators and every whitespace character. */
  predicate Ignorable(c: char) {
    c in "!！?？、。.,・･~～-−_＿「」『』()（）【】[]/／" || IsSpace(c)
  }

  function DropIgnorable(s: string): (r: string)
    ensures forall c :: c in r ==> c in s && !Ignorable(c)
  {
    if s == [] then []
    else if Ignorable(s[0]) then DropIgnorable(s[1..])
    else [s[0]] + DropIgnorable(s[1..])
  }

  /** `normalize_for_comparison` (main.py:78-82): NFKC, lower case, then the
      ignorable characters removed. */
  function NormalizeForComparison(text: string): (r: string)
    ensures text == [] ==> r == []
    ensures forall c :: c in r ==> !Ignorable(c) && !('A' <= c <= 'Z')
  {
    if text == [] then [] else DropIgnorable(Lower(Nfkc(text)))
  }

  /** A character that survives normalisation is a fixed point of every step. */
  predicate Normal(c: char) {
    !Ignorable(c) && !('A' <= c <= 'Z') && !('Ａ' <= c <= 'Ｚ') && !('\U{FF01}' <= c <= '\U{FF5E}')
  }

  lemma {:induction false} NormalChars(text: string, c: char)
    requires c in NormalizeForComparison(text)
    ensures Normal(c)
  {
    var f := Nfkc(text);
    var l := Lower(f);
    assert c in l;
    var i :| 0 <= i < |l| && l[i] == c;
    assert c == LowerChar(NfkcChar(text[i]));
  }

  lemma {:induction false} DropIgnorableNormal(s: string)
    requires forall c :: c in s ==> Normal(c)
    ensures DropIgnorable(s) == s
  {
    if s != [] {
      assert s[0] in s;
      assert forall c :: c in s[1..] ==> c in s;
      DropIgnorableNormal(s[1..]);
    }
  }

  /** A text made only of characters that survive normalisation is its own key. */
  lemma NormalizeNormal(s: string)
    requires forall i :: 0 <= i < |s| ==> Normal(s[i])
    ensures NormalizeForComparison(s) == s
  {
    if s != [] {
      assert Lower(Nfkc(s)) == s;
      forall c | c in s ensures Normal(c) {
        var i :| 0 <= i < |s| && s[i] == c;
      }
      DropIgnorableNormal(s);
    }
  }

  /** Normalising a normalised key changes nothing. */
  lemma NormalizeIdempotent(text: string)
    ensures NormalizeForComparison(NormalizeForComparison(text)) == NormalizeForComparison(text)
  {
    var n := NormalizeForComparison(text);
    forall i | 0 <= i < |n| ensures Normal(n[i]) {
      NormalChars(text, n[i]);
    }
    NormalizeNormal(n);
  }

  /** One character: folded by NFKC and lower case, then kept unless it is
      in the deleted class.  With `NormalizeConcat` this determines the key
      of every text. */
  lemma NormalizeChar(c: char)
    ensures var f := LowerChar(NfkcChar(c));
      NormalizeForComparison([c]) == if Ignorable(f) then [] else [f]
  {
    var f := LowerChar(NfkcChar(c));
    assert Lower(Nfkc([c])) == [f];
    assert DropIgnorable([f]) == (if Ignorable(f) then [] else [f]) + DropIgnorable([f][1..]);
    assert [f][1..] == [];
  }

  /** Of the dash glyphs, the key drops `-`, `−` and the full-width `－`
      (which NFKC makes `-`); the en dash, the em dash and ー stay. */
  lemma DashKeys(c: char)
    ensures c in "-−－" ==> NormalizeForComparison([c]) == []
    ensures c in "–—ー" ==> NormalizeForComparison([c]) == [c]
  {
    if c in "-−－" {
      DroppedDash(c);
    } else if c in "–—ー" {
      KeptDash(c);
    }
  }

  lemma DroppedDash(c: char)
    requires c in "-−－"
    ensures NormalizeForComparison([c]) == []
  {
    var f := LowerChar(NfkcChar(c));
    assert f == '-' || f == '−';
    NormalizeChar(c);
  }

  lemma KeptDash(c: char)
    requires c in "–—ー"
    ensures NormalizeForComparison([c]) == [c]
  {
    assert LowerChar(NfkcChar(c)) == c;
    assert !IsSpace(c);
    assert c == '–' || c == '—' || c == 'ー';
    NormalizeChar(c);
  }

  lemma {:induction false} DropIgnorableConcat(a: string, b: string)
    ensures DropIgnorable(a + b) == DropIgnorable(a) + DropIgnorable(b)
  {
    if a == [] {
      assert a + b == b;
    } else {
      assert (a + b)[0] == a[0];
      assert (a + b)[1..] == a[1..] + b;
      DropIgnorableConcat(a[1..], b);
    }
  }

  /** Normalisation works character by character, so it distributes over
      concatenation: the key of a joined text is the join of the keys. */
  lemma NormalizeConcat(a: string, b: string)
    ensures NormalizeForComparison(a + b) == NormalizeForComparison(a) + NormalizeForComparison(b)
  {
    if a != [] && b != [] {
      assert Lower(Nfkc(a + b)) == Lower(Nfkc(a)) + Lower(Nfkc(b));
      DropIgnorableConcat(Lower(Nfkc(a)), Lower(Nfkc(b)));
    } else if a == [] {
      assert a + b == b;
    } else {
      assert a + b == a;
    }
  }

  /** Comparison ignores letter case: lower-casing first changes no key. */
  lemma NormalizeIgnoresCase(text: string)
    ensures NormalizeForComparison(Lower(text)) == NormalizeForComparison(text)
  {
    if text != [] {
      assert Lower(Nfkc(Lower(text))) == Lower(Nfkc(text));
    }
  }
}

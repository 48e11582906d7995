/**
 * Character and string helpers the source takes from the JavaScript runtime:
 * `stripAccents` (utils/wordUtils.js:4-7), `toUpperCase`, `trim`, and
 * `String.prototype.replace` with a global, case-insensitive pattern.
 *
 * Unicode normalisation and case mapping are library tables; here they are
 * stand-ins that cover ASCII, Latin-1 and the Latin Extended-A letters the
 * word banks use. Most of what is proved elsewhere holds whatever these
 * tables say; the exception is `DevHelpers.FillerRowsDoNotWin`, which relies,
 * through `NormalizeTyped`, on `UpperChar` and `BaseLetter` mapping each of
 * 'A'..'Z' to itself and treating none of them as a combining mark.
 */
module Text {

  /** Upper case of one character (ASCII, Latin-1, Latin Extended-A pairs). */
  function UpperChar(c: char): char {
    var n := c as int;
    if 'a' <= c <= 'z' then (n - 32) as char
    else if 0xE0 <= n <= 0xFE && n != 0xF7 then (n - 32) as char
    else if n == 0xFF then 0x178 as char
    else if (0x100 <= n <= 0x137 || 0x14A <= n <= 0x177) && n % 2 == 1 then (n - 1) as char
    else if (0x139 <= n <= 0x148 || 0x179 <= n <= 0x17E) && n % 2 == 0 then (n - 1) as char
    else c
  }

  /** `s.toUpperCase()`, one character at a time. */
  function Upper(s: string): (r: string)
    ensures |r| == |s|
    ensures forall i :: 0 <= i < |s| ==> r[i] == UpperChar(s[i])
  {
    seq(|s|, i requires 0 <= i < |s| => UpperChar(s[i]))
  }

  /** A combining diacritical mark, U+0300 to U+036F: what `stripAccents` deletes after decomposition. */
  predicate IsCombiningMark(c: char) {
    0x300 <= c as int <= 0x36F
  }

  /** The base letter of a precomposed accented letter (the first code point of its decomposition). */
  function BaseLetter(c: char): char {
    var n := c as int;
    if 0xC0 <= n <= 0xC5 then 'A' else if n == 0xC7 then 'C'
    else if 0xC8 <= n <= 0xCB then 'E' else if 0xCC <= n <= 0xCF then 'I'
    else if n == 0xD1 then 'N' else if 0xD2 <= n <= 0xD6 then 'O'
    else if 0xD9 <= n <= 0xDC then 'U' else if n == 0xDD then 'Y'
    else if 0xE0 <= n <= 0xE5 then 'a' else if n == 0xE7 then 'c'
    else if 0xE8 <= n <= 0xEB then 'e' else if 0xEC <= n <= 0xEF then 'i'
    else if n == 0xF1 then 'n' else if 0xF2 <= n <= 0xF6 then 'o'
    else if 0xF9 <= n <= 0xFC then 'u' else if n == 0xFD || n == 0xFF then 'y'
    else if n == 0x10C then 'C' else if n == 0x10D then 'c'
    else if n == 0x10E then 'D' else if n == 0x10F then 'd'
    else if n == 0x11A then 'E' else if n == 0x11B then 'e'
    else if n == 0x147 then 'N' else if n == 0x148 then 'n'
    else if n == 0x158 then 'R' else if n == 0x159 then 'r'
    else if n == 0x160 then 'S' else if n == 0x161 then 's'
    else if n == 0x164 then 'T' else if n == 0x165 then 't'
    else if n == 0x16E then 'U' else if n == 0x16F then 'u'
    else if n == 0x17D then 'Z' else if n == 0x17E then 'z'
    else c
  }

  /** `stripAccents(s)`: decompose, then drop the combining marks. */
  function StripAccents(s: string): (r: string)
    ensures |r| <= |s|
  {
    if s == [] then []
    else (if IsCombiningMark(s[0]) then [] else [BaseLetter(s[0])]) + StripAccents(s[1..])
  }

  /** The normalised form the game compares words by: accents stripped, then upper-cased. */
  function Normalize(s: string): string {
    Upper(StripAccents(s))
  }

  predicate IsAsciiUpper(c: char) {
    'A' <= c <= 'Z'
  }

  /** Every character is one of A to Z: what the game's keyboard can type. */
  predicate AllAsciiUpper(s: string) {
    forall i :: 0 <= i < |s| ==> IsAsciiUpper(s[i])
  }

  /** A word typed on the keyboard is its own normalised form. */
  lemma {:induction false} NormalizeTyped(s: string)
    requires AllAsciiUpper(s)
    ensures StripAccents(s) == s
    ensures Normalize(s) == s
  {
    if s != [] {
      NormalizeTyped(s[1..]);
      assert StripAccents(s) == [s[0]] + s[1..];
    }
  }

  /** Upper-casing twice is upper-casing once. */
  lemma UpperIdempotent(s: string)
    ensures Upper(Upper(s)) == Upper(s)
  {
  }

  /** White space as JavaScript's `trim` sees it. */
  predicate IsSpace(c: char) {
    var n := c as int;
    (0x09 <= n <= 0x0D) || n == 0x20 || n == 0xA0 || n == 0x1680
    || (0x2000 <= n <= 0x200A) || n == 0x2028 || n == 0x2029
    || n == 0x202F || n == 0x205F || n == 0x3000 || n == 0xFEFF
  }

  function TrimStart(s: string): (r: string)
    ensures |r| <= |s|
    ensures r == s[|s| - |r|..]
    ensures r != [] ==> !IsSpace(r[0])
    ensures forall i :: 0 <= i < |s| - |r| ==> IsSpace(s[i])
  {
    if s != [] && IsSpace(s[0]) then TrimStart(s[1..]) else s
  }

  function TrimEnd(s: string): (r: string)
    ensures |r| <= |s|
    ensures r == s[..|r|]
    ensures r != [] ==> !IsSpace(r[|r| - 1])
    ensures forall i :: |r| <= i < |s| ==> IsSpace(s[i])
  {
    if s != [] && IsSpace(s[|s| - 1]) then TrimEnd(s[..|s| - 1]) else s
  }

  /** `s.trim()`: a contiguous piece of `s` with no white space at either end. */
  function Trim(s: string): (r: string)
    ensures |r| <= |TrimStart(s)| <= |s| && r == TrimStart(s)[..|r|]
    ensures r != [] ==> !IsSpace(r[0]) && !IsSpace(r[|r| - 1])
    ensures var a := |s| - |TrimStart(s)|;
            a + |r| <= |s| && r == s[a..a + |r|] &&
            (forall i :: 0 <= i < a ==> IsSpace(s[i])) &&
            (forall i :: a + |r| <= i < |s| ==> IsSpace(s[i]))
  {
    TrimEnd(TrimStart(s))
  }

  /** Two characters that a case-insensitive regular expression treats as equal. */
  predicate SameIgnoringCase(a: char, b: char) {
    UpperChar(a) == UpperChar(b)
  }

  /** `pat` occurs in `s` at position `i`, letters compared ignoring case. */
  predicate MatchesAt(s: string, pat: string, i: int) {
    0 <= i && i + |pat| <= |s|
    && forall k :: 0 <= k < |pat| ==> SameIgnoringCase(s[i + k], pat[k])
  }

  predicate ContainsIgnoringCase(s: string, pat: string) {
    exists i :: 0 <= i <= |s| && MatchesAt(s, pat, i)
  }

  /** No character of `rep` equals, ignoring case, any character of `pat`. */
  predicate Unlike(rep: string, pat: string) {
    forall i, k :: 0 <= i < |rep| && 0 <= k < |pat| ==> !SameIgnoringCase(rep[i], pat[k])
  }

  /**
   * `s.replace(new RegExp(pat, "gi"), rep)` with `pat` read literally: scanning
   * left to right, every non-overlapping case-insensitive occurrence of `pat`
   * is replaced by `rep`. An empty pattern matches at every position, so `rep`
   * is inserted before every character and at the end.
   */
  function ReplaceIgnoreCase(s: string, pat: string, rep: string): string
    decreases |s|
  {
    if pat == [] then
      if s == [] then rep else rep + [s[0]] + ReplaceIgnoreCase(s[1..], pat, rep)
    else if MatchesAt(s, pat, 0) then rep + ReplaceIgnoreCase(s[|pat|..], pat, rep)
    else if s == [] then []
    else [s[0]] + ReplaceIgnoreCase(s[1..], pat, rep)
  }

  /** A text in which the pattern does not occur comes back unchanged. */
  lemma {:induction false} ReplaceWithoutOccurrence(s: string, pat: string, rep: string)
    requires pat != []
    requires !ContainsIgnoringCase(s, pat)
    ensures ReplaceIgnoreCase(s, pat, rep) == s
    decreases |s|
  {
    if s != [] {
      assert !MatchesAt(s, pat, 0);
      forall i | MatchesAt(s[1..], pat, i) ensures false {
        assert MatchesAt(s, pat, i + 1);
      }
      ReplaceWithoutOccurrence(s[1..], pat, rep);
    }
  }

  /** The first character of a non-empty replacement result. */
  lemma ReplaceHead(t: string, pat: string, rep: string)
    requires pat != [] && rep != [] && t != []
    ensures |ReplaceIgnoreCase(t, pat, rep)| > 0
    ensures ReplaceIgnoreCase(t, pat, rep)[0] == if MatchesAt(t, pat, 0) then rep[0] else t[0]
  {
  }

  /**
   * While the result of a replacement spells (ignoring case) a string `q`
   * made of characters unlike those of `rep`, the result is still the
   * original text: no replacement has happened inside that prefix.
   */
  lemma {:induction false} PrefixKept(t: string, pat: string, rep: string, q: string, m: nat)
    requires pat != [] && rep != []
    requires Unlike(rep, q)
    requires m <= |q| && m <= |ReplaceIgnoreCase(t, pat, rep)|
    requires forall k :: 0 <= k < m ==> SameIgnoringCase(ReplaceIgnoreCase(t, pat, rep)[k], q[k])
    ensures m <= |t| && ReplaceIgnoreCase(t, pat, rep)[..m] == t[..m]
    decreases |t|
  {
    var r := ReplaceIgnoreCase(t, pat, rep);
    if m > 0 {
      assert t != [] by {
        assert pat != [] && t == [] ==> r == [];
      }
      ReplaceHead(t, pat, rep);
      assert !MatchesAt(t, pat, 0);
      var r' := ReplaceIgnoreCase(t[1..], pat, rep);
      assert r == [t[0]] + r';
      forall k | 0 <= k < m - 1 ensures SameIgnoringCase(r'[k], q[1..][k]) {
        assert r'[k] == r[k + 1];
      }
      PrefixKept(t[1..], pat, rep, q[1..], m - 1);
      assert r[..m] == [t[0]] + r'[..m - 1];
      assert t[..m] == [t[0]] + t[1..][..m - 1];
    }
  }

  /**
   * Masking with a replacement that shares no letter with the pattern leaves
   * no occurrence of the pattern at all.
   */
  lemma {:induction false} MaskHidesPattern(s: string, pat: string, rep: string)
    requires pat != [] && rep != []
    requires Unlike(rep, pat)
    ensures !ContainsIgnoringCase(ReplaceIgnoreCase(s, pat, rep), pat)
    decreases |s|
  {
    var r := ReplaceIgnoreCase(s, pat, rep);
    if s == [] {
      assert r == [];
    } else if MatchesAt(s, pat, 0) {
      var r' := ReplaceIgnoreCase(s[|pat|..], pat, rep);
      assert r == rep + r';
      MaskHidesPattern(s[|pat|..], pat, rep);
      forall i | 0 <= i <= |r| ensures !MatchesAt(r, pat, i) {
        if i < |rep| {
          if i + |pat| <= |r| {
            assert r[i + 0] == rep[i];
            assert !SameIgnoringCase(r[i + 0], pat[0]);
          }
        } else {
          assert !MatchesAt(r', pat, i - |rep|);
        }
      }
    } else {
      var r' := ReplaceIgnoreCase(s[1..], pat, rep);
      assert r == [s[0]] + r';
      assert s == [s[0]] + s[1..];
      MaskHidesPattern(s[1..], pat, rep);
      UnlikeTail(rep, pat);
      FrontMatchKept(s[1..], pat, rep, pat[1..]);
      MatchesAtCons(s[0], r', pat);
      MatchesAtCons(s[0], s[1..], pat);
      forall i | 0 <= i <= |r| ensures !MatchesAt(r, pat, i) {
        if i > 0 {
          MatchesAtShift(s[0], r', pat, i);
        }
      }
    }
  }

  /** A replacement unlike the pattern is unlike the pattern's tail. */
  lemma UnlikeTail(rep: string, pat: string)
    requires pat != [] && Unlike(rep, pat)
    ensures Unlike(rep, pat[1..])
  {
    forall i, k | 0 <= i < |rep| && 0 <= k < |pat[1..]| ensures !SameIgnoringCase(rep[i], pat[1..][k]) {
      assert pat[1..][k] == pat[k + 1];
    }
  }

  /** A match at the front of `[c] + t` is a match of the first letter and of the rest of the pattern. */
  lemma MatchesAtCons(c: char, t: string, pat: string)
    requires pat != []
    ensures MatchesAt([c] + t, pat, 0) <==> SameIgnoringCase(c, pat[0]) && MatchesAt(t, pat[1..], 0)
  {
    var u := [c] + t;
    if MatchesAt(u, pat, 0) {
      forall k | 0 <= k < |pat[1..]| ensures SameIgnoringCase(t[0 + k], pat[1..][k]) {
        assert SameIgnoringCase(u[0 + (k + 1)], pat[k + 1]);
      }
    }
    if SameIgnoringCase(c, pat[0]) && MatchesAt(t, pat[1..], 0) {
      forall k | 0 <= k < |pat| ensures SameIgnoringCase(u[0 + k], pat[k]) {
        if k > 0 {
          assert SameIgnoringCase(t[0 + (k - 1)], pat[1..][k - 1]);
        }
      }
    }
  }

  /** Past the front, matches in `[c] + t` are the matches in `t`, one place further on. */
  lemma MatchesAtShift(c: char, t: string, pat: string, i: int)
    requires i > 0
    ensures MatchesAt([c] + t, pat, i) <==> MatchesAt(t, pat, i - 1)
  {
    var u := [c] + t;
    if MatchesAt(u, pat, i) {
      forall k | 0 <= k < |pat| ensures SameIgnoringCase(t[i - 1 + k], pat[k]) {
        assert t[i - 1 + k] == u[i + k];
      }
    }
    if MatchesAt(t, pat, i - 1) {
      forall k | 0 <= k < |pat| ensures SameIgnoringCase(u[i + k], pat[k]) {
        assert t[i - 1 + k] == u[i + k];
      }
    }
  }

  /** When the masked text begins with `q`, and no replacement letter is like one of `q`, so does the original. */
  lemma FrontMatchKept(t: string, pat: string, rep: string, q: string)
    requires pat != [] && rep != [] && Unlike(rep, q)
    ensures MatchesAt(ReplaceIgnoreCase(t, pat, rep), q, 0) ==> MatchesAt(t, q, 0)
  {
    var r := ReplaceIgnoreCase(t, pat, rep);
    if MatchesAt(r, q, 0) {
      forall k | 0 <= k < |q| ensures SameIgnoringCase(r[k], q[k]) {
        assert SameIgnoringCase(r[0 + k], q[k]);
      }
      PrefixKept(t, pat, rep, q, |q|);
      forall k | 0 <= k < |q| ensures SameIgnoringCase(t[0 + k], q[k]) {
        assert t[k] == t[..|q|][k] == r[..|q|][k] == r[k];
      }
    }
  }

}

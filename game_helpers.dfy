/**
 * The word of the day and its storage key (utils/gameHelpers.js; the copy
 * the game screen uses is screens/MainGame.js). The clock is an input: the
 * whole days since 1 January 2020, and the calendar date.
 */
module GameHelpers {
  import opened Text
  import opened WordBank

  /** `getDailyWordForBank(bank)`: '' for an empty bank, else the upper-cased word at `daysSince % |bank|`. */
  function DailyWord(bank: Bank, daysSince: nat): (w: string)
    ensures bank == [] ==> w == []
    ensures bank != [] ==> 0 <= daysSince % |bank| < |bank| && w == Upper(bank[daysSince % |bank|].word)
  {
    if |bank| == 0 then [] else Upper(bank[daysSince % |bank|].word)
  }

  /** The daily word cycles through the bank: days `|bank|` apart share it. */
  lemma DailyWordPeriodic(bank: Bank, daysSince: nat)
    ensures DailyWord(bank, daysSince + |bank|) == DailyWord(bank, daysSince)
  {
    if |bank| > 0 {
      DivModUnique(daysSince + |bank|, |bank|, daysSince / |bank| + 1, daysSince % |bank|);
    }
  }

  /** Consecutive days pick consecutive bank entries, wrapping round at the end. */
  lemma DailyWordWalksTheBank(bank: Bank, daysSince: nat)
    requires bank != []
    ensures DailyWord(bank, daysSince + 1) == Upper(bank[if daysSince % |bank| == |bank| - 1 then 0 else daysSince % |bank| + 1].word)
  {
    if daysSince % |bank| == |bank| - 1 {
      DivModUnique(daysSince + 1, |bank|, daysSince / |bank| + 1, 0);
    } else {
      DivModUnique(daysSince + 1, |bank|, daysSince / |bank|, daysSince % |bank| + 1);
    }
  }

  lemma MulBounds(k: int, n: int)
    requires n > 0
    ensures k >= 1 ==> k * n >= n
    ensures k <= -1 ==> k * n <= -n
  {
  }

  /** Quotient and remainder are the only ones with `a == q * n + r` and `0 <= r < n`. */
  lemma DivModUnique(a: int, n: int, q: int, r: int)
    requires n > 0 && 0 <= r < n && a == q * n + r
    ensures a / n == q && a % n == r
  {
    var q0 := a / n;
    var r0 := a % n;
    assert (q - q0) * n == r0 - r;
    MulBounds(q - q0, n);
  }

  // ---------------------------------------------------------------------------
  // Decimal text and the storage key
  // ---------------------------------------------------------------------------

  function DigitChar(d: nat): char
    requires d < 10
  {
    ('0' as int + d) as char
  }

  predicate IsDigit(c: char) {
    '0' <= c <= '9'
  }

  /** `n.toString()` for a non-negative integer. */
  function Decimal(n: nat): (s: string)
    ensures |s| >= 1
    ensures forall i :: 0 <= i < |s| ==> IsDigit(s[i])
    ensures n >= 10 ==> s[0] != '0'
  {
    if n < 10 then [DigitChar(n)] else Decimal(n / 10) + [DigitChar(n % 10)]
  }

  /** The value of a string of decimal digits. */
  function DigitsValue(s: string): nat
    requires forall i :: 0 <= i < |s| ==> IsDigit(s[i])
  {
    if s == [] then 0
    else
      assert IsDigit(s[|s| - 1]);
      10 * DigitsValue(s[..|s| - 1]) + (s[|s| - 1] as int - '0' as int)
  }

  /** Reading back the text of `n` gives `n`. */
  lemma {:induction false} DecimalRoundTrip(n: nat)
    ensures DigitsValue(Decimal(n)) == n
  {
    if n >= 10 {
      DecimalRoundTrip(n / 10);
      var s := Decimal(n);
      assert s[..|s| - 1] == Decimal(n / 10);
    }
  }

  /** `s.padStart(2, "0")`. */
  function Pad2(s: string): (r: string)
    ensures |s| >= 2 ==> r == s
    ensures |s| < 2 ==> |r| == 2 && r[2 - |s|..] == s && forall i :: 0 <= i < 2 - |s| ==> r[i] == '0'
  {
    if |s| >= 2 then s else seq(2 - |s|, _ => '0') + s
  }

  /** A month or day number, padded: exactly two digits, whose value is the number. */
  lemma TwoDigits(n: nat)
    requires 1 <= n <= 31
    ensures |Pad2(Decimal(n))| == 2
    ensures forall i :: 0 <= i < 2 ==> IsDigit(Pad2(Decimal(n))[i])
    ensures DigitsValue(Pad2(Decimal(n))) == n
  {
    DecimalRoundTrip(n);
    var p := Pad2(Decimal(n));
    if n < 10 {
      assert p == ['0', DigitChar(n)];
      assert p[..1] == ['0'];
      assert DigitsValue(['0']) == 0 by {
        assert ['0'][..0] == [];
      }
    } else {
      assert n / 10 < 10;
      assert Decimal(n) == [DigitChar(n / 10), DigitChar(n % 10)];
    }
  }

  const KEY_PREFIX: string := "@wotd-"

  /** `getTodayKey(lang)` for the given year, 1-based month and day of month. */
  function TodayKey(lang: string, year: nat, month: nat, day: nat): string {
    KEY_PREFIX + lang + "-" + Decimal(year) + "-" + Pad2(Decimal(month)) + "-" + Pad2(Decimal(day))
  }

  /** Two joins that agree, cut at the same place, agree piecewise. */
  lemma SplitJoin(a: string, b: string, c: string, d: string)
    requires a + b == c + d && |a| == |c|
    ensures a == c && b == d
  {
    assert a == (a + b)[..|a|];
    assert c == (c + d)[..|c|];
    assert b == (a + b)[|a|..];
    assert d == (c + d)[|c|..];
  }

  lemma JoinAssoc(a: string, b: string, c: string)
    ensures a + b + c == a + (b + c)
  {
  }

  /** The "-mm-dd" tail of the key of a calendar date. */
  function DateTail(month: nat, day: nat): string {
    "-" + Pad2(Decimal(month)) + "-" + Pad2(Decimal(day))
  }

  /** The tail has the fixed six-character layout, and its digits read back as the month and day. */
  lemma DateTailLayout(month: nat, day: nat)
    requires 1 <= month <= 12 && 1 <= day <= 31
    ensures var t := DateTail(month, day);
            |t| == 6 && t[0] == '-' && t[3] == '-'
            && DigitsValue(t[1..3]) == month && DigitsValue(t[4..]) == day
  {
    TwoDigits(month);
    TwoDigits(day);
    var t := DateTail(month, day);
    assert t[1..3] == Pad2(Decimal(month));
    assert t[4..] == Pad2(Decimal(day));
  }

  /** The key is the prefix, the language, the year and the "-mm-dd" tail, in that order. */
  lemma TodayKeyParts(lang: string, year: nat, month: nat, day: nat)
    ensures TodayKey(lang, year, month, day) == (KEY_PREFIX + lang + "-") + Decimal(year) + DateTail(month, day)
  {
  }

  lemma DateTailInjective(m1: nat, d1: nat, m2: nat, d2: nat)
    requires 1 <= m1 <= 12 && 1 <= d1 <= 31 && 1 <= m2 <= 12 && 1 <= d2 <= 31
    requires DateTail(m1, d1) == DateTail(m2, d2)
    ensures m1 == m2 && d1 == d2
  {
    DateTailLayout(m1, d1);
    DateTailLayout(m2, d2);
  }

  lemma DecimalInjective(a: nat, b: nat)
    requires Decimal(a) == Decimal(b)
    ensures a == b
  {
    DecimalRoundTrip(a);
    DecimalRoundTrip(b);
  }

  /** `getTodayKey` never gives two dates of one language the same key. */
  lemma TodayKeyInjective(lang: string, y1: nat, m1: nat, d1: nat, y2: nat, m2: nat, d2: nat)
    requires 1 <= m1 <= 12 && 1 <= d1 <= 31 && 1 <= m2 <= 12 && 1 <= d2 <= 31
    requires TodayKey(lang, y1, m1, d1) == TodayKey(lang, y2, m2, d2)
    ensures y1 == y2 && m1 == m2 && d1 == d2
  {
    var head := KEY_PREFIX + lang + "-";
    var a1, t1 := Decimal(y1), DateTail(m1, d1);
    var a2, t2 := Decimal(y2), DateTail(m2, d2);
    TodayKeyParts(lang, y1, m1, d1);
    TodayKeyParts(lang, y2, m2, d2);
    JoinAssoc(head, a1, t1);
    JoinAssoc(head, a2, t2);
    SplitJoin(head, a1 + t1, head, a2 + t2);
    assert |t1| == 6 == |t2| by {
      DateTailLayout(m1, d1);
      DateTailLayout(m2, d2);
    }
    SplitJoin(a1, t1, a2, t2);
    DecimalInjective(y1, y2);
    DateTailInjective(m1, d1, m2, d2);
  }

}

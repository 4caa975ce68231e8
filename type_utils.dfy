/**
 * Money and date helpers of type_utils.py.
 *
 * The source is Python 2, so strings are byte strings: `str.isspace`,
 * `str.strip` and the `\s` class of the `re` module all mean the six ASCII
 * whitespace characters below.
 */
module TypeUtils {
  import opened Wrappers

  // ---------------------------------------------------------------------------
  // Characters and digit strings

  predicate IsSpace(c: char) {
    c == ' ' || c == '\t' || c == '\n' || c == '\r' || c == 11 as char || c == 12 as char
  }

  predicate IsDigit(c: char) { '0' <= c <= '9' }

  predicate AllDigits(s: string) { forall j :: 0 <= j < |s| ==> IsDigit(s[j]) }

  predicate AllSpaces(s: string) { forall j :: 0 <= j < |s| ==> IsSpace(s[j]) }

  function DigitValue(c: char): int { c as int - '0' as int }

  /** Python `int(s)` for a string of decimal digits (leading zeros allowed). */
  function DigitsValue(s: string): (v: int)
    requires AllDigits(s)
    ensures v >= 0
  {
    if s == [] then 0 else DigitsValue(s[..|s| - 1]) * 10 + DigitValue(s[|s| - 1])
  }

  function DigitChar(d: int): char
    requires 0 <= d < 10
  {
    ('0' as int + d) as char
  }

  /** Python's `"%d" % n` for a non-negative n. */
  function NatToStr(n: nat): (s: string)
    decreases n
  {
    if n < 10 then [DigitChar(n)] else NatToStr(n / 10) + [DigitChar(n % 10)]
  }

  // ---------------------------------------------------------------------------
  // String clean-up done by cents_from_str before matching

  function LStrip(s: string): (r: string)
    ensures r == [] || !IsSpace(r[0])
  {
    if s != [] && IsSpace(s[0]) then LStrip(s[1..]) else s
  }

  function RStrip(s: string): (r: string)
    ensures r == [] || !IsSpace(r[|r| - 1])
  {
    if s != [] && IsSpace(s[|s| - 1]) then RStrip(s[..|s| - 1]) else s
  }

  /** Python `s.strip()`. */
  function Strip(s: string): string { RStrip(LStrip(s)) }

  /** Python 2 `s.translate(None, ',')`: every comma removed. */
  function RemoveCommas(s: string): (r: string)
    ensures ',' !in r
  {
    if s == [] then [] else (if s[0] == ',' then [] else [s[0]]) + RemoveCommas(s[1..])
  }

  // ---------------------------------------------------------------------------
  // The two regular expressions of cents_from_str

  /** Number of leading characters matched by `\s*`. */
  function SpaceRun(s: string): (n: nat)
    ensures n <= |s|
  {
    if s != [] && IsSpace(s[0]) then 1 + SpaceRun(s[1..]) else 0
  }

  /** Number of leading characters matched by a greedy `\d+` (0 if none). */
  function DigitRun(s: string): (n: nat)
    ensures n <= |s|
    ensures forall j :: 0 <= j < n ==> IsDigit(s[j])
    ensures n == |s| || !IsDigit(s[n])
  {
    if s != [] && IsDigit(s[0]) then
      var m := DigitRun(s[1..]);
      assert s[..1 + m] == [s[0]] + s[1..][..m];
      1 + m
    else 0
  }

  /** What is left after `\s*\$?`: both are deterministic, neither can give back characters. */
  function AmountBody(t: string): string {
    var a := t[SpaceRun(t)..];
    if |a| > 0 && a[0] == '$' then a[1..] else a
  }

  /** After a digit group v[..k], the rest of `.(\d\d)` matches: any character but newline, two digits. */
  predicate FractionAt(v: string, k: nat) {
    k + 2 < |v| && v[k] != '\n' && IsDigit(v[k + 1]) && IsDigit(v[k + 2])
  }

  /**
   * Backtracking of the greedy group `([,\d]+)` in `\s*\$?([,\d]+).(\d\d)`:
   * the longest digit prefix v[..k], k >= 1, after which the rest matches.
   */
  function GreedySplit(v: string, k: nat): (r: Option<nat>)
    ensures r.Some? ==> 1 <= r.value <= k && FractionAt(v, r.value)
  {
    if k == 0 then None
    else if FractionAt(v, k) then Some(k)
    else GreedySplit(v, k - 1)
  }

  /** The input after `strip()` and the removal of commas. */
  function Clean(s: string): string { RemoveCommas(Strip(s)) }

  /**
   * What the two patterns give for the text v that follows `\s*\$?`: first
   * `([,\d]+).(\d\d)`, then `(\d+)`; None when neither matches.
   */
  function AmountMatch(v: string): (r: Option<int>)
    ensures r.Some? <==> DigitRun(v) > 0
    ensures r.Some? ==> r.value >= 0
  {
    var n := DigitRun(v);
    match GreedySplit(v, n)
    case Some(k) =>
      assert AllDigits(v[..k]) by { assert v[..k] == v[..n][..k]; }
      Some(DigitsValue(v[..k]) * 100 + DigitsValue(v[k + 1..k + 3]))
    case None =>
      if n > 0 then Some(DigitsValue(v[..n]) * 100) else None
  }

  /**
   * cents_from_str: strip, drop commas, then try `\s*\$?([,\d]+).(\d\d)` and
   * `\s*\$?(\d+)` as prefix matches; neither matching is a ValueError.
   */
  function CentsFromStr(s: string): (r: Result<int, string>)
    ensures r.Ok? ==> r.value >= 0
    ensures r.Ok? <==> DigitRun(AmountBody(Clean(s))) > 0
    ensures r.Err? ==> r.error == "invalid literal for Amount(): " + Clean(s)
  {
    var t := Clean(s);
    match AmountMatch(AmountBody(t))
    case Some(a) => Ok(a)
    case None => Err("invalid literal for Amount(): " + t)
  }

  // ---------------------------------------------------------------------------
  // cents_to_str and the round trip

  /** cents_to_str: `"%d.%d"` without zero padding; negative values in parentheses. */
  function CentsToStr(c: int): (r: string)
    ensures |r| >= 3 && '.' in r
    ensures c < 0 <==> r[|r| - 1] == ')'
    ensures c < 0 ==> r[0] == '('
  {
    if c >= 0 then NatToStr(c / 100) + "." + NatToStr(c % 100)
    else "(" + NatToStr((-c) / 100) + "." + NatToStr((-c) % 100) + ")"
  }

  // ---------------------------------------------------------------------------
  // Quoting and dates: the library calls are parameters

  /**
   * quote_str_if_needed: `quote` stands for pipes.quote. The bare string is kept
   * exactly when quoting made it two characters longer.
   */
  function QuoteStrIfNeeded(s: string, quote: string -> string): (r: string)
    ensures r == s || r == quote(s)
    ensures |quote(s)| == |s| + 2 ==> r == s
    ensures r != s ==> r == quote(s) && |r| != |s| + 2
    ensures |quote(s)| != |s| + 2 ==> r == quote(s)
  {
    var sq := quote(s);
    if |sq| == |s| + 2 then s else sq
  }

  /** A point in time as datetime.datetime holds it (time of day in seconds). */
  datatype DateTime = DateTime(year: int, month: int, day: int, seconds: int)

  /** The chronological order of datetime values. */
  predicate DateTimeLe(a: DateTime, b: DateTime) {
    a.year < b.year
    || (a.year == b.year && (a.month < b.month
    || (a.month == b.month && (a.day < b.day
    || (a.day == b.day && a.seconds <= b.seconds)))))
  }

  /** The two formats tried by datetime_from_str, in order: `%Y-%m-%d`, then `%Y%m%d`. */
  datatype DateFormat = DashedYmd | CompactYmd

  /**
   * datetime_from_str: the first format that `strptime` accepts decides; when
   * neither does the result is None.
   */
  function DatetimeFromStr(s: string, strptime: (string, DateFormat) -> Option<DateTime>): (r: Option<DateTime>)
    ensures strptime(s, DashedYmd).Some? ==> r == strptime(s, DashedYmd)
    ensures strptime(s, DashedYmd).None? ==> r == strptime(s, CompactYmd)
    ensures r.None? <==> strptime(s, DashedYmd).None? && strptime(s, CompactYmd).None?
  {
    match strptime(s, DashedYmd)
    case Some(d) => Some(d)
    case None => strptime(s, CompactYmd)
  }

  /** Python 2 `str.lower()` on a byte string: only A-Z change. */
  function Lower(s: string): (r: string)
    ensures |r| == |s|
    ensures forall j :: 0 <= j < |s| ==> r[j] == if 'A' <= s[j] <= 'Z' then (s[j] as int + 32) as char else s[j]
  {
    if s == [] then [] else [if 'A' <= s[0] <= 'Z' then (s[0] as int + 32) as char else s[0]] + Lower(s[1..])
  }
}

/** What cents_from_str, cents_to_str and the other helpers of type_utils.py do, proved. */
module TypeUtilsFacts {
  import opened Wrappers
  import opened TypeUtils

  lemma {:induction false} NatToStrDigits(n: nat)
    ensures |NatToStr(n)| > 0 && AllDigits(NatToStr(n))
    ensures DigitsValue(NatToStr(n)) == n
    ensures n < 10 ==> |NatToStr(n)| == 1
    ensures 10 <= n < 100 ==> |NatToStr(n)| == 2
    ensures 100 <= n < 1000 ==> |NatToStr(n)| == 3
    ensures n < 1000 ==> |NatToStr(n)| <= 3
    decreases n
  {
    var s := NatToStr(n);
    if n >= 10 {
      NatToStrDigits(n / 10);
      var p := NatToStr(n / 10);
      assert s[..|s| - 1] == p;
    }
  }

  lemma {:induction false} StripUntouched(s: string)
    requires s == [] || (!IsSpace(s[0]) && !IsSpace(s[|s| - 1]))
    ensures Strip(s) == s
  {
  }

  lemma {:induction false} RemoveCommasUntouched(s: string)
    requires ',' !in s
    ensures RemoveCommas(s) == s
  {
    if s != [] {
      assert s[0] != ',';
      assert forall c :: c in s[1..] ==> c in s;
      RemoveCommasUntouched(s[1..]);
      assert s == [s[0]] + s[1..];
    }
  }

  /**
   * The exact behaviour of the two patterns in terms of the maximal digit run
   * n: a two-digit fraction right after the run wins; else, because `.` is
   * unescaped, a run of 4 or more digits is split before its last two digits
   * and the digit in front of them is swallowed; else the whole run counts as
   * whole units.
   */
  lemma {:induction false} AmountMatchCases(v: string)
    ensures var n := DigitRun(v);
            AmountMatch(v) ==
              if n == 0 then None
              else if FractionAt(v, n) then Some(DigitsValue(v[..n]) * 100 + DigitsValue(v[n + 1..n + 3]))
              else if n >= 4 then Some(DigitsValue(v[..n - 3]) * 100 + DigitsValue(v[n - 2..n]))
              else Some(DigitsValue(v[..n]) * 100)
  {
    var n := DigitRun(v);
    if n > 0 && FractionAt(v, n) {
      AmountMatchFraction(v, n);
    } else if n >= 4 {
      AmountMatchSwallowed(v, n);
    } else if n > 0 {
      AmountMatchWhole(v, n);
    }
  }

  lemma {:induction false} AmountMatchFraction(v: string, n: nat)
    requires n == DigitRun(v) && n > 0 && FractionAt(v, n)
    ensures AmountMatch(v) == Some(DigitsValue(v[..n]) * 100 + DigitsValue(v[n + 1..n + 3]))
  {
    assert GreedySplit(v, n) == Some(n);
  }

  lemma {:induction false} AmountMatchSwallowed(v: string, n: nat)
    requires n == DigitRun(v) && n >= 4 && !FractionAt(v, n)
    ensures AmountMatch(v) == Some(DigitsValue(v[..n - 3]) * 100 + DigitsValue(v[n - 2..n]))
  {
    assert !FractionAt(v, n - 1);
    assert !FractionAt(v, n - 2);
    assert FractionAt(v, n - 3);
    assert GreedySplit(v, n - 3) == Some(n - 3);
    assert GreedySplit(v, n - 2) == Some(n - 3);
    assert GreedySplit(v, n - 1) == Some(n - 3);
    assert GreedySplit(v, n) == Some(n - 3);
    assert v[n - 2..n] == v[n - 3 + 1..n - 3 + 3];
  }

  lemma {:induction false} AmountMatchWhole(v: string, n: nat)
    requires n == DigitRun(v) && 0 < n < 4 && !FractionAt(v, n)
    ensures AmountMatch(v) == Some(DigitsValue(v[..n]) * 100)
  {
    assert n >= 2 ==> !FractionAt(v, n - 1);
    assert n >= 3 ==> !FractionAt(v, n - 2);
    assert GreedySplit(v, 0) == None;
    assert n >= 1 ==> GreedySplit(v, 1) == None;
    assert n >= 2 ==> GreedySplit(v, 2) == None;
    assert GreedySplit(v, n) == None;
  }

  lemma {:induction false} DigitRunOf(d: string, rest: string)
    requires AllDigits(d)
    requires rest == [] || !IsDigit(rest[0])
    ensures DigitRun(d + rest) == |d|
  {
    if d != [] {
      assert (d + rest)[1..] == d[1..] + rest;
      DigitRunOf(d[1..], rest);
    }
  }

  /** The text after `\s*\$?` when the cleaned input starts with an optional `$` and a digit. */
  lemma {:induction false} AmountBodyOf(t: string, dollar: bool, v: string)
    requires v != [] && IsDigit(v[0])
    requires t == (if dollar then "$" else "") + v
    ensures AmountBody(t) == v
  {
    assert t[0] == (if dollar then '$' else v[0]);
    assert SpaceRun(t) == 0;
  }

  /** `DIGITS<c>DD...` after `\s*\$?`, with c neither a digit nor a newline, reads as DIGITS*100 + DD. */
  lemma {:induction false} PatternAmountBody(v: string, d: string, c: char, f: string, rest: string)
    requires |d| > 0 && AllDigits(d) && |f| == 2 && AllDigits(f)
    requires !IsDigit(c) && c != '\n'
    requires v == d + ([c] + f + rest)
    ensures AmountMatch(v) == Some(DigitsValue(d) * 100 + DigitsValue(f))
  {
    var n := |d|;
    DigitRunOf(d, [c] + f + rest);
    assert DigitRun(v) == n;
    assert v[..n] == d;
    assert v[n + 1..n + 3] == f;
    assert FractionAt(v, n);
    AmountMatchFraction(v, n);
  }

  /** `[$]DIGITS<c>DD...` with c neither a digit nor a newline reads as DIGITS*100 + DD. */
  lemma {:induction false} PatternAmount(s: string, dollar: bool, d: string, c: char, f: string, rest: string)
    requires |d| > 0 && AllDigits(d) && |f| == 2 && AllDigits(f)
    requires !IsDigit(c) && c != '\n'
    requires Clean(s) == (if dollar then "$" else "") + d + [c] + f + rest
    ensures CentsFromStr(s) == Ok(DigitsValue(d) * 100 + DigitsValue(f))
  {
    var v := d + ([c] + f + rest);
    assert Clean(s) == (if dollar then "$" else "") + v;
    AmountBodyOf(Clean(s), dollar, v);
    PatternAmountBody(v, d, c, f, rest);
    assert AmountMatch(AmountBody(Clean(s))) == Some(DigitsValue(d) * 100 + DigitsValue(f));
  }

  /** A comma between two pieces disappears and nothing else changes. */
  lemma {:induction false} RemoveCommasSkips(a: string, b: string)
    ensures RemoveCommas(a + [','] + b) == RemoveCommas(a) + RemoveCommas(b)
  {
    if a == [] {
      assert a + [','] + b == [','] + b;
      assert ([','] + b)[1..] == b;
    } else {
      var s := a + [','] + b;
      var h := if a[0] == ',' then [] else [a[0]];
      assert s[0] == a[0] && s[1..] == a[1..] + [','] + b;
      assert RemoveCommas(s) == h + RemoveCommas(a[1..] + [','] + b);
      RemoveCommasSkips(a[1..], b);
      assert RemoveCommas(a) == h + RemoveCommas(a[1..]);
    }
  }

  /** One to three bare digits are whole units. */
  lemma {:induction false} BareDigitsShort(s: string)
    requires 0 < |s| <= 3 && AllDigits(s)
    ensures CentsFromStr(s) == Ok(DigitsValue(s) * 100)
  {
    CleanDigits(s);
    assert s == s + [];
    ShortTailIsWholeUnits(s, s, []);
  }

  /**
   * Four or more bare digits: the unescaped `.` matches the third digit from
   * the end, so that digit is lost and the last two are cents.
   */
  lemma {:induction false} BareDigitsLong(w: string, x: char, f: string)
    requires |w| > 0 && AllDigits(w) && IsDigit(x) && |f| == 2 && AllDigits(f)
    ensures CentsFromStr(w + [x] + f) == Ok(DigitsValue(w) * 100 + DigitsValue(f))
  {
    var s := w + [x] + f;
    DigitsJoined(w, x, f);
    CleanDigits(s);
    AmountBodyOf(s, false, s);
    SwallowedDigit(w, x, f);
  }

  lemma {:induction false} DigitsJoined(w: string, x: char, f: string)
    requires AllDigits(w) && IsDigit(x) && AllDigits(f)
    ensures |w + [x] + f| > 0 && AllDigits(w + [x] + f)
  {
    var s := w + [x] + f;
    forall j | 0 <= j < |s| ensures IsDigit(s[j]) {
      if j < |w| { assert s[j] == w[j]; } else if j > |w| { assert s[j] == f[j - |w| - 1]; }
    }
  }

  lemma {:induction false} SwallowedDigit(w: string, x: char, f: string)
    requires |w| > 0 && AllDigits(w) && IsDigit(x) && |f| == 2 && AllDigits(f)
    ensures AmountMatch(w + [x] + f) == Some(DigitsValue(w) * 100 + DigitsValue(f))
  {
    var s := w + [x] + f;
    DigitsJoined(w, x, f);
    DigitRunOfDigits(s);
    assert !FractionAt(s, |s|);
    AmountMatchSwallowed(s, |s|);
    assert s[..|s| - 3] == w;
    assert s[|s| - 2..|s|] == f;
  }

  lemma {:induction false} CleanDigits(s: string)
    requires |s| > 0 && AllDigits(s)
    ensures Clean(s) == s
  {
    StripUntouched(s);
    assert ',' !in s by {
      forall j | 0 <= j < |s| ensures s[j] != ',' { assert IsDigit(s[j]); }
    }
    RemoveCommasUntouched(s);
  }

  lemma {:induction false} DigitRunOfDigits(s: string)
    requires AllDigits(s)
    ensures DigitRun(s) == |s|
  {
    DigitRunOf(s, []);
    assert s + [] == s;
  }

  lemma {:induction false} ThousandReadsAsOneDollar(s: string)
    requires s == "1000"
    ensures CentsFromStr(s) == Ok(100)
  {
    assert s == "1" + ['0'] + "00";
    BareDigitsLong("1", '0', "00");
    assert DigitsValue("1") == 1 && DigitsValue("00") == 0;
  }

  /**
   * At most three digits followed by at most two characters, the first not a
   * digit, read as whole units: `"42.5"` gives 4200, the fraction is dropped.
   */
  lemma {:induction false} ShortTailIsWholeUnits(s: string, d: string, tail: string)
    requires 0 < |d| <= 3 && AllDigits(d)
    requires |tail| <= 2 && (tail == [] || !IsDigit(tail[0]))
    requires Clean(s) == d + tail
    ensures CentsFromStr(s) == Ok(DigitsValue(d) * 100)
  {
    var v := d + tail;
    AmountBodyOf(v, false, v);
    DigitRunOf(d, tail);
    assert !FractionAt(v, |d|);
    AmountMatchWhole(v, |d|);
    assert v[..|d|] == d;
    assert AmountMatch(AmountBody(Clean(s))) == Some(DigitsValue(d) * 100);
  }

  /** Two digit strings joined by a point are their own cleaned form. */
  lemma {:induction false} CleanOfJoined(d: string, f: string)
    requires |d| > 0 && AllDigits(d) && |f| > 0 && AllDigits(f)
    ensures Clean(d + "." + f) == d + "." + f
  {
    var s := d + "." + f;
    assert s[0] == d[0] && s[|s| - 1] == f[|f| - 1];
    StripUntouched(s);
    assert ',' !in s by {
      forall j | 0 <= j < |s| ensures s[j] != ',' {
        if j < |d| { assert s[j] == d[j]; } else if j > |d| { assert s[j] == f[j - |d| - 1]; }
      }
    }
    RemoveCommasUntouched(s);
  }

  /** What cents_to_str prints for c >= 0 is its own cleaned form. */
  lemma {:induction false} CleanOfPrinted(c: int)
    requires c >= 0
    ensures Clean(CentsToStr(c)) == CentsToStr(c)
  {
    NatToStrDigits(c / 100);
    NatToStrDigits(c % 100);
    CleanOfJoined(NatToStr(c / 100), NatToStr(c % 100));
  }

  /** Reading back what cents_to_str printed gives the same cents when the fraction has two digits. */
  lemma {:induction false} CentsRoundTrip(c: int)
    requires c >= 0 && c % 100 >= 10
    ensures CentsFromStr(CentsToStr(c)) == Ok(c)
  {
    var q, r := c / 100, c % 100;
    PrintedRoundTrip(q, r);
    DivModParts(c, q, r);
  }

  /** The quotient and remainder by 100 put back together. */
  lemma DivModParts(c: int, q: int, r: int)
    requires c >= 0 && q == c / 100 && r == c % 100
    ensures q * 100 + r == c && CentsToStr(c) == NatToStr(q) + "." + NatToStr(r)
  {
  }

  /** A negative amount prints as its absolute value in parentheses. */
  lemma CentsToStrNegative(c: int)
    requires c > 0
    ensures CentsToStr(-c) == "(" + CentsToStr(c) + ")"
  {
  }

  /**
   * The fraction is not zero-padded: with fewer than ten cents it is printed
   * as a single digit, so 4205 prints as "42.5".
   */
  lemma CentsToStrUnpadded(c: int)
    requires c >= 0 && c % 100 < 10
    ensures CentsToStr(c) == NatToStr(c / 100) + "." + [DigitChar(c % 100)]
    ensures |CentsToStr(c)| == |NatToStr(c / 100)| + 2
  {
  }

  lemma {:induction false} PrintedRoundTrip(q: nat, r: nat)
    requires 10 <= r < 100
    ensures CentsFromStr(NatToStr(q) + "." + NatToStr(r)) == Ok(q * 100 + r)
  {
    NatToStrDigits(q);
    NatToStrDigits(r);
    JoinedAmount(NatToStr(q), NatToStr(r));
  }

  /** `DIGITS.DD` reads as DIGITS*100 + DD. */
  lemma {:induction false} JoinedAmount(d: string, f: string)
    requires |d| > 0 && AllDigits(d) && |f| == 2 && AllDigits(f)
    ensures CentsFromStr(d + "." + f) == Ok(DigitsValue(d) * 100 + DigitsValue(f))
  {
    var s := d + "." + f;
    CleanOfJoined(d, f);
    assert Clean(s) == "" + d + ['.'] + f + "";
    PatternAmount(s, false, d, '.', f, "");
  }

  /** With a one-digit fraction and at most three whole digits, the fraction is lost. */
  lemma {:induction false} CentsRoundTripLosesShortFraction(c: int)
    requires c >= 0 && c % 100 < 10 && c / 100 < 1000
    ensures CentsFromStr(CentsToStr(c)) == Ok(c - c % 100)
  {
    var q, r := c / 100, c % 100;
    PrintedShortFraction(q, r);
    assert q * 100 == c - c % 100;
  }

  lemma {:induction false} PrintedShortFraction(q: nat, r: nat)
    requires r < 10 && q < 1000
    ensures CentsFromStr(NatToStr(q) + "." + NatToStr(r)) == Ok(q * 100)
  {
    var d, f := NatToStr(q), NatToStr(r);
    NatToStrDigits(q);
    NatToStrDigits(r);
    CleanOfJoined(d, f);
    assert d + "." + f == d + ("." + f);
    ShortTailIsWholeUnits(d + "." + f, d, "." + f);
  }

  /** A negative amount as printed (in parentheses) is not an amount at all. */
  lemma {:induction false} CentsRoundTripFailsForNegative(c: int)
    requires c < 0
    ensures CentsFromStr(CentsToStr(c)).Err?
  {
    var s := CentsToStr(c);
    NatToStrDigits((-c) % 100);
    assert s[0] == '(' && s[|s| - 1] == ')';
    StripUntouched(s);
    var t := RemoveCommas(s);
    assert t == ['('] + RemoveCommas(s[1..]);
    assert SpaceRun(t) == 0;
    assert AmountBody(t) == t;
  }

  lemma {:induction false} QuoteWrappingIsDropped(s: string, quote: string -> string)
    requires quote(s) == "'" + s + "'"
    ensures QuoteStrIfNeeded(s, quote) == s
  {
  }

  lemma {:induction false} DateTimeLeTotal(a: DateTime, b: DateTime)
    ensures DateTimeLe(a, b) || DateTimeLe(b, a)
    ensures DateTimeLe(a, b) && DateTimeLe(b, a) ==> a == b
  {
  }
}

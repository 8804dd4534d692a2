/** Reading a `Retry-After` header: delta-seconds or an IMF-fixdate
    (crates/provider-core/src/errors.rs; sections 10.2.3 and 5.6.7 of RFC 9110). */
module HttpDate {
  import opened Base
  import opened Civil

  const I64_MAX: int := 0x7FFF_FFFF_FFFF_FFFF

  // ---- words ----

  /** `split(sep)`, with the piece being read. */
  function Pieces(s: string, sep: char, piece: string): seq<string> {
    if s == [] then [piece]
    else if s[0] == sep then [piece] + Pieces(s[1..], sep, [])
    else Pieces(s[1..], sep, piece + [s[0]])
  }

  lemma {:induction false} WordRead(a: string, rest: string, word: string)
    requires forall i :: 0 <= i < |a| ==> !White(a[i])
    requires |a| + |word| > 0
    ensures Words(a + " " + rest, word) == [word + a] + Words(rest, [])
    decreases |a|
  {
    var s := a + " " + rest;
    if a == [] {
      assert s[0] == ' ' && s[1..] == rest;
      assert word + a == word;
    } else {
      assert s[0] == a[0] && s[1..] == a[1..] + " " + rest;
      WordRead(a[1..], rest, word + [a[0]]);
      assert word + [a[0]] + a[1..] == word + a;
    }
  }

  lemma {:induction false} LastWord(a: string, word: string)
    requires forall i :: 0 <= i < |a| ==> !White(a[i])
    requires |a| + |word| > 0
    ensures Words(a, word) == [word + a]
    decreases |a|
  {
    if a == [] {
      assert word + a == word;
    } else {
      LastWord(a[1..], word + [a[0]]);
      assert word + [a[0]] + a[1..] == word + a;
    }
  }

  lemma {:induction false} PieceRead(a: string, sep: char, rest: string, piece: string)
    requires sep !in a
    ensures Pieces(a + [sep] + rest, sep, piece) == [piece + a] + Pieces(rest, sep, [])
    decreases |a|
  {
    var s := a + [sep] + rest;
    if a == [] {
      assert s[0] == sep && s[1..] == rest;
      assert piece + a == piece;
    } else {
      assert s[0] == a[0] && s[1..] == a[1..] + [sep] + rest;
      PieceRead(a[1..], sep, rest, piece + [a[0]]);
      assert piece + [a[0]] + a[1..] == piece + a;
    }
  }

  lemma {:induction false} LastPiece(a: string, sep: char, piece: string)
    requires sep !in a
    ensures Pieces(a, sep, piece) == [piece + a]
    decreases |a|
  {
    if a == [] {
      assert piece + a == piece;
    } else {
      LastPiece(a[1..], sep, piece + [a[0]]);
      assert piece + [a[0]] + a[1..] == piece + a;
    }
  }

  /** Words joined by single spaces. */
  function Sentence(words: seq<string>): string {
    if words == [] then []
    else if |words| == 1 then words[0]
    else words[0] + " " + Sentence(words[1..])
  }

  predicate Unspaced(word: string) {
    word != [] && forall i :: 0 <= i < |word| ==> !White(word[i])
  }

  lemma {:induction false} SentenceReads(words: seq<string>)
    requires forall i :: 0 <= i < |words| ==> Unspaced(words[i])
    ensures Words(Sentence(words), []) == words
  {
    if |words| == 1 {
      LastWord(words[0], []);
      assert [] + words[0] == words[0] && words == [words[0]];
    } else if words != [] {
      hide Words;
      SentenceReads(words[1..]);
      WordRead(words[0], Sentence(words[1..]), []);
      assert [] + words[0] == words[0] && words == [words[0]] + words[1..];
    }
  }

  // ---- numbers ----

  function DigitOf(c: char): Option<nat> {
    if '0' <= c <= '9' then Some(c as int - '0' as int) else None
  }

  function Digits(s: string): Option<nat> {
    if s == [] then Some(0)
    else
      var init := Digits(s[..|s| - 1]);
      var d := DigitOf(s[|s| - 1]);
      if init.Some? && d.Some? then Some(init.value * 10 + d.value) else None
  }

  lemma DigitsSnoc(s: string, d: nat)
    requires d < 10 && Digits(s).Some?
    ensures Digits(s + [Digit(d)]) == Some(Digits(s).value * 10 + d)
  {
    var t := s + [Digit(d)];
    assert t[..|t| - 1] == s;
  }

  /** `str::parse::<u64>`. */
  function ParseU64(s: string): Option<nat> {
    var body := if s != [] && s[0] == '+' then s[1..] else s;
    var n := Digits(body);
    if body != [] && n.Some? && n.value <= U64_MAX then n else None
  }

  /** `str::parse::<i64>`. */
  function ParseI64(s: string): Option<int> {
    var signed := s != [] && (s[0] == '+' || s[0] == '-');
    var body := if signed then s[1..] else s;
    var n := Digits(body);
    if body == [] || n.None? then None
    else
      var magnitude: int := n.value;
      var v := if signed && s[0] == '-' then -magnitude else magnitude;
      if -I64_MAX - 1 <= v <= I64_MAX then Some(v) else None
  }

  // ---- the date ----

  predicate Named(m: string, upper: char, lower: char, b: char, c: char) {
    |m| == 3 && (m[0] == upper || m[0] == lower) && m[1] == b && m[2] == c
  }

  /** Only the first letter's case is free. */
  function MonthNum(m: string): Option<int> {
    if Named(m, 'J', 'j', 'a', 'n') then Some(1)
    else if Named(m, 'F', 'f', 'e', 'b') then Some(2)
    else if Named(m, 'M', 'm', 'a', 'r') then Some(3)
    else if Named(m, 'A', 'a', 'p', 'r') then Some(4)
    else if Named(m, 'M', 'm', 'a', 'y') then Some(5)
    else if Named(m, 'J', 'j', 'u', 'n') then Some(6)
    else if Named(m, 'J', 'j', 'u', 'l') then Some(7)
    else if Named(m, 'A', 'a', 'u', 'g') then Some(8)
    else if Named(m, 'S', 's', 'e', 'p') then Some(9)
    else if Named(m, 'O', 'o', 'c', 't') then Some(10)
    else if Named(m, 'N', 'n', 'o', 'v') then Some(11)
    else if Named(m, 'D', 'd', 'e', 'c') then Some(12)
    else None
  }

  predicate IsGmt(s: string) {
    && |s| == 3 && (s[0] == 'G' || s[0] == 'g') && (s[1] == 'M' || s[1] == 'm') && (s[2] == 'T' || s[2] == 't')
  }

  function ParseClock(clock: string): Option<(int, int, int)> {
    var t := Pieces(clock, ':', []);
    if |t| != 3 then None
    else
      var h, m, s := ParseI64(t[0]), ParseI64(t[1]), ParseI64(t[2]);
      if h.Some? && m.Some? && s.Some? then Some((h.value, m.value, s.value)) else None
  }

  /** A leading word that ends in a comma is dropped. */
  function DateParts(s: string): seq<string> {
    var words := Words(s, []);
    if words != [] && words[0] != [] && words[0][|words[0]| - 1] == ',' then words[1..] else words
  }

  lemma DayNameSkipped(s: string, name: string, parts: seq<string>)
    requires Words(s, []) == [name + ","] + parts
    ensures DateParts(s) == parts
  {
    var words := Words(s, []);
    assert words[0] == name + "," && words[1..] == parts;
  }

  function Epoch(days: int, hh: int, mm: int, ss: int): Option<nat> {
    var secs := days * 86400 + hh * 3600 + mm * 60 + ss;
    if 0 <= secs <= U64_MAX then Some(secs) else None
  }

  function ParseHttpDate(s: string): Option<nat> {
    var parts := DateParts(s);
    if |parts| != 5 || !IsGmt(parts[4]) then None
    else
      var d, m, y, t := ParseI64(parts[0]), MonthNum(parts[1]), ParseI64(parts[2]), ParseClock(parts[3]);
      if d.None? || m.None? || y.None? || t.None? then None
      else Epoch(DaysFromCivil(y.value, m.value, d.value), t.value.0, t.value.1, t.value.2)
  }

  /** Whole seconds to wait; a date in the past waits zero. */
  function ParseRetryAfter(header: string, now: nat): Option<nat> {
    var h := Trim(header);
    var s := ParseU64(h);
    if s.Some? then s
    else
      var epoch := ParseHttpDate(h);
      if epoch.None? then None else Some(SatSub(epoch.value, now))
  }

  // ---- what a sender writes ----

  /** The last `width` decimal digits of `n`. */
  function Padded(n: nat, width: nat): string {
    if width == 0 then [] else Padded(n / 10, width - 1) + [Digit(n % 10)]
  }

  function MonthName(m: int): (name: string)
    requires 1 <= m <= 12
    ensures |name| == 3
  {
    match m
    case 1 => ['J', 'a', 'n']
    case 2 => ['F', 'e', 'b']
    case 3 => ['M', 'a', 'r']
    case 4 => ['A', 'p', 'r']
    case 5 => ['M', 'a', 'y']
    case 6 => ['J', 'u', 'n']
    case 7 => ['J', 'u', 'l']
    case 8 => ['A', 'u', 'g']
    case 9 => ['S', 'e', 'p']
    case 10 => ['O', 'c', 't']
    case 11 => ['N', 'o', 'v']
    case _ => ['D', 'e', 'c']
  }

  function ClockText(t: Stamp): string {
    Padded(t.hour, 2) + ":" + (Padded(t.minute, 2) + ":" + Padded(t.second, 2))
  }

  predicate Writable(t: Stamp) {
    Valid(t.date) && 1970 <= t.date.year <= 9999 && Clock(t)
  }

  /** The date, month, year, time-of-day and zone of an IMF-fixdate. */
  function DateWords(t: Stamp): (words: seq<string>)
    requires Writable(t)
    ensures |words| == 5
  {
    [Padded(t.date.day, 2), MonthName(t.date.month), Padded(t.date.year, 4), ClockText(t), ['G', 'M', 'T']]
  }

  /** IMF-fixdate. */
  function FixDate(weekday: string, t: Stamp): string
    requires Writable(t)
  {
    Sentence([weekday + ","] + DateWords(t))
  }

  predicate AllDigits(s: string) {
    forall i :: 0 <= i < |s| ==> '0' <= s[i] <= '9'
  }

  function Pow10(width: nat): nat {
    if width == 0 then 1 else 10 * Pow10(width - 1)
  }

  lemma {:induction false} PaddedReads(n: nat, width: nat)
    requires n < Pow10(width)
    ensures Digits(Padded(n, width)) == Some(n) && |Padded(n, width)| == width && AllDigits(Padded(n, width))
  {
    if width > 0 {
      assert n / 10 < Pow10(width - 1);
      hide Pow10;
      PaddedReads(n / 10, width - 1);
      DigitsSnoc(Padded(n / 10, width - 1), n % 10);
      hide Digits;
    }
  }

  lemma Unsigned(s: string)
    requires s != [] && AllDigits(s) && Digits(s).Some?
    ensures Digits(s).value <= I64_MAX ==> ParseI64(s) == Some(Digits(s).value)
    ensures ParseU64(s) == if Digits(s).value <= U64_MAX then Digits(s) else None
    ensures Unspaced(s) && ':' !in s
  {
    hide Digits;
    assert '0' <= s[0] <= '9';
  }

  lemma ClockPieces(h: string, m: string, s: string)
    requires ':' !in h && ':' !in m && ':' !in s
    ensures Pieces(h + ":" + (m + ":" + s), ':', []) == [h, m, s]
  {
    hide Pieces;
    PieceRead(h, ':', m + ":" + s, []);
    PieceRead(m, ':', s, []);
    LastPiece(s, ':', []);
    assert [] + h == h && [] + m == m && [] + s == s;
  }

  lemma ClockReads(t: Stamp)
    requires Clock(t)
    ensures ParseClock(ClockText(t)) == Some((t.hour as int, t.minute as int, t.second as int))
    ensures Unspaced(ClockText(t))
  {
    var h, m, s := Padded(t.hour, 2), Padded(t.minute, 2), Padded(t.second, 2);
    PaddedReads(t.hour, 2);
    PaddedReads(t.minute, 2);
    PaddedReads(t.second, 2);
    hide ParseI64, Padded, Digits, Pieces, AllDigits;
    Unsigned(h);
    Unsigned(m);
    Unsigned(s);
    ClockPieces(h, m, s);
  }

  lemma MonthReads(m: int)
    requires 1 <= m <= 12
    ensures MonthNum(MonthName(m)) == Some(m)
    ensures Unspaced(MonthName(m))
  {
  }

  predicate PlainWord(w: string) {
    Unspaced(w) && DigitOf(w[0]).None? && w[0] != '+'
  }

  lemma DateWordsRead(t: Stamp)
    requires Writable(t)
    ensures var w := DateWords(t);
      && Unspaced(w[0]) && Unspaced(w[1]) && Unspaced(w[2]) && Unspaced(w[3]) && Unspaced(w[4])
      && ParseI64(w[0]) == Some(t.date.day) && MonthNum(w[1]) == Some(t.date.month)
      && ParseI64(w[2]) == Some(t.date.year)
      && ParseClock(w[3]) == Some((t.hour as int, t.minute as int, t.second as int))
      && IsGmt(w[4])
  {
    hide Padded, Digits, ClockText, MonthName, ParseClock, ParseI64, MonthNum;
    PaddedReads(t.date.day, 2);
    PaddedReads(t.date.year, 4);
    ClockReads(t);
    MonthReads(t.date.month);
    Unsigned(Padded(t.date.day, 2));
    Unsigned(Padded(t.date.year, 4));
  }

  lemma FixDateWords(weekday: string, t: Stamp)
    requires Writable(t) && Unspaced(weekday)
    ensures Words(FixDate(weekday, t), []) == [weekday + ","] + DateWords(t)
  {
    DateWordsRead(t);
    hide DateWords, Sentence, Words, ParseI64, MonthNum, ParseClock;
    assert Unspaced(weekday + ",");
    hide Unspaced;
    SentenceReads([weekday + ","] + DateWords(t));
  }

  /** Every IMF-fixdate from 1970 to 9999 reads back as its second count, whatever its day name. */
  lemma FixDateReads(weekday: string, t: Stamp)
    requires Writable(t) && Unspaced(weekday)
    ensures ParseHttpDate(FixDate(weekday, t)) == Some(SecondsOf(t))
  {
    FitsWord(t);
    assert Epoch(DaysFromCivil(t.date.year, t.date.month, t.date.day), t.hour, t.minute, t.second)
        == Some(SecondsOf(t));
    hide SecondsOf, Epoch;
    FixDateWords(weekday, t);
    DateWordsRead(t);
    hide ParseClock, Words, MonthNum, DaysFromCivil, DayCount, ParseI64, FixDate, Valid, IsGmt, DateWords, Unspaced,
         DateParts;
    DayNameSkipped(FixDate(weekday, t), weekday, DateWords(t));
  }

  // ---- the header ----

  lemma {:induction false} NoDigits(s: string, i: nat)
    requires i < |s| && DigitOf(s[i]).None?
    ensures Digits(s).None?
  {
    if i < |s| - 1 {
      NoDigits(s[..|s| - 1], i);
    }
  }

  lemma TrimIdle(s: string)
    requires s != [] && !White(s[0]) && !White(s[|s| - 1])
    ensures Trim(s) == s
  {
  }

  /** A date header waits until that date, or not at all. */
  lemma DateWaits(weekday: string, t: Stamp, now: nat)
    requires Writable(t) && PlainWord(weekday)
    ensures SecondsOf(t) >= 0
    ensures ParseRetryAfter(FixDate(weekday, t), now) == Some(SatSub(SecondsOf(t), now))
  {
    FitsWord(t);
    FixDateReads(weekday, t);
    var s := FixDate(weekday, t);
    FixDateEnds(weekday, t);
    hide SecondsOf, Writable, ParseHttpDate, FixDate, Digits, Trim;
    TrimIdle(s);
    NoDigits(s, 0);
  }

  lemma {:induction false} SentenceEnds(words: seq<string>)
    requires words != [] && forall i :: 0 <= i < |words| ==> words[i] != []
    ensures var s := Sentence(words);
      s != [] && s[0] == words[0][0] && s[|s| - 1] == words[|words| - 1][|words[|words| - 1]| - 1]
  {
    if |words| > 1 {
      SentenceEnds(words[1..]);
    }
  }

  lemma FixDateEnds(weekday: string, t: Stamp)
    requires Writable(t) && Unspaced(weekday)
    ensures var s := FixDate(weekday, t); s != [] && s[0] == weekday[0] && s[|s| - 1] == 'T'
  {
    DateWordsRead(t);
    hide Sentence, ParseI64, MonthNum, ParseClock;
    SentenceEnds([weekday + ","] + DateWords(t));
  }

  lemma {:induction false} DecimalReads(n: nat)
    ensures Digits(Decimal(n)) == Some(n)
    ensures Decimal(n) != [] && AllDigits(Decimal(n))
  {
    if n < 10 {
      assert [Digit(n)] == [] + [Digit(n)];
      DigitsSnoc([], n);
    } else {
      DecimalReads(n / 10);
      DigitsSnoc(Decimal(n / 10), n % 10);
      hide Digits;
    }
  }

  /** Delta-seconds wait exactly that long, whatever the clock says; beyond 64 bits they are not understood. */
  lemma DeltaWaits(n: nat, now: nat)
    ensures ParseRetryAfter(Decimal(n), now) == if n <= U64_MAX then Some(n) else None
  {
    DecimalReads(n);
    var s := Decimal(n);
    hide Decimal, Digits, Trim, Words, ParseU64;
    Unsigned(s);
    assert '0' <= s[0] <= '9' && '0' <= s[|s| - 1] <= '9';
    TrimIdle(s);
    LastWord(s, []);
    assert [] + s == s;
    assert Words(s, []) == [s];
  }
}

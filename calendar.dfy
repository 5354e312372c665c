/**
 * What `datetime.strptime(s, "%Y-%m-%d %H:%M")` accepts, in the canonical
 * fixed-width form: four-digit year, two-digit month, day, hour and minute,
 * and a real Gregorian calendar date. Also the date-only form "%Y-%m-%d".
 */
module Calendar {
  import opened Wrappers
  import opened Text

  predicate IsDigit(c: char) {
    '0' <= c <= '9'
  }

  predicate AllDigits(s: string) {
    forall i :: 0 <= i < |s| ==> IsDigit(s[i])
  }

  function DigitChar(d: nat): (c: char)
    requires d < 10
    ensures IsDigit(c) && c as int - '0' as int == d
  {
    ('0' as int + d) as char
  }

  function Pow10(w: nat): (p: nat)
    ensures p >= 1
  {
    if w == 0 then 1 else 10 * Pow10(w - 1)
  }

  /** The value of a string of decimal digits. */
  function Number(s: string): (n: nat)
    requires AllDigits(s)
    ensures n < Pow10(|s|)
  {
    if s == [] then 0
    else Number(s[..|s| - 1]) * 10 + (s[|s| - 1] as int - '0' as int)
  }

  function DigitValue(c: char): int {
    c as int - '0' as int
  }

  lemma Number2(s: string)
    requires |s| == 2 && AllDigits(s)
    ensures Number(s) == 10 * DigitValue(s[0]) + DigitValue(s[1])
  {
    assert s[..1][..0] == [];
  }

  lemma Number4(s: string)
    requires |s| == 4 && AllDigits(s)
    ensures Number(s) == 1000 * DigitValue(s[0]) + 100 * DigitValue(s[1]) + 10 * DigitValue(s[2]) + DigitValue(s[3])
  {
    assert s[..3][..2] == s[..2];
    Number2(s[..2]);
  }

  /** `n` written with exactly `w` digits, zero-padded on the left (the
      `%Y`/`%m`/`%d`/`%H`/`%M` directives of `strftime`). */
  function Pad(n: nat, w: nat): (r: string)
    ensures |r| == w && AllDigits(r)
  {
    if w == 0 then [] else Pad(n / 10, w - 1) + [DigitChar(n % 10)]
  }

  lemma {:induction false} NumberOfPad(n: nat, w: nat)
    requires n < Pow10(w)
    ensures Number(Pad(n, w)) == n
  {
    if w > 0 {
      var p := Pad(n, w);
      assert p[..|p| - 1] == Pad(n / 10, w - 1);
      NumberOfPad(n / 10, w - 1);
    }
  }

  lemma {:induction false} PadOfNumber(s: string)
    requires AllDigits(s)
    ensures Pad(Number(s), |s|) == s
  {
    if s != [] {
      var init := s[..|s| - 1];
      PadOfNumber(init);
      assert Number(s) / 10 == Number(init);
      assert s == init + [s[|s| - 1]];
    }
  }

  /** Zero-padded numbers of one width compare as strings the way they
      compare as numbers. */
  lemma {:induction false} PadOrder(n: nat, m: nat, w: nat)
    requires n < Pow10(w) && m < Pow10(w)
    ensures StrLe(Pad(n, w), Pad(m, w)) <==> n <= m
  {
    if w == 0 {
    } else {
      var dn, dm := [DigitChar(n % 10)], [DigitChar(m % 10)];
      StrLeConcat(Pad(n / 10, w - 1), dn, Pad(m / 10, w - 1), dm);
      if n / 10 == m / 10 {
        assert StrLe(dn, dm) <==> n % 10 <= m % 10;
      } else {
        PadOrder(n / 10, m / 10, w - 1);
        NumberOfPad(n / 10, w - 1);
        NumberOfPad(m / 10, w - 1);
      }
    }
  }

  /** Block by block: two strings that each start with a `w`-digit field
      compare by that field first and by the rest on a tie. */
  lemma PadBlockOrder(n: nat, m: nat, w: nat, q: string, q': string)
    requires n < Pow10(w) && m < Pow10(w)
    ensures StrLe(Pad(n, w) + q, Pad(m, w) + q') <==> n < m || (n == m && StrLe(q, q'))
  {
    StrLeConcat(Pad(n, w), q, Pad(m, w), q');
    PadOrder(n, m, w);
    NumberOfPad(n, w);
    NumberOfPad(m, w);
  }

  lemma SeparatorOrder(c: char, q: string, q': string)
    ensures StrLe([c] + q, [c] + q') == StrLe(q, q')
  {
    assert ([c] + q)[1..] == q && ([c] + q')[1..] == q';
  }

  /** Gregorian leap years, as `datetime` (the proleptic calendar) uses them. */
  predicate IsLeap(y: int) {
    y % 4 == 0 && (y % 100 != 0 || y % 400 == 0)
  }

  function DaysInMonth(y: int, m: int): (d: int)
    requires 1 <= m <= 12
    ensures 28 <= d <= 31
    ensures m == 2 ==> (d == 29 <==> IsLeap(y))
  {
    if m == 2 then (if IsLeap(y) then 29 else 28)
    else if m == 4 || m == 6 || m == 9 || m == 11 then 30
    else 31
  }

  datatype Date = Date(year: int, month: int, day: int)
  datatype DateTime = DateTime(date: Date, hour: int, minute: int)

  /** `datetime` only represents the years 1 to 9999. */
  predicate ValidDate(d: Date) {
    && 1 <= d.year <= 9999
    && 1 <= d.month <= 12
    && 1 <= d.day <= DaysInMonth(d.year, d.month)
  }

  predicate ValidDateTime(t: DateTime) {
    ValidDate(t.date) && 0 <= t.hour <= 23 && 0 <= t.minute <= 59
  }

  /** `datetime.strptime(s, "%Y-%m-%d")` on the canonical form. */
  function ParseDate(s: string): (r: Option<Date>)
    ensures r.Some? ==> |s| == 10 && ValidDate(r.value)
  {
    if |s| == 10 && AllDigits(s[..4]) && s[4] == '-' && AllDigits(s[5..7])
       && s[7] == '-' && AllDigits(s[8..])
    then
      var d := Date(Number(s[..4]), Number(s[5..7]), Number(s[8..]));
      if ValidDate(d) then Some(d) else None
    else None
  }

  /** `datetime.strptime(s, "%Y-%m-%d %H:%M")` on the canonical form. */
  function ParseDateTime(s: string): (r: Option<DateTime>)
    ensures r.Some? ==> |s| == 16 && ValidDateTime(r.value)
  {
    if |s| == 16 && s[10] == ' ' && AllDigits(s[11..13]) && s[13] == ':' && AllDigits(s[14..]) then
      match ParseDate(s[..10])
      case None => None
      case Some(d) =>
        var t := DateTime(d, Number(s[11..13]), Number(s[14..]));
        if ValidDateTime(t) then Some(t) else None
    else None
  }

  /** The check `inserir_consulta` makes before it touches the store. */
  predicate DateTimeOk(s: string) {
    ParseDateTime(s).Some?
  }

  /** `strftime("%Y-%m-%d")`. */
  function FormatDate(d: Date): (s: string)
    requires ValidDate(d)
    ensures |s| == 10
  {
    Pad(d.year, 4) + ("-" + (Pad(d.month, 2) + ("-" + Pad(d.day, 2))))
  }

  /** `strftime("%Y-%m-%d %H:%M")`. */
  function FormatDateTime(t: DateTime): (s: string)
    requires ValidDateTime(t)
    ensures |s| == 16
  {
    FormatDate(t.date) + (" " + (Pad(t.hour, 2) + (":" + Pad(t.minute, 2))))
  }

  lemma ParseFormatDate(d: Date)
    requires ValidDate(d)
    ensures ParseDate(FormatDate(d)) == Some(d)
  {
    var s := FormatDate(d);
    assert s[..4] == Pad(d.year, 4) && s[5..7] == Pad(d.month, 2) && s[8..] == Pad(d.day, 2);
    NumberOfPad(d.year, 4);
    NumberOfPad(d.month, 2);
    NumberOfPad(d.day, 2);
  }

  lemma FormatParseDate(s: string)
    requires ParseDate(s).Some?
    ensures FormatDate(ParseDate(s).value) == s
  {
    PadOfNumber(s[..4]);
    PadOfNumber(s[5..7]);
    PadOfNumber(s[8..]);
    assert s == s[..4] + ("-" + (s[5..7] + ("-" + s[8..])));
  }

  /** Every valid date-time, written in the fixed format, is accepted and
      read back unchanged. */
  lemma ParseFormatDateTime(t: DateTime)
    requires ValidDateTime(t)
    ensures ParseDateTime(FormatDateTime(t)) == Some(t)
  {
    var s := FormatDateTime(t);
    assert s[..10] == FormatDate(t.date);
    assert s[11..13] == Pad(t.hour, 2) && s[14..] == Pad(t.minute, 2);
    ParseFormatDate(t.date);
    NumberOfPad(t.hour, 2);
    NumberOfPad(t.minute, 2);
  }

  /** Every accepted string is the fixed-format rendering of what it parses
      to, so reformatting an accepted string gives it back. */
  lemma FormatParseDateTime(s: string)
    requires DateTimeOk(s)
    ensures FormatDateTime(ParseDateTime(s).value) == s
  {
    FormatParseDate(s[..10]);
    PadOfNumber(s[11..13]);
    PadOfNumber(s[14..]);
    assert s == s[..10] + (" " + (s[11..13] + (":" + s[14..])));
  }

  /** Chronological order of date-times: year, month, day, hour, minute. */
  predicate DateTimeLe(a: DateTime, b: DateTime) {
    || a.date.year < b.date.year
    || (a.date.year == b.date.year && a.date.month < b.date.month)
    || (a.date.year == b.date.year && a.date.month == b.date.month && a.date.day < b.date.day)
    || (a.date == b.date && a.hour < b.hour)
    || (a.date == b.date && a.hour == b.hour && a.minute <= b.minute)
  }

  lemma FormatOrder(a: DateTime, b: DateTime)
    requires ValidDateTime(a) && ValidDateTime(b)
    ensures StrLe(FormatDateTime(a), FormatDateTime(b)) <==> DateTimeLe(a, b)
  {
    var mi, mi' := Pad(a.minute, 2), Pad(b.minute, 2);
    var h, h' := Pad(a.hour, 2) + (":" + mi), Pad(b.hour, 2) + (":" + mi');
    var d, d' := Pad(a.date.day, 2) + (" " + h), Pad(b.date.day, 2) + (" " + h');
    var m, m' := Pad(a.date.month, 2) + ("-" + d), Pad(b.date.month, 2) + ("-" + d');
    assert FormatDateTime(a) == Pad(a.date.year, 4) + ("-" + m);
    assert FormatDateTime(b) == Pad(b.date.year, 4) + ("-" + m');
    PadBlockOrder(a.date.year, b.date.year, 4, "-" + m, "-" + m');
    SeparatorOrder('-', m, m');
    PadBlockOrder(a.date.month, b.date.month, 2, "-" + d, "-" + d');
    SeparatorOrder('-', d, d');
    PadBlockOrder(a.date.day, b.date.day, 2, " " + h, " " + h');
    SeparatorOrder(' ', h, h');
    PadBlockOrder(a.hour, b.hour, 2, ":" + mi, ":" + mi');
    SeparatorOrder(':', mi, mi');
    PadOrder(a.minute, b.minute, 2);
  }

  /** For accepted date-time strings, SQLite's string order is chronological
      order: `ORDER BY c.datahora` lists appointments in time order. */
  lemma StringOrderIsChronological(s: string, t: string)
    requires DateTimeOk(s) && DateTimeOk(t)
    ensures StrLe(s, t) <==> DateTimeLe(ParseDateTime(s).value, ParseDateTime(t).value)
  {
    FormatParseDateTime(s);
    FormatParseDateTime(t);
    FormatOrder(ParseDateTime(s).value, ParseDateTime(t).value);
  }
}

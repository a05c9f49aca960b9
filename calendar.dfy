/** Calendar dates and times of day, standing in for chrono's `NaiveDate`
    and `NaiveDateTime` as the NEM12 parser uses them: fixed-width decimal
    tokens `YYYYMMDD`, `YYYYMMDDHHMM` and `YYYYMMDDHHMMSS` (chrono's
    `parse_from_str` with `%Y%m%d`, `%Y%m%d%H%M` and `%Y%m%d%H%M%S`). */
module Calendar {
  import opened Nom

  datatype Date = Date(year: nat, month: nat, day: nat)
  datatype DateTime = DateTime(date: Date, hour: nat, minute: nat, second: nat)

  // ---------------------------------------------------------------------
  // Decimal digit strings

  function Pow10(n: nat): (p: nat)
    ensures p >= 1
  {
    if n == 0 then 1 else 10 * Pow10(n - 1)
  }

  function DigitValue(c: char): (v: nat)
    requires IsDigit(c)
    ensures v < 10
  {
    c as int - '0' as int
  }

  function DigitChar(d: nat): (c: char)
    requires d < 10
    ensures IsDigit(c) && DigitValue(c) == d
  {
    ('0' as int + d) as char
  }

  /** The number a string of decimal digits denotes. */
  function Value(s: string): (v: nat)
    requires AllIn(s, Digits)
    ensures v < Pow10(|s|)
  {
    if s == [] then 0 else 10 * Value(s[..|s| - 1]) + DigitValue(s[|s| - 1])
  }

  /** `n` written in exactly `width` decimal digits, with leading zeros. */
  function Padded(n: nat, width: nat): (s: string)
    ensures |s| == width && AllIn(s, Digits)
  {
    if width == 0 then [] else Padded(n / 10, width - 1) + [DigitChar(n % 10)]
  }

  lemma {:induction false} ValueOfPadded(n: nat, width: nat)
    requires n < Pow10(width)
    ensures Value(Padded(n, width)) == n
  {
    if width > 0 {
      var s := Padded(n, width);
      assert s[..|s| - 1] == Padded(n / 10, width - 1);
      ValueOfPadded(n / 10, width - 1);
    }
  }

  lemma {:induction false} PaddedOfValue(s: string)
    requires AllIn(s, Digits)
    ensures Padded(Value(s), |s|) == s
  {
    if s != [] {
      var init := s[..|s| - 1];
      assert AllIn(init, Digits);
      PaddedOfValue(init);
      var v := Value(s);
      assert v / 10 == Value(init) && v % 10 == DigitValue(s[|s| - 1]);
      assert s == init + [s[|s| - 1]];
    }
  }

  // ---------------------------------------------------------------------
  // Validity (the proleptic Gregorian calendar)

  predicate IsLeapYear(y: nat) {
    y % 4 == 0 && (y % 100 != 0 || y % 400 == 0)
  }

  function DaysInMonth(y: nat, m: nat): nat
    requires 1 <= m <= 12
  {
    if m == 2 then (if IsLeapYear(y) then 29 else 28)
    else if m == 4 || m == 6 || m == 9 || m == 11 then 30
    else 31
  }

  predicate ValidDate(d: Date) {
    d.year < 10000 && 1 <= d.month <= 12 && 1 <= d.day <= DaysInMonth(d.year, d.month)
  }

  predicate ValidDateTime(t: DateTime) {
    ValidDate(t.date) && t.hour < 24 && t.minute < 60 && t.second < 60
  }

  // ---------------------------------------------------------------------
  // Fixed-width tokens

  function EncodeDate(d: Date): (s: string)
    ensures |s| == 8
  {
    Padded(d.year, 4) + Padded(d.month, 2) + Padded(d.day, 2)
  }

  /** `YYYYMMDDHHMM`: a time of day without seconds. */
  function EncodeDateTime12(t: DateTime): (s: string)
    ensures |s| == 12
  {
    EncodeDate(t.date) + Padded(t.hour, 2) + Padded(t.minute, 2)
  }

  /** `YYYYMMDDHHMMSS` */
  function EncodeDateTime14(t: DateTime): (s: string)
    ensures |s| == 14
  {
    EncodeDateTime12(t) + Padded(t.second, 2)
  }

  /** The fields of an 8-character digit token, read as year, month and day. */
  function DateFields(tok: string): Date
    requires |tok| == 8 && AllIn(tok, Digits)
  {
    Date(Value(tok[..4]), Value(tok[4..6]), Value(tok[6..]))
  }

  /** The date an 8-character token denotes, if it is all digits and names a real day. */
  function DecodeDate(tok: string): Option<Date>
    requires |tok| == 8
  {
    if !AllIn(tok, Digits) then None
    else
      var d := DateFields(tok);
      if ValidDate(d) then Some(d) else None
  }

  /** A 12-character token; the seconds are zero. */
  function DecodeDateTime12(tok: string): Option<DateTime>
    requires |tok| == 12
  {
    if !AllIn(tok, Digits) then None
    else
      var t := DateTime(DateFields(tok[..8]), Value(tok[8..10]), Value(tok[10..]), 0);
      if ValidDateTime(t) then Some(t) else None
  }

  function DecodeDateTime14(tok: string): Option<DateTime>
    requires |tok| == 14
  {
    if !AllIn(tok, Digits) then None
    else
      var t := DateTime(DateFields(tok[..8]), Value(tok[8..10]), Value(tok[10..12]), Value(tok[12..]));
      if ValidDateTime(t) then Some(t) else None
  }

  // ---------------------------------------------------------------------
  // Round trips between tokens and values

  /** The three pieces of a concatenation are its slices at the pieces' lengths. */
  lemma Slices3(a: string, b: string, c: string)
    ensures (a + b + c)[..|a|] == a
    ensures (a + b + c)[|a|..|a| + |b|] == b
    ensures (a + b + c)[|a| + |b|..] == c
  {
  }

  lemma AllIn3(a: string, b: string, c: string, cls: CharClass)
    requires AllIn(a, cls) && AllIn(b, cls) && AllIn(c, cls)
    ensures AllIn(a + b + c, cls)
  {
  }

  lemma Join3(s: string, i: nat, j: nat)
    requires i <= j <= |s|
    ensures s == s[..i] + s[i..j] + s[j..]
  {
  }

  lemma DateFieldsOfEncoding(d: Date)
    requires ValidDate(d)
    ensures AllIn(EncodeDate(d), Digits) && DateFields(EncodeDate(d)) == d
  {
    var y, m, dd := Padded(d.year, 4), Padded(d.month, 2), Padded(d.day, 2);
    Slices3(y, m, dd);
    AllIn3(y, m, dd, Digits);
    ValueOfPadded(d.year, 4);
    ValueOfPadded(d.month, 2);
    ValueOfPadded(d.day, 2);
  }

  lemma EncodingOfDateFields(tok: string)
    requires |tok| == 8 && AllIn(tok, Digits)
    ensures EncodeDate(DateFields(tok)) == tok
  {
    var y, m, d := tok[..4], tok[4..6], tok[6..];
    assert AllIn(y, Digits) && AllIn(m, Digits) && AllIn(d, Digits);
    PaddedOfValue(y);
    PaddedOfValue(m);
    PaddedOfValue(d);
    Join3(tok, 4, 6);
  }

  lemma DecodeEncodeDate(d: Date)
    requires ValidDate(d)
    ensures DecodeDate(EncodeDate(d)) == Some(d)
  {
    DateFieldsOfEncoding(d);
  }

  lemma EncodeDecodeDate(tok: string)
    requires |tok| == 8 && DecodeDate(tok).Some?
    ensures ValidDate(DecodeDate(tok).value) && EncodeDate(DecodeDate(tok).value) == tok
  {
    EncodingOfDateFields(tok);
  }

  lemma DecodeEncodeDateTime12(t: DateTime)
    requires ValidDateTime(t) && t.second == 0
    ensures DecodeDateTime12(EncodeDateTime12(t)) == Some(t)
  {
    var e, h, m := EncodeDate(t.date), Padded(t.hour, 2), Padded(t.minute, 2);
    DateFieldsOfEncoding(t.date);
    Slices3(e, h, m);
    AllIn3(e, h, m, Digits);
    ValueOfPadded(t.hour, 2);
    ValueOfPadded(t.minute, 2);
  }

  lemma EncodeDecodeDateTime12(tok: string)
    requires |tok| == 12 && DecodeDateTime12(tok).Some?
    ensures ValidDateTime(DecodeDateTime12(tok).value) && DecodeDateTime12(tok).value.second == 0
    ensures EncodeDateTime12(DecodeDateTime12(tok).value) == tok
  {
    var e, h, m := tok[..8], tok[8..10], tok[10..];
    assert AllIn(e, Digits) && AllIn(h, Digits) && AllIn(m, Digits);
    EncodingOfDateFields(e);
    PaddedOfValue(h);
    PaddedOfValue(m);
    Join3(tok, 8, 10);
  }

  lemma DecodeEncodeDateTime14(t: DateTime)
    requires ValidDateTime(t)
    ensures DecodeDateTime14(EncodeDateTime14(t)) == Some(t)
  {
    var e, h, m, sec := EncodeDate(t.date), Padded(t.hour, 2), Padded(t.minute, 2), Padded(t.second, 2);
    DateFieldsOfEncoding(t.date);
    var tok12 := EncodeDateTime12(t);
    Slices3(e, h, m);
    AllIn3(e, h, m, Digits);
    var tok := EncodeDateTime14(t);
    Slices3(tok12, [], sec);
    AllIn3(tok12, [], sec, Digits);
    assert tok[..12] == tok12 && tok[12..] == sec;
    assert tok[..8] == tok12[..8] && tok[8..10] == tok12[8..10] && tok[10..12] == tok12[10..];
    ValueOfPadded(t.hour, 2);
    ValueOfPadded(t.minute, 2);
    ValueOfPadded(t.second, 2);
  }

  lemma EncodeDecodeDateTime14(tok: string)
    requires |tok| == 14 && DecodeDateTime14(tok).Some?
    ensures ValidDateTime(DecodeDateTime14(tok).value)
    ensures EncodeDateTime14(DecodeDateTime14(tok).value) == tok
  {
    var e, h, m, sec := tok[..8], tok[8..10], tok[10..12], tok[12..];
    assert AllIn(e, Digits) && AllIn(h, Digits) && AllIn(m, Digits) && AllIn(sec, Digits);
    EncodingOfDateFields(e);
    PaddedOfValue(h);
    PaddedOfValue(m);
    PaddedOfValue(sec);
    Join3(tok, 8, 10);
    Join3(tok[10..], 2, 2);
    assert tok[10..][..2] == m && tok[10..][2..] == sec;
  }
}

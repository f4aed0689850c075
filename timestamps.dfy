/** The `timestamp` field of a log entry. A record's creation instant, already
    converted to a UTC calendar date and time, is rendered the way Python's
    `datetime.isoformat()` renders it, and a literal `Z` is appended. */
module Timestamps {
  import opened JsonValues

  /** The fields of a Python `datetime`. */
  datatype Moment = Moment(year: int, month: int, day: int,
                           hour: int, minute: int, second: int, microsecond: int)

  predicate IsLeapYear(year: int)
  {
    year % 4 == 0 && (year % 100 != 0 || year % 400 == 0)
  }

  function DaysInMonth(year: int, month: int): int
    requires 1 <= month <= 12
  {
    if month == 2 then (if IsLeapYear(year) then 29 else 28)
    else if month == 4 || month == 6 || month == 9 || month == 11 then 30
    else 31
  }

  /** The ranges a `datetime` constructor enforces. */
  predicate IsValid(m: Moment)
  {
    && 1 <= m.year <= 9999
    && 1 <= m.month <= 12
    && 1 <= m.day <= DaysInMonth(m.year, m.month)
    && 0 <= m.hour < 24
    && 0 <= m.minute < 60
    && 0 <= m.second < 60
    && 0 <= m.microsecond < 1000000
  }

  type DateTime = m: Moment | IsValid(m) witness Moment(1970, 1, 1, 0, 0, 0, 0)

  function Pow10(n: nat): (r: nat)
    ensures r >= 1
  {
    if n == 0 then 1 else 10 * Pow10(n - 1)
  }

  predicate IsDigit(c: char)
  {
    '0' <= c <= '9'
  }

  predicate AllDigits(s: string)
  {
    forall i :: 0 <= i < |s| ==> IsDigit(s[i])
  }

  function DigitChar(d: nat): (c: char)
    requires d < 10
    ensures IsDigit(c) && c as int - '0' as int == d
  {
    ('0' as int + d) as char
  }

  /** `'%0{width}d' % n`: n written in exactly `width` decimal digits. */
  function Pad(n: nat, width: nat): (s: string)
    requires n < Pow10(width)
    ensures |s| == width && AllDigits(s)
  {
    if width == 0 then "" else Pad(n / 10, width - 1) + [DigitChar(n % 10)]
  }

  /** The number a string of decimal digits denotes. */
  function ReadNat(s: string): nat
    requires AllDigits(s)
  {
    if s == "" then 0 else 10 * ReadNat(s[..|s| - 1]) + (s[|s| - 1] as int - '0' as int)
  }

  lemma {:induction false} ReadPad(n: nat, width: nat)
    requires n < Pow10(width)
    ensures ReadNat(Pad(n, width)) == n
  {
    if width > 0 {
      var s := Pad(n, width);
      assert s[..|s| - 1] == Pad(n / 10, width - 1);
      ReadPad(n / 10, width - 1);
    }
  }

  lemma {:induction false} PadRead(s: string)
    requires AllDigits(s)
    ensures ReadNat(s) < Pow10(|s|) && Pad(ReadNat(s), |s|) == s
  {
    if s != "" {
      var init := s[..|s| - 1];
      PadRead(init);
      var d := s[|s| - 1] as int - '0' as int;
      assert ReadNat(s) / 10 == ReadNat(init) && ReadNat(s) % 10 == d;
      assert s == init + [s[|s| - 1]];
    }
  }

  /** `YYYY-MM-DD`. */
  function DatePart(t: DateTime): (s: string)
    ensures |s| == 10
  {
    Pad(t.year, 4) + "-" + Pad(t.month, 2) + "-" + Pad(t.day, 2)
  }

  /** `HH:MM:SS`. */
  function ClockPart(t: DateTime): (s: string)
    ensures |s| == 8
  {
    Pad(t.hour, 2) + ":" + Pad(t.minute, 2) + ":" + Pad(t.second, 2)
  }

  /** `.ffffff`, written only when the microsecond is not zero. */
  function FractionPart(t: DateTime): (s: string)
    ensures |s| == (if t.microsecond == 0 then 0 else 7)
  {
    if t.microsecond != 0 then "." + Pad(t.microsecond, 6) else ""
  }

  /** `datetime.isoformat()`: the fraction appears only when the microsecond is
      not zero, and a timezone-aware UTC value gets the offset `+00:00`. */
  function IsoFormat(t: DateTime, aware: bool): string
  {
    DatePart(t) + "T" + ClockPart(t) + FractionPart(t) + (if aware then "+00:00" else "")
  }

  /** `formatTime` of both JSON formatters: the creation instant as an aware
      UTC datetime, `isoformat()`, then a literal `Z`. The offset is kept, so
      the stamp ends in `+00:00Z`. */
  function FormatTime(t: DateTime): (s: string)
    ensures |s| == (if t.microsecond == 0 then 26 else 33)
    ensures s[|s| - 7..] == "+00:00Z"
  {
    IsoFormat(t, true) + "Z"
  }

  predicate DigitsAt(s: string, lo: nat, hi: nat)
  {
    lo <= hi <= |s| && AllDigits(s[lo..hi])
  }

  /** The separators, digit runs and suffix of a stamp `FormatTime` writes. */
  predicate HasStampShape(s: string)
  {
    && (|s| == 26 || |s| == 33)
    && s[|s| - 7..] == "+00:00Z"
    && s[4] == '-' && s[7] == '-' && s[10] == 'T' && s[13] == ':' && s[16] == ':'
    && DigitsAt(s, 0, 4) && DigitsAt(s, 5, 7) && DigitsAt(s, 8, 10)
    && DigitsAt(s, 11, 13) && DigitsAt(s, 14, 16) && DigitsAt(s, 17, 19)
    && (|s| == 33 ==> s[19] == '.' && DigitsAt(s, 20, 26))
  }

  function StampMoment(s: string): Moment
    requires HasStampShape(s)
  {
    Moment(ReadNat(s[0..4]), ReadNat(s[5..7]), ReadNat(s[8..10]),
           ReadNat(s[11..13]), ReadNat(s[14..16]), ReadNat(s[17..19]),
           if |s| == 33 then ReadNat(s[20..26]) else 0)
  }

  /** Reads back a stamp of the shape `FormatTime` writes; None for any other string. */
  function ParseTime(s: string): Option<DateTime>
  {
    if !HasStampShape(s) then None
    else
      var m := StampMoment(s);
      if IsValid(m) && (|s| == 33 <==> m.microsecond != 0) then Some(m) else None
  }

  /** Where the three fields of `a + sep + b + sep + c` sit, for two-character
      `b` and `c`: the shape of both a date and a time of day. */
  lemma TripleLayout(s: string, a: string, sep: string, b: string, c: string)
    requires |sep| == 1 && |b| == 2 && |c| == 2 && s == a + sep + b + sep + c
    ensures var n := |a|;
      s[0..n] == a && s[n] == sep[0] && s[n + 1..n + 3] == b && s[n + 3] == sep[0] && s[n + 4..n + 6] == c
  {
    var n := |a|;
    assert s[0..n] == a;
    assert s[n + 1..n + 3] == b;
    assert s[n + 4..n + 6] == c;
  }

  lemma DateLayout(t: DateTime)
    ensures var d := DatePart(t);
      d[0..4] == Pad(t.year, 4) && d[4] == '-' && d[5..7] == Pad(t.month, 2)
      && d[7] == '-' && d[8..10] == Pad(t.day, 2)
  {
    TripleLayout(DatePart(t), Pad(t.year, 4), "-", Pad(t.month, 2), Pad(t.day, 2));
  }

  lemma ClockLayout(t: DateTime)
    ensures var c := ClockPart(t);
      c[0..2] == Pad(t.hour, 2) && c[2] == ':' && c[3..5] == Pad(t.minute, 2)
      && c[5] == ':' && c[6..8] == Pad(t.second, 2)
  {
    TripleLayout(ClockPart(t), Pad(t.hour, 2), ":", Pad(t.minute, 2), Pad(t.second, 2));
  }

  /** A slice that ends inside the left operand of a concatenation. */
  lemma SliceOfConcat(x: string, y: string, i: int, j: int)
    requires 0 <= i <= j <= |x|
    ensures (x + y)[i..j] == x[i..j]
  {
  }

  /** A slice of a slice is a slice of the whole. */
  lemma SliceOfSlice(s: string, lo: int, hi: int, i: int, j: int)
    requires 0 <= lo <= hi <= |s| && 0 <= i <= j <= hi - lo
    ensures s[lo..hi][i..j] == s[lo + i..lo + j]
  {
    assert forall k :: 0 <= k < j - i ==> s[lo..hi][i..j][k] == s[lo + i..lo + j][k];
  }

  /** Where the pieces of `d + "T" + c + f + "+00:00" + "Z"` sit. */
  lemma LayoutOf(d: string, c: string, f: string)
    requires |d| == 10 && |c| == 8
    ensures var s := d + "T" + c + f + "+00:00" + "Z";
      s[0..10] == d && s[10] == 'T' && s[11..19] == c && s[19..|s| - 7] == f
  {
    var p1 := d + "T";
    var p2 := p1 + c;
    var p3 := p2 + f;
    var s := p3 + "+00:00" + "Z";
    assert s == p3 + "+00:00Z";
    SliceOfConcat(p3, "+00:00Z", 0, 10);
    SliceOfConcat(p2, f, 0, 10);
    SliceOfConcat(p1, c, 0, 10);
    assert p1[0..10] == d;
    SliceOfConcat(p3, "+00:00Z", 11, 19);
    SliceOfConcat(p2, f, 11, 19);
    assert p2[11..19] == c;
    SliceOfConcat(p3, "+00:00Z", 19, |p3|);
    assert p3[19..|p3|] == f;
  }

  lemma StampLayout(t: DateTime)
    ensures var s := FormatTime(t);
      s[0..10] == DatePart(t) && s[10] == 'T' && s[11..19] == ClockPart(t)
      && s[19..|s| - 7] == FractionPart(t)
  {
    LayoutOf(DatePart(t), ClockPart(t), FractionPart(t));
  }

  /** The digit runs and separators of any string that starts with a date. */
  lemma DatePieces(s: string, t: DateTime)
    requires |s| >= 10 && s[0..10] == DatePart(t)
    ensures s[0..4] == Pad(t.year, 4) && s[4] == '-' && s[5..7] == Pad(t.month, 2)
      && s[7] == '-' && s[8..10] == Pad(t.day, 2)
  {
    DateLayout(t);
    var d := s[0..10];
    assert s[4] == d[4] && s[7] == d[7];
    SliceOfSlice(s, 0, 10, 0, 4);
    SliceOfSlice(s, 0, 10, 5, 7);
    SliceOfSlice(s, 0, 10, 8, 10);
  }

  /** The digit runs and separators of any string with a clock at offset 11. */
  lemma ClockPieces(s: string, t: DateTime)
    requires |s| >= 19 && s[11..19] == ClockPart(t)
    ensures s[11..13] == Pad(t.hour, 2) && s[13] == ':' && s[14..16] == Pad(t.minute, 2)
      && s[16] == ':' && s[17..19] == Pad(t.second, 2)
  {
    ClockLayout(t);
    var c := s[11..19];
    assert s[13] == c[2] && s[16] == c[5];
    SliceOfSlice(s, 11, 19, 0, 2);
    SliceOfSlice(s, 11, 19, 3, 5);
    SliceOfSlice(s, 11, 19, 6, 8);
  }

  /** The fraction of any string with a nonzero-microsecond fraction at offset 19. */
  lemma FractionPieces(s: string, t: DateTime)
    requires t.microsecond != 0 && |s| >= 26 && s[19..26] == FractionPart(t)
    ensures s[19] == '.' && s[20..26] == Pad(t.microsecond, 6)
  {
    SliceOfSlice(s, 19, 26, 1, 7);
    assert s[19..26][1..7] == Pad(t.microsecond, 6);
  }

  /** `s` is laid out as the stamp of `t`: each digit run is the padded field
      and each separator is in place. */
  predicate HasPieces(s: string, t: DateTime)
  {
    && |s| == (if t.microsecond == 0 then 26 else 33)
    && s[0..4] == Pad(t.year, 4) && s[4] == '-' && s[5..7] == Pad(t.month, 2)
    && s[7] == '-' && s[8..10] == Pad(t.day, 2) && s[10] == 'T'
    && s[11..13] == Pad(t.hour, 2) && s[13] == ':' && s[14..16] == Pad(t.minute, 2)
    && s[16] == ':' && s[17..19] == Pad(t.second, 2)
    && (t.microsecond != 0 ==> s[19] == '.' && s[20..26] == Pad(t.microsecond, 6))
  }

  lemma StampPieces(t: DateTime)
    ensures HasPieces(FormatTime(t), t)
  {
    var s := FormatTime(t);
    StampLayout(t);
    DatePieces(s, t);
    ClockPieces(s, t);
    if t.microsecond != 0 {
      assert s[19..26] == s[19..|s| - 7];
      FractionPieces(s, t);
    }
  }

  /** A digit run laid out as the padded `n` reads back as `n`. */
  lemma FieldReadsBack(s: string, lo: int, hi: int, n: nat)
    requires 0 <= lo <= hi <= |s| && n < Pow10(hi - lo) && s[lo..hi] == Pad(n, hi - lo)
    ensures AllDigits(s[lo..hi]) && ReadNat(s[lo..hi]) == n
  {
    ReadPad(n, hi - lo);
  }

  /** Any string laid out as the stamp of `t` and ending in the offset has the
      stamp shape. */
  lemma PiecesHaveShape(s: string, t: DateTime)
    requires HasPieces(s, t) && s[|s| - 7..] == "+00:00Z"
    ensures HasStampShape(s)
  {
    assert DigitsAt(s, 0, 4) && DigitsAt(s, 5, 7) && DigitsAt(s, 8, 10);
    assert DigitsAt(s, 11, 13) && DigitsAt(s, 14, 16) && DigitsAt(s, 17, 19);
  }

  /** Any string laid out as the stamp of `t` and ending in the offset reads
      back as `t`. */
  lemma PiecesReadBack(s: string, t: DateTime)
    requires HasPieces(s, t) && s[|s| - 7..] == "+00:00Z"
    ensures HasStampShape(s) && StampMoment(s) == t
  {
    PiecesHaveShape(s, t);
    FieldReadsBack(s, 0, 4, t.year);
    FieldReadsBack(s, 5, 7, t.month);
    FieldReadsBack(s, 8, 10, t.day);
    FieldReadsBack(s, 11, 13, t.hour);
    FieldReadsBack(s, 14, 16, t.minute);
    FieldReadsBack(s, 17, 19, t.second);
    var micro := if |s| == 33 then ReadNat(s[20..26]) else 0;
    if t.microsecond != 0 {
      FieldReadsBack(s, 20, 26, t.microsecond);
    }
    assert micro == t.microsecond;
  }

  /** The parser reads each field of a formatter stamp back to its value. */
  lemma StampShape(t: DateTime)
    ensures HasStampShape(FormatTime(t))
    ensures StampMoment(FormatTime(t)) == t
  {
    StampPieces(t);
    PiecesReadBack(FormatTime(t), t);
  }

  /** Every stamp the formatters write reads back to the instant it was made from. */
  lemma FormatTimeParses(t: DateTime)
    ensures ParseTime(FormatTime(t)) == Some(t)
  {
    StampShape(t);
  }

  /** Two stamps agree on every digit run, on the separators and on the suffix. */
  predicate SameFields(u: string, s: string)
    requires HasStampShape(u) && HasStampShape(s)
  {
    && |u| == |s|
    && u[0..4] == s[0..4] && u[5..7] == s[5..7] && u[8..10] == s[8..10]
    && u[11..13] == s[11..13] && u[14..16] == s[14..16] && u[17..19] == s[17..19]
    && (|s| == 33 ==> u[20..26] == s[20..26])
  }

  lemma SameFieldsEqual(u: string, s: string)
    requires HasStampShape(u) && HasStampShape(s) && SameFields(u, s)
    ensures u == s
  {
    forall i | 0 <= i < |s|
      ensures u[i] == s[i]
    {
      if i < 4 {
        assert u[i] == u[0..4][i] && s[i] == s[0..4][i];
      } else if 5 <= i < 7 {
        assert u[i] == u[5..7][i - 5] && s[i] == s[5..7][i - 5];
      } else if 8 <= i < 10 {
        assert u[i] == u[8..10][i - 8] && s[i] == s[8..10][i - 8];
      } else if 11 <= i < 13 {
        assert u[i] == u[11..13][i - 11] && s[i] == s[11..13][i - 11];
      } else if 14 <= i < 16 {
        assert u[i] == u[14..16][i - 14] && s[i] == s[14..16][i - 14];
      } else if 17 <= i < 19 {
        assert u[i] == u[17..19][i - 17] && s[i] == s[17..19][i - 17];
      } else if 20 <= i < 26 && |s| == 33 {
        assert u[i] == u[20..26][i - 20] && s[i] == s[20..26][i - 20];
      } else if i >= |s| - 7 {
        assert u[i] == u[|u| - 7..][i - (|s| - 7)] && s[i] == s[|s| - 7..][i - (|s| - 7)];
      }
    }
  }

  /** The parser accepts nothing but the formatters' own output: a stamp that
      reads back to an instant is exactly that instant's stamp. */
  lemma ParsedIsFormatted(s: string, t: DateTime)
    requires ParseTime(s) == Some(t)
    ensures FormatTime(t) == s
  {
    var u := FormatTime(t);
    StampPieces(t);
    PiecesReadBack(u, t);
    PiecesAgree(u, s, t);
    SameFieldsEqual(u, s);
  }

  /** A string laid out as the stamp of `t` agrees field by field with any
      stamp-shaped string of the same length that reads back as `t`. */
  lemma PiecesAgree(u: string, s: string, t: DateTime)
    requires HasPieces(u, t) && HasStampShape(u) && HasStampShape(s)
    requires StampMoment(s) == t && |s| == |u|
    ensures SameFields(u, s)
  {
    PadRead(s[0..4]);
    PadRead(s[5..7]);
    PadRead(s[8..10]);
    PadRead(s[11..13]);
    PadRead(s[14..16]);
    PadRead(s[17..19]);
    if |s| == 33 {
      PadRead(s[20..26]);
    }
  }

  /** `datetime.utcnow().isoformat() + "Z"`, the stamp the HTTP error
      handlers put in their bodies: a naive datetime, so no offset. */
  function NaiveUtcStamp(t: DateTime): (s: string)
    ensures |s| == (if t.microsecond == 0 then 20 else 27)
    ensures s[|s| - 1] == 'Z'
  {
    IsoFormat(t, false) + "Z"
  }

  /** For one instant, the handlers' stamp and the formatters' stamp carry the
      same date and time of day and differ only in the `+00:00` before `Z`. */
  lemma StampsDifferOnlyInOffset(t: DateTime)
    ensures var n, f := NaiveUtcStamp(t), FormatTime(t);
      n[..|n| - 1] == f[..|f| - 7] && f[|f| - 7..] == "+00:00Z" && n != f
  {
    var n, f := NaiveUtcStamp(t), FormatTime(t);
    var iso := IsoFormat(t, false);
    assert n[..|n| - 1] == iso;
    assert f == iso + "+00:00" + "Z";
    assert f[..|f| - 7] == iso;
  }
}

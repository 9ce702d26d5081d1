/** Calendar-field view of Go's time.Time and the textual layout
    "2006-01-02T15:04:05" the events compiler renders it in. */
module TimeFormat {
  import opened Wrappers
  import opened Strconv

  type Year = y: int | 0 <= y <= 9999
  type Month = m: int | 1 <= m <= 12 witness 1
  type Day = d: int | 1 <= d <= 31 witness 1
  type Hour = h: int | 0 <= h <= 23
  type Minute = m: int | 0 <= m <= 59
  type Second = s: int | 0 <= s <= 59

  /** A wall-clock instant, already split into calendar fields
      (the time zone is not part of the rendered text). */
  datatype DateTime = DateTime(year: Year, month: Month, day: Day,
                               hour: Hour, minute: Minute, second: Second)

  /** Two decimal digits, with a leading zero below ten. */
  function Pad2(n: nat): string
    requires n < 100
  {
    [DigitChar(n / 10)] + [DigitChar(n % 10)]
  }

  /** Four decimal digits, zero-padded. */
  function Pad4(n: nat): string
    requires n < 10000
  {
    Pad2(n / 100) + Pad2(n % 100)
  }

  /** Pad2 writes exactly two digits that read back as n. */
  lemma Pad2Digits(n: nat)
    requires n < 100
    ensures |Pad2(n)| == 2 && AllDigits(Pad2(n)) && DigitsValue(Pad2(n)) == n
  {
    DigitsValueAppend([], DigitChar(n / 10));
    DigitsValueAppend([DigitChar(n / 10)], DigitChar(n % 10));
    assert [] + [DigitChar(n / 10)] == [DigitChar(n / 10)];
  }

  /** Pad4 writes exactly four digits that read back as n. */
  lemma Pad4Digits(n: nat)
    requires n < 10000
    ensures |Pad4(n)| == 4 && AllDigits(Pad4(n)) && DigitsValue(Pad4(n)) == n
  {
    var hi, lo := Pad2(n / 100), Pad2(n % 100);
    Pad2Digits(n / 100);
    Pad2Digits(n % 100);
    DigitsValueAppend(hi, lo[0]);
    DigitsValueAppend(hi + [lo[0]], lo[1]);
    assert hi + [lo[0]] + [lo[1]] == hi + lo;
    assert DigitsValue(lo) == DigitValue(lo[0]) * 10 + DigitValue(lo[1]) by {
      DigitsValueAppend([], lo[0]);
      DigitsValueAppend([lo[0]], lo[1]);
      assert [] + [lo[0]] == [lo[0]] && [lo[0]] + [lo[1]] == lo;
    }
  }

  /** t.Format("2006-01-02T15:04:05"): zero-padded fields, four-digit year. */
  function Format(t: DateTime): string
  {
    Pad4(t.year) + "-" + Pad2(t.month) + "-" + Pad2(t.day) + "T"
      + Pad2(t.hour) + ":" + Pad2(t.minute) + ":" + Pad2(t.second)
  }

  /** The inverse of Format: reads the six fields back from the layout. It
      checks only the field ranges of DateTime (any day up to 31 in any
      month), so it accepts dates that Go's time.Parse rejects. */
  function Parse(s: string): (r: Option<DateTime>)
  {
    if |s| != 19 || s[4] != '-' || s[7] != '-' || s[10] != 'T' || s[13] != ':' || s[16] != ':' then None
    else if !(AllDigits(s[0..4]) && AllDigits(s[5..7]) && AllDigits(s[8..10])
              && AllDigits(s[11..13]) && AllDigits(s[14..16]) && AllDigits(s[17..19])) then None
    else
      var y, mo, d := DigitsValue(s[0..4]), DigitsValue(s[5..7]), DigitsValue(s[8..10]);
      var h, mi, se := DigitsValue(s[11..13]), DigitsValue(s[14..16]), DigitsValue(s[17..19]);
      if y <= 9999 && 1 <= mo <= 12 && 1 <= d <= 31 && h <= 23 && mi <= 59 && se <= 59
      then Some(DateTime(y, mo, d, h, mi, se))
      else None
  }

  /** The rendered text is 19 characters long, with the separators of the
      layout at their fixed positions and each field's digits between them. */
  lemma FormatLayout(t: DateTime)
    ensures var s := Format(t);
            |s| == 19 && s[4] == '-' && s[7] == '-' && s[10] == 'T' && s[13] == ':' && s[16] == ':'
            && s[0..4] == Pad4(t.year) && s[5..7] == Pad2(t.month) && s[8..10] == Pad2(t.day)
            && s[11..13] == Pad2(t.hour) && s[14..16] == Pad2(t.minute) && s[17..19] == Pad2(t.second)
  {
    var y, mo, d := Pad4(t.year), Pad2(t.month), Pad2(t.day);
    var h, mi, se := Pad2(t.hour), Pad2(t.minute), Pad2(t.second);
    var s := Format(t);
    assert |y| == 4 && |mo| == 2 && |d| == 2 && |h| == 2 && |mi| == 2 && |se| == 2;
    assert s == y + "-" + mo + "-" + d + "T" + h + ":" + mi + ":" + se;
    assert s[0..4] == y;
    assert s[5..7] == mo;
    assert s[8..10] == d;
    assert s[11..13] == h;
    assert s[14..16] == mi;
    assert s[17..19] == se;
  }

  /** Parsing the rendered text gives back every calendar field. */
  lemma ParseFormat(t: DateTime)
    ensures Parse(Format(t)) == Some(t)
  {
    FormatLayout(t);
    Pad4Digits(t.year);
    Pad2Digits(t.month);
    Pad2Digits(t.day);
    Pad2Digits(t.hour);
    Pad2Digits(t.minute);
    Pad2Digits(t.second);
  }

  /** Format is injective: distinct instants render differently. */
  lemma FormatInjective(t: DateTime, u: DateTime)
    requires Format(t) == Format(u)
    ensures t == u
  {
    ParseFormat(t);
    ParseFormat(u);
  }

  /** The padded fields the example instants are made of. */
  lemma PadExamples()
    ensures Pad4(2024) == "2024" && Pad2(0) == "00" && Pad2(1) == "01" && Pad2(2) == "02"
  {
    assert Pad2(0) == "00" by { assert DigitChar(0) == '0'; }
    assert Pad2(1) == "01" by { assert DigitChar(0) == '0' && DigitChar(1) == '1'; }
    assert Pad2(2) == "02" by { assert DigitChar(0) == '0' && DigitChar(2) == '2'; }
    assert Pad4(2024) == "2024" by {
      assert Pad2(20) == "20" by { assert DigitChar(0) == '0' && DigitChar(2) == '2'; }
      assert Pad2(24) == "24" by { assert DigitChar(4) == '4' && DigitChar(2) == '2'; }
    }
  }

  /** 1 and 2 January 2024 at midnight. */
  lemma FormatExample()
    ensures Format(DateTime(2024, 1, 1, 0, 0, 0)) == "2024-01-01T00:00:00"
    ensures Format(DateTime(2024, 1, 2, 0, 0, 0)) == "2024-01-02T00:00:00"
  {
    PadExamples();
  }
}

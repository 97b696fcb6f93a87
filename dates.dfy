/**
 * Validation of the query's expiration dates with Go's time.Parse and the
 * layout "2006-01-02": exactly the full-date of section 5.6 of RFC 3339
 * (four-digit year, two-digit month and day, '-' separators, nothing after),
 * with the month and day-of-month limits of section 5.7 of RFC 3339.
 */
module Dates {
  import opened Wrappers
  import opened Extract

  datatype Date = Date(year: nat, month: nat, day: nat)

  /** The Gregorian leap-year rule of section 5.7 of RFC 3339. */
  predicate IsLeapYear(year: nat)
  {
    year % 4 == 0 && (year % 100 != 0 || year % 400 == 0)
  }

  function DaysInMonth(year: nat, month: nat): (days: nat)
    requires 1 <= month <= 12
    ensures 28 <= days <= 31
    ensures month == 2 ==> (days == 29 <==> IsLeapYear(year))
  {
    if month == 2 then (if IsLeapYear(year) then 29 else 28)
    else if month == 4 || month == 6 || month == 9 || month == 11 then 30
    else 31
  }

  /** A calendar date that a full-date can denote. */
  predicate ValidDate(d: Date)
  {
    && d.year <= 9999
    && 1 <= d.month <= 12
    && 1 <= d.day <= DaysInMonth(d.year, d.month)
  }

  /** The full-date shape: DDDD-DD-DD. */
  predicate FullDateShape(s: string)
  {
    && |s| == 10
    && s[4] == '-' && s[7] == '-'
    && AllDigits(s[..4]) && AllDigits(s[5..7]) && AllDigits(s[8..])
  }

  /** time.Parse("2006-01-02", s): None exactly when Go reports an error. */
  function ParseFullDate(s: string): (r: Option<Date>)
    ensures r.Some? ==> ValidDate(r.value) && FullDateShape(s)
    ensures r.Some? ==> r.value == Date(DecimalValue(s[..4]), DecimalValue(s[5..7]), DecimalValue(s[8..]))
  {
    if FullDateShape(s) then
      var d := Date(DecimalValue(s[..4]), DecimalValue(s[5..7]), DecimalValue(s[8..]));
      if ValidDate(d) then Some(d) else None
    else None
  }

  function Pow10(n: nat): (p: nat)
    ensures p >= 1
  {
    if n == 0 then 1 else 10 * Pow10(n - 1)
  }

  /** The last `width` decimal digits of n, zero-padded on the left. */
  function FixedDigits(n: nat, width: nat): (r: string)
    requires n < Pow10(width)
    ensures |r| == width && AllDigits(r)
    ensures DecimalValue(r) == n
    decreases width
  {
    if width == 0 then []
    else
      var prefix := FixedDigits(n / 10, width - 1);
      var r := prefix + [DigitChar(n % 10)];
      assert r[..|r| - 1] == prefix;
      r
  }

  /** Four digits, '-', two digits, '-', two digits: a full-date, and its fields are those runs. */
  lemma FullDateJoin(y: string, m: string, d: string)
    requires |y| == 4 && |m| == 2 && |d| == 2
    requires AllDigits(y) && AllDigits(m) && AllDigits(d)
    ensures FullDateShape(y + "-" + m + "-" + d)
    ensures (y + "-" + m + "-" + d)[..4] == y
    ensures (y + "-" + m + "-" + d)[5..7] == m
    ensures (y + "-" + m + "-" + d)[8..] == d
  {
    var s := y + "-" + m + "-" + d;
    assert s[..4] == y;
    assert s[5..7] == m;
    assert s[8..] == d;
  }

  /** The full-date text of a date. */
  function FormatFullDate(d: Date): (s: string)
    requires ValidDate(d)
    ensures FullDateShape(s)
  {
    assert Pow10(4) == 10000 && Pow10(2) == 100;
    FullDateJoin(FixedDigits(d.year, 4), FixedDigits(d.month, 2), FixedDigits(d.day, 2));
    FixedDigits(d.year, 4) + "-" + FixedDigits(d.month, 2) + "-" + FixedDigits(d.day, 2)
  }

  /** A run of digits is reproduced by padding its value to its own width. */
  lemma {:induction false} DigitsRoundTrip(t: string)
    requires AllDigits(t)
    ensures DecimalValue(t) < Pow10(|t|)
    ensures FixedDigits(DecimalValue(t), |t|) == t
  {
    if t != [] {
      var init, last := t[..|t| - 1], t[|t| - 1];
      DigitsRoundTrip(init);
      var p, dv := DecimalValue(init), DigitValue(last);
      assert DecimalValue(t) == p * 10 + dv;
      assert p * 10 + dv < Pow10(|t|) by {
        assert p + 1 <= Pow10(|init|);
        assert Pow10(|t|) == 10 * Pow10(|init|);
      }
      assert (p * 10 + dv) / 10 == p && (p * 10 + dv) % 10 == dv;
      assert DigitChar(dv) == last;
      assert t == init + [last];
    }
  }

  /** Every valid date is read back from its full-date text. */
  lemma FormatThenParse(d: Date)
    requires ValidDate(d)
    ensures ParseFullDate(FormatFullDate(d)) == Some(d)
  {
    assert Pow10(4) == 10000 && Pow10(2) == 100;
    FullDateJoin(FixedDigits(d.year, 4), FixedDigits(d.month, 2), FixedDigits(d.day, 2));
  }

  /** Every text time.Parse accepts is exactly the full-date text of what it parsed to. */
  lemma ParseThenFormat(s: string)
    requires ParseFullDate(s).Some?
    ensures FormatFullDate(ParseFullDate(s).value) == s
  {
    DigitsRoundTrip(s[..4]);
    DigitsRoundTrip(s[5..7]);
    DigitsRoundTrip(s[8..]);
    assert s == s[..4] + "-" + s[5..7] + "-" + s[8..];
  }

  /** A month number above 12 is rejected, whatever the year and day. */
  lemma MonthThirteenRejected()
    ensures ParseFullDate("2025-13-01") == None
  {
    var s := "2025-13-01";
    assert s[5..7] == "13";
    assert DecimalValue("13") == 13 by {
      assert "13"[..1] == "1";
      assert "1"[..0] == "";
    }
  }

  predicate AllValidDates(dates: seq<string>)
  {
    forall k :: 0 <= k < |dates| ==> ParseFullDate(dates[k]).Some?
  }

  /** The first entry of `dates` that does not parse; None exactly when every entry parses. */
  function FirstInvalid(dates: seq<string>): (r: Option<string>)
    ensures r.None? <==> AllValidDates(dates)
  {
    if dates == [] then None
    else if ParseFullDate(dates[0]).None? then Some(dates[0])
    else FirstInvalid(dates[1..])
  }

  /** The entry FirstInvalid finds is the first one that does not parse. */
  lemma {:induction false} FirstInvalidIsFirst(dates: seq<string>)
    ensures FirstInvalid(dates).Some? ==> exists k :: 0 <= k < |dates| && dates[k] == FirstInvalid(dates).value
                                                     && ParseFullDate(dates[k]).None? && AllValidDates(dates[..k])
  {
    if dates != [] && ParseFullDate(dates[0]).Some? {
      var rest := dates[1..];
      FirstInvalidIsFirst(rest);
      assert forall k :: 0 <= k < |rest| ==> rest[k] == dates[k + 1];
      if FirstInvalid(rest).Some? {
        var k :| 0 <= k < |rest| && rest[k] == FirstInvalid(rest).value
                 && ParseFullDate(rest[k]).None? && AllValidDates(rest[..k]);
        assert dates[..k + 1] == [dates[0]] + rest[..k];
        assert AllValidDates(dates[..k + 1]);
      } else {
        assert AllValidDates(dates);
      }
    } else if dates != [] {
      assert dates[..0] == [];
    }
  }

  /**
   * The validation loop at the top of GetOptions: the first entry that does
   * not parse, or None when every entry parses.
   */
  method FirstInvalidDate(dates: seq<string>) returns (bad: Option<string>)
    ensures bad == FirstInvalid(dates)
    ensures bad.None? <==> AllValidDates(dates)
    ensures bad.Some? ==> exists k :: 0 <= k < |dates| && dates[k] == bad.value
                                      && ParseFullDate(dates[k]).None? && AllValidDates(dates[..k])
  {
    var i := 0;
    while i < |dates|
      invariant 0 <= i <= |dates|
      invariant AllValidDates(dates[..i])
      invariant FirstInvalid(dates) == FirstInvalid(dates[i..])
    {
      assert dates[i..][1..] == dates[i + 1..];
      if ParseFullDate(dates[i]).None? {
        return Some(dates[i]);
      }
      i := i + 1;
    }
    assert dates[..i] == dates;
    return None;
  }
}

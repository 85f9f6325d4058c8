// DD/MM/YY formatting (utils/formatDate.js).
module FormatDate {
  import opened Strings
  import opened Calendar

  function TwoDigits(n: nat): (r: string)
  {
    PadStart(NatToString(n), 2, '0')
  }

  /** `formatDateToUKTime(date)`, on the local calendar fields of the parsed date. */
  function FormatDateToUKTime(d: Date): (r: string)
    requires ValidDate(d)
  {
    TwoDigits(d.day) + "/" + TwoDigits(d.month) + "/" + TakeLast(IntToString(d.year), 2)
  }

  /** A number below 100, zero-padded to two digits, reads back as itself. */
  lemma TwoDigitsReadBack(n: nat)
    requires n < 100
    ensures |TwoDigits(n)| == 2
    ensures forall i :: 0 <= i < 2 ==> IsDigit(TwoDigits(n)[i])
    ensures ParseDigits(TwoDigits(n)) == n
  {
    var r := TwoDigits(n);
    if n < 10 {
      assert NatToString(n) == [DigitChar(n)];
      assert Repeat('0', 1) == ['0'];
      assert r == ['0', DigitChar(n)];
      assert r[..1] == ['0'] && ['0'][..0] == [];
      assert ParseDigits(['0']) == 0;
      assert ParseDigits(r) == 10 * ParseDigits(['0']) + DigitValue(DigitChar(n));
    } else {
      assert r == NatToString(n);
      NatToStringRoundTrip(n);
    }
  }

  /** The last two characters of `n.toString()` are the tens and units digits of `n`. */
  lemma LastTwoDigits(n: nat)
    requires n >= 10
    ensures TakeLast(NatToString(n), 2) == [DigitChar((n / 10) % 10), DigitChar(n % 10)]
  {
    var q := NatToString(n / 10);
    assert NatToString(n) == q + [DigitChar(n % 10)];
    assert q[|q| - 1] == DigitChar((n / 10) % 10);
  }

  /** `getFullYear().toString().slice(-2)` reads back as the year modulo 100. */
  lemma YearReadsBack(year: int)
    requires year >= 10
    ensures var y := TakeLast(IntToString(year), 2);
            |y| == 2 && IsDigit(y[0]) && IsDigit(y[1]) && ParseDigits(y) == year % 100
  {
    LastTwoDigits(year);
    var y := TakeLast(IntToString(year), 2);
    assert y == [DigitChar((year / 10) % 10), DigitChar(year % 10)];
    assert y[..1] == [y[0]];
    assert y[..1][..0] == [];
    assert ParseDigits(y[..1]) == DigitValue(y[0]);
    assert ParseDigits(y) == 10 * ((year / 10) % 10) + year % 10;
  }

  /** The output is eight characters, "DD/MM/YY", and the day, the month and the year
      modulo 100 can be read back from it (years of two or more digits). */
  lemma FormatReadsBack(d: Date)
    requires ValidDate(d) && d.year >= 10
    ensures var r := FormatDateToUKTime(d);
            |r| == 8 && r[2] == '/' && r[5] == '/' &&
            (forall i :: 0 <= i < 8 && i != 2 && i != 5 ==> IsDigit(r[i])) &&
            ParseDigits(r[0..2]) == d.day &&
            ParseDigits(r[3..5]) == d.month &&
            ParseDigits(r[6..8]) == d.year % 100
  {
    var dd, mm, yy := TwoDigits(d.day), TwoDigits(d.month), TakeLast(IntToString(d.year), 2);
    TwoDigitsReadBack(d.day);
    TwoDigitsReadBack(d.month);
    YearReadsBack(d.year);
    var r := FormatDateToUKTime(d);
    assert r == dd + "/" + mm + "/" + yy;
    assert r[0..2] == dd;
    assert r[3..5] == mm;
    assert r[6..8] == yy;
  }
}

/** Calendar arithmetic for the reports page: days are numbered from
    1970-01-01 (day 0, a Thursday), turned into proleptic Gregorian dates and
    back, and written and read as `YYYY-MM-DD` strings. All of it is in UTC. */
module Calendar {
  import opened Wrappers
  import opened Strings

  /** A date of the proleptic Gregorian calendar; `month` runs 1..12. */
  datatype CivilDate = CivilDate(year: int, month: int, day: int)

  /** Day of a 400-year era (which starts on 1 March) to (year of the era,
      day of that March-based year). */
  function YearOfEra(doe: int): (r: (int, int))
    requires 0 <= doe < 146097
    ensures 0 <= r.0 < 400 && 0 <= r.1 <= 365
    ensures 365 * r.0 + r.0 / 4 - r.0 / 100 + r.1 == doe
  {
    var n100 := if doe / 36524 < 3 then doe / 36524 else 3;
    var r100 := doe - n100 * 36524;
    var n4 := r100 / 1461;
    var r4 := r100 % 1461;
    var n1 := if r4 / 365 < 3 then r4 / 365 else 3;
    var yoe := 100 * n100 + 4 * n4 + n1;
    assert n4 <= 24;
    assert yoe / 4 == 25 * n100 + n4;
    assert yoe / 100 == n100;
    (yoe, r4 - n1 * 365)
  }

  /** Day of a March-based year to (months since March, day of month). */
  function MonthOfYear(doy: int): (r: (int, int))
    requires 0 <= doy <= 365
    ensures 0 <= r.0 <= 11 && 1 <= r.1 <= 31
    ensures (153 * r.0 + 2) / 5 + r.1 - 1 == doy
  {
    var mp := (5 * doy + 2) / 153;
    (mp, doy - (153 * mp + 2) / 5 + 1)
  }

  /** Months since March to the month number 1..12. */
  function MonthNumber(mp: int): (m: int)
    requires 0 <= mp <= 11
    ensures 1 <= m <= 12
    ensures (if m > 2 then m - 3 else m + 9) == mp
  {
    if mp < 10 then mp + 3 else mp - 9
  }

  /** The date of day `z`. */
  function CivilFromDays(z: int): (r: CivilDate)
    ensures 1 <= r.month <= 12 && 1 <= r.day <= 31
  {
    var era := (z + 719468) / 146097;
    var (yoe, doy) := YearOfEra((z + 719468) % 146097);
    var (mp, d) := MonthOfYear(doy);
    var m := MonthNumber(mp);
    CivilDate(yoe + era * 400 + (if m <= 2 then 1 else 0), m, d)
  }

  /** The day number of a date; a day past the end of its month counts on
      into the next one. */
  function DaysFromCivil(date: CivilDate): int
  {
    var y := if date.month <= 2 then date.year - 1 else date.year;
    var era := y / 400;
    var yoe := y - era * 400;
    var mp := if date.month > 2 then date.month - 3 else date.month + 9;
    var doy := (153 * mp + 2) / 5 + date.day - 1;
    var doe := 365 * yoe + yoe / 4 - yoe / 100 + doy;
    era * 146097 + doe - 719468
  }

  lemma EraSplit(y: int, era: int, yoe: int)
    requires y == yoe + era * 400 && 0 <= yoe < 400
    ensures y / 400 == era && y - (y / 400) * 400 == yoe
  {
  }

  /** The day number of a date given by its era, year of era and month. */
  lemma DaysFromCivilOfEra(era: int, yoe: int, mp: int, m: int, d: int)
    requires 0 <= yoe < 400 && 1 <= m <= 12 && mp == (if m > 2 then m - 3 else m + 9)
    ensures DaysFromCivil(CivilDate(yoe + era * 400 + (if m <= 2 then 1 else 0), m, d))
      == era * 146097 + (365 * yoe + yoe / 4 - yoe / 100 + ((153 * mp + 2) / 5 + d - 1)) - 719468
  {
    EraSplit(yoe + era * 400, era, yoe);
  }

  /** Every day number is recovered from its date. */
  lemma DaysFromCivilFromDays(z: int)
    ensures DaysFromCivil(CivilFromDays(z)) == z
  {
    var era := (z + 719468) / 146097;
    var doe := (z + 719468) % 146097;
    var (yoe, doy) := YearOfEra(doe);
    var (mp, d) := MonthOfYear(doy);
    var m := MonthNumber(mp);
    assert CivilFromDays(z) == CivilDate(yoe + era * 400 + (if m <= 2 then 1 else 0), m, d);
    DaysFromCivilOfEra(era, yoe, mp, m, d);
  }

  /** `getDay()`: 0 is Sunday, 1 Monday, ... 6 Saturday. */
  function Weekday(z: int): (w: int)
    ensures 0 <= w < 7
  {
    (z + 4) % 7
  }

  /** How many days back the Monday of the week lies: 6 on a Sunday,
      `weekday - 1` otherwise (`getDate() - day + (day == 0 ? -6 : 1)`). */
  function MondayOffset(w: int): (r: int)
    requires 0 <= w < 7
    ensures 0 <= r <= 6
    ensures (w - r) % 7 == 1
  {
    if w == 0 then 6 else w - 1
  }

  /** The start of the week `z` lies in. */
  function MondayOf(z: int): (m: int)
    ensures z - 6 <= m <= z
    ensures Weekday(m) == 1
  {
    var m := z - MondayOffset(Weekday(z));
    assert m + 4 == (z + 4) - MondayOffset(Weekday(z));
    m
  }

  /** The week's start is a Monday at most six days back, and no Monday lies
      after it up to `z`: it is the latest Monday not after `z`. */
  lemma MondayOfIsLatestMonday(z: int)
    ensures z - 6 <= MondayOf(z) <= z
    ensures Weekday(MondayOf(z)) == 1
    ensures forall k :: MondayOf(z) < k <= z ==> Weekday(k) != 1
  {
    var w := Weekday(z);
    var m := MondayOf(z);
    assert (m + 4) % 7 == 1 by {
      assert m + 4 == (z + 4) - MondayOffset(w);
    }
    forall k | m < k <= z ensures Weekday(k) != 1 {
      assert (k + 4) % 7 == (m + 4 + (k - m)) % 7;
    }
  }

  /** Mondays are seven days apart, and a Monday is its own week's start. */
  lemma MondayOfMonday(z: int)
    requires Weekday(z) == 1
    ensures MondayOf(z) == z
    ensures MondayOf(z + 7) == z + 7
  {
    assert Weekday(z + 7) == Weekday(z);
  }

  function Pow10(k: nat): (r: nat)
    ensures r >= 1
  {
    if k == 0 then 1 else 10 * Pow10(k - 1)
  }

  function Zeros(k: nat): (r: string)
    ensures |r| == k && AllDigits(r)
  {
    seq(k, _ => '0')
  }

  lemma {:induction false} DigitsValueZeros(k: nat)
    ensures DigitsValue(Zeros(k)) == 0
  {
    if k > 0 {
      assert Zeros(k)[..k - 1] == Zeros(k - 1);
      DigitsValueZeros(k - 1);
    }
  }

  /** Leading zeros do not change the value of a digit string. */
  lemma {:induction false} DigitsValueLeadingZeros(k: nat, s: string)
    requires AllDigits(s)
    ensures AllDigits(Zeros(k) + s)
    ensures DigitsValue(Zeros(k) + s) == DigitsValue(s)
  {
    var t := Zeros(k) + s;
    assert AllDigits(t) by {
      forall i | 0 <= i < |t| ensures IsDigit(t[i]) {
        if i < k { assert t[i] == Zeros(k)[i]; } else { assert t[i] == s[i - k]; }
      }
    }
    if s == [] {
      assert t == Zeros(k);
      DigitsValueZeros(k);
    } else {
      assert t[..|t| - 1] == Zeros(k) + s[..|s| - 1];
      DigitsValueLeadingZeros(k, s[..|s| - 1]);
    }
  }

  /** A number below `10^w` needs at most `w` digits. */
  lemma {:induction false} NatToStringLength(n: nat, w: nat)
    requires 1 <= w && n < Pow10(w)
    ensures |NatToString(n)| <= w
  {
    if n >= 10 && w > 1 {
      NatToStringLength(n / 10, w - 1);
    }
  }

  /** `n` in decimal, zero-padded on the left to at least `width` digits. */
  function Pad(n: nat, width: nat): (r: string)
    ensures AllDigits(r) && |r| >= width
    ensures DigitsValue(r) == n
  {
    var s := NatToString(n);
    DigitsValueOfNat(n);
    if |s| >= width then s
    else
      DigitsValueLeadingZeros(width - |s|, s);
      Zeros(width - |s|) + s
  }

  /** A number below `10^w` is padded to exactly `w` digits. */
  lemma PadWidth(n: nat, w: nat)
    requires 1 <= w && n < Pow10(w)
    ensures |Pad(n, w)| == w
  {
    NatToStringLength(n, w);
  }

  /** The year as `toISOString` writes it: four digits for 0..9999, else a
      sign and six digits. */
  function YearString(y: int): (r: string)
    ensures r != []
  {
    if 0 <= y <= 9999 then Pad(y, 4)
    else if y < 0 then "-" + Pad(-y, 6)
    else "+" + Pad(y, 6)
  }

  /** `new Date(...).toISOString().split('T')[0]` for day `z`. */
  function IsoDate(z: int): (r: string)
    ensures r != []
  {
    var c := CivilFromDays(z);
    YearString(c.year) + "-" + Pad(c.month, 2) + "-" + Pad(c.day, 2)
  }

  /** The years whose dates are written in the plain four-digit form. */
  predicate FourDigitYear(z: int) {
    0 <= CivilFromDays(z).year <= 9999
  }

  /** `new Date(s)` for a date-only string `YYYY-MM-DD` (read as UTC
      midnight), as the day number; None stands for an invalid date. Month
      and day are range-checked (1..12, 1..31); a day past the end of a
      shorter month counts on into the next month. */
  function ParseIsoDate(s: string): (r: Option<int>)
    ensures r.Some? ==> |s| == 10 && s[4] == '-' && s[7] == '-'
  {
    if |s| == 10 && s[4] == '-' && s[7] == '-' &&
       AllDigits(s[..4]) && AllDigits(s[5..7]) && AllDigits(s[8..])
    then
      var y := DigitsValue(s[..4]);
      var m := DigitsValue(s[5..7]);
      var d := DigitsValue(s[8..]);
      if 1 <= m <= 12 && 1 <= d <= 31 then Some(DaysFromCivil(CivilDate(y, m, d))) else None
    else None
  }

  /** A date with a four-digit year, written `YYYY-MM-DD`, reads back as
      its day number. */
  lemma ParseIsoDateOfPieces(y: nat, m: nat, d: nat)
    requires y <= 9999 && 1 <= m <= 12 && 1 <= d <= 31
    ensures ParseIsoDate(Pad(y, 4) + "-" + Pad(m, 2) + "-" + Pad(d, 2)) == Some(DaysFromCivil(CivilDate(y, m, d)))
  {
    PadWidth(y, 4);
    PadWidth(m, 2);
    PadWidth(d, 2);
    var s := Pad(y, 4) + "-" + Pad(m, 2) + "-" + Pad(d, 2);
    assert s[..4] == Pad(y, 4);
    assert s[5..7] == Pad(m, 2);
    assert s[8..] == Pad(d, 2);
  }

  /** For a four-digit year, the written date is its three padded parts. */
  lemma IsoDateOfFourDigitYear(z: int)
    requires FourDigitYear(z)
    ensures IsoDate(z) == Pad(CivilFromDays(z).year, 4) + "-" + Pad(CivilFromDays(z).month, 2) + "-" + Pad(CivilFromDays(z).day, 2)
  {
  }

  /** A written date reads back as the same day. */
  lemma ParseIsoDateOfIsoDate(z: int)
    requires FourDigitYear(z)
    ensures ParseIsoDate(IsoDate(z)) == Some(z)
  {
    var c := CivilFromDays(z);
    IsoDateOfFourDigitYear(z);
    ParseIsoDateOfPieces(c.year, c.month, c.day);
    DaysFromCivilFromDays(z);
  }

  /** Two written dates compare as their days do. */
  lemma IsoDateOrder(a: int, b: int)
    requires FourDigitYear(a) && FourDigitYear(b)
    ensures ParseIsoDate(IsoDate(a)).Some? && ParseIsoDate(IsoDate(b)).Some?
    ensures ParseIsoDate(IsoDate(a)).value > ParseIsoDate(IsoDate(b)).value <==> a > b
    ensures IsoDate(a) == IsoDate(b) <==> a == b
  {
    ParseIsoDateOfIsoDate(a);
    ParseIsoDateOfIsoDate(b);
  }

  /** `currentMonth`: `today.slice(0, 7)`, the first seven characters. */
  function MonthKey(today: string): (r: string)
    ensures r <= today && |r| <= 7
  {
    if |today| < 7 then today else today[..7]
  }

  /** Within a month, day numbers run on one per day. */
  lemma DaysFromCivilDay(y: int, m: int, d: int)
    ensures DaysFromCivil(CivilDate(y, m, d)) == DaysFromCivil(CivilDate(y, m, 1)) + d - 1
  {
  }

  lemma PadOne()
    ensures Pad(1, 2) == "01"
  {
    assert NatToString(1) == "1";
  }

  /** The first seven characters of `YYYY-MM-DD` are `YYYY-MM`. */
  lemma MonthKeyOfPieces(y: nat, m: nat, d: nat)
    requires y <= 9999 && 1 <= m <= 12 && 1 <= d <= 31
    ensures MonthKey(Pad(y, 4) + "-" + Pad(m, 2) + "-" + Pad(d, 2)) == Pad(y, 4) + "-" + Pad(m, 2)
  {
    PadWidth(y, 4);
    PadWidth(m, 2);
    var key := Pad(y, 4) + "-" + Pad(m, 2);
    assert Pad(y, 4) + "-" + Pad(m, 2) + "-" + Pad(d, 2) == key + ("-" + Pad(d, 2));
  }

  /** The first day of the month of `YYYY-MM-DD` is `d - 1` days before it. */
  lemma FirstOfMonth(y: nat, m: nat, d: nat)
    requires y <= 9999 && 1 <= m <= 12 && 1 <= d <= 31
    ensures ParseIsoDate(Pad(y, 4) + "-" + Pad(m, 2) + "-01") == Some(DaysFromCivil(CivilDate(y, m, d)) - d + 1)
  {
    var first := Pad(y, 4) + "-" + Pad(m, 2) + "-" + Pad(1, 2);
    PadOne();
    assert Pad(y, 4) + "-" + Pad(m, 2) + "-01" == first;
    ParseIsoDateOfPieces(y, m, 1);
    DaysFromCivilDay(y, m, d);
  }

  /** For a four-digit year the month key is `YYYY-MM`, and that month's
      first day, written `YYYY-MM-01`, is `day - 1` days before. */
  lemma MonthKeyOfIsoDate(z: int)
    requires FourDigitYear(z)
    ensures MonthKey(IsoDate(z)) == Pad(CivilFromDays(z).year, 4) + "-" + Pad(CivilFromDays(z).month, 2)
    ensures ParseIsoDate(MonthKey(IsoDate(z)) + "-01") == Some(z - CivilFromDays(z).day + 1)
  {
    var c := CivilFromDays(z);
    var key := Pad(c.year, 4) + "-" + Pad(c.month, 2);
    IsoDateOfFourDigitYear(z);
    MonthKeyOfPieces(c.year, c.month, c.day);
    assert MonthKey(IsoDate(z)) == key;
    FirstOfMonth(c.year, c.month, c.day);
    assert key + "-01" == Pad(c.year, 4) + "-" + Pad(c.month, 2) + "-01";
    DaysFromCivilFromDays(z);
    assert CivilDate(c.year, c.month, c.day) == c;
  }
}

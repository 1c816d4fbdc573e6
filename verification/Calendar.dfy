/**
 * The calendar arithmetic under every token id: the year is derived from the
 * ledger timestamp with Hinnant's days-from-epoch algorithm.  It is proved
 * against the proleptic Gregorian calendar, whose leap years are those of
 * Appendix C of RFC 3339.
 */
module Calendar {
  import opened Prelude

  // ----- The algorithm -------------------------------------------------------

  // The language of the contract divides towards zero.
  function TruncDiv(a: int, b: int): int
    requires 0 < b
  {
    if 0 <= a then a / b else -((-a) / b)
  }

  // Every intermediate value of the algorithm.
  datatype Civil = Civil(z: int, era: int, doe: int, yoe: int, y: int, doy: int, mp: int, m: int, year: int)

  function Decompose(days: int): Civil {
    var z := days + 719_468;
    var era := TruncDiv(if 0 <= z then z else z - 146_096, 146_097);
    var doe := z - era * 146_097;
    var yoe := TruncDiv(doe - TruncDiv(doe, 1_460) + TruncDiv(doe, 36_524) - TruncDiv(doe, 146_096), 365);
    var y := yoe + era * 400;
    var doy := doe - (365 * yoe + TruncDiv(yoe, 4) - TruncDiv(yoe, 100));
    var mp := TruncDiv(5 * doy + 2, 153);
    var m := if mp < 10 then mp + 3 else mp - 9;
    Civil(z, era, doe, yoe, y, doy, mp, m, if m <= 2 then y + 1 else y)
  }

  // The final cast keeps the low 32 bits.
  function YearFromTimestamp(timestamp: u64): u32 {
    Decompose(timestamp / 86_400).year % TWO_TO_THE_32
  }

  // ----- The calendar --------------------------------------------------------

  predicate IsLeap(year: int) {
    year % 4 == 0 && (year % 100 != 0 || year % 400 == 0)
  }

  function YearLength(year: int): int {
    if IsLeap(year) then 366 else 365
  }

  // Days from 1970-01-01 to the first of January of the year.
  function DaysBeforeYear(year: int): int
    decreases if year < 1970 then 1970 - year else year - 1970
  {
    if year == 1970 then 0
    else if year < 1970 then DaysBeforeYear(year + 1) - YearLength(year)
    else DaysBeforeYear(year - 1) + YearLength(year - 1)
  }

  predicate YearContains(year: int, day: int) {
    DaysBeforeYear(year) <= day < DaysBeforeYear(year + 1)
  }

  // ----- Proof ---------------------------------------------------------------

  // Days from 0000-03-01 to the first of March of year n.
  function MarchDays(n: int): int {
    365 * n + n / 4 - n / 100 + n / 400
  }

  lemma MarchYearLength(n: int)
    ensures MarchDays(n) == MarchDays(n - 1) + YearLength(n)
  {
    QuotientStep(n, 4);
    QuotientStep(n, 100);
    QuotientStep(n, 400);
    LeapRulesNest(n);
  }

  lemma LeapRulesNest(n: int)
    ensures n % 400 == 0 ==> n % 100 == 0
    ensures n % 100 == 0 ==> n % 4 == 0
  {
  }

  lemma QuotientStep(n: int, d: int)
    requires d == 4 || d == 100 || d == 400
    ensures n / d == (n - 1) / d + (if n % d == 0 then 1 else 0)
  {
  }

  lemma {:induction false} DaysBeforeYearClosed(year: int)
    ensures DaysBeforeYear(year) == MarchDays(year - 1) + 306 - 719_468
    decreases if year < 1970 then 1970 - year else year - 1970
  {
    if year == 1970 {
      assert MarchDays(1969) == 719_162;
    } else if year < 1970 {
      DaysBeforeYearClosed(year + 1);
      MarchYearLength(year);
    } else {
      DaysBeforeYearClosed(year - 1);
      MarchYearLength(year - 1);
    }
  }

  lemma MarchDaysEra(n: int, era: int)
    ensures MarchDays(n + era * 400) == MarchDays(n) + era * 146_097
  {
    assert (n + era * 400) / 4 == n / 4 + era * 100;
    assert (n + era * 400) / 100 == n / 100 + era * 4;
    assert (n + era * 400) / 400 == n / 400 + era;
  }

  function YearOfEra(doe: int): int
    requires 0 <= doe
  {
    (doe - doe / 1_460 + doe / 36_524 - doe / 146_096) / 365
  }

  // The estimate lands in the right year of the 400-year era.  With b whole
  // centuries, r days into the century and q = (r + 24 * b) / 1460, the year of
  // the century is 4 * q + j for some j in -1..3.
  lemma YearOfEraCorrect(doe: int)
    requires 0 <= doe < 146_097
    ensures 0 <= YearOfEra(doe) < 400
    ensures MarchDays(YearOfEra(doe)) <= doe < MarchDays(YearOfEra(doe) + 1)
  {
    var b := doe / 36_524;
    if b == 4 {
      assert doe == 146_096;
    } else {
      var r := doe - 36_524 * b;
      var q := (r + 24 * b) / 1_460;
      assert doe / 1_460 == 25 * b + q;
      var n := (r - q) / 365;
      assert YearOfEra(doe) == 100 * b + n;
      YearOfCenturyCorrect(b, r, q, n);
      CenturyDays(b, n);
      CenturyDays(b, n + 1);
    }
  }

  lemma YearOfCenturyCorrect(b: int, r: int, q: int, n: int)
    requires 0 <= b < 4 && 0 <= r < 36_524
    requires q == (r + 24 * b) / 1_460 && n == (r - q) / 365
    ensures 0 <= n < 100
    ensures 365 * n + n / 4 <= r < 365 * (n + 1) + (n + 1) / 4
  {
  }

  lemma CenturyDays(b: int, n: int)
    requires 0 <= b < 4 && 0 <= n <= 100
    ensures MarchDays(100 * b + n) ==
            36_524 * b + 365 * n + n / 4 - n / 100 + (if b == 3 && n == 100 then 1 else 0)
  {
    assert (100 * b + n) / 4 == 25 * b + n / 4;
    assert (100 * b + n) / 100 == b + n / 100;
  }

  lemma EraIsFloor(z: int)
    ensures TruncDiv(if 0 <= z then z else z - 146_096, 146_097) == z / 146_097
  {
  }

  // Division towards zero is never asked about a negative number.
  lemma DecomposeByFloor(days: int)
    ensures var f := Decompose(days);
            && f.z == days + 719_468 && f.era == f.z / 146_097 && f.doe == f.z - f.era * 146_097
            && 0 <= f.doe < 146_097 && f.yoe == YearOfEra(f.doe) && 0 <= f.yoe < 400
            && f.y == f.yoe + f.era * 400
            && f.doy == f.doe - MarchDays(f.yoe)
  {
    EraIsFloor(days + 719_468);
  }

  // The steps up to the year that starts in March.
  lemma MarchYearCorrect(z: int, era: int, doe: int, yoe: int)
    requires doe == z - era * 146_097 && 0 <= doe < 146_097 && yoe == YearOfEra(doe)
    ensures MarchDays(yoe + era * 400) == z - (doe - MarchDays(yoe))
    ensures 0 <= doe - MarchDays(yoe) < 366
    ensures z < MarchDays(yoe + era * 400 + 1)
  {
    YearOfEraCorrect(doe);
    MarchDaysEra(yoe, era);
    MarchDaysEra(yoe + 1, era);
    FirstOfMarch(yoe + 1);
  }

  lemma MonthFromDay(doy: int)
    requires 0 <= doy < 366
    ensures var mp := TruncDiv(5 * doy + 2, 153);
            && 0 <= mp < 12 && (10 <= mp <==> 306 <= doy)
  {
  }

  // For every day, before or after 1970: the year found contains the day, and
  // the intermediates stay in the ranges the month arithmetic needs.
  lemma DecomposeCorrect(days: int)
    ensures var f := Decompose(days);
            && 0 <= f.doe < 146_097 && 0 <= f.yoe < 400 && 0 <= f.doy < 366
            && 0 <= f.mp < 12 && 1 <= f.m <= 12
            && YearContains(f.year, days)
  {
    var f := Decompose(days);
    DecomposeByFloor(days);
    MarchYearCorrect(f.z, f.era, f.doe, f.yoe);
    MonthFromDay(f.doy);
    JanuaryStart(f.y, f.z, f.year);
  }

  // A day of the year that starts in March of y lies in the calendar year y
  // before the first of January, and in y + 1 from then on.
  lemma JanuaryStart(y: int, z: int, year: int)
    requires MarchDays(y) <= z < MarchDays(y + 1)
    requires year == if MarchDays(y) + 306 <= z then y + 1 else y
    ensures YearContains(year, z - 719_468)
  {
    DaysBeforeYearClosed(y);
    DaysBeforeYearClosed(y + 1);
    DaysBeforeYearClosed(y + 2);
    FirstOfMarch(y);
    FirstOfMarch(y + 1);
  }

  // January and February of year y, and the ten months after them.
  lemma FirstOfMarch(y: int)
    ensures MarchDays(y - 1) + 306 <= MarchDays(y) <= MarchDays(y - 1) + 366
  {
    MarchYearLength(y);
  }

  lemma {:induction false} DaysBeforeYearMonotonic(a: int, b: int)
    requires a <= b
    ensures DaysBeforeYear(a) <= DaysBeforeYear(b)
    decreases b - a
  {
    if a < b {
      DaysBeforeYearMonotonic(a, b - 1);
      assert DaysBeforeYear(b) == DaysBeforeYear(b - 1) + YearLength(b - 1) by {
        DaysBeforeYearClosed(b);
        DaysBeforeYearClosed(b - 1);
        MarchYearLength(b - 1);
      }
    }
  }

  lemma YearIsUnique(a: int, b: int, day: int)
    requires YearContains(a, day) && YearContains(b, day)
    ensures a == b
  {
    if a < b {
      DaysBeforeYearMonotonic(a + 1, b);
    } else if b < a {
      DaysBeforeYearMonotonic(b + 1, a);
    }
  }

  lemma YearGrowsAtMostWithDays(year: int, day: int)
    requires YearContains(year, day) && 0 <= day
    ensures 1970 <= year <= 1970 + day / 365
  {
    DaysBeforeYearClosed(year);
    DaysBeforeYearClosed(year + 1);
  }

  // The year of a timestamp is the calendar year of its day, modulo 2^32, and it
  // is that very year whenever the year fits 32 bits.
  lemma YearFromTimestampCorrect(timestamp: u64, year: int)
    requires YearContains(year, timestamp / 86_400)
    ensures YearFromTimestamp(timestamp) == year % TWO_TO_THE_32
    ensures YearFromTimestamp(timestamp) == year <==> year < TWO_TO_THE_32
  {
    DecomposeYear(timestamp / 86_400, year);
    if year < TWO_TO_THE_32 {
      SmallModulo(year, TWO_TO_THE_32);
    }
  }

  lemma DecomposeYear(day: int, year: int)
    requires YearContains(year, day) && 0 <= day
    ensures Decompose(day).year == year && 0 <= year
  {
    DecomposeCorrect(day);
    YearIsUnique(year, Decompose(day).year, day);
    YearGrowsAtMostWithDays(year, day);
  }

  lemma SmallModulo(x: int, m: int)
    requires 0 <= x < m
    ensures x % m == x
  {
  }

  predicate FitsI64(x: int) {
    -TWO_TO_THE_63 <= x < TWO_TO_THE_63
  }

  // No step of the signed 64-bit computation can overflow: the operands of every
  // sum, difference, product and quotient, and their results, stay in range.
  lemma DecomposeFitsI64(timestamp: u64)
    ensures var days := timestamp / 86_400;
            var f := Decompose(days);
            var a, b, c := TruncDiv(f.doe, 1_460), TruncDiv(f.doe, 36_524), TruncDiv(f.doe, 146_096);
            var q, r := TruncDiv(f.yoe, 4), TruncDiv(f.yoe, 100);
            && FitsI64(days) && FitsI64(f.z) && FitsI64(f.era) && FitsI64(f.era * 146_097) && FitsI64(f.doe)
            && FitsI64(a) && FitsI64(b) && FitsI64(c)
            && FitsI64(f.doe - a) && FitsI64(f.doe - a + b) && FitsI64(f.doe - a + b - c) && FitsI64(f.yoe)
            && FitsI64(f.era * 400) && FitsI64(f.y) && FitsI64(f.y + 1)
            && FitsI64(q) && FitsI64(r) && FitsI64(365 * f.yoe) && FitsI64(365 * f.yoe + q)
            && FitsI64(365 * f.yoe + q - r) && FitsI64(f.doy)
            && FitsI64(5 * f.doy) && FitsI64(5 * f.doy + 2) && FitsI64(f.mp) && FitsI64(f.mp + 3) && FitsI64(f.mp - 9)
            && FitsI64(f.year)
  {
    var days := timestamp / 86_400;
    var f := Decompose(days);
    DecomposeCorrect(days);
    DecomposeByFloor(days);
    assert 0 <= days < 0x1_0000_0000_0000;
    assert 0 <= f.era * 146_097 <= f.z;
    SmallQuotients(f.doe, f.yoe);
    hide Decompose, TruncDiv, YearContains;
  }

  lemma SmallQuotients(doe: int, yoe: int)
    requires 0 <= doe && 0 <= yoe
    ensures 0 <= TruncDiv(doe, 1_460) <= doe && 0 <= TruncDiv(doe, 36_524) <= doe
    ensures 0 <= TruncDiv(doe, 146_096) <= doe && 0 <= TruncDiv(yoe, 4) <= yoe && 0 <= TruncDiv(yoe, 100) <= yoe
  {
  }
}

/**
 * Token ids: a product letter, "N-", the year padded to four digits, "-", and
 * the counter padded to six.  The two writers work on byte arrays as the
 * contract does; an index past the end of a buffer panics, which a result of
 * None stands for.
 */
module TokenIds {
  import opened Prelude

  type Bytes = seq<u8>

  const ZERO: u8 := 48
  const DASH: u8 := 45
  const LETTER_K: u8 := 75
  const LETTER_N: u8 := 78
  const LETTER_S: u8 := 83
  const BUFFER_SIZE := 32

  // ----- Decimal numerals ----------------------------------------------------

  function Numeral(value: nat): (s: Bytes)
    ensures |s| >= 1
  {
    if value < 10 then [ZERO + value] else Numeral(value / 10) + [ZERO + value % 10]
  }

  function Zeros(n: nat): (s: Bytes)
    ensures |s| == n
  {
    seq(n, _ => ZERO)
  }

  function Padded(value: nat, minWidth: nat): Bytes {
    var digits := Numeral(value);
    Zeros(Max(0, minWidth - |digits|)) + digits
  }

  function PaddedLength(value: nat, minWidth: nat): nat {
    Max(minWidth, |Numeral(value)|)
  }

  predicate IsDigit(b: u8) {
    ZERO <= b < ZERO + 10
  }

  predicate AllDigits(s: Bytes) {
    forall i :: 0 <= i < |s| ==> IsDigit(s[i])
  }

  // The number a string of digits denotes.
  function Decode(s: Bytes): nat
    requires AllDigits(s)
  {
    if s == [] then 0 else 10 * Decode(s[..|s| - 1]) + (s[|s| - 1] - ZERO)
  }

  // What a padded number looks like: digits only, at least minWidth of them, and
  // no leading zero beyond the padding.
  predicate Canonical(s: Bytes, minWidth: nat) {
    AllDigits(s) && |s| >= 1 && |s| >= minWidth && (|s| > 1 && |s| > minWidth ==> s[0] != ZERO)
  }

  function Pow10(n: nat): (p: nat)
    ensures p >= 1
  {
    if n == 0 then 1 else 10 * Pow10(n - 1)
  }

  lemma {:induction false} NumeralDigits(value: nat)
    ensures AllDigits(Numeral(value)) && Decode(Numeral(value)) == value
    ensures |Numeral(value)| > 1 ==> Numeral(value)[0] != ZERO
  {
    if value < 10 {
      assert Numeral(value)[..0] == [];
    } else {
      NumeralDigits(value / 10);
      var s := Numeral(value);
      assert s[..|s| - 1] == Numeral(value / 10);
      if |Numeral(value / 10)| == 1 {
        assert Numeral(value / 10)[0] != ZERO;
      }
    }
  }

  lemma {:induction false} NumeralLength(value: nat, n: nat)
    requires 1 <= n
    ensures |Numeral(value)| <= n <==> value < Pow10(n)
  {
    if value < 10 {
      assert Pow10(n) == 10 * Pow10(n - 1);
    } else if n > 1 {
      NumeralLength(value / 10, n - 1);
      assert value / 10 < Pow10(n - 1) <==> value < 10 * Pow10(n - 1);
    }
  }

  lemma {:induction false} DecodeZeros(n: nat, s: Bytes)
    requires AllDigits(s)
    ensures AllDigits(Zeros(n) + s) && Decode(Zeros(n) + s) == Decode(s)
  {
    var t := Zeros(n) + s;
    if s != [] {
      DecodeZeros(n, s[..|s| - 1]);
      assert t[..|t| - 1] == Zeros(n) + s[..|s| - 1];
    } else if n > 0 {
      DecodeZeros(n - 1, []);
      assert t[..|t| - 1] == Zeros(n - 1) + [];
    }
  }

  // Decoding a padded number gives the number back.
  lemma PaddedDecodes(value: nat, minWidth: nat)
    ensures var s := Padded(value, minWidth);
            Canonical(s, minWidth) && Decode(s) == value && |s| == PaddedLength(value, minWidth)
  {
    NumeralDigits(value);
    DecodeZeros(Max(0, minWidth - |Numeral(value)|), Numeral(value));
  }

  lemma {:induction false} DecodeBound(s: Bytes)
    requires AllDigits(s)
    ensures Decode(s) < Pow10(|s|)
    ensures s != [] && s[0] != ZERO ==> Decode(s) >= Pow10(|s| - 1)
  {
    if |s| > 0 {
      DecodeBound(s[..|s| - 1]);
    }
  }

  lemma {:induction false} DecodeInjective(s: Bytes, t: Bytes)
    requires AllDigits(s) && AllDigits(t) && |s| == |t| && Decode(s) == Decode(t)
    ensures s == t
  {
    if s != [] {
      var s', t' := s[..|s| - 1], t[..|t| - 1];
      assert Decode(s') == Decode(t');
      DecodeInjective(s', t');
      assert s == s' + [s[|s| - 1]] && t == t' + [t[|t| - 1]];
    }
  }

  // Conversely, only the padded form of a number is canonical and decodes to it.
  lemma CanonicalIsPadded(s: Bytes, minWidth: nat)
    requires Canonical(s, minWidth)
    ensures Padded(Decode(s), minWidth) == s
  {
    var value := Decode(s);
    PaddedDecodes(value, minWidth);
    DecodeBound(s);
    if |s| > 1 && |s| > minWidth {
      NumeralLength(value, |s| - 1);
    }
    NumeralLength(value, |s|);
    DecodeInjective(Padded(value, minWidth), s);
  }

  // ----- Ids and their parser ------------------------------------------------

  function TokenId(letter: u8, year: nat, counter: nat): Bytes {
    [letter, LETTER_N, DASH] + Padded(year, 4) + [DASH] + Padded(counter, 6)
  }

  datatype IdParts = IdParts(letter: u8, year: nat, counter: nat)

  // Index of the first dash from position i on, or the length.
  function FindDash(s: Bytes, i: nat): (j: nat)
    requires i <= |s|
    ensures i <= j <= |s| && (j < |s| ==> s[j] == DASH)
    ensures forall k :: i <= k < j ==> s[k] != DASH
    decreases |s| - i
  {
    if i == |s| || s[i] == DASH then i else FindDash(s, i + 1)
  }

  function ParseTokenId(s: Bytes): Option<IdParts> {
    if |s| < 3 || s[1] != LETTER_N || s[2] != DASH then None
    else
      var j := FindDash(s, 3);
      if j < |s| && Canonical(s[3..j], 4) && Canonical(s[j + 1..], 6)
      then Some(IdParts(s[0], Decode(s[3..j]), Decode(s[j + 1..])))
      else None
  }

  lemma FindDashIs(s: Bytes, i: nat, j: nat)
    requires i <= j < |s| && s[j] == DASH
    requires forall k :: i <= k < j ==> s[k] != DASH
    ensures FindDash(s, i) == j
  {
  }

  lemma JoinedParses(letter: u8, y: Bytes, c: Bytes)
    requires Canonical(y, 4) && Canonical(c, 6)
    ensures ParseTokenId([letter, LETTER_N, DASH] + y + [DASH] + c) ==
            Some(IdParts(letter, Decode(y), Decode(c)))
  {
    var id := [letter, LETTER_N, DASH] + y + [DASH] + c;
    var j := 3 + |y|;
    assert id[3..j] == y;
    assert id[j + 1..] == c;
    forall k | 3 <= k < j
      ensures id[k] != DASH
    {
      assert id[k] == y[k - 3] && IsDigit(y[k - 3]);
    }
    FindDashIs(id, 3, j);
  }

  lemma TokenIdParses(letter: u8, year: nat, counter: nat)
    ensures ParseTokenId(TokenId(letter, year, counter)) == Some(IdParts(letter, year, counter))
  {
    PaddedDecodes(year, 4);
    PaddedDecodes(counter, 6);
    JoinedParses(letter, Padded(year, 4), Padded(counter, 6));
  }

  lemma ParsedIsTokenId(s: Bytes)
    requires ParseTokenId(s).Some?
    ensures var p := ParseTokenId(s).value; s == TokenId(p.letter, p.year, p.counter)
  {
    hide Padded, Decode;
    var j := FindDash(s, 3);
    CanonicalIsPadded(s[3..j], 4);
    CanonicalIsPadded(s[j + 1..], 6);
    SplitAtDash(s, j);
  }

  lemma SplitAtDash(s: Bytes, j: nat)
    requires 3 <= j < |s| && s[1] == LETTER_N && s[2] == DASH && s[j] == DASH
    ensures s == [s[0], LETTER_N, DASH] + s[3..j] + [DASH] + s[j + 1..]
  {
  }

  // The round trip, both ways: the ids are exactly the strings the parser
  // accepts, and parsing is the inverse of generation.
  lemma ParseInvertsTokenId(s: Bytes, letter: u8, year: nat, counter: nat)
    ensures ParseTokenId(s) == Some(IdParts(letter, year, counter)) <==> s == TokenId(letter, year, counter)
  {
    TokenIdParses(letter, year, counter);
    if ParseTokenId(s).Some? {
      ParsedIsTokenId(s);
    }
  }

  // Different (letter, year, counter) triples give different ids.
  lemma TokenIdInjective(l1: u8, y1: nat, c1: nat, l2: u8, y2: nat, c2: nat)
    requires TokenId(l1, y1, c1) == TokenId(l2, y2, c2)
    ensures l1 == l2 && y1 == y2 && c1 == c2
  {
    ParseInvertsTokenId(TokenId(l1, y1, c1), l1, y1, c1);
    ParseInvertsTokenId(TokenId(l1, y1, c1), l2, y2, c2);
  }

  // ----- How an id reads --------------------------------------------------------

  lemma DivideTwice(value: nat, d: nat)
    requires 0 < d
    ensures value / 10 / d == value / (10 * d)
  {
    var q, r := value / 10 / d, value / 10 % d;
    assert value == 10 * (d * q + r) + value % 10;
    assert value == (10 * d) * q + (10 * r + value % 10);
    QuotientIs(value, 10 * d, q, 10 * r + value % 10);
  }

  lemma QuotientIs(value: nat, d: nat, q: nat, r: nat)
    requires r < d && value == d * q + r
    ensures value / d == q
  {
    var k := value / d;
    assert d * k <= value < d * k + d;
    if k < q {
      ProductGrows(d, k + 1, q);
    } else if q < k {
      ProductGrows(d, q + 1, k);
    }
  }

  lemma ProductGrows(d: nat, a: nat, b: nat)
    requires a <= b
    ensures d * a <= d * b
  {
  }

  lemma SmallQuotient(value: nat, d: nat)
    requires value < d
    ensures value / d == 0
  {
  }

  // The decimal digit at each place, counted from the last.
  lemma {:induction false} NumeralDigit(value: nat, i: nat)
    requires i < |Numeral(value)|
    ensures Numeral(value)[|Numeral(value)| - 1 - i] == 48 + value / Pow10(i) % 10
  {
    if i == 0 {
      assert Pow10(0) == 1;
    } else {
      NumeralDigit(value / 10, i - 1);
      DivideTwice(value, Pow10(i - 1));
    }
  }

  lemma {:induction false} Pow10Monotonic(i: nat, j: nat)
    requires i <= j
    ensures Pow10(i) <= Pow10(j)
  {
    if i < j {
      Pow10Monotonic(i, j - 1);
    }
  }

  // The ASCII digits of a number in at least minWidth places, and in more only if
  // it needs them.
  ghost predicate Decimal(s: Bytes, value: nat, minWidth: nat) {
    && (forall i :: 0 <= i < |s| ==> s[i] == 48 + value / Pow10(|s| - 1 - i) % 10)
    && minWidth <= |s| && value < Pow10(|s|) && (minWidth < |s| ==> value >= Pow10(|s| - 1))
  }

  lemma PaddedDigit(value: nat, minWidth: nat, i: nat)
    requires i < |Padded(value, minWidth)|
    ensures var s := Padded(value, minWidth); s[i] == 48 + value / Pow10(|s| - 1 - i) % 10
  {
    hide Numeral, Pow10;
    var n, k := |Numeral(value)|, |Padded(value, minWidth)| - 1 - i;
    if k < n {
      NumeralDigit(value, k);
    } else {
      NumeralLength(value, n);
      Pow10Monotonic(n, k);
      SmallQuotient(value, Pow10(k));
    }
  }

  lemma PaddedIsDecimal(value: nat, minWidth: nat)
    requires 1 <= minWidth
    ensures Decimal(Padded(value, minWidth), value, minWidth)
  {
    var s := Padded(value, minWidth);
    var n := |s|;
    NumeralLength(value, n);
    if n > minWidth {
      NumeralLength(value, n - 1);
    }
    hide Padded, Pow10;
    forall i | 0 <= i < |s|
      ensures s[i] == 48 + value / Pow10(|s| - 1 - i) % 10
    {
      PaddedDigit(value, minWidth, i);
    }
  }

  // An id reads, in ASCII: letter, N, dash, the year, dash, the counter.
  lemma IdReads(letter: u8, year: nat, counter: nat) returns (j: nat)
    ensures var id := TokenId(letter, year, counter);
            && 3 <= j < |id| && id[..3] == [letter, 78, 45] && id[j] == 45
            && Decimal(id[3..j], year, 4) && Decimal(id[j + 1..], counter, 6)
  {
    hide Padded, Decimal;
    var y, c := Padded(year, 4), Padded(counter, 6);
    PaddedIsDecimal(year, 4);
    PaddedIsDecimal(counter, 6);
    j := 3 + |y|;
    var id := TokenId(letter, year, counter);
    assert id[3..j] == y && id[j + 1..] == c;
  }

  lemma SmallPowers()
    ensures Pow10(0) == 1 && Pow10(1) == 10 && Pow10(2) == 100 && Pow10(3) == 1_000
    ensures Pow10(4) == 10_000 && Pow10(5) == 100_000 && Pow10(6) == 1_000_000
  {
    assert Pow10(4) == 10_000;
  }

  // For a year of four digits and a counter of six, the fourteen bytes.
  lemma ShortIdReads(letter: u8, year: nat, counter: nat)
    requires year < 10_000 && counter < 1_000_000
    ensures TokenId(letter, year, counter) ==
            [letter, 78, 45,
             48 + year / 1_000 % 10, 48 + year / 100 % 10, 48 + year / 10 % 10, 48 + year % 10, 45,
             48 + counter / 100_000 % 10, 48 + counter / 10_000 % 10, 48 + counter / 1_000 % 10,
             48 + counter / 100 % 10, 48 + counter / 10 % 10, 48 + counter % 10]
  {
    var j := IdReads(letter, year, counter);
    var id := TokenId(letter, year, counter);
    ShortDecimal(id[3..j], year, 4);
    ShortDecimal(id[j + 1..], counter, 6);
    hide TokenId, Pow10;
    SmallPowers();
    assert id == id[..3] + id[3..j] + [id[j]] + id[j + 1..];
    DecimalBytes(id[3..j], year, id[j + 1..], counter);
  }

  lemma ShortDecimal(s: Bytes, value: nat, minWidth: nat)
    requires Decimal(s, value, minWidth) && value < Pow10(minWidth)
    ensures |s| == minWidth
  {
    if |s| > minWidth {
      Pow10Monotonic(minWidth, |s| - 1);
    }
  }

  lemma DecimalBytes(y: Bytes, year: nat, c: Bytes, counter: nat)
    requires |y| == 4 && |c| == 6 && Decimal(y, year, 4) && Decimal(c, counter, 6)
    ensures y == [48 + year / 1_000 % 10, 48 + year / 100 % 10, 48 + year / 10 % 10, 48 + year % 10]
    ensures c == [48 + counter / 100_000 % 10, 48 + counter / 10_000 % 10, 48 + counter / 1_000 % 10,
                  48 + counter / 100 % 10, 48 + counter / 10 % 10, 48 + counter % 10]
  {
    SmallPowers();
    hide Pow10;
    assert y[0] == 48 + year / Pow10(3) % 10 && y[1] == 48 + year / Pow10(2) % 10;
    assert y[2] == 48 + year / Pow10(1) % 10 && y[3] == 48 + year / Pow10(0) % 10;
    assert c[0] == 48 + counter / Pow10(5) % 10 && c[1] == 48 + counter / Pow10(4) % 10;
    assert c[2] == 48 + counter / Pow10(3) % 10 && c[3] == 48 + counter / Pow10(2) % 10;
    assert c[4] == 48 + counter / Pow10(1) % 10 && c[5] == 48 + counter / Pow10(0) % 10;
  }

  // ----- The 32-byte buffer --------------------------------------------------

  predicate IdFits(year: nat, counter: nat) {
    PaddedLength(year, 4) + PaddedLength(counter, 6) <= BUFFER_SIZE - 4
  }

  lemma U64HasTwentyDigits(value: u64)
    ensures |Numeral(value)| <= 20
  {
    assert Pow10(20) == 100_000_000_000_000_000_000 by {
      assert Pow10(5) == 100_000;
      assert Pow10(10) == 10_000_000_000;
      assert Pow10(15) == 1_000_000_000_000_000;
    }
    NumeralLength(value, 20);
  }

  // Every year below 10^8 leaves room for any 64-bit counter.
  lemma NearYearsFit(year: nat, counter: u64)
    requires year < 100_000_000
    ensures IdFits(year, counter)
  {
    assert Pow10(8) == 100_000_000 by { assert Pow10(4) == 10_000; }
    NumeralLength(year, 8);
    U64HasTwentyDigits(counter);
  }

  // ... and 10^8 is the first year that does not.
  lemma FarYearsOverflow()
    ensures !IdFits(100_000_000, TWO_TO_THE_64 - 1)
  {
    assert Pow10(8) == 100_000_000 by { assert Pow10(4) == 10_000; }
    assert Pow10(19) == 10_000_000_000_000_000_000 by {
      assert Pow10(5) == 100_000;
      assert Pow10(10) == 10_000_000_000;
      assert Pow10(15) == 1_000_000_000_000_000;
    }
    NumeralLength(100_000_000, 8);
    NumeralLength(TWO_TO_THE_64 - 1, 19);
  }

  // ----- The writers ---------------------------------------------------------

  // The buffer holds what it held before, except that from start to p it holds text.
  ghost predicate WroteUpTo(now: Bytes, before: Bytes, start: nat, p: nat, text: Bytes) {
    && |now| == |before| && start <= p <= |now| && p - start <= |text|
    && (forall k :: 0 <= k < start ==> now[k] == before[k])
    && (forall k :: start <= k < p ==> now[k] == text[k - start])
    && (forall k :: p <= k < |now| ==> now[k] == before[k])
  }

  lemma WroteByte(now: Bytes, before: Bytes, start: nat, p: nat, text: Bytes, b: u8)
    requires WroteUpTo(now, before, start, p, text) && p < |now| && p - start < |text| && b == text[p - start]
    ensures WroteUpTo(now[p := b], before, start, p + 1, text)
  {
  }

  lemma PrefixKept(now: Bytes, before: Bytes, start: nat, p: nat, text: Bytes)
    requires WroteUpTo(now, before, start, p, text)
    ensures now[..start] == before[..start]
  {
  }

  lemma WroteAll(now: Bytes, before: Bytes, start: nat, p: nat, text: Bytes)
    requires WroteUpTo(now, before, start, p, text) && p - start == |text|
    ensures now[start..p] == text && now[p..] == before[p..]
  {
  }

  // Least significant digit first.
  ghost predicate HoldsReversed(digits: Bytes, count: nat, all: Bytes) {
    count <= |all| && count <= |digits| && forall k :: 0 <= k < count ==> digits[k] == all[|all| - 1 - k]
  }

  // The digits of value, last one first, in a buffer of twenty.
  method ExtractDigits(value: u64) returns (digits: array<u8>, count: nat)
    ensures fresh(digits) && count == |Numeral(value)|
    ensures HoldsReversed(digits[..], count, Numeral(value))
  {
    ghost var all := Numeral(value);
    U64HasTwentyDigits(value);
    digits := new u8[20];
    count := 0;
    if value == 0 {
      digits[0] := ZERO;
      count := 1;
    } else {
      var rest: nat := value;
      while rest > 0
        invariant rest > 0 ==> count < |all| && Numeral(rest) == all[..|all| - count]
        invariant rest == 0 ==> count == |all|
        invariant HoldsReversed(digits[..], count, all)
      {
        NumeralStep(rest, all, count);
        digits[count] := ZERO + rest % 10;
        rest := rest / 10;
        count := count + 1;
      }
    }
  }

  // Appends value at pos; None when a write falls outside the buffer.
  method WritePaddedNumber(buf: array<u8>, pos: nat, value: u64, minWidth: nat) returns (end: Option<nat>)
    requires pos <= buf.Length
    modifies buf
    ensures end == if pos + PaddedLength(value, minWidth) <= buf.Length
                   then Some(pos + PaddedLength(value, minWidth)) else None
    ensures buf[..pos] == old(buf[..pos])
    ensures end.Some? ==> buf[pos..end.value] == Padded(value, minWidth)
    ensures end.Some? ==> buf[end.value..] == old(buf[end.value..])
  {
    ghost var before := buf[..];
    ghost var all, text := Numeral(value), Padded(value, minWidth);
    var digits, count := ExtractDigits(value);
    var p := pos;
    for i := count to Max(count, minWidth)
      invariant p == pos + (i - count) && WroteUpTo(buf[..], before, pos, p, text)
      invariant HoldsReversed(digits[..], count, all)
    {
      if p >= buf.Length {
        PrefixKept(buf[..], before, pos, p, text);
        return None;
      }
      WroteByte(buf[..], before, pos, p, text, ZERO);
      buf[p] := ZERO;
      p := p + 1;
    }
    for i := count downto 0
      invariant p == pos + |text| - i && WroteUpTo(buf[..], before, pos, p, text)
      invariant HoldsReversed(digits[..], count, all)
    {
      if p >= buf.Length {
        PrefixKept(buf[..], before, pos, p, text);
        return None;
      }
      WroteByte(buf[..], before, pos, p, text, digits[i]);
      buf[p] := digits[i];
      p := p + 1;
    }
    PrefixKept(buf[..], before, pos, p, text);
    WroteAll(buf[..], before, pos, p, text);
    end := Some(p);
  }

  // One turn of the digit loop, from the last digit of the part still to write.
  lemma NumeralStep(rest: nat, all: Bytes, count: nat)
    requires rest > 0 && count < |all| && Numeral(rest) == all[..|all| - count]
    ensures all[|all| - 1 - count] == ZERO + rest % 10
    ensures rest >= 10 ==> count + 1 < |all| && Numeral(rest / 10) == all[..|all| - count - 1]
    ensures rest < 10 ==> count + 1 == |all|
  {
  }

  // Builds the id in a fixed buffer; None when it would not fit.
  method GenerateTokenId(letter: u8, year: u32, counter: u64) returns (id: Option<Bytes>)
    ensures id == if IdFits(year, counter) then Some(TokenId(letter, year, counter)) else None
  {
    var buf := new u8[BUFFER_SIZE];
    buf[0] := letter;
    buf[1] := LETTER_N;
    buf[2] := DASH;
    assert buf[..3] == [letter, LETTER_N, DASH];
    var afterYear := WritePaddedNumber(buf, 3, year, 4);
    if afterYear.None? || afterYear.value >= buf.Length { return None; }
    var pos := afterYear.value;
    ghost var written := buf[..pos];
    Joined(buf[..], 3, pos);
    buf[pos] := DASH;
    pos := pos + 1;
    assert buf[..pos] == written + [DASH];
    var end := WritePaddedNumber(buf, pos, counter, 6);
    if end.None? { return None; }
    Joined(buf[..], pos, end.value);
    id := Some(buf[..end.value]);
  }

  lemma Joined(s: Bytes, i: nat, j: nat)
    requires i <= j <= |s|
    ensures s[..j] == s[..i] + s[i..j]
  {
  }
}

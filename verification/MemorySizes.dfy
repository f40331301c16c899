/**
 Byte sizes as text: the printer that picks the largest exact unit, the parser for
 memory limits, and the Go heap limit derived from a container's memory.
*/
module MemorySizes {
  import opened Options
  import opened GoText

  const KIB := 1024
  const MIB := 1024 * 1024
  const GIB := 1024 * 1024 * 1024
  const MAX_INT64 := 0x7FFF_FFFF_FFFF_FFFF
  const TWO_63 := 0x8000_0000_0000_0000
  const TWO_64 := 0x1_0000_0000_0000_0000
  /** The largest range in which a float64 holds every integer. */
  const EXACT := 0x20_0000_0000_0000
  const MIN_DOCKER_MEMORY := 128 * 1024 * 1024

  // ---- Printing ----

  function Digit(d: nat): char
    requires d < 10
  {
    ('0' as int + d) as char
  }

  function Digits(n: nat): (s: string)
    ensures s != "" && forall c <- s :: '0' <= c <= '9'
  {
    if n < 10 then [Digit(n)] else Digits(n / 10) + [Digit(n % 10)]
  }

  function Itoa(n: int): string {
    if n < 0 then "-" + Digits(-n) else Digits(n)
  }

  function FormatBytes(n: int): string {
    if n > 0 && n % KIB == 0 then
      if n / KIB % KIB == 0 then Itoa(n / KIB / KIB) + "MiB" else Itoa(n / KIB) + "KiB"
    else Itoa(n) + "B"
  }

  // ---- Parsing ----

  /** How text is read as a floating-point number, over the reals. */
  type FloatReader = string -> Option<real>

  /** The contract of the reader: integers up to 2^53 are read exactly. */
  ghost predicate ReadsIntegers(read: FloatReader) {
    forall n :: -EXACT <= n <= EXACT ==> read(Itoa(n)) == Some(n as real)
  }

  function LowerChar(c: char): char {
    if 'A' <= c <= 'Z' then (c as int + 32) as char else c
  }

  function Lower(s: string): (r: string)
    ensures |r| == |s| && forall i :: 0 <= i < |s| ==> r[i] == LowerChar(s[i])
  {
    seq(|s|, i requires 0 <= i < |s| => LowerChar(s[i]))
  }

  function Drop(s: string, n: nat): string
    requires n <= |s|
  {
    s[..|s| - n]
  }

  /** The units in the order they are looked for. */
  const UNITS: seq<(string, nat)> :=
    [("gib", GIB), ("gb", 1000 * 1000 * 1000), ("g", GIB), ("mib", MIB), ("mb", 1000 * 1000), ("m", MIB),
     ("kib", KIB), ("kb", 1000), ("k", KIB), ("b", 1)]

  /** The number in front of the unit, and what the unit multiplies it by. */
  function SplitUnit(s: string, units: seq<(string, nat)>): (string, nat) {
    if units == [] then (s, 1)
    else if HasSuffix(s, units[0].0) then (Drop(s, |units[0].0|), units[0].1)
    else SplitUnit(s, units[1..])
  }

  /** The count of bytes, truncated. `atLimit` is what the machine makes of exactly
      2^63, which passes the range check but is no int64. */
  function ParseMemory(raw: string, read: FloatReader, atLimit: int): Option<int> {
    var s := TrimSpace(Lower(raw));
    if s == "" then None
    else
      var (number, mult) := SplitUnit(s, UNITS);
      Scaled(read(TrimSpace(number)), mult, atLimit)
  }

  function Scaled(n: Option<real>, mult: nat, atLimit: int): Option<int> {
    if n.None? || n.value <= 0.0 then None
    else if n.value * mult as real > TWO_63 as real then None
    else if n.value * mult as real == TWO_63 as real then Some(atLimit)
    else Some((n.value * mult as real).Floor)
  }

  function ValidMemory(raw: string, read: FloatReader, atLimit: int): bool {
    var bytes := ParseMemory(raw, read, atLimit);
    bytes.Some? && bytes.value > 0 && bytes.value >= MIN_DOCKER_MEMORY
  }

  /** An int64 product wraps around. */
  function Wrap64(n: int): (r: int)
    ensures -TWO_63 <= r < TWO_63
    ensures -TWO_63 <= n < TWO_63 ==> r == n
  {
    (n + TWO_63) % TWO_64 - TWO_63
  }

  /** Division towards zero. */
  function TruncDiv(n: int, d: int): int
    requires d > 0
  {
    if n >= 0 then n / d else -(-n / d)
  }

  /** The heap limit in MiB, three quarters of the memory. */
  function GoMemMiB(bytes: int): Option<int> {
    var mib := TruncDiv(TruncDiv(Wrap64(bytes * 3), 4), MIB);
    if mib < 64 then None else Some(mib)
  }

  function SandboxGoMemLimit(memory: string, read: FloatReader, atLimit: int): string {
    var bytes := ParseMemory(memory, read, atLimit);
    if bytes.None? || bytes.value <= 0 then ""
    else match GoMemMiB(bytes.value)
         case None => ""
         case Some(mib) => Itoa(mib) + "MiB"
  }

  // ---- The printer and the parser undo each other ----

  /** The count a size is printed with, and its unit. */
  function Printed(n: int): (int, string, nat) {
    if n > 0 && n % KIB == 0 then
      if n / KIB % KIB == 0 then (n / KIB / KIB, "MiB", MIB) else (n / KIB, "KiB", KIB)
    else (n, "B", 1)
  }

  lemma PrintedIsExact(n: int)
    ensures var (count, unit, mult) := Printed(n);
            && FormatBytes(n) == Itoa(count) + unit
            && n == count * mult
            && (n > 0 <==> count > 0)
  {
  }

  lemma ItoaIsPlain(n: int)
    ensures var s := Itoa(n);
            && Lower(s) == s && Trimmed(s)
            && s != "" && '0' <= s[|s| - 1] <= '9'
  {
    var s := Itoa(n);
    assert forall c <- s :: c == '-' || '0' <= c <= '9';
    assert forall i :: 0 <= i < |s| ==> s[i] in s;
  }

  lemma {:induction false} SplitAtUnit(s: string, units: seq<(string, nat)>, k: nat)
    requires k < |units| && HasSuffix(s, units[k].0)
    requires forall j :: 0 <= j < k ==> !HasSuffix(s, units[j].0)
    ensures SplitUnit(s, units) == (Drop(s, |units[k].0|), units[k].1)
  {
    if k > 0 {
      SplitAtUnit(s, units[1..], k - 1);
    }
  }

  lemma SuffixDiffers(t: string, suffix: string, i: nat)
    requires i < |suffix| && (|suffix| <= |t| ==> t[|t| - |suffix| + i] != suffix[i])
    ensures !HasSuffix(t, suffix)
  {
    if |suffix| <= |t| {
      assert t[|t| - |suffix|..][i] == t[|t| - |suffix| + i];
    }
  }

  /** A unit looked for earlier differs from the end of a number with this unit: where the
      number ends, or in a letter. */
  lemma UnitDiffers(s: string, k: nat, j: nat)
    requires s != "" && '0' <= s[|s| - 1] <= '9' && j < k < 10
    ensures !HasSuffix(s + UNITS[k].0, UNITS[j].0)
  {
    var unit, other := UNITS[k].0, UNITS[j].0;
    var i := UnitsApart(k, j);
    var t := s + unit;
    if |other| > |unit| {
      assert |other| <= |t| ==> t[|t| - |other| + i] == s[|s| - 1];
    } else {
      assert t[|t| - |other| + i] == unit[|unit| - |other| + i];
    }
    SuffixDiffers(t, other, i);
  }

  lemma UnitsApart(k: nat, j: nat) returns (i: nat)
    requires j < k < 10
    ensures var unit, other := UNITS[k].0, UNITS[j].0;
            && i < |other|
            && if |other| > |unit| then i == |other| - |unit| - 1 && other[i] > '9'
               else unit[|unit| - |other| + i] != other[i]
  {
    var unit, other := UNITS[k].0, UNITS[j].0;
    if |other| > |unit| {
      i := |other| - |unit| - 1;
    } else {
      i := if unit[|unit| - |other|] != other[0] then 0 else 1;
    }
  }

  lemma UnitFound(s: string, k: nat)
    requires s != "" && '0' <= s[|s| - 1] <= '9' && k < 10
    ensures SplitUnit(s + UNITS[k].0, UNITS) == (s, UNITS[k].1)
  {
    var t := s + UNITS[k].0;
    forall j | 0 <= j < k ensures !HasSuffix(t, UNITS[j].0) {
      UnitDiffers(s, k, j);
    }
    assert Drop(t, |UNITS[k].0|) == s && HasSuffix(t, UNITS[k].0);
    SplitAtUnit(t, UNITS, k);
  }

  lemma UnitParses(count: int, unit: string, k: nat, read: FloatReader, atLimit: int)
    requires ReadsIntegers(read) && -EXACT <= count <= EXACT
    requires k < 10 && Lower(unit) == UNITS[k].0 && count * UNITS[k].1 <= MAX_INT64
    ensures ParseMemory(Itoa(count) + unit, read, atLimit)
         == if count > 0 then Some(count * UNITS[k].1) else None
  {
    var s := Itoa(count);
    ItoaIsPlain(count);
    UnitLowered(s, unit, UNITS[k].0);
    UnitTrimmed(s, k);
    UnitFound(s, k);
    assert TrimSpace(s) == s;
    UnitScaled(count, k, atLimit);
  }

  lemma UnitLowered(s: string, unit: string, lower: string)
    requires Lower(s) == s && Lower(unit) == lower
    ensures Lower(s + unit) == s + lower
  {
    assert forall i :: 0 <= i < |s| ==> Lower(s)[i] == s[i];
  }

  lemma UnitTrimmed(s: string, k: nat)
    requires s != "" && Trimmed(s) && k < 10
    ensures TrimSpace(s + UNITS[k].0) == s + UNITS[k].0
  {
    var t := s + UNITS[k].0;
    assert t[0] == s[0] && t[|t| - 1] == UNITS[k].0[|UNITS[k].0| - 1];
    assert UNITS[k].0[|UNITS[k].0| - 1] in "bgmk";
    assert Trimmed(t);
  }

  lemma UnitScaled(count: int, k: nat, atLimit: int)
    requires k < 10 && count * UNITS[k].1 <= MAX_INT64
    ensures Scaled(Some(count as real), UNITS[k].1, atLimit) == if count > 0 then Some(count * UNITS[k].1) else None
  {
    var mult := UNITS[k].1;
    ProductIsWhole(count, mult);
    var product := count * mult;
    assert mult > 0;
    assert product > 0 <==> count > 0;
    assert (product as real).Floor == product;
  }

  lemma ProductIsWhole(count: int, mult: nat)
    ensures count as real * mult as real == (count * mult) as real
  {
  }

  /** A number with any of the ten units, in capital letters or not, counts so many times
      the unit: powers of 1024, but powers of 1000 where a "b" follows without an "i". */
  lemma EveryUnitParses(count: int, unit: string, mult: nat, read: FloatReader, atLimit: int)
    requires ReadsIntegers(read) && -EXACT <= count <= EXACT
    requires (Lower(unit), mult)
             in {("gib", 1_073_741_824), ("gb", 1_000_000_000), ("g", 1_073_741_824),
                 ("mib", 1_048_576), ("mb", 1_000_000), ("m", 1_048_576),
                 ("kib", 1_024), ("kb", 1_000), ("k", 1_024), ("b", 1)}
    requires count * mult <= MAX_INT64
    ensures ParseMemory(Itoa(count) + unit, read, atLimit)
         == if count > 0 then Some(count * mult) else None
  {
    var k := UnitIndex(Lower(unit), mult);
    UnitParses(count, unit, k, read, atLimit);
  }

  lemma UnitIndex(unit: string, mult: nat) returns (k: nat)
    requires (unit, mult)
             in {("gib", 1_073_741_824), ("gb", 1_000_000_000), ("g", 1_073_741_824),
                 ("mib", 1_048_576), ("mb", 1_000_000), ("m", 1_048_576),
                 ("kib", 1_024), ("kb", 1_000), ("k", 1_024), ("b", 1)}
    ensures k < 10 && UNITS[k] == (unit, mult)
  {
    k := if unit == "gib" then 0 else if unit == "gb" then 1 else if unit == "g" then 2
         else if unit == "mib" then 3 else if unit == "mb" then 4 else if unit == "m" then 5
         else if unit == "kib" then 6 else if unit == "kb" then 7 else if unit == "k" then 8 else 9;
  }

  /** A fraction of a byte is cut off; what is zero or less, or too much, is refused. */
  lemma FractionIsCut(n: real, mult: nat, atLimit: int)
    requires n * mult as real < TWO_63 as real
    ensures match Scaled(Some(n), mult, atLimit)
            case None => n <= 0.0
            case Some(bytes) => n > 0.0 && bytes as real <= n * mult as real < bytes as real + 1.0
  {
  }

  /** The units that are printed are among them. */
  lemma PrintedParses(count: int, unit: string, mult: nat, read: FloatReader, atLimit: int)
    requires ReadsIntegers(read) && -EXACT <= count <= EXACT
    requires (unit, mult) in {("MiB", MIB), ("KiB", KIB), ("B", 1)}
    requires count * mult <= MAX_INT64
    ensures ParseMemory(Itoa(count) + unit, read, atLimit)
         == if count > 0 then Some(count * mult) else None
  {
    assert Lower("MiB") == "mib" && Lower("KiB") == "kib" && Lower("B") == "b";
    EveryUnitParses(count, unit, mult, read, atLimit);
  }

  /** Printing a size and parsing it back gives the size, for every positive int64
      whose printed count a float64 holds exactly; zero and below are refused. */
  lemma SizeReadsBack(n: int, read: FloatReader, atLimit: int)
    requires ReadsIntegers(read) && n <= MAX_INT64
    requires -EXACT <= Printed(n).0 <= EXACT
    ensures ParseMemory(FormatBytes(n), read, atLimit) == if n > 0 then Some(n) else None
  {
    PrintedIsExact(n);
    var (count, unit, mult) := Printed(n);
    PrintedParses(count, unit, mult, read, atLimit);
  }

  // ---- The heap limit ----

  /** For memory that passes validation the limit is three quarters of it, rounded
      down to MiB, exactly when three times the memory fits an int64. Beyond that the
      product wraps and the limit is missing or wrong. */
  lemma GoMemIff(bytes: int)
    requires MIN_DOCKER_MEMORY <= bytes <= MAX_INT64
    ensures GoMemMiB(bytes) == Some(bytes * 3 / (4 * MIB)) <==> bytes * 3 <= MAX_INT64
    ensures MAX_INT64 < bytes * 3 < TWO_64 ==> GoMemMiB(bytes) == None
  {
    DivideTwice(bytes * 3);
    if bytes * 3 > MAX_INT64 {
      assert Wrap64(bytes * 3) == bytes * 3 - TWO_64;
    }
  }

  /** Memory too small for 64 MiB of heap gets no limit. */
  lemma SmallMemoryHasNoLimit(bytes: int)
    requires 0 < bytes && bytes * 3 <= MAX_INT64
    ensures GoMemMiB(bytes) == None <==> bytes * 3 < 256 * MIB
  {
    DivideTwice(bytes * 3);
  }

  lemma DivideTwice(n: int)
    requires n >= 0
    ensures n / 4 / MIB == n / (4 * MIB)
  {
    var q := n / (4 * MIB);
    var r := n - q * (4 * MIB);
    assert 0 <= r < 4 * MIB;
    assert n / 4 == q * MIB + r / 4;
    assert 0 <= r / 4 < MIB;
  }

  /** The emitted text, read by the same rules, stays within three quarters of the
      memory and misses it by less than a MiB. It is never empty. */
  lemma LimitIsThreeQuarters(memory: string, read: FloatReader, atLimit: int)
    requires ReadsIntegers(read) && ValidMemory(memory, read, atLimit)
    requires ParseMemory(memory, read, atLimit).value * 3 <= MAX_INT64
    ensures var bytes := ParseMemory(memory, read, atLimit).value;
            var limit := ParseMemory(SandboxGoMemLimit(memory, read, atLimit), read, atLimit);
            limit.Some? && limit.value * 4 <= bytes * 3 < (limit.value + MIB) * 4
  {
    LimitOf(ParseMemory(memory, read, atLimit).value, read, atLimit);
  }

  lemma LimitOf(bytes: int, read: FloatReader, atLimit: int)
    requires ReadsIntegers(read) && MIN_DOCKER_MEMORY <= bytes && bytes * 3 <= MAX_INT64
    ensures GoMemMiB(bytes).Some?
    ensures var mib := GoMemMiB(bytes).value;
            && ParseMemory(Itoa(mib) + "MiB", read, atLimit) == Some(mib * MIB)
            && mib * MIB * 4 <= bytes * 3 < (mib * MIB + MIB) * 4
  {
    GoMemIff(bytes);
    var mib := bytes * 3 / (4 * MIB);
    LimitBounds(bytes * 3);
    PrintedParses(mib, "MiB", MIB, read, atLimit);
  }

  lemma LimitBounds(n: int)
    requires MIN_DOCKER_MEMORY * 3 <= n <= MAX_INT64
    ensures var mib := n / (4 * MIB);
            0 < mib <= EXACT && mib * MIB <= MAX_INT64 && mib * MIB * 4 <= n < (mib * MIB + MIB) * 4
  {
  }

  /** A number with a bare "g" counts gibibytes. */
  lemma GigabytesParse(count: int, read: FloatReader, atLimit: int)
    requires ReadsIntegers(read) && 0 < count <= EXACT && count * GIB <= MAX_INT64
    ensures ParseMemory(Itoa(count) + "g", read, atLimit) == Some(count * GIB)
  {
    assert Lower("g") == "g";
    EveryUnitParses(count, "g", GIB, read, atLimit);
  }

  lemma LimitText(memory: string, bytes: int, mib: int, read: FloatReader, atLimit: int)
    requires ParseMemory(memory, read, atLimit) == Some(bytes)
    requires bytes >= MIN_DOCKER_MEMORY && GoMemMiB(bytes) == Some(mib)
    ensures ValidMemory(memory, read, atLimit)
    ensures SandboxGoMemLimit(memory, read, atLimit) == Itoa(mib) + "MiB"
  {
  }

  const WRAPPING := 6_442_450_944
  const WRAPPING_BYTES := 0x6000_0000_0000_0000

  lemma WrappedLimit()
    ensures WRAPPING * GIB == WRAPPING_BYTES
    ensures GoMemMiB(WRAPPING_BYTES) == Some(549_755_813_888)
    ensures WRAPPING_BYTES * 3 / (4 * MIB) == 4_947_802_324_992
  {
  }

  /** A memory text that passes validation and gets a wrong limit: half a tebi of MiB
      where three quarters of the memory are nine times as much. */
  lemma LimitCanBeWrong(read: FloatReader, atLimit: int)
    requires ReadsIntegers(read)
    ensures var memory := Itoa(WRAPPING) + "g";
            && ParseMemory(memory, read, atLimit) == Some(WRAPPING_BYTES)
            && ValidMemory(memory, read, atLimit)
            && SandboxGoMemLimit(memory, read, atLimit) == Itoa(549_755_813_888) + "MiB"
    ensures WRAPPING_BYTES * 3 / (4 * MIB) == 4_947_802_324_992
  {
    WrappedLimit();
    GigabytesParse(WRAPPING, read, atLimit);
    LimitText(Itoa(WRAPPING) + "g", WRAPPING_BYTES, 549_755_813_888, read, atLimit);
  }
}

/**
 * The seven-segment display ROM: 2048 bytes in eight regions of 256,
 * selected by address bits 10-8. Bits 7-0 are the byte being displayed.
 * The first four regions show it as an unsigned number (ones, tens and
 * hundreds digit, then a sign byte that is always 0). The last four show
 * its two's-complement reading (digits of the absolute value, then a sign
 * byte that is 1 for a negative value).
 */
module SegmentRom {

  datatype Option<T> = None | Some(value: T)

  /** The whole ROM. */
  const RomSize: nat := 2048

  /** One region per digit position and sign, each covering every byte value. */
  const RegionSize: nat := 256

  /** The segment pattern of each decimal digit 0 to 9 on a common-cathode display. */
  const SegmentDigits: seq<bv8> := [0x7E, 0x30, 0x6D, 0x79, 0x33, 0x5B, 0x5F, 0x70, 0x7F, 0x7B]

  type Digit = d: nat | d < 10

  function Ones(n: nat): Digit { n % 10 }

  function Tens(n: nat): Digit { (n / 10) % 10 }

  function Hundreds(n: nat): Digit { (n / 100) % 10 }

  /** The magnitude of a value. */
  function Abs(x: int): (r: nat)
    ensures r == x || r == -x
  {
    if x < 0 then -x else x
  }

  /**
   * `val & 0xFF`: the low byte of the two's-complement representation.
   * Euclidean `%` agrees with the mask for negative values as well.
   */
  function LowByte(val: int): (i: nat)
    ensures i < RegionSize
  {
    val % 256
  }

  /** The two's-complement reading of a byte. */
  function SignedValue(i: nat): (v: int)
    requires i < RegionSize
    ensures -128 <= v < 128
  {
    if i < 128 then i else i - 256
  }

  /** The address of offset i in region k. */
  function Addr(k: nat, i: nat): (a: nat)
    requires k < 8 && i < RegionSize
    ensures a < RomSize && a / RegionSize == k && a % RegionSize == i
  {
    RegionSize * k + i
  }

  /** The byte the finished script leaves at offset i of region k. */
  function ExpectedAt(k: nat, i: nat): bv8
    requires k < 8 && i < RegionSize
  {
    if k == 0 then SegmentDigits[Ones(i)]
    else if k == 1 then SegmentDigits[Tens(i)]
    else if k == 2 then SegmentDigits[Hundreds(i)]
    else if k == 3 then 0
    else if k == 4 then SegmentDigits[Ones(Abs(SignedValue(i)))]
    else if k == 5 then SegmentDigits[Tens(Abs(SignedValue(i)))]
    else if k == 6 then SegmentDigits[Hundreds(Abs(SignedValue(i)))]
    else if SignedValue(i) < 0 then 1 else 0
  }

  /** The byte the finished script leaves at address a: the reference for the fill loops. */
  function Expected(a: nat): bv8
    requires a < RomSize
  {
    ExpectedAt(a / RegionSize, a % RegionSize)
  }

  /**
   * The script: a zeroed 2048-byte image, filled first for every unsigned
   * byte, then for every signed value from -128 to 127 at the address of
   * its low byte.
   */
  method Fill() returns (rom: array<bv8>)
    ensures rom.Length == RomSize
    ensures forall a | 0 <= a < RomSize :: rom[a] == Expected(a)
  {
    rom := new bv8[RomSize](_ => 0);
    FillUnsigned(rom);
    FillSigned(rom);
    forall a | 0 <= a < RomSize
      ensures rom[a] == Expected(a)
    {
      assert a == Addr(a / RegionSize, a % RegionSize);
    }
  }

  /**
   * The first loop: for each byte i, its three decimal digits and a zero sign
   * in regions 0 to 3. Every byte of those regions is assigned, whatever the
   * array held before; regions 4 to 7 are left as they were.
   */
  method FillUnsigned(rom: array<bv8>)
    requires rom.Length == RomSize
    modifies rom
    ensures forall k, j | 0 <= k < 8 && 0 <= j < RegionSize ::
      rom[Addr(k, j)] == if k < 4 then ExpectedAt(k, j) else old(rom[Addr(k, j)])
  {
    for i := 0 to 256
      invariant forall k, j | 0 <= k < 8 && 0 <= j < RegionSize ::
        rom[Addr(k, j)] == if k < 4 && j < i then ExpectedAt(k, j) else old(rom[Addr(k, j)])
    {
      rom[Addr(0, i)] := SegmentDigits[Ones(i)];
      rom[Addr(1, i)] := SegmentDigits[Tens(i)];
      rom[Addr(2, i)] := SegmentDigits[Hundreds(i)];
      rom[Addr(3, i)] := 0;
      AddrInjective();
    }
  }

  /**
   * The second loop: for each value from -128 to 127, the digits of its
   * magnitude and its sign in regions 4 to 7, at the offset of its low byte.
   * Every byte of those regions is assigned, whatever the array held before;
   * regions 0 to 3 are left as they were.
   */
  method FillSigned(rom: array<bv8>)
    requires rom.Length == RomSize
    modifies rom
    ensures forall k, j | 0 <= k < 8 && 0 <= j < RegionSize ::
      rom[Addr(k, j)] == if 4 <= k then ExpectedAt(k, j) else old(rom[Addr(k, j)])
  {
    for val := -128 to 128
      invariant forall k, j | 0 <= k < 8 && 0 <= j < RegionSize ::
        rom[Addr(k, j)] == if 4 <= k && SignedValue(j) < val then ExpectedAt(k, j) else old(rom[Addr(k, j)])
    {
      var i := LowByte(val);
      var absVal := Abs(val);
      SignedLowByte(val);
      rom[Addr(4, i)] := SegmentDigits[Ones(absVal)];
      rom[Addr(5, i)] := SegmentDigits[Tens(absVal)];
      rom[Addr(6, i)] := SegmentDigits[Hundreds(absVal)];
      rom[Addr(7, i)] := if val < 0 then 1 else 0;
      AddrInjective();
      forall j | 0 <= j < RegionSize
        ensures SignedValue(j) < val + 1 <==> SignedValue(j) < val || j == i
      {
        LowByteSigned(j);
      }
    }
  }

  /** Distinct (region, offset) pairs are distinct addresses. */
  lemma AddrInjective()
    ensures forall k1: nat, i1: nat, k2: nat, i2: nat | k1 < 8 && i1 < RegionSize && k2 < 8 && i2 < RegionSize ::
      Addr(k1, i1) == Addr(k2, i2) ==> k1 == k2 && i1 == i2
  {
  }

  /** The low byte of a value from -128 to 127 reads back as that value. */
  lemma SignedLowByte(val: int)
    requires -128 <= val < 128
    ensures SignedValue(LowByte(val)) == val
    ensures val >= 0 ==> LowByte(val) == val
    ensures val < 0 ==> LowByte(val) == val + 256
  {
  }

  /** Taking the low byte of a byte's signed reading gives the byte back. */
  lemma LowByteSigned(i: nat)
    requires i < RegionSize
    ensures LowByte(SignedValue(i)) == i
  {
  }

  /** The signed fill writes each signed address once: distinct values have distinct low bytes. */
  lemma LowByteInjective(v: int, w: int)
    requires -128 <= v < 128 && -128 <= w < 128
    ensures LowByte(v) == LowByte(w) <==> v == w
  {
    SignedLowByte(v);
    SignedLowByte(w);
  }

  /** The three digits of a number below 1000 recombine into the number. */
  lemma DigitsRecombine(n: nat)
    requires n < 1000
    ensures 100 * Hundreds(n) + 10 * Tens(n) + Ones(n) == n
  {
    var h, r := n / 100, n % 100;
    assert n == 100 * h + r;
    assert h < 10 && Hundreds(n) == h;
    assert r / 10 == (n / 10) % 10 by {
      assert n / 10 == 10 * h + r / 10;
    }
    assert r == 10 * (r / 10) + n % 10;
  }

  /** No two digits share a segment pattern. */
  lemma DigitCodesDistinct(d: Digit, e: Digit)
    ensures SegmentDigits[d] == SegmentDigits[e] <==> d == e
  {
  }

  /** The digit a segment pattern shows, if it is one of the ten patterns. */
  function DigitShown(code: bv8): (r: Option<Digit>)
    ensures r.Some? <==> code in SegmentDigits
    ensures r.Some? ==> SegmentDigits[r.value] == code
  {
    if code == 0x7E then Some(0) else if code == 0x30 then Some(1)
    else if code == 0x6D then Some(2) else if code == 0x79 then Some(3)
    else if code == 0x33 then Some(4) else if code == 0x5B then Some(5)
    else if code == 0x5F then Some(6) else if code == 0x70 then Some(7)
    else if code == 0x7F then Some(8) else if code == 0x7B then Some(9)
    else None
  }

  /** Reading a digit's pattern gives the digit back. */
  lemma DigitShownCode(d: Digit)
    ensures DigitShown(SegmentDigits[d]) == Some(d)
  {
    DigitCodesDistinct(d, DigitShown(SegmentDigits[d]).value);
  }

  /** Every byte of the six digit regions is one of the ten digit patterns; the sign regions hold 0 or 1. */
  lemma RegionContents(a: nat)
    requires a < RomSize
    ensures a / RegionSize !in {3, 7} ==> Expected(a) in SegmentDigits
    ensures a / RegionSize == 3 ==> Expected(a) == 0
    ensures a / RegionSize == 7 ==> (Expected(a) == 1 <==> a % RegionSize >= 128)
    ensures a / RegionSize == 7 ==> (Expected(a) == 0 <==> a % RegionSize < 128)
  {
  }

  /** An unsigned byte has at most 2 hundreds; a signed one has magnitude at most 128, so at most 1. */
  lemma HundredsBound(i: nat)
    requires i < RegionSize
    ensures Hundreds(i) <= 2
    ensures Abs(SignedValue(i)) <= 128 && Hundreds(Abs(SignedValue(i))) <= 1
  {
  }

  /** Reading the three unsigned digit regions at a byte's offset displays that byte. */
  lemma UnsignedReadBack(i: nat)
    requires i < RegionSize
    ensures DigitShown(Expected(i)).Some? && DigitShown(Expected(256 + i)).Some?
    ensures DigitShown(Expected(512 + i)).Some? && Expected(768 + i) == 0
    ensures 100 * DigitShown(Expected(512 + i)).value + 10 * DigitShown(Expected(256 + i)).value
            + DigitShown(Expected(i)).value == i
  {
    assert i == Addr(0, i) && 256 + i == Addr(1, i);
    assert 512 + i == Addr(2, i) && 768 + i == Addr(3, i);
    DigitShownCode(Ones(i));
    DigitShownCode(Tens(i));
    DigitShownCode(Hundreds(i));
    DigitsRecombine(i);
  }

  /** Reading the three signed digit regions and the sign region at a byte's offset displays its signed value. */
  lemma SignedReadBack(i: nat)
    requires i < RegionSize
    ensures DigitShown(Expected(1024 + i)).Some? && DigitShown(Expected(1280 + i)).Some?
    ensures DigitShown(Expected(1536 + i)).Some?
    ensures var magnitude := 100 * DigitShown(Expected(1536 + i)).value
                             + 10 * DigitShown(Expected(1280 + i)).value
                             + DigitShown(Expected(1024 + i)).value;
            SignedValue(i) == if Expected(1792 + i) == 1 then -magnitude else magnitude
  {
    var m := Abs(SignedValue(i));
    assert Expected(1024 + i) == SegmentDigits[Ones(m)] by { assert 1024 + i == Addr(4, i); }
    assert Expected(1280 + i) == SegmentDigits[Tens(m)] by { assert 1280 + i == Addr(5, i); }
    assert Expected(1536 + i) == SegmentDigits[Hundreds(m)] by { assert 1536 + i == Addr(6, i); }
    assert Expected(1792 + i) == 1 <==> SignedValue(i) < 0 by { assert 1792 + i == Addr(7, i); }
    DigitShownCode(Ones(m));
    DigitShownCode(Tens(m));
    DigitShownCode(Hundreds(m));
    DigitsRecombine(m);
  }

  /** The worked example: byte 123 shows the digits 1, 2, 3 and a positive sign. */
  lemma Example123()
    ensures Expected(123) == SegmentDigits[3] && Expected(379) == SegmentDigits[2]
    ensures Expected(635) == SegmentDigits[1] && Expected(891) == 0
  {
  }
}

/**
 * The control signals of the CPU's control unit and how a set of them is
 * packed into the two 8-bit control bytes held by the left and right ROMs.
 */
module Signals {

  /** The two ROM chips; each holds one byte of every control word. */
  datatype Plane = Left | Right

  /**
   * Every control signal. The first eight live in the left ROM, in the
   * order HL MI RI RO IO II AI AO (most significant bit first); the last
   * eight live in the right ROM, in the order EO SU BI OI CE CO J FL.
   */
  datatype Signal =
    | HL | MI | RI | RO | IO | II | AI | AO
    | EO | SU | BI | OI | CE | CO | J | FL

  /** Every signal, in catalogue order: left byte first, each byte from bit 7 down. */
  const Catalogue: seq<Signal> := [HL, MI, RI, RO, IO, II, AI, AO, EO, SU, BI, OI, CE, CO, J, FL]

  /** No control bit set. */
  const NIL: bv8 := 0

  function PlaneOf(s: Signal): Plane
  {
    match s
    case HL | MI | RI | RO | IO | II | AI | AO => Left
    case EO | SU | BI | OI | CE | CO | J | FL => Right
  }

  /** The bit a signal occupies within its own byte (7 is the most significant). */
  function Position(s: Signal): (n: nat)
    ensures n < 8
  {
    match s
    case HL => 7  case MI => 6  case RI => 5  case RO => 4
    case IO => 3  case II => 2  case AI => 1  case AO => 0
    case EO => 7  case SU => 6  case BI => 5  case OI => 4
    case CE => 3  case CO => 2  case J => 1   case FL => 0
  }

  /** The byte constant the scripts declare for a signal. */
  function Bit(s: Signal): bv8
  {
    match s
    case HL => 0x80  case MI => 0x40  case RI => 0x20  case RO => 0x10
    case IO => 0x08  case II => 0x04  case AI => 0x02  case AO => 0x01
    case EO => 0x80  case SU => 0x40  case BI => 0x20  case OI => 0x10
    case CE => 0x08  case CO => 0x04  case J => 0x02   case FL => 0x01
  }

  /** One control word: the byte stored in the left ROM and the byte stored in the right ROM. */
  datatype ControlWord = ControlWord(left: bv8, right: bv8)
  {
    /** The byte this word contributes to the given ROM. */
    function Byte(p: Plane): bv8
    {
      if p == Left then left else right
    }

    /** The word read as 16 control bits: the left byte is the 8 most significant. */
    function Value(): (w: bv16)
      ensures (w >> 8) as bv8 == left && (w & 0xFF) as bv8 == right
    {
      (left as bv16 << 8) | right as bv16
    }
  }

  /** The word in which no signal is asserted. */
  const Idle: ControlWord := ControlWord(NIL, NIL)

  /** Splits 16 control bits into the byte for each ROM: the 8 most significant go left. */
  function Split(w: bv16): (cw: ControlWord)
    ensures cw.Value() == w
  {
    ControlWord((w >> 8) as bv8, (w & 0xFF) as bv8)
  }

  /** Reading a word as 16 bits and splitting it again gives the word back. */
  lemma SplitValue(cw: ControlWord)
    ensures Split(cw.Value()) == cw
  {
  }

  /**
   * Packs a set of signals into the byte of plane p: the OR of the bits of
   * the signals of that plane, taken over the signals of `cat`.
   */
  function PackFrom(S: set<Signal>, p: Plane, cat: seq<Signal>): bv8
  {
    if cat == [] then NIL
    else (if cat[0] in S && PlaneOf(cat[0]) == p then Bit(cat[0]) else NIL) | PackFrom(S, p, cat[1..])
  }

  function Pack(S: set<Signal>, p: Plane): bv8
  {
    PackFrom(S, p, Catalogue)
  }

  /** The signals of plane p whose bit is set in b. */
  function Asserted(b: bv8, p: Plane): set<Signal>
  {
    set s: Signal | PlaneOf(s) == p && b & Bit(s) != NIL
  }

  /** Every signal asserted by a control word, in either ROM. */
  function AssertedBy(cw: ControlWord): set<Signal>
  {
    Asserted(cw.left, Left) + Asserted(cw.right, Right)
  }

  /** The signals of S that belong to plane p. */
  function OnPlane(S: set<Signal>, p: Plane): set<Signal>
  {
    set s | s in S && PlaneOf(s) == p
  }

  lemma InCatalogue(s: Signal)
    ensures s in Catalogue
  {
    match s
    case HL => assert Catalogue[0] == s;
    case MI => assert Catalogue[1] == s;
    case RI => assert Catalogue[2] == s;
    case RO => assert Catalogue[3] == s;
    case IO => assert Catalogue[4] == s;
    case II => assert Catalogue[5] == s;
    case AI => assert Catalogue[6] == s;
    case AO => assert Catalogue[7] == s;
    case EO => assert Catalogue[8] == s;
    case SU => assert Catalogue[9] == s;
    case BI => assert Catalogue[10] == s;
    case OI => assert Catalogue[11] == s;
    case CE => assert Catalogue[12] == s;
    case CO => assert Catalogue[13] == s;
    case J => assert Catalogue[14] == s;
    case FL => assert Catalogue[15] == s;
  }

  /** Every signal constant has exactly one bit set. */
  lemma BitIsSingle(s: Signal)
    ensures Bit(s) != NIL && Bit(s) & (Bit(s) - 1) == NIL
  {
  }

  /** A signal's constant is the single bit at its position: HL and EO are bit 7, AO and FL bit 0. */
  lemma BitIsPosition(s: Signal)
    ensures Bit(s) == (1 as bv8) << Position(s)
  {
  }

  /** No two signals of the same ROM share a bit, so a byte has one bit per signal. */
  lemma BitsDistinct(s: Signal, t: Signal)
    requires PlaneOf(s) == PlaneOf(t)
    ensures s != t <==> Bit(s) & Bit(t) == NIL
    ensures s != t <==> Position(s) != Position(t)
  {
  }

  /** The byte of plane p built from S has the bit of t set exactly when t is in S (for t of plane p). */
  lemma {:induction false} PackFromBit(S: set<Signal>, p: Plane, cat: seq<Signal>, t: Signal)
    requires PlaneOf(t) == p
    ensures PackFrom(S, p, cat) & Bit(t) == if t in S && t in cat then Bit(t) else NIL
  {
    if cat != [] {
      PackFromBit(S, p, cat[1..], t);
      if PlaneOf(cat[0]) == p {
        BitsDistinct(cat[0], t);
      }
      assert t in cat <==> t == cat[0] || t in cat[1..];
    }
  }

  /** Testing the bit of a signal and keeping it when set is masking with it. */
  lemma SingleBit(b: bv8, s: Signal)
    ensures (if b & Bit(s) != NIL then Bit(s) else NIL) == b & Bit(s)
  {
  }

  /** Decomposing a byte into its signals and OR-ing them back gives the byte. */
  lemma PackAsserted(b: bv8, p: Plane)
    ensures Pack(Asserted(b, p), p) == b
  {
    var x := Pack(Asserted(b, p), p);
    forall t | PlaneOf(t) == p
      ensures x & Bit(t) == b & Bit(t)
    {
      AssertedBit(b, p, t);
    }
    SamePlaneBits(x, b, p);
  }

  /** Two bytes that agree on the bit of every signal of a ROM are equal. */
  lemma SamePlaneBits(x: bv8, b: bv8, p: Plane)
    requires forall t | PlaneOf(t) == p :: x & Bit(t) == b & Bit(t)
    ensures x == b
  {
    if p == Left {
      SameLeftBits(x, b);
    } else {
      SameRightBits(x, b);
    }
  }

  lemma SameLeftBits(x: bv8, b: bv8)
    requires forall t | PlaneOf(t) == Left :: x & Bit(t) == b & Bit(t)
    ensures x == b
  {
    assert x & Bit(HL) == b & Bit(HL) && x & Bit(MI) == b & Bit(MI);
    assert x & Bit(RI) == b & Bit(RI) && x & Bit(RO) == b & Bit(RO);
    assert x & Bit(IO) == b & Bit(IO) && x & Bit(II) == b & Bit(II);
    assert x & Bit(AI) == b & Bit(AI) && x & Bit(AO) == b & Bit(AO);
    SameBits(x, b);
  }

  lemma SameRightBits(x: bv8, b: bv8)
    requires forall t | PlaneOf(t) == Right :: x & Bit(t) == b & Bit(t)
    ensures x == b
  {
    assert x & Bit(EO) == b & Bit(EO) && x & Bit(SU) == b & Bit(SU);
    assert x & Bit(BI) == b & Bit(BI) && x & Bit(OI) == b & Bit(OI);
    assert x & Bit(CE) == b & Bit(CE) && x & Bit(CO) == b & Bit(CO);
    assert x & Bit(J) == b & Bit(J) && x & Bit(FL) == b & Bit(FL);
    SameBits(x, b);
  }

  lemma AssertedBit(b: bv8, p: Plane, t: Signal)
    requires PlaneOf(t) == p
    ensures Pack(Asserted(b, p), p) & Bit(t) == b & Bit(t)
  {
    var S := Asserted(b, p);
    InCatalogue(t);
    assert t in S <==> b & Bit(t) != NIL;
    PackFromBit(S, p, Catalogue, t);
    SingleBit(b, t);
  }

  /** Two bytes that agree on all eight bits are equal. */
  lemma SameBits(x: bv8, b: bv8)
    requires x & 0x80 == b & 0x80 && x & 0x40 == b & 0x40 && x & 0x20 == b & 0x20 && x & 0x10 == b & 0x10
    requires x & 0x08 == b & 0x08 && x & 0x04 == b & 0x04 && x & 0x02 == b & 0x02 && x & 0x01 == b & 0x01
    ensures x == b
  {
  }

  /** OR-ing a set of signals and decomposing the byte gives back the set's signals of that ROM. */
  lemma AssertedPack(S: set<Signal>, p: Plane)
    ensures Asserted(Pack(S, p), p) == OnPlane(S, p)
  {
    forall t | PlaneOf(t) == p
      ensures t in Asserted(Pack(S, p), p) <==> t in S
    {
      PackFromBit(S, p, Catalogue, t);
      InCatalogue(t);
    }
  }

  /** A byte is determined by the signals it asserts: two bytes with the same signals are equal. */
  lemma AssertedInjective(a: bv8, b: bv8, p: Plane)
    requires Asserted(a, p) == Asserted(b, p)
    ensures a == b
  {
    PackAsserted(a, p);
    PackAsserted(b, p);
  }

  /** A signal is asserted by a byte exactly when it belongs to that ROM and its bit is set. */
  lemma AssertedHas(b: bv8, p: Plane, t: Signal)
    ensures t in Asserted(b, p) <==> PlaneOf(t) == p && b & Bit(t) != NIL
  {
    InCatalogue(t);
  }

  /** The empty byte asserts nothing. */
  lemma AssertedNil(p: Plane)
    ensures Asserted(NIL, p) == {}
  {
  }

  /** In its own ROM, a signal's constant asserts that signal alone. */
  lemma AssertedSingle(s: Signal)
    ensures Asserted(Bit(s), PlaneOf(s)) == {s}
  {
    forall t | t in Asserted(Bit(s), PlaneOf(s))
      ensures t == s
    {
      BitsDistinct(s, t);
    }
    AssertedHas(Bit(s), PlaneOf(s), s);
  }

  /** OR-ing two bytes unites the signals they assert. */
  lemma AssertedOr(a: bv8, b: bv8, p: Plane)
    ensures Asserted(a | b, p) == Asserted(a, p) + Asserted(b, p)
  {
    forall t: Signal
      ensures (a | b) & Bit(t) != NIL <==> a & Bit(t) != NIL || b & Bit(t) != NIL
    {
      assert (a | b) & Bit(t) == (a & Bit(t)) | (b & Bit(t));
    }
  }
}

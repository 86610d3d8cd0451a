/**
 * The address of a control ROM: `0XXXXYYY`, with bit 7 unused, a 4-bit
 * opcode in bits 6-3 and a 3-bit micro-step in bits 2-0. The scripts form
 * it as `opcode | step`, where each opcode constant is already shifted
 * left by three.
 */
module Address {

  /** Both control ROMs are 2048-byte images. */
  const RomSize: nat := 2048

  /** Each instruction is programmed for five steps (STEP0 .. STEP4). */
  const StepsPerInstruction: nat := 5

  /** The 4-bit opcode field. */
  type Opcode = op: nat | op < 16

  /** The 3-bit step field. */
  type Step = s: nat | s < 8

  /** A step the scripts program. */
  type StepIndex = s: nat | s < StepsPerInstruction

  /** The opcode constant as the scripts declare it: the opcode shifted into bits 6-3. */
  function OpcodeBits(op: Opcode): (b: bv8)
    ensures b as nat == op * 8
  {
    (op as bv8) << 3
  }

  /** The address of (op, step). */
  function Encode(op: Opcode, step: Step): (a: nat)
    ensures a < 128
  {
    op * 8 + step
  }

  /** The (opcode, step) fields of an address below 128. */
  function Decode(a: nat): (Opcode, Step)
    requires a < 128
  {
    (a / 8, a % 8)
  }

  /** `opcode | step` is the sum of the shifted opcode and the step, and `>> 3` and `& 7` recover the fields. */
  lemma OrIsEncode(op: Opcode, step: Step)
    ensures (OpcodeBits(op) | step as bv8) as nat == Encode(op, step)
    ensures (OpcodeBits(op) | step as bv8) >> 3 == op as bv8
    ensures (OpcodeBits(op) | step as bv8) & 7 == step as bv8
  {
    var o, s := op as bv8, step as bv8;
    assert o < 16 && s < 8;
    assert (o << 3) | s == o * 8 + s;
  }

  lemma DecodeEncode(op: Opcode, step: Step)
    ensures Decode(Encode(op, step)) == (op, step)
  {
  }

  lemma EncodeDecode(a: nat)
    requires a < 128
    ensures Encode(Decode(a).0, Decode(a).1) == a
  {
  }

  /** Distinct (opcode, step) pairs have distinct addresses. */
  lemma EncodeInjective(op1: Opcode, step1: Step, op2: Opcode, step2: Step)
    requires Encode(op1, step1) == Encode(op2, step2)
    ensures op1 == op2 && step1 == step2
  {
    DecodeEncode(op1, step1);
    DecodeEncode(op2, step2);
  }
}

/**
 * The pair of control ROM images that both microcode scripts fill: two
 * zero-initialised 2048-byte arrays, updated by one store per
 * (opcode, step) line of the script, in program order (opcode by opcode,
 * steps 0 to 4 within each).
 */
module ControlStore {
  import opened Signals
  import opened Address

  /** Number of (opcode, step) lines a script issues: 16 opcodes of 5 steps. */
  const StoreCount: nat := 16 * StepsPerInstruction

  /** The position of the (op, step) line in the script. */
  function Rank(op: Opcode, step: StepIndex): (k: nat)
    ensures k < StoreCount
    ensures k / StepsPerInstruction == op && k % StepsPerInstruction == step
  {
    op * StepsPerInstruction + step
  }

  /** The address written by the k-th line of the script. */
  function StoreAddress(k: nat): (a: nat)
    requires k < StoreCount
    ensures a < 128 && a / 8 == k / StepsPerInstruction && a % 8 == k % StepsPerInstruction
  {
    Encode(k / StepsPerInstruction, k % StepsPerInstruction)
  }

  /**
   * The two fetch steps every instruction of both scripts starts with:
   * the program counter goes to the memory address register, then the
   * addressed RAM word goes to the instruction register and the counter
   * is incremented.
   */
  const Fetch0: ControlWord := ControlWord(Bit(MI), Bit(CO))
  const Fetch1: ControlWord := ControlWord(Bit(RO) | Bit(II), Bit(CE))

  /** The fetch words assert MI with CO, then RO and II with CE. */
  lemma FetchSignals()
    ensures AssertedBy(Fetch0) == {MI, CO}
    ensures AssertedBy(Fetch1) == {RO, II, CE}
  {
    AssertedSingle(MI); AssertedSingle(CO); AssertedSingle(CE);
    AssertedSingle(RO); AssertedSingle(II);
    AssertedOr(Bit(RO), Bit(II), Left);
  }

  /** An address some line of the script writes: opcode field anything, step field 0 to 4. */
  predicate Programmed(a: nat)
  {
    a < 128 && a % 8 < StepsPerInstruction
  }

  /** The script's lines visit each programmed address exactly once. */
  lemma StoreOrder(i: nat, j: nat)
    requires i < StoreCount && j < StoreCount
    ensures Programmed(StoreAddress(i))
    ensures StoreAddress(i) == StoreAddress(j) <==> i == j
  {
    if StoreAddress(i) == StoreAddress(j) {
      assert i == (i / 5) * 5 + i % 5;
      assert j == (j / 5) * 5 + j % 5;
    }
  }

  /** Every programmed address is written by the line of its rank. */
  lemma StoreCovers(a: nat)
    requires Programmed(a)
    ensures Rank(a / 8, a % 8) < StoreCount && StoreAddress(Rank(a / 8, a % 8)) == a
  {
  }

  /** The byte the finished script leaves at address a of ROM p, if it programs from table micro. */
  function ImageByte(micro: (Opcode, StepIndex) -> ControlWord, p: Plane, a: nat): bv8
  {
    if Programmed(a) then micro(a / 8, a % 8).Byte(p) else NIL
  }

  /** The whole image of ROM p that a script programming table micro produces. */
  function Image(micro: (Opcode, StepIndex) -> ControlWord, p: Plane): (img: seq<bv8>)
    ensures |img| == RomSize
  {
    seq(RomSize, (a: int) requires 0 <= a => ImageByte(micro, p, a))
  }

  /**
   * The two ROM images being programmed. `micro` is the reference table the
   * script transcribes; `count` is the number of script lines run so far.
   */
  class ControlRom {
    const lt: array<bv8>
    const rt: array<bv8>
    ghost const micro: (Opcode, StepIndex) -> ControlWord
    ghost var count: nat

    /** Address a has been stored to: its line is among the first `count` lines. */
    ghost predicate Written(a: nat)
      reads this
    {
      Programmed(a) && Rank(a / 8, a % 8) < count
    }

    ghost predicate Valid()
      reads this, lt, rt
    {
      && lt.Length == RomSize && rt.Length == RomSize && lt != rt
      && count <= StoreCount
      && (forall a | 0 <= a < RomSize ::
            lt[a] == (if Written(a) then micro(a / 8, a % 8).left else NIL))
      && (forall a | 0 <= a < RomSize ::
            rt[a] == (if Written(a) then micro(a / 8, a % 8).right else NIL))
    }

    /** `bytearray(2048)` twice: both images zero-filled, nothing stored yet. */
    constructor (ghost table: (Opcode, StepIndex) -> ControlWord)
      ensures Valid() && fresh(lt) && fresh(rt)
      ensures micro == table && count == 0
      ensures forall a | 0 <= a < RomSize :: lt[a] == NIL && rt[a] == NIL
    {
      lt := new bv8[RomSize](_ => NIL);
      rt := new bv8[RomSize](_ => NIL);
      micro := table;
      count := 0;
    }

    /**
     * One line of the script: `lt[op | step] = left ; rt[op | step] = right`.
     * The line must be the next one in program order and must write the
     * reference table's word; the address it writes was never written before.
     */
    method Store(op: Opcode, step: StepIndex, left: bv8, right: bv8)
      requires Valid()
      requires count == Rank(op, step)
      requires micro(op, step) == ControlWord(left, right)
      modifies this, lt, rt
      ensures Valid()
      ensures Encode(op, step) == StoreAddress(old(count)) && !old(Written(Encode(op, step)))
      ensures count == old(count) + 1 && Written(Encode(op, step))
      ensures lt[..] == old(lt[..])[Encode(op, step) := left]
      ensures rt[..] == old(rt[..])[Encode(op, step) := right]
    {
      var a := Encode(op, step);
      lt[a] := left;
      rt[a] := right;
      count := count + 1;
      forall b | 0 <= b < RomSize
        ensures lt[b] == (if Written(b) then micro(b / 8, b % 8).left else NIL)
        ensures rt[b] == (if Written(b) then micro(b / 8, b % 8).right else NIL)
      {
        if Programmed(b) && b != a {
          StoreOrder(Rank(b / 8, b % 8), Rank(op, step));
        }
      }
    }

    /**
     * One block of the script: the five lines `lt[op | STEPk] = ... ; rt[op | STEPk] = ...`
     * for k = 0 .. 4, storing the words of one instruction.
     */
    method StoreInstruction(op: Opcode, words: seq<ControlWord>)
      requires Valid()
      requires count == Rank(op, 0)
      requires |words| == StepsPerInstruction && forall s: StepIndex :: micro(op, s) == words[s]
      modifies this, lt, rt
      ensures Valid()
      ensures count == old(count) + StepsPerInstruction
      ensures forall s: StepIndex :: !old(Written(Encode(op, s))) && Written(Encode(op, s))
    {
      Store(op, 0, words[0].left, words[0].right);
      Store(op, 1, words[1].left, words[1].right);
      Store(op, 2, words[2].left, words[2].right);
      Store(op, 3, words[3].left, words[3].right);
      Store(op, 4, words[4].left, words[4].right);
    }

    /** Once every line has run, every programmed address is written and the images are complete. */
    lemma Finished()
      requires Valid() && count == StoreCount
      ensures forall a | 0 <= a < RomSize :: Written(a) <==> Programmed(a)
      ensures lt[..] == Image(micro, Left) && rt[..] == Image(micro, Right)
      ensures forall op: Opcode, s: StepIndex ::
        lt[Encode(op, s)] == micro(op, s).left && rt[Encode(op, s)] == micro(op, s).right
      ensures forall a | 0 <= a < RomSize && !Programmed(a) :: lt[a] == NIL && rt[a] == NIL
    {
    }
  }
}

/**
 * The instruction ROM script, the earlier version of the control-words
 * script: the microcode of five instructions (NOP, LDA, ADD, OUT, HLT) plus
 * eleven placeholder opcodes, five steps each, stored into the left and
 * right control ROM images.
 */
module InstructionRom {
  import opened Signals
  import opened Address
  import opened ControlStore
  import ControlWords

  /** The opcodes of this script, in opcode order (NOP is 0000, HLT is 1111). */
  datatype Mnemonic =
    | NOP | LDA | ADD | OP3 | OP4 | OP5 | OP6 | OP7
    | OP8 | OP9 | OP10 | OP11 | OP12 | OP13 | OUT | HLT

  /** The 4-bit opcode of a mnemonic. */
  function Code(m: Mnemonic): Opcode
  {
    match m
    case NOP => 0   case LDA => 1   case ADD => 2   case OP3 => 3
    case OP4 => 4   case OP5 => 5   case OP6 => 6   case OP7 => 7
    case OP8 => 8   case OP9 => 9   case OP10 => 10 case OP11 => 11
    case OP12 => 12 case OP13 => 13 case OUT => 14  case HLT => 15
  }

  /** The mnemonic of each opcode, in opcode order. */
  const Mnemonics: seq<Mnemonic> :=
    [NOP, LDA, ADD, OP3, OP4, OP5, OP6, OP7, OP8, OP9, OP10, OP11, OP12, OP13, OUT, HLT]

  /** The mnemonic of a 4-bit opcode. */
  function MnemonicOf(op: Opcode): Mnemonic
  {
    Mnemonics[op]
  }

  /** Every opcode names exactly one instruction: Code and MnemonicOf are inverse. */
  lemma CodeBijective(m: Mnemonic, op: Opcode)
    ensures MnemonicOf(Code(m)) == m
    ensures Code(MnemonicOf(op)) == op
  {
  }

  /** The shifted opcode constants of the script, `0b0XXXX000`. */
  lemma OpcodeConstants()
    ensures OpcodeBits(Code(NOP)) == 0x00 && OpcodeBits(Code(LDA)) == 0x08
    ensures OpcodeBits(Code(ADD)) == 0x10 && OpcodeBits(Code(OP3)) == 0x18
    ensures OpcodeBits(Code(OP4)) == 0x20 && OpcodeBits(Code(OP5)) == 0x28
    ensures OpcodeBits(Code(OP6)) == 0x30 && OpcodeBits(Code(OP7)) == 0x38
    ensures OpcodeBits(Code(OP8)) == 0x40 && OpcodeBits(Code(OP9)) == 0x48
    ensures OpcodeBits(Code(OP10)) == 0x50 && OpcodeBits(Code(OP11)) == 0x58
    ensures OpcodeBits(Code(OP12)) == 0x60 && OpcodeBits(Code(OP13)) == 0x68
    ensures OpcodeBits(Code(OUT)) == 0x70 && OpcodeBits(Code(HLT)) == 0x78
  {
  }

  /** The five control words of an instruction, steps 0 to 4, as the script lists them. */
  function Program(m: Mnemonic): (r: seq<ControlWord>)
    ensures |r| == StepsPerInstruction
  {
    match m
    case NOP => [Fetch0, Fetch1, Idle, Idle, Idle]
    case LDA => [Fetch0, Fetch1, ControlWord(Bit(MI) | Bit(IO), NIL), ControlWord(Bit(RO) | Bit(AI), NIL), Idle]
    case ADD => [Fetch0, Fetch1, ControlWord(Bit(MI) | Bit(IO), NIL), ControlWord(Bit(RO), Bit(BI)),
                 ControlWord(Bit(AI), Bit(EO))]
    case OP3 | OP4 | OP5 | OP6 | OP7 | OP8 | OP9 | OP10 | OP11 | OP12 | OP13 => [Fetch0, Fetch1, Idle, Idle, Idle]
    case OUT => [Fetch0, Fetch1, ControlWord(Bit(AO), Bit(OI)), Idle, Idle]
    case HLT => [Fetch0, Fetch1, ControlWord(Bit(HL), NIL), Idle, Idle]
  }

  /** The reference table: the control word of (opcode, step). */
  function Micro(op: Opcode, step: StepIndex): ControlWord
  {
    Program(MnemonicOf(op))[step]
  }

  /** The opcodes the script reserves without giving them work of their own. */
  predicate IsPlaceholder(m: Mnemonic)
  {
    m.OP3? || m.OP4? || m.OP5? || m.OP6? || m.OP7? || m.OP8? || m.OP9? || m.OP10? || m.OP11? || m.OP12? || m.OP13?
  }

  /** Every instruction's list starts with the two fetch steps. */
  lemma ProgramFetch(m: Mnemonic)
    ensures Program(m)[0] == Fetch0 && Program(m)[1] == Fetch1
  {
    match m
    case NOP => case LDA => case ADD => case OP3 => case OP4 => case OP5 => case OP6 => case OP7 =>
    case OP8 => case OP9 => case OP10 => case OP11 => case OP12 => case OP13 => case OUT => case HLT =>
  }

  /** Every opcode, programmed or placeholder, starts with the two fetch steps. */
  lemma FetchEveryOpcode(op: Opcode)
    ensures Micro(op, 0) == Fetch0 && Micro(op, 1) == Fetch1
    ensures AssertedBy(Micro(op, 0)) == {MI, CO} && AssertedBy(Micro(op, 1)) == {RO, II, CE}
  {
    ProgramFetch(MnemonicOf(op));
    FetchSignals();
  }

  /** NOP, "no operation", asserts nothing after the fetch. */
  lemma NopFetchOnly(step: StepIndex)
    requires 2 <= step
    ensures Micro(Code(NOP), step) == Idle && AssertedBy(Micro(Code(NOP), step)) == {}
  {
    AssertedNil(Left); AssertedNil(Right);
  }

  /** A placeholder opcode asserts nothing after the fetch. */
  lemma PlaceholdersFetchOnly(m: Mnemonic, step: StepIndex)
    requires IsPlaceholder(m) && 2 <= step
    ensures Program(m)[step] == Idle && AssertedBy(Program(m)[step]) == {}
  {
    assert Program(m) == [Fetch0, Fetch1, Idle, Idle, Idle];
    AssertedNil(Left); AssertedNil(Right);
  }

  /** LDA puts the operand address into the memory address register, then loads A from RAM. */
  lemma LoadSteps()
    ensures AssertedBy(Program(LDA)[2]) == {MI, IO}
    ensures AssertedBy(Program(LDA)[3]) == {RO, AI}
    ensures Program(LDA)[4] == Idle
  {
    var lda := Program(LDA);
    AssertedNil(Right);
    PairAsserted(MI, IO);
    PairAsserted(RO, AI);
    assert lda[2] == ControlWord(Bit(MI) | Bit(IO), NIL);
    assert lda[3] == ControlWord(Bit(RO) | Bit(AI), NIL);
  }

  /** Two left signals OR-ed into one byte, with an empty right byte, assert exactly those two. */
  lemma PairAsserted(s: Signal, t: Signal)
    requires PlaneOf(s) == Left && PlaneOf(t) == Left
    ensures AssertedBy(ControlWord(Bit(s) | Bit(t), NIL)) == {s, t}
  {
    AssertedSingle(s); AssertedSingle(t);
    AssertedOr(Bit(s), Bit(t), Left);
    AssertedNil(Right);
  }

  /** ADD addresses its operand, loads B from RAM, then loads A with the sum. */
  lemma AddSteps()
    ensures AssertedBy(Program(ADD)[2]) == {MI, IO}
    ensures AssertedBy(Program(ADD)[3]) == {RO, BI}
    ensures AssertedBy(Program(ADD)[4]) == {AI, EO}
  {
    var add := Program(ADD);
    PairAsserted(MI, IO);
    AssertedSingle(RO); AssertedSingle(BI);
    AssertedSingle(AI); AssertedSingle(EO);
    assert add[2] == ControlWord(Bit(MI) | Bit(IO), NIL);
    assert add[3] == ControlWord(Bit(RO), Bit(BI));
    assert add[4] == ControlWord(Bit(AI), Bit(EO));
  }

  /** Every instruction's block transcribes its row of the reference table. */
  lemma ProgramRow(m: Mnemonic)
    ensures forall s: StepIndex :: Micro(Code(m), s) == Program(m)[s]
  {
    CodeBijective(m, 0);
  }

  /**
   * The two scripts agree on an opcode's five words exactly when the opcode
   * is not one that the later script gave new work (SUB, STA, LDI, JMP):
   * NOP, LDA, ADD, OUT and HLT coincide, and so do the placeholders 7 to 13.
   */
  lemma SameRowAsControlWords(op: Opcode)
    ensures (forall s: StepIndex :: Micro(op, s) == ControlWords.Micro(op, s)) <==> !(3 <= op <= 6)
  {
    if 3 <= op <= 6 {
      NewWorkAtStep2(op);
    } else {
      SharedRow(op);
    }
  }

  /** The later script's SUB, STA, LDI and JMP do something at step 2 where this script's placeholders do not. */
  lemma NewWorkAtStep2(op: Opcode)
    requires 3 <= op <= 6
    ensures Micro(op, 2) == Idle && ControlWords.Micro(op, 2) != Idle
  {
    assert IsPlaceholder(MnemonicOf(op));
    PlaceholdersFetchOnly(MnemonicOf(op), 2);
  }

  lemma SharedRow(op: Opcode)
    requires !(3 <= op <= 6)
    ensures forall s: StepIndex :: Micro(op, s) == ControlWords.Micro(op, s)
  {
    assert Program(MnemonicOf(op)) == ControlWords.Program(ControlWords.MnemonicOf(op));
  }

  /** The script's blocks for opcodes 0000 to 0011. */
  method BuildQuarter0(rom: ControlRom)
    requires rom.Valid() && rom.micro == Micro && rom.count == 0
    modifies rom, rom.lt, rom.rt
    ensures rom.Valid() && rom.count == Rank(Code(OP4), 0)
  {
    ProgramRow(NOP); rom.StoreInstruction(Code(NOP), Program(NOP));
    ProgramRow(LDA); rom.StoreInstruction(Code(LDA), Program(LDA));
    ProgramRow(ADD); rom.StoreInstruction(Code(ADD), Program(ADD));
    ProgramRow(OP3); rom.StoreInstruction(Code(OP3), Program(OP3));
  }

  /** The script's blocks for opcodes 0100 to 0111. */
  method BuildQuarter1(rom: ControlRom)
    requires rom.Valid() && rom.micro == Micro && rom.count == Rank(Code(OP4), 0)
    modifies rom, rom.lt, rom.rt
    ensures rom.Valid() && rom.count == Rank(Code(OP8), 0)
  {
    ProgramRow(OP4); rom.StoreInstruction(Code(OP4), Program(OP4));
    ProgramRow(OP5); rom.StoreInstruction(Code(OP5), Program(OP5));
    ProgramRow(OP6); rom.StoreInstruction(Code(OP6), Program(OP6));
    ProgramRow(OP7); rom.StoreInstruction(Code(OP7), Program(OP7));
  }

  /** The script's blocks for opcodes 1000 to 1011. */
  method BuildQuarter2(rom: ControlRom)
    requires rom.Valid() && rom.micro == Micro && rom.count == Rank(Code(OP8), 0)
    modifies rom, rom.lt, rom.rt
    ensures rom.Valid() && rom.count == Rank(Code(OP12), 0)
  {
    ProgramRow(OP8); rom.StoreInstruction(Code(OP8), Program(OP8));
    ProgramRow(OP9); rom.StoreInstruction(Code(OP9), Program(OP9));
    ProgramRow(OP10); rom.StoreInstruction(Code(OP10), Program(OP10));
    ProgramRow(OP11); rom.StoreInstruction(Code(OP11), Program(OP11));
  }

  /** The script's blocks for opcodes 1100 to 1111. */
  method BuildQuarter3(rom: ControlRom)
    requires rom.Valid() && rom.micro == Micro && rom.count == Rank(Code(OP12), 0)
    modifies rom, rom.lt, rom.rt
    ensures rom.Valid() && rom.count == StoreCount
  {
    ProgramRow(OP12); rom.StoreInstruction(Code(OP12), Program(OP12));
    ProgramRow(OP13); rom.StoreInstruction(Code(OP13), Program(OP13));
    ProgramRow(OUT); rom.StoreInstruction(Code(OUT), Program(OUT));
    ProgramRow(HLT); rom.StoreInstruction(Code(HLT), Program(HLT));
  }

  /** Runs the whole script and returns the two finished ROM images. */
  method Build() returns (rom: ControlRom)
    ensures rom.Valid() && fresh(rom) && fresh(rom.lt) && fresh(rom.rt)
    ensures rom.micro == Micro && rom.count == StoreCount
    ensures forall a | 0 <= a < RomSize :: rom.Written(a) <==> Programmed(a)
    ensures rom.lt[..] == Image(Micro, Left) && rom.rt[..] == Image(Micro, Right)
    ensures forall op: Opcode, s: StepIndex ::
      rom.lt[Encode(op, s)] == Micro(op, s).left && rom.rt[Encode(op, s)] == Micro(op, s).right
    ensures forall a | 0 <= a < RomSize && !Programmed(a) :: rom.lt[a] == NIL && rom.rt[a] == NIL
  {
    rom := new ControlRom(Micro);
    BuildQuarter0(rom);
    BuildQuarter1(rom);
    BuildQuarter2(rom);
    BuildQuarter3(rom);
    rom.Finished();
  }
}

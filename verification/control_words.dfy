/**
 * The control-words ROM script: the microcode of nine instructions (NOP,
 * LDA, ADD, SUB, STA, LDI, JMP, OUT, HLT) plus seven placeholder opcodes,
 * five steps each, stored into the left and right control ROM images.
 */
module ControlWords {
  import opened Signals
  import opened Address
  import opened ControlStore

  /** The opcodes of this script, in opcode order (NOP is 0000, HLT is 1111). */
  datatype Mnemonic =
    | NOP | LDA | ADD | SUB | STA | LDI | JMP | OP7
    | OP8 | OP9 | OP10 | OP11 | OP12 | OP13 | OUT | HLT

  /** The 4-bit opcode of a mnemonic. */
  function Code(m: Mnemonic): Opcode
  {
    match m
    case NOP => 0   case LDA => 1   case ADD => 2   case SUB => 3
    case STA => 4   case LDI => 5   case JMP => 6   case OP7 => 7
    case OP8 => 8   case OP9 => 9   case OP10 => 10 case OP11 => 11
    case OP12 => 12 case OP13 => 13 case OUT => 14  case HLT => 15
  }

  /** The mnemonic of each opcode, in opcode order. */
  const Mnemonics: seq<Mnemonic> :=
    [NOP, LDA, ADD, SUB, STA, LDI, JMP, OP7, OP8, OP9, OP10, OP11, OP12, OP13, OUT, HLT]

  /** The mnemonic of a 4-bit opcode. */
  function MnemonicOf(op: Opcode): Mnemonic
  {
    Mnemonics[op]
  }

  /** Every opcode names exactly one instruction: Code and MnemonicOf are inverse. */
  lemma CodeBijective(m: Mnemonic, op: Opcode)
    ensures MnemonicOf(Code(m)) == m
    ensures Code(MnemonicOf(op)) == op
  {
  }

  /** The shifted opcode constants of the script, `0b0XXXX000`. */
  lemma OpcodeConstants()
    ensures OpcodeBits(Code(NOP)) == 0x00 && OpcodeBits(Code(LDA)) == 0x08
    ensures OpcodeBits(Code(ADD)) == 0x10 && OpcodeBits(Code(SUB)) == 0x18
    ensures OpcodeBits(Code(STA)) == 0x20 && OpcodeBits(Code(LDI)) == 0x28
    ensures OpcodeBits(Code(JMP)) == 0x30 && OpcodeBits(Code(OP7)) == 0x38
    ensures OpcodeBits(Code(OP8)) == 0x40 && OpcodeBits(Code(OP9)) == 0x48
    ensures OpcodeBits(Code(OP10)) == 0x50 && OpcodeBits(Code(OP11)) == 0x58
    ensures OpcodeBits(Code(OP12)) == 0x60 && OpcodeBits(Code(OP13)) == 0x68
    ensures OpcodeBits(Code(OUT)) == 0x70 && OpcodeBits(Code(HLT)) == 0x78
  {
  }

  /** The five control words of an instruction, steps 0 to 4, as the script lists them. */
  function Program(m: Mnemonic): (r: seq<ControlWord>)
    ensures |r| == StepsPerInstruction
  {
    match m
    case NOP => [Fetch0, Fetch1, Idle, Idle, Idle]
    case LDA => [Fetch0, Fetch1, ControlWord(Bit(MI) | Bit(IO), NIL), ControlWord(Bit(RO) | Bit(AI), NIL), Idle]
    case ADD => [Fetch0, Fetch1, ControlWord(Bit(MI) | Bit(IO), NIL), ControlWord(Bit(RO), Bit(BI)),
                 ControlWord(Bit(AI), Bit(EO))]
    case SUB => [Fetch0, Fetch1, ControlWord(Bit(MI) | Bit(IO), NIL), ControlWord(Bit(RO), Bit(BI)),
                 ControlWord(Bit(AI), Bit(EO) | Bit(SU))]
    case STA => [Fetch0, Fetch1, ControlWord(Bit(IO) | Bit(MI), NIL), ControlWord(Bit(AO) | Bit(RI), NIL), Idle]
    case LDI => [Fetch0, Fetch1, ControlWord(Bit(IO) | Bit(AI), NIL), Idle, Idle]
    case JMP => [Fetch0, Fetch1, ControlWord(Bit(IO), Bit(J)), Idle, Idle]
    case OP7 | OP8 | OP9 | OP10 | OP11 | OP12 | OP13 => [Fetch0, Fetch1, Idle, Idle, Idle]
    case OUT => [Fetch0, Fetch1, ControlWord(Bit(AO), Bit(OI)), Idle, Idle]
    case HLT => [Fetch0, Fetch1, ControlWord(Bit(HL), NIL), Idle, Idle]
  }

  /** The reference table: the control word of (opcode, step). */
  function Micro(op: Opcode, step: StepIndex): ControlWord
  {
    Program(MnemonicOf(op))[step]
  }

  /** The opcodes the script reserves without giving them work of their own. */
  predicate IsPlaceholder(m: Mnemonic)
  {
    m.OP7? || m.OP8? || m.OP9? || m.OP10? || m.OP11? || m.OP12? || m.OP13?
  }

  /** Every instruction's list starts with the two fetch steps. */
  lemma ProgramFetch(m: Mnemonic)
    ensures Program(m)[0] == Fetch0 && Program(m)[1] == Fetch1
  {
    match m
    case NOP => case LDA => case ADD => case SUB => case STA => case LDI => case JMP => case OP7 =>
    case OP8 => case OP9 => case OP10 => case OP11 => case OP12 => case OP13 => case OUT => case HLT =>
  }

  /** Every opcode, programmed or placeholder, starts with the two fetch steps. */
  lemma FetchEveryOpcode(op: Opcode)
    ensures Micro(op, 0) == Fetch0 && Micro(op, 1) == Fetch1
    ensures AssertedBy(Micro(op, 0)) == {MI, CO} && AssertedBy(Micro(op, 1)) == {RO, II, CE}
  {
    ProgramFetch(MnemonicOf(op));
    FetchSignals();
  }

  /** NOP, "no operation", asserts nothing after the fetch. */
  lemma NopFetchOnly(step: StepIndex)
    requires 2 <= step
    ensures Micro(Code(NOP), step) == Idle && AssertedBy(Micro(Code(NOP), step)) == {}
  {
    AssertedNil(Left); AssertedNil(Right);
  }

  /** A placeholder opcode asserts nothing after the fetch. */
  lemma PlaceholdersFetchOnly(m: Mnemonic, step: StepIndex)
    requires IsPlaceholder(m) && 2 <= step
    ensures Program(m)[step] == Idle && AssertedBy(Program(m)[step]) == {}
  {
    assert Program(m) == [Fetch0, Fetch1, Idle, Idle, Idle];
    AssertedNil(Left); AssertedNil(Right);
  }

  /** SUB is ADD with SU added to the right byte of its last step. */
  lemma SubIsAddWithSu(step: StepIndex)
    ensures step != 4 ==> Program(SUB)[step] == Program(ADD)[step]
    ensures step == 4 ==>
      Program(SUB)[step] == ControlWord(Program(ADD)[step].left, Program(ADD)[step].right | Bit(SU))
    ensures step == 4 ==> AssertedBy(Program(SUB)[step]) == AssertedBy(Program(ADD)[step]) + {SU}
  {
    var add, sub := Program(ADD), Program(SUB);
    assert sub[..4] == add[..4];
    assert sub[4] == ControlWord(Bit(AI), Bit(EO) | Bit(SU)) && add[4] == ControlWord(Bit(AI), Bit(EO));
    if step == 4 {
      AssertedOr(Bit(EO), Bit(SU), Right);
      AssertedSingle(SU);
    }
  }

  /** JMP's third step puts the instruction operand on the bus and loads it into the counter. */
  lemma JumpStep()
    ensures AssertedBy(Program(JMP)[2]) == {IO, J}
  {
    assert Program(JMP)[2] == ControlWord(Bit(IO), Bit(J));
    AssertedSingle(IO); AssertedSingle(J);
  }

  /** HLT asserts HL alone at its third step and nothing afterwards. */
  lemma HaltStep()
    ensures AssertedBy(Program(HLT)[2]) == {HL}
    ensures Program(HLT)[3] == Idle && Program(HLT)[4] == Idle
  {
    assert Program(HLT)[2] == ControlWord(Bit(HL), NIL);
    AssertedSingle(HL); AssertedNil(Right);
  }

  /** Only HLT's third step sets the HL bit of the left byte. */
  lemma HaltBit(m: Mnemonic, step: StepIndex)
    ensures Program(m)[step].left & Bit(HL) != NIL <==> m == HLT && step == 2
  {
    if step < 2 {
      ProgramFetch(m);
    } else {
      match m
      case NOP => case LDA => case ADD => case SUB => case STA => case LDI => case JMP => case OP7 =>
      case OP8 => case OP9 => case OP10 => case OP11 => case OP12 => case OP13 => case OUT => case HLT =>
    }
  }

  /** Only JMP's third step sets the J bit of the right byte. */
  lemma JumpBit(m: Mnemonic, step: StepIndex)
    ensures Program(m)[step].right & Bit(J) != NIL <==> m == JMP && step == 2
  {
    if step < 2 {
      ProgramFetch(m);
    } else {
      match m
      case NOP => case LDA => case ADD => case SUB => case STA => case LDI => case JMP => case OP7 =>
      case OP8 => case OP9 => case OP10 => case OP11 => case OP12 => case OP13 => case OUT => case HLT =>
    }
  }

  /** HL is asserted at exactly one (opcode, step): HLT's third step. */
  lemma HaltOnlyInHlt(op: Opcode, step: StepIndex)
    ensures HL in AssertedBy(Micro(op, step)) <==> op == Code(HLT) && step == 2
  {
    AssertedHas(Micro(op, step).left, Left, HL);
    HaltBit(MnemonicOf(op), step);
    CodeBijective(HLT, op);
  }

  /** J is asserted at exactly one (opcode, step): JMP's third step. */
  lemma JumpOnlyInJmp(op: Opcode, step: StepIndex)
    ensures J in AssertedBy(Micro(op, step)) <==> op == Code(JMP) && step == 2
  {
    AssertedHas(Micro(op, step).right, Right, J);
    JumpBit(MnemonicOf(op), step);
    CodeBijective(JMP, op);
  }

  /** Every instruction's block transcribes its row of the reference table. */
  lemma ProgramRow(m: Mnemonic)
    ensures forall s: StepIndex :: Micro(Code(m), s) == Program(m)[s]
  {
    CodeBijective(m, 0);
  }

  /** The script's blocks for opcodes 0000 to 0011. */
  method BuildQuarter0(rom: ControlRom)
    requires rom.Valid() && rom.micro == Micro && rom.count == 0
    modifies rom, rom.lt, rom.rt
    ensures rom.Valid() && rom.count == Rank(Code(STA), 0)
  {
    ProgramRow(NOP); rom.StoreInstruction(Code(NOP), Program(NOP));
    ProgramRow(LDA); rom.StoreInstruction(Code(LDA), Program(LDA));
    ProgramRow(ADD); rom.StoreInstruction(Code(ADD), Program(ADD));
    ProgramRow(SUB); rom.StoreInstruction(Code(SUB), Program(SUB));
  }

  /** The script's blocks for opcodes 0100 to 0111. */
  method BuildQuarter1(rom: ControlRom)
    requires rom.Valid() && rom.micro == Micro && rom.count == Rank(Code(STA), 0)
    modifies rom, rom.lt, rom.rt
    ensures rom.Valid() && rom.count == Rank(Code(OP8), 0)
  {
    ProgramRow(STA); rom.StoreInstruction(Code(STA), Program(STA));
    ProgramRow(LDI); rom.StoreInstruction(Code(LDI), Program(LDI));
    ProgramRow(JMP); rom.StoreInstruction(Code(JMP), Program(JMP));
    ProgramRow(OP7); rom.StoreInstruction(Code(OP7), Program(OP7));
  }

  /** The script's blocks for opcodes 1000 to 1011. */
  method BuildQuarter2(rom: ControlRom)
    requires rom.Valid() && rom.micro == Micro && rom.count == Rank(Code(OP8), 0)
    modifies rom, rom.lt, rom.rt
    ensures rom.Valid() && rom.count == Rank(Code(OP12), 0)
  {
    ProgramRow(OP8); rom.StoreInstruction(Code(OP8), Program(OP8));
    ProgramRow(OP9); rom.StoreInstruction(Code(OP9), Program(OP9));
    ProgramRow(OP10); rom.StoreInstruction(Code(OP10), Program(OP10));
    ProgramRow(OP11); rom.StoreInstruction(Code(OP11), Program(OP11));
  }

  /** The script's blocks for opcodes 1100 to 1111. */
  method BuildQuarter3(rom: ControlRom)
    requires rom.Valid() && rom.micro == Micro && rom.count == Rank(Code(OP12), 0)
    modifies rom, rom.lt, rom.rt
    ensures rom.Valid() && rom.count == StoreCount
  {
    ProgramRow(OP12); rom.StoreInstruction(Code(OP12), Program(OP12));
    ProgramRow(OP13); rom.StoreInstruction(Code(OP13), Program(OP13));
    ProgramRow(OUT); rom.StoreInstruction(Code(OUT), Program(OUT));
    ProgramRow(HLT); rom.StoreInstruction(Code(HLT), Program(HLT));
  }

  /** Runs the whole script and returns the two finished ROM images. */
  method Build() returns (rom: ControlRom)
    ensures rom.Valid() && fresh(rom) && fresh(rom.lt) && fresh(rom.rt)
    ensures rom.micro == Micro && rom.count == StoreCount
    ensures forall a | 0 <= a < RomSize :: rom.Written(a) <==> Programmed(a)
    ensures rom.lt[..] == Image(Micro, Left) && rom.rt[..] == Image(Micro, Right)
    ensures forall op: Opcode, s: StepIndex ::
      rom.lt[Encode(op, s)] == Micro(op, s).left && rom.rt[Encode(op, s)] == Micro(op, s).right
    ensures forall a | 0 <= a < RomSize && !Programmed(a) :: rom.lt[a] == NIL && rom.rt[a] == NIL
  {
    rom := new ControlRom(Micro);
    BuildQuarter0(rom);
    BuildQuarter1(rom);
    BuildQuarter2(rom);
    BuildQuarter3(rom);
    rom.Finished();
  }
}

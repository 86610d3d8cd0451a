# k8bitcpu ROM generators in Dafny

This project models the three ROM-image generators of an 8-bit breadboard CPU
(a Ben Eater design with changes).

- `control-words-rom.py` programs the CPU's microcode into two 2048-byte
  control ROMs. The left ROM holds the high control byte: HL MI RI RO IO II AI
  AO. The right ROM holds the low control byte: EO SU BI OI CE CO J FL.
  - Both images start zeroed.
  - Each of 16 opcodes gets five steps. A step's address is `opcode OR step`,
    laid out as `0XXXXYYY`.
  - Every instruction starts with the two fetch steps.
  - NOP, LDA, ADD, SUB, STA, LDI, JMP, OUT and HLT are programmed. NOP
    ("no operation") and the placeholders OP7 to OP13 do nothing after the
    fetch.
- `instruction-rom.py` is the earlier version of the same script. It uses the
  same layout, but only NOP, LDA, ADD, OUT and HLT are programmed; NOP and the
  placeholders OP3 to OP13 do nothing after the fetch.
- `segment-rom.py` fills a 2048-byte seven-segment decoder ROM.
  - Address bits 10-8 select one of eight regions of 256 bytes; bits 7-0 are
    the byte being displayed.
  - The unsigned regions hold the ones, tens and hundreds digit codes and a
    zero sign byte.
  - The signed regions hold the digit codes of the magnitude of the byte's
    two's-complement reading, and a sign byte that is 1 for a negative value.

Modules:

- `Signals` (signals.dfy): the sixteen control signals and their bit
  constants. A byte decomposes into the set of signals it asserts, and OR-ing a
  set packs it back into a byte. A control word is a left byte plus a right
  byte, which together read as 16 bits.
- `Address` (address.dfy): the `0XXXXYYY` control-ROM address, its encoding
  as `opcode OR step` and its decoding.
- `ControlStore` (control_store.dfy): the class `ControlRom`.
  - Its two arrays are the scripts' `lt_rom_data` and `rt_rom_data`. They are
    created zeroed and updated one store at a time.
  - A ghost reference table says what each store writes.
  - A ghost count of the stores done so far says which addresses have been
    written.
- `ControlWords` (control_words.dfy) and `InstructionRom`
  (instruction_rom.dfy) model the two microcode scripts.
  - The pure function `Program` transcribes each instruction's five control
    words; `Micro` is the table it induces.
  - `Build` runs the script's 80 store pairs against the arrays. It proves the
    finished images equal the table at every programmed address and zero
    everywhere else.
- `SegmentRom` (segment_rom.dfy): the reference contents `Expected`, the two
  fill loops as methods on an `array<bv8>` proved against it, and the
  digit-decomposition lemmas.

## Model

| member | source | states |
|---|---|---|
| Signals.Position | control-words-rom.py:37-49 | each signal's bit position within its byte is below 8: HL MI RI RO IO II AI AO and EO SU BI OI CE CO J FL from bit 7 down to bit 0 |
| Signals.Bit | control-words-rom.py:39-57 | transcribes the sixteen signal constants, 0x80 down to 0x01 in each ROM |
| Signals.BitIsPosition | control-words-rom.py:39-57 | each signal constant is the single bit at the signal's position |
| Signals.Pack | control-words-rom.py:88-198 | transcribes the OR of a set of signal constants, as in `RO OR II` |
| Signals.Asserted | control-words-rom.py:38-59 | transcribes the decomposition of a byte into the signals of its ROM whose bit is set |
| Signals.BitIsSingle | control-words-rom.py:38-59 | every signal constant is non-zero and has exactly one bit set |
| Signals.BitsDistinct | control-words-rom.py:38-59 | two signals of the same ROM share no bit, and have different bit positions, exactly when they are different signals |
| Signals.PackFromBit | control-words-rom.py:38-59 | the byte OR-ed from a set of signals has a signal's bit set exactly when that signal is in the set |
| Signals.PackAsserted | control-words-rom.py:38-59 | decomposing any byte into its asserted signals and OR-ing them back yields the same byte |
| Signals.AssertedPack | control-words-rom.py:38-59 | OR-ing a set of signals and decomposing the byte yields exactly the set's signals of that ROM |
| Signals.AssertedInjective | control-words-rom.py:38-59 | two bytes that assert the same signals are equal, so a byte's decomposition is unique |
| Signals.AssertedHas | control-words-rom.py:38-59 | a signal is asserted by a byte exactly when it belongs to that ROM and its bit is set |
| Signals.AssertedNil | control-words-rom.py:59 | NIL asserts no signal |
| Signals.AssertedSingle | control-words-rom.py:38-57 | a signal's constant, stored in its own ROM, asserts that signal and no other |
| Signals.AssertedOr | control-words-rom.py:88-89 | OR-ing two control bytes asserts the union of their signals |
| Signals.ControlWord.Value | instruction-rom.py:31-33 | in the 16-bit reading of a control word, the 8 high bits are the left ROM byte and the 8 low bits are the right ROM byte |
| Signals.Split | instruction-rom.py:31-33 | splitting a 16-bit word into left and right bytes and reading it back gives the word |
| Signals.SplitValue | instruction-rom.py:31-33 | reading a control word as 16 bits and splitting it gives the same left and right bytes |
| Address.OpcodeBits | control-words-rom.py:62-78 | each opcode constant is the opcode number times 8 |
| Address.Encode | control-words-rom.py:23-31 | every control-ROM address is below 128, so bit 7 is unused |
| Address.OrIsEncode | control-words-rom.py:23-31 | `opcode OR step` is `8*op + step`; `>> 3` recovers the opcode and `& 7` recovers the step |
| Address.Decode | control-words-rom.py:25-31 | transcribes the split of an address into its opcode bits 6-3 and step bits 2-0 |
| Address.DecodeEncode | instruction-rom.py:29-30 | decoding the address of (op, step) gives back (op, step) |
| Address.EncodeDecode | instruction-rom.py:29-30 | every address below 128 is the encoding of its decoded fields |
| Address.EncodeInjective | control-words-rom.py:23-31 | distinct (opcode, step) pairs have distinct addresses |
| ControlStore.Rank | control-words-rom.py:88-198 | the script's store lines are ordered opcode by opcode, steps 0 to 4 within each; a line's position determines its opcode and step |
| ControlStore.StoreAddress | control-words-rom.py:88-198 | the k-th store line writes an address below 128 whose fields are the k-th line's opcode and step |
| ControlStore.StoreOrder | control-words-rom.py:88-198 | every store line writes a programmed address, and two lines write the same address only if they are the same line, so nothing is overwritten |
| ControlStore.StoreCovers | control-words-rom.py:88-198 | every address with a step field of 0 to 4 is written by some store line |
| ControlStore.FetchSignals | control-words-rom.py:9-11 | fetch step 0 asserts exactly MI and CO; fetch step 1 asserts exactly RO, II and CE |
| ControlStore.Image | control-words-rom.py:34-35 | a finished image is 2048 bytes long |
| ControlStore.ControlRom.constructor | control-words-rom.py:34-35 | both images are fresh 2048-byte arrays of zeros, with nothing stored yet |
| ControlStore.ControlRom.Store | control-words-rom.py:88 | one store line writes its left and right bytes at `opcode OR step` and changes no other byte; that address had not been written before |
| ControlStore.ControlRom.StoreInstruction | control-words-rom.py:94-99 | storing an instruction's five words writes its five addresses, none of which was written before, and keeps both images equal to the table on the lines written so far and zero everywhere else |
| ControlStore.ControlRom.Finished | control-words-rom.py:88-198 | once all 80 lines have run, the written addresses are exactly the programmed ones; each holds its table word and every other byte of both images is zero |
| ControlWords.CodeBijective | control-words-rom.py:63-78 | the sixteen opcode constants name sixteen distinct instructions, and every 4-bit opcode names one |
| ControlWords.OpcodeConstants | control-words-rom.py:63-78 | the opcode constants are `0b0XXXX000` with XXXX the instruction's number, NOP 0x00 up to HLT 0x78 |
| ControlWords.Program | control-words-rom.py:88-198 | every instruction has exactly five control words |
| ControlWords.Micro | control-words-rom.py:88-198 | transcribes the table of control words by (opcode, step) that the script's stores write |
| ControlWords.ProgramFetch | control-words-rom.py:9-11 | every instruction's steps 0 and 1 are the fetch words (MI, CO) and (RO+II, CE) |
| ControlWords.FetchEveryOpcode | control-words-rom.py:88-89 | for all 16 opcodes, step 0 asserts exactly {MI, CO} and step 1 asserts exactly {RO, II, CE} |
| ControlWords.NopFetchOnly | control-words-rom.py:88-92 | NOP holds zero in both ROMs at steps 2 to 4, so it asserts nothing after the fetch |
| ControlWords.PlaceholdersFetchOnly | control-words-rom.py:138-184 | OP7 to OP13 hold zero in both ROMs at steps 2 to 4, so they assert nothing after the fetch |
| ControlWords.SubIsAddWithSu | control-words-rom.py:103-114 | SUB equals ADD at steps 0 to 3; at step 4 the left byte is the same and the right byte also asserts SU |
| ControlWords.JumpStep | control-words-rom.py:131-135 | JMP step 2 asserts exactly IO and J |
| ControlWords.HaltStep | control-words-rom.py:194-198 | HLT step 2 asserts HL alone, and steps 3 and 4 assert nothing |
| ControlWords.HaltBit | control-words-rom.py:88-198 | the HL bit of a left byte is set at HLT step 2 and at no other instruction and step |
| ControlWords.JumpBit | control-words-rom.py:88-198 | the J bit of a right byte is set at JMP step 2 and at no other instruction and step |
| ControlWords.HaltOnlyInHlt | control-words-rom.py:194-198 | HL is asserted at (op, step) exactly when op is HLT's opcode and step is 2 |
| ControlWords.JumpOnlyInJmp | control-words-rom.py:131-135 | J is asserted at (op, step) exactly when op is JMP's opcode and step is 2 |
| ControlWords.ProgramRow | control-words-rom.py:88-198 | the table's row for an instruction's opcode is that instruction's five words |
| ControlWords.BuildQuarter0 | control-words-rom.py:87-114 | the NOP, LDA, ADD and SUB blocks advance the script to STA's first line and keep the images consistent with the table |
| ControlWords.BuildQuarter1 | control-words-rom.py:116-142 | the STA, LDI, JMP and OP7 blocks advance the script to OP8's first line and keep the images consistent with the table |
| ControlWords.BuildQuarter2 | control-words-rom.py:144-170 | the OP8 to OP11 blocks advance the script to OP12's first line and keep the images consistent with the table |
| ControlWords.BuildQuarter3 | control-words-rom.py:172-198 | the OP12, OP13, OUT and HLT blocks complete all 80 lines and keep the images consistent with the table |
| ControlWords.Build | control-words-rom.py:34-198 | the finished left and right images equal the table at every `opcode OR step` address, both are 2048 bytes, and every address with step 5 to 7 or at 128 or above stays zero |
| InstructionRom.CodeBijective | instruction-rom.py:38-53 | the sixteen opcode constants name sixteen distinct instructions, and every 4-bit opcode names one |
| InstructionRom.OpcodeConstants | instruction-rom.py:38-53 | the opcode constants are `0b0XXXX000`, NOP 0x00 up to HLT 0x78 |
| InstructionRom.Program | instruction-rom.py:67-177 | every instruction has exactly five control words |
| InstructionRom.Micro | instruction-rom.py:67-177 | transcribes the table of control words by (opcode, step) that the script's stores write |
| InstructionRom.ProgramFetch | instruction-rom.py:62-64 | every instruction's steps 0 and 1 are the fetch words (MI, CO) and (RO+II, CE) |
| InstructionRom.FetchEveryOpcode | instruction-rom.py:67-68 | for all 16 opcodes, step 0 asserts exactly {MI, CO} and step 1 asserts exactly {RO, II, CE} |
| InstructionRom.NopFetchOnly | instruction-rom.py:67-71 | NOP holds zero in both ROMs at steps 2 to 4, so it asserts nothing after the fetch |
| InstructionRom.PlaceholdersFetchOnly | instruction-rom.py:89-163 | OP3 to OP13 hold zero in both ROMs at steps 2 to 4 |
| InstructionRom.LoadSteps | instruction-rom.py:74-78 | LDA asserts {MI, IO}, then {RO, AI}, then nothing |
| InstructionRom.AddSteps | instruction-rom.py:82-86 | ADD asserts {MI, IO}, then {RO, BI}, then {AI, EO} |
| InstructionRom.ProgramRow | instruction-rom.py:67-177 | the table's row for an instruction's opcode is that instruction's five words |
| InstructionRom.SameRowAsControlWords | instruction-rom.py:67-177 | an opcode has the same five words in both scripts exactly when it is not 3 to 6, so NOP, LDA, ADD, OUT, HLT and OP7 to OP13 coincide |
| InstructionRom.NewWorkAtStep2 | instruction-rom.py:89-114 | opcodes 3 to 6 are idle at step 2 here but do work there in the later script |
| InstructionRom.SharedRow | instruction-rom.py:67-177 | every opcode outside 3 to 6 has the same five words as in the later script |
| InstructionRom.BuildQuarter0 | instruction-rom.py:66-93 | the NOP, LDA, ADD and OP3 blocks advance the script to OP4's first line and keep the images consistent with the table |
| InstructionRom.BuildQuarter1 | instruction-rom.py:95-121 | the OP4 to OP7 blocks advance the script to OP8's first line and keep the images consistent with the table |
| InstructionRom.BuildQuarter2 | instruction-rom.py:123-149 | the OP8 to OP11 blocks advance the script to OP12's first line and keep the images consistent with the table |
| InstructionRom.BuildQuarter3 | instruction-rom.py:151-177 | the OP12, OP13, OUT and HLT blocks complete all 80 lines and keep the images consistent with the table |
| InstructionRom.Build | instruction-rom.py:1-177 | the finished images equal the table at every `opcode OR step` address, and every other byte stays zero |
| SegmentRom.Ones | segment-rom.py:48 | transcribes the ones digit `i % 10` |
| SegmentRom.Tens | segment-rom.py:49 | transcribes the tens digit `(i // 10) % 10` |
| SegmentRom.Hundreds | segment-rom.py:50 | transcribes the hundreds digit `(i // 100) % 10` |
| SegmentRom.ExpectedAt | segment-rom.py:47-60 | transcribes the byte the two loops leave at offset i of region k: digit codes of i or of the magnitude of its signed reading, 0 in region 3, and the sign in region 7 |
| SegmentRom.Expected | segment-rom.py:44-60 | transcribes the finished image, address by address, as the reference for the fill loops |
| SegmentRom.Abs | segment-rom.py:56 | `abs(val)` is val or -val and is never negative |
| SegmentRom.LowByte | segment-rom.py:55 | `val & 0xFF` is an offset in 0..255 |
| SegmentRom.SignedValue | segment-rom.py:54-55 | the two's-complement reading of a byte lies in -128..127 |
| SegmentRom.Addr | segment-rom.py:7-12 | offset i of region k is an address below 2048 whose bits 10-8 are k and bits 7-0 are i |
| SegmentRom.Fill | segment-rom.py:44-60 | the finished image is 2048 bytes and every byte equals the reference contents: digit codes of the byte's unsigned or signed reading, and sign bytes |
| SegmentRom.FillUnsigned | segment-rom.py:47-51 | the unsigned loop assigns every byte of regions 0 to 3, whatever the array held before: the ones, tens and hundreds codes and a zero sign byte for every i; regions 4 to 7 are unchanged |
| SegmentRom.FillSigned | segment-rom.py:54-60 | the signed loop assigns every byte of regions 4 to 7, whatever the array held before, at offset `val & 0xFF` for every val in -128..127: the magnitude's digit codes and the sign; regions 0 to 3 are unchanged |
| SegmentRom.AddrInjective | segment-rom.py:25-35 | the eight regions are disjoint: distinct (region, offset) pairs are distinct addresses |
| SegmentRom.SignedLowByte | segment-rom.py:54-55 | `val & 0xFF` is val for val ≥ 0 and val + 256 for val < 0, and its two's-complement reading is val |
| SegmentRom.LowByteSigned | segment-rom.py:54-55 | every offset 0..255 is `val & 0xFF` of its own signed reading, so the signed loop reaches every offset |
| SegmentRom.LowByteInjective | segment-rom.py:54-55 | distinct values in -128..127 have distinct low bytes, so the signed loop writes each signed address once |
| SegmentRom.DigitsRecombine | segment-rom.py:48-50 | the hundreds, tens and ones digits of a number below 1000 recombine to the number |
| SegmentRom.DigitCodesDistinct | segment-rom.py:41-42 | the ten segment codes are pairwise distinct |
| SegmentRom.DigitShown | segment-rom.py:41-42 | a byte is read as a digit exactly when it is one of the ten codes, and then it is that digit's code |
| SegmentRom.DigitShownCode | segment-rom.py:41-42 | reading a digit's segment code gives back the digit |
| SegmentRom.RegionContents | segment-rom.py:47-60 | every byte of the six digit regions is one of the ten codes; the unsigned sign region is 0; the signed sign byte is 1 exactly when the offset is at least 128, and 0 otherwise |
| SegmentRom.HundredsBound | segment-rom.py:47-59 | the hundreds digit is at most 2 for an unsigned byte and at most 1 for a signed one, whose magnitude is at most 128 |
| SegmentRom.UnsignedReadBack | segment-rom.py:14-23 | reading regions 0 to 2 at offset i shows digits that recombine to i, and the unsigned sign byte is 0 |
| SegmentRom.SignedReadBack | segment-rom.py:26-35 | reading regions 4 to 6 at offset i shows the magnitude of i's signed reading, and region 7 gives its sign |
| SegmentRom.Example123 | segment-rom.py:17-23 | addresses 123, 379, 635 and 891 hold the codes of 3, 2 and 1, then 0 |

## Left out

- Writing the images to `.bin` files (control-words-rom.py:200-205,
  instruction-rom.py:179-184, segment-rom.py:74-76) is I/O. The model ends
  with the image contents.
- The commented-out debug prints of segment-rom.py:62-72 are not modelled.
- The Arduino display driver `k8bitcpu/src/main.cpp` is not part of this
  model. It is hardware I/O driven by an interrupt handler.
- What each signal does on the CPU is not modelled: these scripts generate
  tables and do not execute instructions.
- The scripts address the control ROMs by a 4-bit opcode and a 3-bit step
  only. They have no condition-flag address bits, no word-select bit and no
  5-bit opcodes. Each control word is two bytes, and the scripts neither
  export signal names nor check for bit collisions. The model has exactly
  these features and no others.
- HLT asserts HL at its step 2 only, followed by two idle steps; no step
  holds the halt signal over several steps (`ControlWords.HaltStep`,
  `ControlWords.HaltOnlyInHlt`).
- The scripts write only the 80 `opcode OR step` addresses with step 0 to 4.
  Every other byte keeps the zero of the initial `bytearray`, and
  `ControlStore.ControlRom.Finished` states exactly that.
- ControlStore.ControlRom.Store: the script's 160 stores are grouped into
  one call per (opcode, step) pair, setting both ROMs at once. The calls are
  grouped into one block per instruction (`StoreInstruction`) and four blocks
  per `BuildQuarter` method. The ghost precondition that the store is the
  next line in program order, and writes the table's word, is a proof device
  and not a check the script makes.
- SegmentRom.Fill: the two loops are split into two methods,
  `FillUnsigned` and `FillSigned`, run in the same order on the same
  array.
- SegmentRom.LowByte: Python's `val & 0xFF` is written as Dafny's Euclidean
  `val % 256`. The two agree for every integer, negative ones included.

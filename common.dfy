/** The 6502 instruction layer: the opcode and addressing-mode enumerations, the 256-slot
    instruction descriptor table, the positional handler tables and the flag arithmetic the
    handlers share (src/Common.ts). */
module Common {
  import opened Wrappers
  import Bits

  type byte = Bits.byte
  type bit = Bits.bit

  /** `OpCode` enumeration values. */
  type OpCode = x: int | 0 <= x < 61

  const ADC: OpCode := 0
  const AND: OpCode := 1
  const ASL: OpCode := 2
  const BCC: OpCode := 3
  const BCS: OpCode := 4
  const BEQ: OpCode := 5
  const BIT: OpCode := 6
  const BMI: OpCode := 7
  const BNE: OpCode := 8
  const BPL: OpCode := 9
  const BRK: OpCode := 10
  const BVC: OpCode := 11
  const BVS: OpCode := 12
  const CLC: OpCode := 13
  const CLD: OpCode := 14
  const CLI: OpCode := 15
  const CLV: OpCode := 16
  const CMP: OpCode := 17
  const CPX: OpCode := 18
  const CPY: OpCode := 19
  const DEC: OpCode := 20
  const DEX: OpCode := 21
  const DEY: OpCode := 22
  const EOR: OpCode := 23
  const INC: OpCode := 24
  const INX: OpCode := 25
  const INY: OpCode := 26
  const JMP: OpCode := 27
  const JSR: OpCode := 28
  const LDA: OpCode := 29
  const LDX: OpCode := 30
  const LDY: OpCode := 31
  const LSR: OpCode := 32
  const NOP: OpCode := 33
  const ORA: OpCode := 34
  const PHA: OpCode := 35
  const PHP: OpCode := 36
  const PLA: OpCode := 37
  const PLP: OpCode := 38
  const ROL: OpCode := 39
  const ROR: OpCode := 40
  const RTI: OpCode := 41
  const RTS: OpCode := 42
  const SBC: OpCode := 43
  const SEC: OpCode := 44
  const SED: OpCode := 45
  const SEI: OpCode := 46
  const STA: OpCode := 47
  const STX: OpCode := 48
  const STY: OpCode := 49
  const TAX: OpCode := 50
  const TAY: OpCode := 51
  const TSX: OpCode := 52
  const TXA: OpCode := 53
  const TXS: OpCode := 54
  const TYA: OpCode := 55
  const ASL_ACC: OpCode := 56
  const LSR_ACC: OpCode := 57
  const ROL_ACC: OpCode := 58
  const ROR_ACC: OpCode := 59
  const SLO: OpCode := 60

  /** `Mode` enumeration values. */
  type Mode = x: int | 0 <= x < 13

  const ABSOLUTE: Mode := 0
  const ABSOLUTE_X: Mode := 1
  const ABSOLUTE_Y: Mode := 2
  const ACCUMULATOR: Mode := 3
  const IMMEDIATE: Mode := 4
  const IMPLIED: Mode := 5
  const INDEXED_INDIRECT_X: Mode := 6
  const INDIRECT: Mode := 7
  const INDIRECT_INDEXED_Y: Mode := 8
  const RELATIVE: Mode := 9
  const ZERO_PAGE: Mode := 10
  const ZERO_PAGE_X: Mode := 11
  const ZERO_PAGE_Y: Mode := 12

  /** A descriptor: operation, addressing mode, instruction size in bytes, base cycle count. */
  datatype Instruction = Instruction(opCode: OpCode, mode: Mode, size: nat, cycles: nat)

  /** Indexed by the opcode byte; None marks a byte with no descriptor. Written in rows of
      sixteen slots. */
  const INSTRUCTIONS: seq<Option<Instruction>> :=
    [
      /* 0x00 */ Some(Instruction(BRK, IMPLIED, 1, 7)),
      /* 0x01 */ Some(Instruction(ORA, INDEXED_INDIRECT_X, 2, 6)),
      /* 0x02 */ None,
      /* 0x03 */ Some(Instruction(SLO, INDEXED_INDIRECT_X, 0, 8)),
      /* 0x04 */ None,
      /* 0x05 */ Some(Instruction(ORA, ZERO_PAGE, 2, 3)),
      /* 0x06 */ Some(Instruction(ASL, ZERO_PAGE, 2, 5)),
      /* 0x07 */ Some(Instruction(SLO, ZERO_PAGE, 0, 5)),
      /* 0x08 */ Some(Instruction(PHP, IMPLIED, 1, 3)),
      /* 0x09 */ Some(Instruction(ORA, IMMEDIATE, 2, 2)),
      /* 0x0A */ Some(Instruction(ASL_ACC, ACCUMULATOR, 1, 2)),
      /* 0x0B */ None,
      /* 0x0C */ None,
      /* 0x0D */ Some(Instruction(ORA, ABSOLUTE, 3, 4)),
      /* 0x0E */ Some(Instruction(ASL, ABSOLUTE, 3, 6)),
      /* 0x0F */ Some(Instruction(SLO, ABSOLUTE, 0, 6))
    ] +
    [
      /* 0x10 */ Some(Instruction(BPL, RELATIVE, 2, 2)),
      /* 0x11 */ Some(Instruction(ORA, INDIRECT_INDEXED_Y, 2, 5)),
      /* 0x12 */ None,
      /* 0x13 */ Some(Instruction(SLO, INDIRECT_INDEXED_Y, 0, 8)),
      /* 0x14 */ None,
      /* 0x15 */ Some(Instruction(ORA, ZERO_PAGE_X, 2, 4)),
      /* 0x16 */ Some(Instruction(ASL, ZERO_PAGE_X, 2, 6)),
      /* 0x17 */ Some(Instruction(SLO, ZERO_PAGE_X, 0, 6)),
      /* 0x18 */ Some(Instruction(CLC, IMPLIED, 1, 2)),
      /* 0x19 */ Some(Instruction(ORA, ABSOLUTE_Y, 3, 4)),
      /* 0x1A */ None,
      /* 0x1B */ Some(Instruction(SLO, ABSOLUTE_Y, 0, 7)),
      /* 0x1C */ None,
      /* 0x1D */ Some(Instruction(ORA, ABSOLUTE_X, 3, 4)),
      /* 0x1E */ Some(Instruction(ASL, ABSOLUTE_X, 3, 7)),
      /* 0x1F */ Some(Instruction(SLO, ABSOLUTE_X, 0, 7))
    ] +
    [
      /* 0x20 */ Some(Instruction(JSR, ABSOLUTE, 3, 6)),
      /* 0x21 */ Some(Instruction(AND, INDEXED_INDIRECT_X, 2, 6)),
      /* 0x22 */ None,
      /* 0x23 */ None,
      /* 0x24 */ Some(Instruction(BIT, ZERO_PAGE, 2, 3)),
      /* 0x25 */ Some(Instruction(AND, ZERO_PAGE, 2, 3)),
      /* 0x26 */ Some(Instruction(ROL, ZERO_PAGE, 2, 5)),
      /* 0x27 */ None,
      /* 0x28 */ Some(Instruction(PLP, IMPLIED, 1, 4)),
      /* 0x29 */ Some(Instruction(AND, IMMEDIATE, 2, 2)),
      /* 0x2A */ Some(Instruction(ROL_ACC, ACCUMULATOR, 1, 2)),
      /* 0x2B */ None,
      /* 0x2C */ Some(Instruction(BIT, ABSOLUTE, 3, 4)),
      /* 0x2D */ Some(Instruction(AND, ABSOLUTE, 3, 4)),
      /* 0x2E */ Some(Instruction(ROL, ABSOLUTE, 3, 6)),
      /* 0x2F */ None
    ] +
    [
      /* 0x30 */ Some(Instruction(BMI, RELATIVE, 2, 2)),
      /* 0x31 */ Some(Instruction(AND, INDIRECT_INDEXED_Y, 2, 5)),
      /* 0x32 */ None,
      /* 0x33 */ None,
      /* 0x34 */ None,
      /* 0x35 */ Some(Instruction(AND, ZERO_PAGE_X, 2, 4)),
      /* 0x36 */ Some(Instruction(ROL, ZERO_PAGE_X, 2, 6)),
      /* 0x37 */ None,
      /* 0x38 */ Some(Instruction(SEC, IMPLIED, 1, 2)),
      /* 0x39 */ Some(Instruction(AND, ABSOLUTE_Y, 3, 4)),
      /* 0x3A */ None,
      /* 0x3B */ None,
      /* 0x3C */ None,
      /* 0x3D */ Some(Instruction(AND, ABSOLUTE_X, 3, 4)),
      /* 0x3E */ Some(Instruction(ROL, ABSOLUTE_X, 3, 7)),
      /* 0x3F */ None
    ] +
    [
      /* 0x40 */ Some(Instruction(RTI, IMPLIED, 1, 6)),
      /* 0x41 */ Some(Instruction(EOR, INDEXED_INDIRECT_X, 2, 6)),
      /* 0x42 */ None,
      /* 0x43 */ None,
      /* 0x44 */ None,
      /* 0x45 */ Some(Instruction(EOR, ZERO_PAGE, 2, 3)),
      /* 0x46 */ Some(Instruction(LSR, ZERO_PAGE, 2, 5)),
      /* 0x47 */ None,
      /* 0x48 */ Some(Instruction(PHA, IMPLIED, 1, 3)),
      /* 0x49 */ Some(Instruction(EOR, IMMEDIATE, 2, 2)),
      /* 0x4A */ Some(Instruction(LSR_ACC, ACCUMULATOR, 1, 2)),
      /* 0x4B */ None,
      /* 0x4C */ Some(Instruction(JMP, ABSOLUTE, 3, 3)),
      /* 0x4D */ Some(Instruction(EOR, ABSOLUTE, 3, 4)),
      /* 0x4E */ Some(Instruction(LSR, ABSOLUTE, 3, 6)),
      /* 0x4F */ None
    ] +
    [
      /* 0x50 */ Some(Instruction(BVC, RELATIVE, 2, 2)),
      /* 0x51 */ Some(Instruction(EOR, INDIRECT_INDEXED_Y, 2, 5)),
      /* 0x52 */ None,
      /* 0x53 */ None,
      /* 0x54 */ None,
      /* 0x55 */ Some(Instruction(EOR, ZERO_PAGE_X, 2, 4)),
      /* 0x56 */ Some(Instruction(LSR, ZERO_PAGE_X, 2, 6)),
      /* 0x57 */ None,
      /* 0x58 */ Some(Instruction(CLI, IMPLIED, 1, 2)),
      /* 0x59 */ Some(Instruction(EOR, ABSOLUTE_Y, 3, 4)),
      /* 0x5A */ None,
      /* 0x5B */ None,
      /* 0x5C */ None,
      /* 0x5D */ Some(Instruction(EOR, ABSOLUTE_X, 3, 4)),
      /* 0x5E */ Some(Instruction(LSR, ABSOLUTE_X, 3, 7)),
      /* 0x5F */ None
    ] +
    [
      /* 0x60 */ Some(Instruction(RTS, IMPLIED, 1, 6)),
      /* 0x61 */ Some(Instruction(ADC, INDEXED_INDIRECT_X, 2, 6)),
      /* 0x62 */ None,
      /* 0x63 */ None,
      /* 0x64 */ None,
      /* 0x65 */ Some(Instruction(ADC, ZERO_PAGE, 2, 3)),
      /* 0x66 */ Some(Instruction(ROR, ZERO_PAGE, 2, 5)),
      /* 0x67 */ None,
      /* 0x68 */ Some(Instruction(PLA, IMPLIED, 1, 4)),
      /* 0x69 */ Some(Instruction(ADC, IMMEDIATE, 2, 2)),
      /* 0x6A */ Some(Instruction(ROR_ACC, ACCUMULATOR, 1, 2)),
      /* 0x6B */ None,
      /* 0x6C */ Some(Instruction(JMP, INDIRECT, 3, 5)),
      /* 0x6D */ Some(Instruction(ADC, ABSOLUTE, 3, 4)),
      /* 0x6E */ Some(Instruction(ROR, ABSOLUTE, 3, 6)),
      /* 0x6F */ None
    ] +
    [
      /* 0x70 */ Some(Instruction(BVS, RELATIVE, 2, 2)),
      /* 0x71 */ Some(Instruction(ADC, INDIRECT_INDEXED_Y, 2, 5)),
      /* 0x72 */ None,
      /* 0x73 */ None,
      /* 0x74 */ None,
      /* 0x75 */ Some(Instruction(ADC, ZERO_PAGE_X, 2, 4)),
      /* 0x76 */ Some(Instruction(ROR, ZERO_PAGE_X, 2, 6)),
      /* 0x77 */ None,
      /* 0x78 */ Some(Instruction(SEI, IMPLIED, 1, 2)),
      /* 0x79 */ Some(Instruction(ADC, ABSOLUTE_Y, 3, 4)),
      /* 0x7A */ None,
      /* 0x7B */ None,
      /* 0x7C */ None,
      /* 0x7D */ Some(Instruction(ADC, ABSOLUTE_X, 3, 4)),
      /* 0x7E */ Some(Instruction(ROR, ABSOLUTE_X, 3, 7)),
      /* 0x7F */ None
    ] +
    [
      /* 0x80 */ None,
      /* 0x81 */ Some(Instruction(STA, INDEXED_INDIRECT_X, 2, 6)),
      /* 0x82 */ None,
      /* 0x83 */ None,
      /* 0x84 */ Some(Instruction(STY, ZERO_PAGE, 2, 3)),
      /* 0x85 */ Some(Instruction(STA, ZERO_PAGE, 2, 3)),
      /* 0x86 */ Some(Instruction(STX, ZERO_PAGE, 2, 3)),
      /* 0x87 */ None,
      /* 0x88 */ Some(Instruction(DEY, IMPLIED, 1, 2)),
      /* 0x89 */ None,
      /* 0x8A */ Some(Instruction(TXA, IMPLIED, 1, 2)),
      /* 0x8B */ None,
      /* 0x8C */ Some(Instruction(STY, ABSOLUTE, 3, 4)),
      /* 0x8D */ Some(Instruction(STA, ABSOLUTE, 3, 4)),
      /* 0x8E */ Some(Instruction(STX, ABSOLUTE, 3, 4)),
      /* 0x8F */ None
    ] +
    [
      /* 0x90 */ Some(Instruction(BCC, RELATIVE, 2, 2)),
      /* 0x91 */ Some(Instruction(STA, INDIRECT_INDEXED_Y, 2, 6)),
      /* 0x92 */ None,
      /* 0x93 */ None,
      /* 0x94 */ Some(Instruction(STY, ZERO_PAGE_X, 2, 4)),
      /* 0x95 */ Some(Instruction(STA, ZERO_PAGE_X, 2, 4)),
      /* 0x96 */ Some(Instruction(STX, ZERO_PAGE_Y, 2, 4)),
      /* 0x97 */ None,
      /* 0x98 */ Some(Instruction(TYA, IMPLIED, 1, 2)),
      /* 0x99 */ Some(Instruction(STA, ABSOLUTE_Y, 3, 5)),
      /* 0x9A */ Some(Instruction(TXS, IMPLIED, 1, 2)),
      /* 0x9B */ None,
      /* 0x9C */ None,
      /* 0x9D */ Some(Instruction(STA, ABSOLUTE_X, 3, 5)),
      /* 0x9E */ None,
      /* 0x9F */ None
    ] +
    [
      /* 0xA0 */ Some(Instruction(LDY, IMMEDIATE, 2, 2)),
      /* 0xA1 */ Some(Instruction(LDA, INDEXED_INDIRECT_X, 2, 6)),
      /* 0xA2 */ Some(Instruction(LDX, IMMEDIATE, 2, 2)),
      /* 0xA3 */ None,
      /* 0xA4 */ Some(Instruction(LDY, ZERO_PAGE, 2, 3)),
      /* 0xA5 */ Some(Instruction(LDA, ZERO_PAGE, 2, 3)),
      /* 0xA6 */ Some(Instruction(LDX, ZERO_PAGE, 2, 3)),
      /* 0xA7 */ None,
      /* 0xA8 */ Some(Instruction(TAY, IMPLIED, 1, 2)),
      /* 0xA9 */ Some(Instruction(LDA, IMMEDIATE, 2, 2)),
      /* 0xAA */ Some(Instruction(TAX, IMPLIED, 1, 2)),
      /* 0xAB */ None,
      /* 0xAC */ Some(Instruction(LDY, ABSOLUTE, 3, 4)),
      /* 0xAD */ Some(Instruction(LDA, ABSOLUTE, 3, 4)),
      /* 0xAE */ Some(Instruction(LDX, ABSOLUTE, 3, 4)),
      /* 0xAF */ None
    ] +
    [
      /* 0xB0 */ Some(Instruction(BCS, RELATIVE, 2, 2)),
      /* 0xB1 */ Some(Instruction(LDA, INDIRECT_INDEXED_Y, 2, 5)),
      /* 0xB2 */ None,
      /* 0xB3 */ None,
      /* 0xB4 */ Some(Instruction(LDY, ZERO_PAGE_X, 2, 4)),
      /* 0xB5 */ Some(Instruction(LDA, ZERO_PAGE_X, 2, 4)),
      /* 0xB6 */ Some(Instruction(LDX, ZERO_PAGE_Y, 2, 4)),
      /* 0xB7 */ None,
      /* 0xB8 */ Some(Instruction(CLV, IMPLIED, 1, 2)),
      /* 0xB9 */ Some(Instruction(LDA, ABSOLUTE_Y, 3, 4)),
      /* 0xBA */ Some(Instruction(TSX, IMPLIED, 1, 2)),
      /* 0xBB */ None,
      /* 0xBC */ Some(Instruction(LDY, ABSOLUTE_X, 3, 4)),
      /* 0xBD */ Some(Instruction(LDA, ABSOLUTE_X, 3, 4)),
      /* 0xBE */ Some(Instruction(LDX, ABSOLUTE_Y, 3, 4)),
      /* 0xBF */ None
    ] +
    [
      /* 0xC0 */ Some(Instruction(CPY, IMMEDIATE, 2, 2)),
      /* 0xC1 */ Some(Instruction(CMP, INDEXED_INDIRECT_X, 2, 6)),
      /* 0xC2 */ None,
      /* 0xC3 */ None,
      /* 0xC4 */ Some(Instruction(CPY, ZERO_PAGE, 2, 3)),
      /* 0xC5 */ Some(Instruction(CMP, ZERO_PAGE, 2, 3)),
      /* 0xC6 */ Some(Instruction(DEC, ZERO_PAGE, 2, 5)),
      /* 0xC7 */ None,
      /* 0xC8 */ Some(Instruction(INY, IMPLIED, 1, 2)),
      /* 0xC9 */ Some(Instruction(CMP, IMMEDIATE, 2, 2)),
      /* 0xCA */ Some(Instruction(DEX, IMPLIED, 1, 2)),
      /* 0xCB */ None,
      /* 0xCC */ Some(Instruction(CPY, ABSOLUTE, 3, 4)),
      /* 0xCD */ Some(Instruction(CMP, ABSOLUTE, 3, 4)),
      /* 0xCE */ Some(Instruction(DEC, ABSOLUTE, 3, 6)),
      /* 0xCF */ None
    ] +
    [
      /* 0xD0 */ Some(Instruction(BNE, RELATIVE, 2, 2)),
      /* 0xD1 */ Some(Instruction(CMP, INDIRECT_INDEXED_Y, 2, 5)),
      /* 0xD2 */ None,
      /* 0xD3 */ None,
      /* 0xD4 */ None,
      /* 0xD5 */ Some(Instruction(CMP, ZERO_PAGE_X, 2, 4)),
      /* 0xD6 */ Some(Instruction(DEC, ZERO_PAGE_X, 2, 6)),
      /* 0xD7 */ None,
      /* 0xD8 */ Some(Instruction(CLD, IMPLIED, 1, 2)),
      /* 0xD9 */ Some(Instruction(CMP, ABSOLUTE_Y, 3, 4)),
      /* 0xDA */ None,
      /* 0xDB */ None,
      /* 0xDC */ None,
      /* 0xDD */ Some(Instruction(CMP, ABSOLUTE_X, 3, 4)),
      /* 0xDE */ Some(Instruction(DEC, ABSOLUTE_X, 3, 7)),
      /* 0xDF */ None
    ] +
    [
      /* 0xE0 */ Some(Instruction(CPX, IMMEDIATE, 2, 2)),
      /* 0xE1 */ Some(Instruction(SBC, INDEXED_INDIRECT_X, 2, 6)),
      /* 0xE2 */ None,
      /* 0xE3 */ None,
      /* 0xE4 */ Some(Instruction(CPX, ZERO_PAGE, 2, 3)),
      /* 0xE5 */ Some(Instruction(SBC, ZERO_PAGE, 2, 3)),
      /* 0xE6 */ Some(Instruction(INC, ZERO_PAGE, 2, 5)),
      /* 0xE7 */ None,
      /* 0xE8 */ Some(Instruction(INX, IMPLIED, 1, 2)),
      /* 0xE9 */ Some(Instruction(SBC, IMMEDIATE, 2, 2)),
      /* 0xEA */ Some(Instruction(NOP, IMPLIED, 1, 2)),
      /* 0xEB */ Some(Instruction(SBC, IMMEDIATE, 2, 2)),
      /* 0xEC */ Some(Instruction(CPX, ABSOLUTE, 3, 4)),
      /* 0xED */ Some(Instruction(SBC, ABSOLUTE, 3, 4)),
      /* 0xEE */ Some(Instruction(INC, ABSOLUTE, 3, 6)),
      /* 0xEF */ None
    ] +
    [
      /* 0xF0 */ Some(Instruction(BEQ, RELATIVE, 2, 2)),
      /* 0xF1 */ Some(Instruction(SBC, INDIRECT_INDEXED_Y, 2, 5)),
      /* 0xF2 */ None,
      /* 0xF3 */ None,
      /* 0xF4 */ None,
      /* 0xF5 */ Some(Instruction(SBC, ZERO_PAGE_X, 2, 4)),
      /* 0xF6 */ Some(Instruction(INC, ZERO_PAGE_X, 2, 6)),
      /* 0xF7 */ None,
      /* 0xF8 */ Some(Instruction(SED, IMPLIED, 1, 2)),
      /* 0xF9 */ Some(Instruction(SBC, ABSOLUTE_Y, 3, 4)),
      /* 0xFA */ None,
      /* 0xFB */ None,
      /* 0xFC */ None,
      /* 0xFD */ Some(Instruction(SBC, ABSOLUTE_X, 3, 4)),
      /* 0xFE */ Some(Instruction(INC, ABSOLUTE_X, 3, 7)),
      /* 0xFF */ None
    ]

  /** The opcode handlers, one per entry of the handler table, named after the operation each
      one performs. */
  datatype Handler =
    Adc | And | Asl | Bcc | Bcs | Beq | Bit | Bmi | Bne | Bpl
    | Brk | Bvc | Clc | Cld | Cli | Clv | Cmp | Cpx | Cpy | Dec
    | Dex | Dey | Eor | Inc | Inx | Iny | Jmp | Jsr | Lda | Ldx
    | Ldy | Lsr | Nop | Ora | Pha | Php | Pla | Plp | Rol | Ror
    | Rti | Rts | Sbc | Sec | Sed | Sei | Sta | Stx | Sty | Tax
    | Tay | Tsx | Txa | Txs | Tya | AslAcc | LsrAcc | RolAcc | RorAcc | Slo

  /** The handler table in its written order: it has no entry for BVS, so it is one entry shorter
      than `OpCode`. */
  const OP_CODE_HANDLERS: seq<Handler> :=
    [Adc, And, Asl, Bcc, Bcs, Beq, Bit, Bmi, Bne, Bpl] +
    [Brk, Bvc, Clc, Cld, Cli, Clv, Cmp, Cpx, Cpy, Dec] +
    [Dex, Dey, Eor, Inc, Inx, Iny, Jmp, Jsr, Lda, Ldx] +
    [Ldy, Lsr, Nop, Ora, Pha, Php, Pla, Plp, Rol, Ror] +
    [Rti, Rts, Sbc, Sec, Sed, Sei, Sta, Stx, Sty, Tax] +
    [Tay, Tsx, Txa, Txs, Tya, AslAcc, LsrAcc, RolAcc, RorAcc, Slo]

  /** The address resolvers, one per entry of the mode table. */
  datatype Resolver =
    | Absolute | AbsoluteX | AbsoluteY | Accumulator | Immediate | Implied
    | IndexedIndirectX | IndirectIndexedY | Relative | ZeroPage | ZeroPageX | ZeroPageY

  /** The mode table in its written order: it has no entry for INDIRECT, so it is one entry
      shorter than `Mode`. */
  const MODE_HANDLERS: seq<Resolver> :=
    [Absolute, AbsoluteX, AbsoluteY, Accumulator, Immediate, Implied] +
    [IndexedIndirectX, IndirectIndexedY, Relative, ZeroPage, ZeroPageX, ZeroPageY]

  /** The handler each `OpCode` value names, by the comment above each table entry; BVS has
      none. */
  const NAMED_HANDLERS: seq<Option<Handler>> :=
    [Some(Adc), Some(And), Some(Asl), Some(Bcc), Some(Bcs), Some(Beq), Some(Bit), Some(Bmi)] +
    [Some(Bne), Some(Bpl), Some(Brk), Some(Bvc), None, Some(Clc), Some(Cld), Some(Cli)] +
    [Some(Clv), Some(Cmp), Some(Cpx), Some(Cpy), Some(Dec), Some(Dex), Some(Dey), Some(Eor)] +
    [Some(Inc), Some(Inx), Some(Iny), Some(Jmp), Some(Jsr), Some(Lda), Some(Ldx), Some(Ldy)] +
    [Some(Lsr), Some(Nop), Some(Ora), Some(Pha), Some(Php), Some(Pla), Some(Plp), Some(Rol)] +
    [Some(Ror), Some(Rti), Some(Rts), Some(Sbc), Some(Sec), Some(Sed), Some(Sei), Some(Sta)] +
    [Some(Stx), Some(Sty), Some(Tax), Some(Tay), Some(Tsx), Some(Txa), Some(Txs), Some(Tya)] +
    [Some(AslAcc), Some(LsrAcc), Some(RolAcc), Some(RorAcc), Some(Slo)]

  /** The resolver each `Mode` value names; INDIRECT has none. */
  const NAMED_RESOLVERS: seq<Option<Resolver>> :=
    [Some(Absolute), Some(AbsoluteX), Some(AbsoluteY), Some(Accumulator), Some(Immediate)] +
    [Some(Implied), Some(IndexedIndirectX), None, Some(IndirectIndexedY), Some(Relative)] +
    [Some(ZeroPage), Some(ZeroPageX), Some(ZeroPageY)]

  /** `OP_CODE_HANDLERS[op]`: undefined (None) past the end of the table. */
  function HandlerFor(op: OpCode): Option<Handler>
  {
    if op < |OP_CODE_HANDLERS| then Some(OP_CODE_HANDLERS[op]) else None
  }

  /** `MODE_HANDLERS[mode]`: undefined (None) past the end of the table. */
  function ResolverFor(mode: Mode): Option<Resolver>
  {
    if mode < |MODE_HANDLERS| then Some(MODE_HANDLERS[mode]) else None
  }

  datatype Interrupt = Nmi | Irq

  /** The PPU's classification of a dot within a scanline. */
  datatype CycleType = Zero | One | Prefetch | Visible | Sprites | CopyY | CopyX | IncrementY
                     | Idle | FlushTileData | MapperTick

  /** The PPU's classification of a scanline. */
  datatype ScanLineType = PreLine | VisibleLine | VBlankLine | IdleLine

  /** `isPageCrossed`: the high bytes differ (`>> 8` on a 32-bit integer is a floor division). */
  predicate IsPageCrossed(addressA: int, addressB: int)
  {
    addressA / 256 != addressB / 256
  }

  /** `setNegativeFlag`: bit 7 of the 32-bit two's-complement value, which is bit 7 of its
      residue modulo 256. */
  function NegativeFlag(value: int): (r: bit)
    ensures r == 1 <==> value % 256 >= 128
  {
    if Bits.Bit7(value % 256) != 0 then 1 else 0
  }

  /** `setZeroFlag`. */
  function ZeroFlag(value: int): (r: bit)
  {
    if value == 0 then 1 else 0
  }

  /** The sign bit test `(x ^ y) & 0x80` of two bytes: set exactly when their signs differ. */
  lemma XorSign(x: byte, y: byte)
    ensures Bits.Bit7(Bits.Xor8(x, y)) == 1 <==> (x < 128) != (y < 128)
  {
    Bits.ByteBit7(x);
    Bits.ByteBit7(y);
    Bits.ByteBit7(Bits.Xor8(x, y));
  }

  /** Result, carry and overflow of an addition or subtraction. */
  datatype Sum = Sum(result: byte, carry: bit, overflow: bit)

  /** ADC: a + value + carry, kept to 8 bits. The carry is the ninth bit; overflow is set when
      both operands have the same sign and the result's sign differs from it. */
  function AddWithCarry(a: byte, value: byte, c: bit): (r: Sum)
    ensures r.result + 256 * r.carry == a + value + c
    ensures r.overflow == 1 <==> (a < 128) == (value < 128) && (r.result < 128) != (a < 128)
  {
    var sum := a + value + c;
    var result := sum % 256;
    XorSign(a, value);
    XorSign(a, result);
    Sum(result,
        if sum > 0xff then 1 else 0,
        if Bits.Bit7(Bits.Xor8(a, value)) == 0 && Bits.Bit7(Bits.Xor8(a, result)) != 0 then 1 else 0)
  }

  /** SBC: a - value - (1 - carry), kept to 8 bits. The carry is set when no borrow occurred;
      overflow is set when the operands' signs differ and the result's sign differs from a's. */
  function SubtractWithCarry(a: byte, value: byte, c: bit): (r: Sum)
    ensures r.result - 256 * (1 - r.carry) == a - value - (1 - c)
    ensures r.overflow == 1 <==> (a < 128) != (value < 128) && (r.result < 128) != (a < 128)
  {
    var difference := a - value - (1 - c);
    var result := difference % 256;
    XorSign(a, value);
    XorSign(a, result);
    Sum(result,
        if difference >= 0 then 1 else 0,
        if Bits.Bit7(Bits.Xor8(a, value)) != 0 && Bits.Bit7(Bits.Xor8(a, result)) != 0 then 1 else 0)
  }

  /** The flags CMP, CPX and CPY set from a register and an operand. */
  datatype Comparison = Comparison(carry: bit, zero: bit, negative: bit)

  function Compare(register: byte, value: byte): (r: Comparison)
    ensures r.carry == 1 <==> register >= value
    ensures r.zero == 1 <==> register == value
    ensures r.negative == 1 <==> (register - value) % 256 >= 128
  {
    var difference := register - value;
    Comparison(if register >= value then 1 else 0, ZeroFlag(difference), NegativeFlag(difference))
  }

  /** Result and carry out of a shift or rotation. */
  datatype Shifted = Shifted(result: byte, carry: bit)

  /** ASL: bit 7 goes to the carry, the rest moves up. */
  function ShiftLeft(value: byte): (r: Shifted)
    ensures r.result + 256 * r.carry == 2 * value
  {
    Shifted((value * 2) % 256, (value / 128) % 2)
  }

  /** LSR: bit 0 goes to the carry, the rest moves down. */
  function ShiftRight(value: byte): (r: Shifted)
    ensures 2 * r.result + r.carry == value
  {
    Shifted(value / 2, value % 2)
  }

  /** ROL: bit 7 goes to the carry, the old carry enters bit 0. */
  function RotateLeft(value: byte, c: bit): (r: Shifted)
    ensures r.result + 256 * r.carry == 2 * value + c
  {
    Shifted((value * 2) % 256 + c, (value / 128) % 2)
  }

  /** ROR: bit 0 goes to the carry, the old carry enters bit 7. */
  function RotateRight(value: byte, c: bit): (r: Shifted)
    ensures 2 * r.result + r.carry == value + 256 * c
  {
    Shifted(value / 2 + c * 128, value % 2)
  }
}

/** Properties of the instruction tables and of the flag arithmetic. */
module CommonFacts {
  import opened Wrappers
  import Bits
  import opened Common

  /** The handler table is the named handlers with BVS's slot removed: a lookup by `OpCode`
      finds its own handler below BVS, the next operation's handler from BVS on, and nothing
      for SLO. */
  lemma HandlerTableShift(op: OpCode)
    ensures NAMED_HANDLERS[BVS] == None
    ensures op < BVS ==> HandlerFor(op) == NAMED_HANDLERS[op]
    ensures BVS <= op < SLO ==> HandlerFor(op) == NAMED_HANDLERS[op + 1]
    ensures HandlerFor(SLO) == None
  {
    if op < BVS {
      HandlerTableBelowBvs(op);
    } else if op < 31 {
      HandlerTableBvsTo30(op);
    } else if op < 45 {
      HandlerTable31To44(op);
    } else if op < SLO {
      HandlerTable45To58(op);
    }
  }

  lemma HandlerTableBelowBvs(op: OpCode)
    requires op < BVS
    ensures HandlerFor(op) == NAMED_HANDLERS[op]
  {
    match op {
      case 0 => case 1 => case 2 => case 3 => case 4 => case 5 => case 6 => case 7 => case 8 => case 9 => case 10 => case _ =>
    }
  }

  lemma HandlerTableBvsTo30(op: OpCode)
    requires BVS <= op < 31
    ensures HandlerFor(op) == NAMED_HANDLERS[op + 1]
  {
    match op {
      case 12 => case 13 => case 14 => case 15 => case 16 => case 17 => case 18 => case 19 => case 20 => case 21 => case 22 => case 23 => case 24 => case 25 => case 26 => case 27 => case 28 => case 29 => case _ =>
    }
  }

  lemma HandlerTable31To44(op: OpCode)
    requires 31 <= op < 45
    ensures HandlerFor(op) == NAMED_HANDLERS[op + 1]
  {
    match op {
      case 31 => case 32 => case 33 => case 34 => case 35 => case 36 => case 37 => case 38 => case 39 => case 40 => case 41 => case 42 => case 43 => case _ =>
    }
  }

  lemma HandlerTable45To58(op: OpCode)
    requires 45 <= op < SLO
    ensures HandlerFor(op) == NAMED_HANDLERS[op + 1]
  {
    match op {
      case 45 => case 46 => case 47 => case 48 => case 49 => case 50 => case 51 => case 52 => case 53 => case 54 => case 55 => case 56 => case 57 => case _ =>
    }
  }

  /** The mode table is the named resolvers with INDIRECT's slot removed: a lookup by `Mode`
      finds its own resolver below INDIRECT, the next mode's resolver from INDIRECT on, and
      nothing for ZERO_PAGE_Y. */
  lemma ResolverTableShift(mode: Mode)
    ensures NAMED_RESOLVERS[INDIRECT] == None
    ensures mode < INDIRECT ==> ResolverFor(mode) == NAMED_RESOLVERS[mode]
    ensures INDIRECT <= mode < ZERO_PAGE_Y ==> ResolverFor(mode) == NAMED_RESOLVERS[mode + 1]
    ensures ResolverFor(ZERO_PAGE_Y) == None
  {
    match mode {
      case 0 => case 1 => case 2 => case 3 => case 4 => case 5 => case 6 => case 7 => case 8 => case 9 => case 10 => case 11 => case _ =>
    }
  }

  /** The SLO descriptors, in slots 0x03, 0x07, 0x0f, 0x13, 0x17, 0x1b and 0x1f, all have size 0,
      and `OpCode.SLO` finds no handler. */
  lemma SloDescriptors()
    ensures forall code | code in [0x03, 0x07, 0x0f, 0x13, 0x17, 0x1b, 0x1f] ::
      INSTRUCTIONS[code].Some? && INSTRUCTIONS[code].value.opCode == SLO && INSTRUCTIONS[code].value.size == 0
    ensures HandlerFor(SLO) == None
  {
  }

  /** Slot 0xeb repeats SBC immediate (0xe9). */
  lemma SbcImmediateAlias()
    ensures INSTRUCTIONS[0xeb] == INSTRUCTIONS[0xe9] == Some(Instruction(SBC, IMMEDIATE, 2, 2))
  {
  }

  /** Subtracting the same operand with the complementary carry undoes an addition, and the
      borrow is the complement of the addition's carry. */
  lemma AddThenSubtract(a: byte, value: byte, c: bit)
    ensures var sum := AddWithCarry(a, value, c);
      var back := SubtractWithCarry(sum.result, value, 1 - c);
      back.result == a && back.carry == 1 - sum.carry
  {
  }

  /** Rotating left then right (feeding back the carry) restores value and carry, and so does
      the opposite order. */
  lemma RotateRoundTrip(value: byte, c: bit)
    ensures var l := RotateLeft(value, c); RotateRight(l.result, l.carry) == Shifted(value, c)
    ensures var r := RotateRight(value, c); RotateLeft(r.result, r.carry) == Shifted(value, c)
  {
    var l := RotateLeft(value, c);
    var back := RotateRight(l.result, l.carry);
    Digits(2, back.result, back.carry, value, c);
    var r := RotateRight(value, c);
    var forth := RotateLeft(r.result, r.carry);
    Digits(256, forth.carry, forth.result, c, value);
  }

  /** A number written as `base * high + low` with `low < base` has only one such writing. */
  lemma Digits(base: nat, high: nat, low: nat, high': nat, low': nat)
    requires low < base && low' < base && base * high + low == base * high' + low'
    ensures high == high' && low == low'
  {
    if high < high' {
      Bits.MulMono(base, high + 1, high');
    } else if high' < high {
      Bits.MulMono(base, high' + 1, high);
    }
  }

  /** An indexed address `(base + index) & 0xffff` crosses a page from `address - index` exactly
      when the low byte of the base plus the index overflows, wrap-around included. */
  lemma IndexedPageCross(base: Bits.u16, index: byte)
    ensures var address := (base + index) % 0x10000;
      IsPageCrossed(address - index, address) <==> base % 256 + index > 255
  {
  }
}

/**
 * Fetch and decode: the big-endian opcode word at the program counter, its
 * four nibbles and the composite `nnn` and `kk` fields, and the ordered
 * dispatch table that turns the fields into an instruction.
 *
 * The instruction encoding is that of Cowgod's Chip-8 Technical Reference
 * v1.0, section 3.1 (Standard Chip-8 Instructions), with the interpreter's
 * own deviation for `9xyN` (see `Decode`).
 */
module Decoder {
  import opened Bits

  /** `read_op_code`: the byte at `pc` is the high byte, the byte at `pc + 1` the low byte. */
  function OpCodeAt(mem: seq<Byte>, pc: nat): (op: Word)
    requires pc + 1 < |mem|
    ensures op / 0x100 == mem[pc] && op % 0x100 == mem[pc + 1]
  {
    (mem[pc] as int) * 0x100 + mem[pc + 1]
  }

  /** The fields `run` extracts from an opcode with masks and shifts. */
  datatype Fields = Fields(c: Nibble, x: Nibble, y: Nibble, d: Nibble, nnn: Addr, kk: Byte)

  /** The opcode whose nibbles, from high to low, are `c`, `x`, `y`, `d`. */
  function Join(c: Nibble, x: Nibble, y: Nibble, d: Nibble): Word
  {
    c * 0x1000 + x * 0x100 + y * 0x10 + d
  }

  /**
   * `opcode & 0xF000 >> 12`, `opcode & 0x0F00 >> 8`, `opcode & 0x00F0 >> 4`,
   * `opcode & 0x000F`, `opcode & 0x0FFF` and `opcode & 0x00FF`, as arithmetic.
   */
  function Split(op: Word): (f: Fields)
    ensures Join(f.c, f.x, f.y, f.d) == op
    ensures f.nnn == f.x * 0x100 + f.y * 0x10 + f.d
    ensures f.kk == f.y * 0x10 + f.d
  {
    DigitsOf(op);
    Fields(op / 0x1000, op / 0x100 % 0x10, op / 0x10 % 0x10, op % 0x10, op % 0x1000, op % 0x100)
  }

  /** A word is the sum of its hexadecimal digits, each weighted by its place. */
  lemma DigitsOf(op: Word)
    ensures op % 0x1000 == (op / 0x100 % 0x10) * 0x100 + op % 0x100
    ensures op % 0x100 == (op / 0x10 % 0x10) * 0x10 + op % 0x10
    ensures op == (op / 0x1000) * 0x1000 + op % 0x1000
  {
    var q1, q2, q3 := op / 0x10, op / 0x100, op / 0x1000;
    assert op == q1 * 0x10 + op % 0x10;
    assert q1 == q2 * 0x10 + q1 % 0x10;
    assert q2 == q3 * 0x10 + q2 % 0x10;
  }

  /** Splitting a joined word gives back its nibbles: the nibbles of a word are unique. */
  lemma SplitJoin(c: Nibble, x: Nibble, y: Nibble, d: Nibble)
    ensures Split(Join(c, x, y, d)) == Fields(c, x, y, d, x * 0x100 + y * 0x10 + d, y * 0x10 + d)
  {
    var f := Split(Join(c, x, y, d));
    assert f.c == c by {
      assert f.c * 0x1000 <= Join(c, x, y, d) < (f.c + 1) * 0x1000;
    }
    assert f.x == x by {
      assert f.x * 0x100 <= Join(c, x, y, d) - c * 0x1000 < (f.x + 1) * 0x100;
    }
    assert f.y == y by {
      assert f.y * 0x10 <= Join(c, x, y, d) - c * 0x1000 - x * 0x100 < (f.y + 1) * 0x10;
    }
  }

  /** The opcode of class `c` whose low twelve bits are the address `nnn`. */
  function AddrWord(c: Nibble, nnn: Addr): Word
  {
    c * 0x1000 + nnn
  }

  /** The opcode of class `c` with register `x` and the immediate byte `kk`. */
  function ImmWord(c: Nibble, x: Nibble, kk: Byte): Word
  {
    c * 0x1000 + x * 0x100 + kk
  }

  lemma SplitAddrWord(c: Nibble, nnn: Addr)
    ensures Split(AddrWord(c, nnn)).c == c && Split(AddrWord(c, nnn)).nnn == nnn
  {
    SplitJoin(c, nnn / 0x100, nnn / 0x10 % 0x10, nnn % 0x10);
  }

  lemma SplitImmWord(c: Nibble, x: Nibble, kk: Byte)
    ensures Split(ImmWord(c, x, kk)).c == c && Split(ImmWord(c, x, kk)).x == x
    ensures Split(ImmWord(c, x, kk)).kk == kk
  {
    SplitJoin(c, x, kk / 0x10, kk % 0x10);
  }

  /** The collaborator capabilities the dispatcher routes to but the core does not implement. */
  datatype Capability =
    | SkipIfPressed     // Ex9E
    | SkipIfNotPressed  // ExA1
    | ReadDelay         // Fx07
    | WaitKey           // Fx0A
    | SetDelay          // Fx15
    | SetSound          // Fx18
    | AddToIndex        // Fx1E
    | FontGlyph         // Fx29
    | StoreBcd          // Fx33
    | StoreRegisters    // Fx55
    | LoadRegisters     // Fx65

  /** The class nibble and the low byte `kk` that select a capability. */
  function CapabilityCode(cap: Capability): (Nibble, Byte)
  {
    match cap
    case SkipIfPressed => (0xE, 0x9E)
    case SkipIfNotPressed => (0xE, 0xA1)
    case ReadDelay => (0xF, 0x07)
    case WaitKey => (0xF, 0x0A)
    case SetDelay => (0xF, 0x15)
    case SetSound => (0xF, 0x18)
    case AddToIndex => (0xF, 0x1E)
    case FontGlyph => (0xF, 0x29)
    case StoreBcd => (0xF, 0x33)
    case StoreRegisters => (0xF, 0x55)
    case LoadRegisters => (0xF, 0x65)
  }

  /** One arm of the dispatch `match` in `run`. */
  datatype Instr =
    | Halt                              // 0000
    | Return                            // 00EE
    | Jump(nnn: Addr)                   // 1nnn
    | Call(nnn: Addr)                   // 2nnn
    | SkipEq(x: Nibble, kk: Byte)       // 3xkk
    | SkipNe(x: Nibble, kk: Byte)       // 4xkk, and 9xyN with kk = y
    | SkipEqReg(x: Nibble, y: Nibble)   // 5xy0
    | Load(x: Nibble, kk: Byte)         // 6xkk
    | AddImm(x: Nibble, kk: Byte)       // 7xkk
    | Move(x: Nibble, y: Nibble)        // 8xy0
    | Or(x: Nibble, y: Nibble)          // 8xy1
    | And(x: Nibble, y: Nibble)         // 8xy2
    | Xor(x: Nibble, y: Nibble)         // 8xy3
    | AddReg(x: Nibble, y: Nibble)      // 8xy4
    | SubReg(x: Nibble, y: Nibble)      // 8xy5
    | ShiftRight(x: Nibble)             // 8xy6
    | SubNeg(x: Nibble, y: Nibble)      // 8xy7
    | ShiftLeft(x: Nibble)              // 8xyE
    | SetIndex(nnn: Addr)               // Annn
    | JumpOffset(nnn: Addr)             // Bnnn
    | RandomAnd(x: Nibble, kk: Byte)    // Cxkk
    | Draw(x: Nibble, y: Nibble, n: Nibble)            // Dxyn, not implemented
    | External(cap: Capability, x: Nibble)             // Ex.. and Fx.., not implemented
    | Unknown                           // the `_` arm

  /**
   * The dispatch of `run`: the first arm whose pattern fits wins.  The arms
   * of different classes `c` never overlap, so the table is written class by
   * class, each class keeping the order of its arms.
   * Quirk kept as written: the `9` arm calls `skip_ne(x, y)`, the 4xkk
   * instruction with the nibble `y` as its immediate, and matches any `d`.
   */
  function Decode(op: Word): Instr
  {
    DecodeFields(Split(op))
  }

  function DecodeFields(f: Fields): Instr
  {
    match f.c
    case 0x0 =>
      if f.x == 0 && f.y == 0 && f.d == 0 then Halt
      else if f.x == 0 && f.y == 0xE && f.d == 0xE then Return
      else Unknown
    case 0x1 => Jump(f.nnn)
    case 0x2 => Call(f.nnn)
    case 0x3 => SkipEq(f.x, f.kk)
    case 0x4 => SkipNe(f.x, f.kk)
    case 0x5 => if f.d == 0x0 then SkipEqReg(f.x, f.y) else Unknown
    case 0x6 => Load(f.x, f.kk)
    case 0x7 => AddImm(f.x, f.kk)
    case 0x8 => DecodeRegisterOp(f.x, f.y, f.d)
    case 0x9 => SkipNe(f.x, f.y)
    case 0xA => SetIndex(f.nnn)
    case 0xB => JumpOffset(f.nnn)
    case 0xC => RandomAnd(f.x, f.kk)
    case 0xD => Draw(f.x, f.y, f.d)
    case 0xE => DecodeCapability(0xE, f.x, f.kk)
    case _ => DecodeCapability(0xF, f.x, f.kk)
  }

  /** The `8xy.` arms, selected by the last nibble. */
  function DecodeRegisterOp(x: Nibble, y: Nibble, d: Nibble): Instr
  {
    match d
    case 0x0 => Move(x, y)
    case 0x1 => Or(x, y)
    case 0x2 => And(x, y)
    case 0x3 => Xor(x, y)
    case 0x4 => AddReg(x, y)
    case 0x5 => SubReg(x, y)
    case 0x6 => ShiftRight(x)
    case 0x7 => SubNeg(x, y)
    case 0xE => ShiftLeft(x)
    case _ => Unknown
  }

  /** The `Ex..` and `Fx..` arms, selected by the class and the low byte. */
  function DecodeCapability(c: Nibble, x: Nibble, kk: Byte): Instr
  {
    match (c, kk)
    case (0xE, 0x9E) => External(SkipIfPressed, x)
    case (0xE, 0xA1) => External(SkipIfNotPressed, x)
    case (0xF, 0x07) => External(ReadDelay, x)
    case (0xF, 0x0A) => External(WaitKey, x)
    case (0xF, 0x15) => External(SetDelay, x)
    case (0xF, 0x18) => External(SetSound, x)
    case (0xF, 0x1E) => External(AddToIndex, x)
    case (0xF, 0x29) => External(FontGlyph, x)
    case (0xF, 0x33) => External(StoreBcd, x)
    case (0xF, 0x55) => External(StoreRegisters, x)
    case (0xF, 0x65) => External(LoadRegisters, x)
    case _ => Unknown
  }

  /**
   * The canonical encoding of an instruction, as an assembler would write it:
   * the don't-care nibbles of 8xy6 and 8xyE are written as 0.
   */
  function Encode(ins: Instr): Word
    requires !ins.Unknown?
  {
    match ins
    case Halt => Join(0, 0, 0, 0)
    case Return => Join(0, 0, 0xE, 0xE)
    case Jump(nnn) => AddrWord(0x1, nnn)
    case Call(nnn) => AddrWord(0x2, nnn)
    case SkipEq(x, kk) => ImmWord(0x3, x, kk)
    case SkipNe(x, kk) => ImmWord(0x4, x, kk)
    case SkipEqReg(x, y) => Join(0x5, x, y, 0x0)
    case Load(x, kk) => ImmWord(0x6, x, kk)
    case AddImm(x, kk) => ImmWord(0x7, x, kk)
    case Move(x, y) => Join(0x8, x, y, 0x0)
    case Or(x, y) => Join(0x8, x, y, 0x1)
    case And(x, y) => Join(0x8, x, y, 0x2)
    case Xor(x, y) => Join(0x8, x, y, 0x3)
    case AddReg(x, y) => Join(0x8, x, y, 0x4)
    case SubReg(x, y) => Join(0x8, x, y, 0x5)
    case ShiftRight(x) => Join(0x8, x, 0x0, 0x6)
    case SubNeg(x, y) => Join(0x8, x, y, 0x7)
    case ShiftLeft(x) => Join(0x8, x, 0x0, 0xE)
    case SetIndex(nnn) => AddrWord(0xA, nnn)
    case JumpOffset(nnn) => AddrWord(0xB, nnn)
    case RandomAnd(x, kk) => ImmWord(0xC, x, kk)
    case Draw(x, y, n) => Join(0xD, x, y, n)
    case External(cap, x) =>
      var (c, kk) := CapabilityCode(cap);
      ImmWord(c, x, kk)
  }

  /** Decoding undoes encoding: every instruction the dispatcher knows has an encoding that selects it. */
  lemma DecodeEncode(ins: Instr)
    requires !ins.Unknown?
    ensures Decode(Encode(ins)) == ins
  {
    if ins.Halt? || ins.Return? || ins.Jump? || ins.Call? {
      ControlRoundTrip(ins);
    } else if ins.SkipEq? || ins.SkipNe? || ins.SkipEqReg? {
      SkipRoundTrip(ins);
    } else if ins.Load? || ins.AddImm? || ins.RandomAnd? {
      ImmediateRoundTrip(ins);
    } else if ins.SetIndex? || ins.JumpOffset? {
      OperandRoundTrip(ins);
    } else if ins.Move? || ins.Or? || ins.And? || ins.Xor? {
      LogicRoundTrip(ins);
    } else if ins.AddReg? || ins.SubReg? || ins.SubNeg? {
      ArithmeticRoundTrip(ins);
    } else if ins.ShiftRight? || ins.ShiftLeft? {
      ShiftRoundTrip(ins);
    } else {
      CollaboratorRoundTrip(ins);
    }
  }

  lemma ControlRoundTrip(ins: Instr)
    requires ins.Halt? || ins.Return? || ins.Jump? || ins.Call?
    ensures Decode(Encode(ins)) == ins
  {
    match ins
    case Halt => SplitJoin(0, 0, 0, 0);
    case Return => SplitJoin(0, 0, 0xE, 0xE);
    case Jump(nnn) => SplitAddrWord(0x1, nnn);
    case Call(nnn) => SplitAddrWord(0x2, nnn);
  }

  lemma SkipRoundTrip(ins: Instr)
    requires ins.SkipEq? || ins.SkipNe? || ins.SkipEqReg?
    ensures Decode(Encode(ins)) == ins
  {
    match ins
    case SkipEq(x, kk) => SplitImmWord(0x3, x, kk);
    case SkipNe(x, kk) => SplitImmWord(0x4, x, kk);
    case SkipEqReg(x, y) => SplitJoin(0x5, x, y, 0x0);
  }

  lemma ImmediateRoundTrip(ins: Instr)
    requires ins.Load? || ins.AddImm? || ins.RandomAnd?
    ensures Decode(Encode(ins)) == ins
  {
    match ins
    case Load(x, kk) => SplitImmWord(0x6, x, kk);
    case AddImm(x, kk) => SplitImmWord(0x7, x, kk);
    case RandomAnd(x, kk) => SplitImmWord(0xC, x, kk);
  }

  lemma OperandRoundTrip(ins: Instr)
    requires ins.SetIndex? || ins.JumpOffset?
    ensures Decode(Encode(ins)) == ins
  {
    match ins
    case SetIndex(nnn) => SplitAddrWord(0xA, nnn);
    case JumpOffset(nnn) => SplitAddrWord(0xB, nnn);
  }

  lemma LogicRoundTrip(ins: Instr)
    requires ins.Move? || ins.Or? || ins.And? || ins.Xor?
    ensures Decode(Encode(ins)) == ins
  {
    match ins
    case Move(x, y) => SplitJoin(0x8, x, y, 0x0);
    case Or(x, y) => SplitJoin(0x8, x, y, 0x1);
    case And(x, y) => SplitJoin(0x8, x, y, 0x2);
    case Xor(x, y) => SplitJoin(0x8, x, y, 0x3);
  }

  lemma ArithmeticRoundTrip(ins: Instr)
    requires ins.AddReg? || ins.SubReg? || ins.SubNeg?
    ensures Decode(Encode(ins)) == ins
  {
    match ins
    case AddReg(x, y) => SplitJoin(0x8, x, y, 0x4);
    case SubReg(x, y) => SplitJoin(0x8, x, y, 0x5);
    case SubNeg(x, y) => SplitJoin(0x8, x, y, 0x7);
  }

  lemma ShiftRoundTrip(ins: Instr)
    requires ins.ShiftRight? || ins.ShiftLeft?
    ensures Decode(Encode(ins)) == ins
  {
    match ins
    case ShiftRight(x) => SplitJoin(0x8, x, 0x0, 0x6);
    case ShiftLeft(x) => SplitJoin(0x8, x, 0x0, 0xE);
  }

  lemma CollaboratorRoundTrip(ins: Instr)
    requires ins.Draw? || ins.External?
    ensures Decode(Encode(ins)) == ins
  {
    match ins
    case Draw(x, y, n) =>
      SplitJoin(0xD, x, y, n);
    case External(cap, x) =>
      var (c, kk) := CapabilityCode(cap);
      SplitImmWord(c, x, kk);
  }

  /** The `9` arm reads `y` as an immediate and ignores `d`: 9xyN decodes as 4x0y would. */
  lemma NineIsSkipNeOnNibble(x: Nibble, y: Nibble, d: Nibble)
    ensures Decode(Join(0x9, x, y, d)) == SkipNe(x, y)
    ensures Decode(Join(0x9, x, y, d)) == Decode(Join(0x4, x, 0x0, y))
  {
    SplitJoin(0x9, x, y, d);
    SplitJoin(0x4, x, 0x0, y);
  }

  /** 8xy6 and 8xyE take only `x`: the nibble `y` does not change the instruction. */
  lemma ShiftIgnoresY(x: Nibble, y: Nibble)
    ensures Decode(Join(0x8, x, y, 0x6)) == ShiftRight(x)
    ensures Decode(Join(0x8, x, y, 0xE)) == ShiftLeft(x)
  {
    SplitJoin(0x8, x, y, 0x6);
    SplitJoin(0x8, x, y, 0xE);
  }

  /** The encodings of the display, keyboard, timer, BCD, block-transfer and font group. */
  predicate IsStubEncoding(op: Word)
  {
    StubFields(Split(op))
  }

  predicate StubFields(f: Fields)
  {
    f.c == 0xD
    || (f.c == 0xE && f.kk in {0x9E, 0xA1})
    || (f.c == 0xF && f.kk in {0x07, 0x0A, 0x15, 0x18, 0x1E, 0x29, 0x33, 0x55, 0x65})
  }

  /** The encodings some arm of the dispatch accepts, listed by instruction class. */
  predicate IsKnownEncoding(op: Word)
  {
    KnownFields(Split(op))
  }

  predicate KnownFields(f: Fields)
  {
    (f.c == 0x0 && f.x == 0x0 && f.kk in {0x00, 0xEE})
    || f.c in {0x1, 0x2, 0x3, 0x4, 0x6, 0x7, 0x9, 0xA, 0xB, 0xC}
    || (f.c == 0x5 && f.d == 0x0)
    || (f.c == 0x8 && f.d in {0x0, 0x1, 0x2, 0x3, 0x4, 0x5, 0x6, 0x7, 0xE})
    || StubFields(f)
  }

  /**
   * The dispatch falls through to its last arm exactly for the encodings no
   * class accepts, and routes exactly the stub encodings to a collaborator.
   */
  lemma DecodeClassifies(op: Word)
    ensures Decode(op).Unknown? <==> !IsKnownEncoding(op)
    ensures (Decode(op).Draw? || Decode(op).External?) <==> IsStubEncoding(op)
  {
    FieldsClassify(Split(op));
  }

  lemma FieldsClassify(f: Fields)
    requires f.kk == f.y * 0x10 + f.d
    ensures DecodeFields(f).Unknown? <==> !KnownFields(f)
    ensures (DecodeFields(f).Draw? || DecodeFields(f).External?) <==> StubFields(f)
  {
    if f.c == 0x0 {
      assert f.kk == 0x00 <==> f.y == 0x0 && f.d == 0x0;
      assert f.kk == 0xEE <==> f.y == 0xE && f.d == 0xE;
    } else if f.c == 0xE || f.c == 0xF {
      CapabilityClassifies(f.c, f.x, f.kk);
    }
  }

  lemma CapabilityClassifies(c: Nibble, x: Nibble, kk: Byte)
    requires c == 0xE || c == 0xF
    ensures DecodeCapability(c, x, kk).External? <==>
      if c == 0xE then kk in {0x9E, 0xA1}
      else kk in {0x07, 0x0A, 0x15, 0x18, 0x1E, 0x29, 0x33, 0x55, 0x65}
    ensures !DecodeCapability(c, x, kk).External? ==> DecodeCapability(c, x, kk).Unknown?
  {
  }

  /** Encodings that some interpreters accept but this dispatch rejects. */
  lemma UnknownExamples()
    ensures Decode(0x00E0).Unknown?   // CLS
    ensures Decode(0x5121).Unknown?   // 5xy1
    ensures Decode(0x8128).Unknown?   // 8xy8
    ensures Decode(0x812F).Unknown?   // 8xyF
    ensures Decode(0xE19F).Unknown?   // an Ex.. other than Ex9E and ExA1
    ensures Decode(0xF175).Unknown?   // Fx75, a later extension
  {
    SplitJoin(0x0, 0x0, 0xE, 0x0);
    SplitJoin(0x5, 0x1, 0x2, 0x1);
    SplitJoin(0x8, 0x1, 0x2, 0x8);
    SplitJoin(0x8, 0x1, 0x2, 0xF);
    SplitJoin(0xE, 0x1, 0x9, 0xF);
    SplitJoin(0xF, 0x1, 0x7, 0x5);
  }
}

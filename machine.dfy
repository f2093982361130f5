/**
 * The CHIP-8 machine state as a value and the meaning of every instruction as
 * a function from state to state.  This is the specification the `Cpu` class
 * of module `Interpreter` implements in place.
 *
 * Every instruction function receives the state whose program counter the
 * run loop has already advanced by 2, because `run` adds 2 before it
 * dispatches.
 */
module Machine {
  import opened Bits
  import opened Decoder

  const REGISTER_COUNT: nat := 16
  /** Register 0xF doubles as the carry, borrow and shift-out flag. */
  const FLAG: Nibble := 0xF
  const MEMORY_SIZE: nat := 0x1000
  const STACK_DEPTH: nat := 16
  /** Where `new` puts the program counter. */
  const PROGRAM_START: nat := 0x200

  /** The ways the interpreter aborts: a panic, a failed index or a `todo!` in the source. */
  datatype Fault = StackOverflow | StackUnderflow | OutOfBoundsFetch | UnknownOpcode | NotImplemented

  datatype Outcome = Continue | Halted | Faulted(fault: Fault)

  /** The fields of `Cpu`: registers, `register_i`, memory, `prog_counter`, stack and `stack_pointer`. */
  datatype State = State(regs: seq<Byte>, index: Word, mem: seq<Byte>, pc: nat, stack: seq<Word>, sp: nat)

  /** The sizes of the arrays, and the stack pointer inside the stack (next free slot). */
  predicate Valid(s: State)
  {
    |s.regs| == REGISTER_COUNT && |s.mem| == MEMORY_SIZE && |s.stack| == STACK_DEPTH
    && s.sp <= STACK_DEPTH
  }

  /** What one iteration of the run loop ends with, and the state it leaves. */
  datatype Transition = Transition(outcome: Outcome, state: State)

  /** `new`: everything zero, the program counter at 0x200. */
  function Initial(): (s: State)
    ensures Valid(s) && s.pc == PROGRAM_START && s.sp == 0 && s.index == 0
    ensures forall i :: 0 <= i < |s.regs| ==> s.regs[i] == 0
    ensures forall a :: 0 <= a < |s.mem| ==> s.mem[a] == 0
    ensures forall k :: 0 <= k < |s.stack| ==> s.stack[k] == 0
  {
    State(seq(REGISTER_COUNT, _ => 0), 0, seq(MEMORY_SIZE, _ => 0), PROGRAM_START, seq(STACK_DEPTH, _ => 0), 0)
  }

  function SetReg(s: State, x: Nibble, v: Byte): State
    requires Valid(s)
  {
    s.(regs := s.regs[x := v])
  }

  /** The three skip instructions add another 2 to the program counter when their condition holds. */
  function SkipIf(s: State, cond: bool): State
  {
    if cond then s.(pc := s.pc + 2) else s
  }

  /** `jump`: 1nnn. */
  function JumpTo(s: State, nnn: Addr): (r: State)
    requires Valid(s)
    ensures Valid(r)
  {
    s.(pc := nnn)
  }

  /**
   * `call`: 2nnn pushes the (already advanced) program counter, truncated to
   * `u16`, and jumps.  The guard in the source tests `sp > 16`, which never
   * holds; a call with all 16 slots in use panics on the write `stack[16]`
   * instead.  Both are the StackOverflow fault here.
   */
  function CallSubroutine(s: State, nnn: Addr): (t: Transition)
    requires Valid(s)
    ensures Valid(t.state)
  {
    if s.sp >= |s.stack| then Transition(Faulted(StackOverflow), s)
    else Transition(Continue, s.(stack := s.stack[s.sp := s.pc % 0x1_0000], sp := s.sp + 1, pc := nnn))
  }

  /** `rtrn`: 00EE pops the return address into the program counter. */
  function ReturnFromSubroutine(s: State): (t: Transition)
    requires Valid(s)
    ensures Valid(t.state)
  {
    if s.sp == 0 then Transition(Faulted(StackUnderflow), s)
    else Transition(Continue, s.(sp := s.sp - 1, pc := s.stack[s.sp - 1]))
  }

  /** `skip_e`: 3xkk. */
  function SkipIfEqual(s: State, x: Nibble, kk: Byte): (r: State)
    requires Valid(s)
    ensures Valid(r)
  {
    SkipIf(s, s.regs[x] == kk)
  }

  /** `skip_ne`: 4xkk, and 9xyN with the nibble `y` as `kk`. */
  function SkipIfNotEqual(s: State, x: Nibble, kk: Byte): (r: State)
    requires Valid(s)
    ensures Valid(r)
  {
    SkipIf(s, s.regs[x] != kk)
  }

  /** `skip_e_xy`: 5xy0. */
  function SkipIfRegistersEqual(s: State, x: Nibble, y: Nibble): (r: State)
    requires Valid(s)
    ensures Valid(r)
  {
    SkipIf(s, s.regs[x] == s.regs[y])
  }

  /** `sne_xy`: the register-to-register 9xy0 of Cowgod's reference, which no arm of the dispatch calls. */
  function SkipIfRegistersDiffer(s: State, x: Nibble, y: Nibble): (r: State)
    requires Valid(s)
    ensures Valid(r)
  {
    SkipIf(s, s.regs[x] != s.regs[y])
  }

  /** `ld_xkk`: 6xkk. */
  function LoadImmediate(s: State, x: Nibble, kk: Byte): (r: State)
    requires Valid(s)
    ensures Valid(r)
  {
    SetReg(s, x, kk)
  }

  /** `add_xkk`: 7xkk, `u8` addition that wraps (a release build) and leaves the flag alone. */
  function AddImmediate(s: State, x: Nibble, kk: Byte): (r: State)
    requires Valid(s)
    ensures Valid(r)
  {
    SetReg(s, x, (s.regs[x] + kk) % 0x100)
  }

  /** `set_xy`: 8xy0. */
  function CopyRegister(s: State, x: Nibble, y: Nibble): (r: State)
    requires Valid(s)
    ensures Valid(r)
  {
    SetReg(s, x, s.regs[y])
  }

  /** `or_xy`, `and_xy`, `xor_xy`: 8xy1, 8xy2, 8xy3. */
  function CombineRegisters(s: State, op: BitOp, x: Nibble, y: Nibble): (r: State)
    requires Valid(s)
    ensures Valid(r)
  {
    SetReg(s, x, ByteOp(op, s.regs[x], s.regs[y]))
  }

  /**
   * `add_xy`: 8xy4 writes the wrapped sum, then the carry (`overflowing_add`)
   * into the flag register, so for x = 0xF the carry is what remains.
   */
  function AddRegisters(s: State, x: Nibble, y: Nibble): (r: State)
    requires Valid(s)
    ensures Valid(r)
  {
    var sum := s.regs[x] as int + s.regs[y];
    s.(regs := s.regs[x := sum % 0x100][FLAG := if sum > 0xFF then 1 else 0])
  }

  /**
   * `sub_xy`: 8xy5 writes the flag (1 iff vx > vy) first, then the wrapped
   * difference, so for x = 0xF the difference is what remains.
   */
  function SubtractRegisters(s: State, x: Nibble, y: Nibble): (r: State)
    requires Valid(s)
    ensures Valid(r)
  {
    var vx: int, vy: int := s.regs[x], s.regs[y];
    s.(regs := s.regs[FLAG := if vx > vy then 1 else 0][x := (vx - vy) % 0x100])
  }

  /** `sub_yx`: 8xy7, the mirror of 8xy5 with vy - vx. */
  function SubtractRegistersReversed(s: State, x: Nibble, y: Nibble): (r: State)
    requires Valid(s)
    ensures Valid(r)
  {
    var vx: int, vy: int := s.regs[x], s.regs[y];
    s.(regs := s.regs[FLAG := if vy > vx then 1 else 0][x := (vy - vx) % 0x100])
  }

  /** `shr`: 8xy6, flag := `vx & 1`, then vx := `vx >> 1`. */
  function ShiftRightRegister(s: State, x: Nibble): (r: State)
    requires Valid(s)
    ensures Valid(r)
  {
    var vx: int := s.regs[x];
    s.(regs := s.regs[FLAG := vx % 2][x := vx / 2])
  }

  /** `shl`: 8xyE, flag := `(vx >> 7) & 1`, then vx := `vx << 1` on `u8`. */
  function ShiftLeftRegister(s: State, x: Nibble): (r: State)
    requires Valid(s)
    ensures Valid(r)
  {
    var vx: int := s.regs[x];
    s.(regs := s.regs[FLAG := vx / 0x80 % 2][x := vx * 2 % 0x100])
  }

  /** `set_i_nnn`: Annn. */
  function SetIndexRegister(s: State, nnn: Addr): (r: State)
    requires Valid(s)
    ensures Valid(r)
  {
    s.(index := nnn)
  }

  /** `add_reg0_nnn`: Bnnn, the `u16` sum of V0 and nnn, which cannot exceed 0x10FE. */
  function JumpWithOffset(s: State, nnn: Addr): (r: State)
    requires Valid(s)
    ensures Valid(r)
  {
    s.(pc := s.regs[0] + nnn)
  }

  /** `rand_byte_and_xkk`: Cxkk, with the random byte `r` drawn from 0..255 (255 excluded) as a parameter. */
  function RandomAndImmediate(s: State, x: Nibble, kk: Byte, r: RandByte): (t: State)
    requires Valid(s)
    ensures Valid(t)
  {
    SetReg(s, x, ByteOp(AndOp, r, kk))
  }

  /** The body of one arm of the dispatch `match`, on the state after the program counter advanced. */
  function Execute(s: State, ins: Instr, r: RandByte): (t: Transition)
    requires Valid(s)
    ensures Valid(t.state)
  {
    match ins
    case Halt => Transition(Halted, s)
    case Return => ReturnFromSubroutine(s)
    case Jump(nnn) => Transition(Continue, JumpTo(s, nnn))
    case Call(nnn) => CallSubroutine(s, nnn)
    case SkipEq(x, kk) => Transition(Continue, SkipIfEqual(s, x, kk))
    case SkipNe(x, kk) => Transition(Continue, SkipIfNotEqual(s, x, kk))
    case SkipEqReg(x, y) => Transition(Continue, SkipIfRegistersEqual(s, x, y))
    case Load(x, kk) => Transition(Continue, LoadImmediate(s, x, kk))
    case AddImm(x, kk) => Transition(Continue, AddImmediate(s, x, kk))
    case Move(x, y) => Transition(Continue, CopyRegister(s, x, y))
    case Or(x, y) => Transition(Continue, CombineRegisters(s, OrOp, x, y))
    case And(x, y) => Transition(Continue, CombineRegisters(s, AndOp, x, y))
    case Xor(x, y) => Transition(Continue, CombineRegisters(s, XorOp, x, y))
    case AddReg(x, y) => Transition(Continue, AddRegisters(s, x, y))
    case SubReg(x, y) => Transition(Continue, SubtractRegisters(s, x, y))
    case ShiftRight(x) => Transition(Continue, ShiftRightRegister(s, x))
    case SubNeg(x, y) => Transition(Continue, SubtractRegistersReversed(s, x, y))
    case ShiftLeft(x) => Transition(Continue, ShiftLeftRegister(s, x))
    case SetIndex(nnn) => Transition(Continue, SetIndexRegister(s, nnn))
    case JumpOffset(nnn) => Transition(Continue, JumpWithOffset(s, nnn))
    case RandomAnd(x, kk) => Transition(Continue, RandomAndImmediate(s, x, kk, r))
    case Draw(_, _, _) => Transition(Faulted(NotImplemented), s)
    case External(_, _) => Transition(Faulted(NotImplemented), s)
    case Unknown => Transition(Faulted(UnknownOpcode), s)
  }

  /** The fetch at `pc` succeeds and decodes to `ins`. */
  predicate Fetches(s: State, ins: Instr)
  {
    s.pc + 1 < |s.mem| && Decode(OpCodeAt(s.mem, s.pc)) == ins
  }

  /**
   * One iteration of `run`: fetch (the indexing of `memory[p]` and
   * `memory[p + 1]` panics past the end), advance the program counter by 2,
   * dispatch.
   */
  function Step(s: State, r: RandByte): (t: Transition)
    requires Valid(s)
    ensures Valid(t.state)
  {
    if s.pc + 1 >= |s.mem| then Transition(Faulted(OutOfBoundsFetch), s)
    else Execute(s.(pc := s.pc + 2), Decode(OpCodeAt(s.mem, s.pc)), r)
  }

  /**
   * `run`, given one random draw per iteration it may execute: it stops at
   * the first Halted or Faulted outcome, or with Continue once the draws
   * are used up.
   */
  function Run(s: State, draws: seq<RandByte>): (t: Transition)
    requires Valid(s)
    ensures Valid(t.state)
    decreases |draws|
  {
    if draws == [] then Transition(Continue, s)
    else
      var t := Step(s, draws[0]);
      if t.outcome != Continue then t else Run(t.state, draws[1..])
  }
}

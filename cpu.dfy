/**
 * The interpreter as the source has it: a `Cpu` object whose methods update
 * its registers, stack, stack pointer, program counter and index register in
 * place.  Every method is proved to perform the transition of the
 * corresponding function of module `Machine` on the object's abstract state
 * (`Snapshot`), so the lemmas of module `Properties` carry over to it.
 */
module Interpreter {
  import opened Bits
  import Decoder
  import Machine

  class Cpu {
    var registers: array<Byte>
    var registerI: Word
    var memory: array<Byte>
    var progCounter: nat
    var stack: array<Word>
    var stackPointer: nat

    /** The fixed array sizes of the struct, and the stack pointer within the stack. */
    ghost predicate Valid()
      reads this
    {
      registers.Length == Machine.REGISTER_COUNT && memory.Length == Machine.MEMORY_SIZE
      && stack.Length == Machine.STACK_DEPTH && stackPointer <= Machine.STACK_DEPTH
      && registers != memory
    }

    /** The object's fields as a value of the specification. */
    ghost function Snapshot(): (s: Machine.State)
      reads this, registers, memory, stack
      requires Valid()
      ensures Machine.Valid(s)
    {
      Machine.State(registers[..], registerI, memory[..], progCounter, stack[..], stackPointer)
    }

    /** `new`. */
    constructor ()
      ensures Valid() && Snapshot() == Machine.Initial()
      ensures fresh(registers) && fresh(memory) && fresh(stack)
    {
      registers := new Byte[Machine.REGISTER_COUNT](_ => 0);
      registerI := 0;
      memory := new Byte[Machine.MEMORY_SIZE](_ => 0);
      progCounter := Machine.PROGRAM_START;
      stack := new Word[Machine.STACK_DEPTH](_ => 0);
      stackPointer := 0;
      new;
      assert registers[..] == Machine.Initial().regs;
      assert memory[..] == Machine.Initial().mem;
      assert stack[..] == Machine.Initial().stack;
    }

    /** `read_op_code`: the big-endian word at the program counter. */
    function ReadOpCode(): (op: Word)
      reads this, memory
      requires Valid() && progCounter + 1 < memory.Length
      ensures op == Decoder.OpCodeAt(memory[..], progCounter)
    {
      memory[progCounter] as int * 0x100 + memory[progCounter + 1]
    }

    /** `jump`. */
    method JumpTo(nnn: Addr)
      requires Valid()
      modifies this`progCounter
      ensures Valid() && Snapshot() == Machine.JumpTo(old(Snapshot()), nnn)
    {
      progCounter := nnn;
    }

    /** `call`: the guard `sp > 16` of the source never holds; the write at index 16 is what fails. */
    method CallSubroutine(nnn: Addr) returns (o: Machine.Outcome)
      requires Valid()
      modifies this`progCounter, this`stackPointer, stack
      ensures Valid()
      ensures Machine.Transition(o, Snapshot()) == Machine.CallSubroutine(old(Snapshot()), nnn)
    {
      var sp := stackPointer;
      if sp >= stack.Length {
        return Machine.Faulted(Machine.StackOverflow);
      }
      stack[sp] := progCounter % 0x1_0000;
      stackPointer := stackPointer + 1;
      progCounter := nnn;
      o := Machine.Continue;
    }

    /** `rtrn`. */
    method ReturnFromSubroutine() returns (o: Machine.Outcome)
      requires Valid()
      modifies this`progCounter, this`stackPointer
      ensures Valid()
      ensures Machine.Transition(o, Snapshot()) == Machine.ReturnFromSubroutine(old(Snapshot()))
    {
      if stackPointer == 0 {
        return Machine.Faulted(Machine.StackUnderflow);
      }
      stackPointer := stackPointer - 1;
      progCounter := stack[stackPointer];
      o := Machine.Continue;
    }

    /** `skip_e`. */
    method SkipIfEqual(x: Nibble, kk: Byte)
      requires Valid()
      modifies this`progCounter
      ensures Valid() && Snapshot() == Machine.SkipIfEqual(old(Snapshot()), x, kk)
    {
      if registers[x] == kk {
        progCounter := progCounter + 2;
      }
    }

    /** `skip_ne`, also what the `9` arm calls, with the nibble `y` as `kk`. */
    method SkipIfNotEqual(x: Nibble, kk: Byte)
      requires Valid()
      modifies this`progCounter
      ensures Valid() && Snapshot() == Machine.SkipIfNotEqual(old(Snapshot()), x, kk)
    {
      if registers[x] != kk {
        progCounter := progCounter + 2;
      }
    }

    /** `skip_e_xy`. */
    method SkipIfRegistersEqual(x: Nibble, y: Nibble)
      requires Valid()
      modifies this`progCounter
      ensures Valid() && Snapshot() == Machine.SkipIfRegistersEqual(old(Snapshot()), x, y)
    {
      if registers[x] == registers[y] {
        progCounter := progCounter + 2;
      }
    }

    /** `sne_xy`: present in the source, called by no arm of the dispatch. */
    method SkipIfRegistersDiffer(x: Nibble, y: Nibble)
      requires Valid()
      modifies this`progCounter
      ensures Valid() && Snapshot() == Machine.SkipIfRegistersDiffer(old(Snapshot()), x, y)
    {
      if registers[x] != registers[y] {
        progCounter := progCounter + 2;
      }
    }

    /** `ld_xkk`. */
    method LoadImmediate(x: Nibble, kk: Byte)
      requires Valid()
      modifies registers
      ensures Valid() && Snapshot() == Machine.LoadImmediate(old(Snapshot()), x, kk)
    {
      registers[x] := kk;
    }

    /** `add_xkk`, wrapping as a release build does. */
    method AddImmediate(x: Nibble, kk: Byte)
      requires Valid()
      modifies registers
      ensures Valid() && Snapshot() == Machine.AddImmediate(old(Snapshot()), x, kk)
    {
      registers[x] := (registers[x] as int + kk) % 0x100;
    }

    /** `set_xy`. */
    method CopyRegister(x: Nibble, y: Nibble)
      requires Valid()
      modifies registers
      ensures Valid() && Snapshot() == Machine.CopyRegister(old(Snapshot()), x, y)
    {
      registers[x] := registers[y];
    }

    /** `or_xy`. */
    method OrRegisters(x: Nibble, y: Nibble)
      requires Valid()
      modifies registers
      ensures Valid() && Snapshot() == Machine.CombineRegisters(old(Snapshot()), OrOp, x, y)
    {
      registers[x] := ByteOp(OrOp, registers[x], registers[y]);
    }

    /** `and_xy`. */
    method AndRegisters(x: Nibble, y: Nibble)
      requires Valid()
      modifies registers
      ensures Valid() && Snapshot() == Machine.CombineRegisters(old(Snapshot()), AndOp, x, y)
    {
      registers[x] := ByteOp(AndOp, registers[x], registers[y]);
    }

    /** `xor_xy`. */
    method XorRegisters(x: Nibble, y: Nibble)
      requires Valid()
      modifies registers
      ensures Valid() && Snapshot() == Machine.CombineRegisters(old(Snapshot()), XorOp, x, y)
    {
      registers[x] := ByteOp(XorOp, registers[x], registers[y]);
    }

    /** `add_xy`: the sum first, then the carry. */
    method AddRegisters(x: Nibble, y: Nibble)
      requires Valid()
      modifies registers
      ensures Valid() && Snapshot() == Machine.AddRegisters(old(Snapshot()), x, y)
    {
      var arg1, arg2 := registers[x], registers[y];
      var sum := arg1 as int + arg2;
      registers[x] := sum % 0x100;
      registers[Machine.FLAG] := if sum > 0xFF then 1 else 0;
    }

    /** `sub_xy`: the borrow flag first, then the difference. */
    method SubtractRegisters(x: Nibble, y: Nibble)
      requires Valid()
      modifies registers
      ensures Valid() && Snapshot() == Machine.SubtractRegisters(old(Snapshot()), x, y)
    {
      var vx, vy := registers[x], registers[y];
      registers[Machine.FLAG] := if vx > vy then 1 else 0;
      registers[x] := (vx as int - vy) % 0x100;
    }

    /** `sub_yx`. */
    method SubtractRegistersReversed(x: Nibble, y: Nibble)
      requires Valid()
      modifies registers
      ensures Valid() && Snapshot() == Machine.SubtractRegistersReversed(old(Snapshot()), x, y)
    {
      var vx, vy := registers[x], registers[y];
      registers[Machine.FLAG] := if vy > vx then 1 else 0;
      registers[x] := (vy as int - vx) % 0x100;
    }

    /** `shr`. */
    method ShiftRightRegister(x: Nibble)
      requires Valid()
      modifies registers
      ensures Valid() && Snapshot() == Machine.ShiftRightRegister(old(Snapshot()), x)
    {
      var vx := registers[x];
      registers[Machine.FLAG] := vx % 2;
      registers[x] := vx / 2;
    }

    /** `shl`. */
    method ShiftLeftRegister(x: Nibble)
      requires Valid()
      modifies registers
      ensures Valid() && Snapshot() == Machine.ShiftLeftRegister(old(Snapshot()), x)
    {
      var vx := registers[x];
      registers[Machine.FLAG] := vx / 0x80 % 2;
      registers[x] := vx as int * 2 % 0x100;
    }

    /** `set_i_nnn`. */
    method SetIndexRegister(nnn: Addr)
      requires Valid()
      modifies this`registerI
      ensures Valid() && Snapshot() == Machine.SetIndexRegister(old(Snapshot()), nnn)
    {
      registerI := nnn;
    }

    /** `add_reg0_nnn`. */
    method JumpWithOffset(nnn: Addr)
      requires Valid()
      modifies this`progCounter
      ensures Valid() && Snapshot() == Machine.JumpWithOffset(old(Snapshot()), nnn)
    {
      progCounter := registers[0] + nnn;
    }

    /** `rand_byte_and_xkk`, with the draw `r` passed in. */
    method RandomAndImmediate(x: Nibble, kk: Byte, r: RandByte)
      requires Valid()
      modifies registers
      ensures Valid() && Snapshot() == Machine.RandomAndImmediate(old(Snapshot()), x, kk, r)
    {
      registers[x] := ByteOp(AndOp, r, kk);
    }

    /**
     * The dispatch `match` of `run`, on the already advanced program counter.
     * Its arms are grouped as in `Decoder`: control flow, immediates and
     * register-to-register logic, arithmetic with a flag, and the rest.
     */
    method Execute(ins: Decoder.Instr, r: RandByte) returns (o: Machine.Outcome)
      requires Valid()
      modifies this`progCounter, this`registerI, this`stackPointer, registers, stack
      ensures Valid()
      ensures Machine.Transition(o, Snapshot()) == Machine.Execute(old(Snapshot()), ins, r)
    {
      if IsFlow(ins) {
        o := ExecuteFlow(ins);
      } else if IsAssignment(ins) {
        ExecuteAssignment(ins, r);
        o := Machine.Continue;
      } else if IsArithmetic(ins) {
        ExecuteArithmetic(ins);
        o := Machine.Continue;
      } else {
        match ins
        case SetIndex(nnn) =>
          SetIndexRegister(nnn);
          o := Machine.Continue;
        case Draw(_, _, _) => o := Machine.Faulted(Machine.NotImplemented);
        case External(_, _) => o := Machine.Faulted(Machine.NotImplemented);
        case Unknown => o := Machine.Faulted(Machine.UnknownOpcode);
      }
    }

    static predicate IsFlow(ins: Decoder.Instr)
    {
      ins.Halt? || ins.Return? || ins.Jump? || ins.Call? || ins.SkipEq? || ins.SkipNe?
      || ins.SkipEqReg? || ins.JumpOffset?
    }

    static predicate IsAssignment(ins: Decoder.Instr)
    {
      ins.Load? || ins.AddImm? || ins.Move? || ins.Or? || ins.And? || ins.Xor? || ins.RandomAnd?
    }

    static predicate IsArithmetic(ins: Decoder.Instr)
    {
      ins.AddReg? || ins.SubReg? || ins.ShiftRight? || ins.SubNeg? || ins.ShiftLeft?
    }

    /** The arms that move the program counter or the stack pointer, and the halt. */
    method ExecuteFlow(ins: Decoder.Instr) returns (o: Machine.Outcome)
      requires Valid() && IsFlow(ins)
      modifies this`progCounter, this`stackPointer, stack
      ensures Valid()
      ensures Machine.Transition(o, Snapshot()) == Machine.Execute(old(Snapshot()), ins, 0)
    {
      o := Machine.Continue;
      match ins
      case Halt => o := Machine.Halted;
      case Return => o := ReturnFromSubroutine();
      case Jump(nnn) => JumpTo(nnn);
      case Call(nnn) => o := CallSubroutine(nnn);
      case SkipEq(x, kk) => SkipIfEqual(x, kk);
      case SkipNe(x, kk) => SkipIfNotEqual(x, kk);
      case SkipEqReg(x, y) => SkipIfRegistersEqual(x, y);
      case JumpOffset(nnn) => JumpWithOffset(nnn);
    }

    /** The arms that write one register and leave the flag alone. */
    method ExecuteAssignment(ins: Decoder.Instr, r: RandByte)
      requires Valid() && IsAssignment(ins)
      modifies registers
      ensures Valid()
      ensures Machine.Transition(Machine.Continue, Snapshot()) == Machine.Execute(old(Snapshot()), ins, r)
    {
      match ins
      case Load(x, kk) => LoadImmediate(x, kk);
      case AddImm(x, kk) => AddImmediate(x, kk);
      case Move(x, y) => CopyRegister(x, y);
      case Or(x, y) => OrRegisters(x, y);
      case And(x, y) => AndRegisters(x, y);
      case Xor(x, y) => XorRegisters(x, y);
      case RandomAnd(x, kk) => RandomAndImmediate(x, kk, r);
    }

    /** The arms that write a register and the flag. */
    method ExecuteArithmetic(ins: Decoder.Instr)
      requires Valid() && IsArithmetic(ins)
      modifies registers
      ensures Valid()
      ensures Machine.Transition(Machine.Continue, Snapshot()) == Machine.Execute(old(Snapshot()), ins, 0)
    {
      match ins
      case AddReg(x, y) => AddRegisters(x, y);
      case SubReg(x, y) => SubtractRegisters(x, y);
      case ShiftRight(x) => ShiftRightRegister(x);
      case SubNeg(x, y) => SubtractRegistersReversed(x, y);
      case ShiftLeft(x) => ShiftLeftRegister(x);
    }

    /** One iteration of the `loop` in `run`: fetch, advance the program counter by 2, dispatch. */
    method Step(r: RandByte) returns (o: Machine.Outcome)
      requires Valid()
      modifies this`progCounter, this`registerI, this`stackPointer, registers, stack
      ensures Valid()
      ensures Machine.Transition(o, Snapshot()) == Machine.Step(old(Snapshot()), r)
    {
      if progCounter + 1 >= memory.Length {
        return Machine.Faulted(Machine.OutOfBoundsFetch);
      }
      var opcode := ReadOpCode();
      progCounter := progCounter + 2;
      o := Execute(Decoder.Decode(opcode), r);
    }

    /**
     * `run`: iterate until an iteration halts or faults.  The source loops
     * without bound; here the loop is given one random draw per iteration
     * and ends with Continue when they run out.
     */
    method Run(draws: seq<RandByte>) returns (o: Machine.Outcome)
      requires Valid()
      modifies this`progCounter, this`registerI, this`stackPointer, registers, stack
      ensures Valid()
      ensures Machine.Transition(o, Snapshot()) == Machine.Run(old(Snapshot()), draws)
    {
      o := Machine.Continue;
      var k := 0;
      while k < |draws| && o == Machine.Continue
        invariant Valid() && 0 <= k <= |draws|
        invariant o == Machine.Continue ==>
          Machine.Run(old(Snapshot()), draws) == Machine.Run(Snapshot(), draws[k..])
        invariant o != Machine.Continue ==>
          Machine.Run(old(Snapshot()), draws) == Machine.Transition(o, Snapshot())
      {
        assert draws[k..][0] == draws[k] && draws[k..][1..] == draws[k + 1..];
        o := Step(draws[k]);
        k := k + 1;
      }
    }
  }
}

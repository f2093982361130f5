/**
 * Whole programs run to the end: the demonstration program of `main`, the
 * addition with and without carry, and a chain of seventeen calls.
 */
module Scenarios {
  import opened Bits
  import opened Decoder
  import opened Machine
  import opened Properties
  import Interpreter

  /**
   * The `Cpu` `main` prepares: V0 = 5, V1 = 10, the program counter at 0
   * rather than 0x200, an empty stack; CALL 0x100 at address 0 and the zero
   * word after it; at 0x100 the subroutine SHL V0, ADD V0 V1, RET.
   */
  predicate DemoLoaded(s: State)
  {
    Valid(s) && s.pc == 0 && s.sp == 0 && s.regs[0] == 5 && s.regs[1] == 10
    && s.mem[0x000] == 0x21 && s.mem[0x001] == 0x00 && s.mem[0x002] == 0x00 && s.mem[0x003] == 0x00
    && s.mem[0x100] == 0x80 && s.mem[0x101] == 0x1E && s.mem[0x102] == 0x80 && s.mem[0x103] == 0x14
    && s.mem[0x104] == 0x00 && s.mem[0x105] == 0xEE
  }

  /**
   * The demonstration halts after five iterations with V0 = (5 * 2) + 10 = 20,
   * no carry, an empty stack and the program counter past the halting word.
   */
  lemma DemoHaltsWithTwenty(s: State, draws: seq<RandByte>)
    requires DemoLoaded(s) && |draws| >= 5
    ensures var t := Run(s, draws);
      t.outcome == Halted && t.state.regs[0] == 20 && t.state.regs[FLAG] == 0
      && t.state.sp == 0 && t.state.pc == 4
  {
    DemoRun(s, draws);
  }

  /**
   * The five iterations of the demonstration: CALL, SHL, ADD, RET and the
   * halting word.  Only V0, VF, the first stack slot and the program counter
   * differ from where they started.
   */
  lemma DemoRun(s: State, draws: seq<RandByte>)
    requires DemoLoaded(s) && |draws| >= 5
    ensures Run(s, draws) == Transition(Halted, s.(stack := s.stack[0 := 2], pc := 4, regs := s.regs[0 := 20][FLAG := 0]))
  {
    var d1 := draws[1..];
    var d2 := d1[1..];
    var d3 := d2[1..];
    var d4 := d3[1..];
    var s1 := s.(stack := s.stack[0 := 2], sp := 1, pc := 0x100);
    var s2 := s1.(pc := 0x102, regs := s1.regs[FLAG := 0][0 := 10]);
    var s3 := s2.(pc := 0x104, regs := s2.regs[0 := 20][FLAG := 0]);
    var s4 := s3.(sp := 0, pc := 2);
    DemoCall(s, draws[0]);
    DemoShift(s1, d1[0]);
    DemoAdd(s2, d2[0]);
    DemoReturn(s3, d3[0]);
    HaltAtZeroWord(s4, d4);
    assert Run(s3, d3) == Run(s4, d4);
    assert Run(s2, d2) == Run(s3, d3);
    assert Run(s1, d1) == Run(s2, d2);
    assert s2.regs[0 := 20][FLAG := 0] == s.regs[0 := 20][FLAG := 0];
  }

  /** CALL 0x100 at 0 pushes the return address 2. */
  lemma DemoCall(s: State, r: RandByte)
    requires DemoLoaded(s)
    ensures Step(s, r) == Transition(Continue, s.(stack := s.stack[0 := 2], sp := 1, pc := 0x100))
  {
    assert OpCodeAt(s.mem, s.pc) == Encode(Call(0x100));
    DecodeEncode(Call(0x100));
    CallPushesReturnAddress(s, r, 0x100);
  }

  /** SHL V0 at 0x100 doubles 5, shifting out a 0. */
  lemma DemoShift(s: State, r: RandByte)
    requires Valid(s) && s.pc == 0x100 && s.mem[0x100] == 0x80 && s.mem[0x101] == 0x1E && s.regs[0] == 5
    ensures Step(s, r) == Transition(Continue, s.(pc := 0x102, regs := s.regs[FLAG := 0][0 := 10]))
  {
    assert OpCodeAt(s.mem, s.pc) == Join(0x8, 0x0, 0x1, 0xE);
    SplitJoin(0x8, 0x0, 0x1, 0xE);
  }

  /** ADD V0 V1 at 0x102 adds 10 to 10 without carry. */
  lemma DemoAdd(s: State, r: RandByte)
    requires Valid(s) && s.pc == 0x102 && s.mem[0x102] == 0x80 && s.mem[0x103] == 0x14
    requires s.regs[0] == 10 && s.regs[1] == 10
    ensures Step(s, r) == Transition(Continue, s.(pc := 0x104, regs := s.regs[0 := 20][FLAG := 0]))
  {
    assert OpCodeAt(s.mem, s.pc) == Encode(AddReg(0, 1));
    DecodeEncode(AddReg(0, 1));
  }

  /** RET at 0x104 pops the return address 2. */
  lemma DemoReturn(s: State, r: RandByte)
    requires Valid(s) && s.pc == 0x104 && s.sp == 1 && s.stack[0] == 2
    requires s.mem[0x104] == 0x00 && s.mem[0x105] == 0xEE
    ensures Step(s, r) == Transition(Continue, s.(sp := 0, pc := 2))
  {
    assert OpCodeAt(s.mem, s.pc) == Encode(Return);
    DecodeEncode(Return);
    ReturnPopsReturnAddress(s, r);
  }

  /** A run that reaches two zero bytes halts there, with the program counter past them. */
  lemma HaltAtZeroWord(s: State, draws: seq<RandByte>)
    requires Valid(s) && s.pc + 1 < MEMORY_SIZE && s.mem[s.pc] == 0 && s.mem[s.pc + 1] == 0
    requires |draws| >= 1
    ensures Run(s, draws) == Transition(Halted, s.(pc := s.pc + 2))
  {
    HaltOnlyAdvancesPc(s, draws[0]);
  }

  /** ADD V0 V1 at the program counter, followed by the halting word. */
  predicate AddLoaded(s: State)
  {
    Valid(s) && s.pc + 3 < MEMORY_SIZE
    && s.mem[s.pc] == 0x80 && s.mem[s.pc + 1] == 0x14 && s.mem[s.pc + 2] == 0 && s.mem[s.pc + 3] == 0
  }

  /**
   * 8014 leaves the wrapped sum of V0 and V1 in V0 and the carry in VF, and
   * the following zero word halts.
   */
  lemma AddThenHalt(s: State, draws: seq<RandByte>)
    requires AddLoaded(s) && |draws| >= 2
    ensures var t := Run(s, draws);
      t.outcome == Halted && t.state.pc == s.pc + 4 && t.state.regs[1] == s.regs[1]
      && t.state.regs[0] == (s.regs[0] as int + s.regs[1]) % 0x100
      && t.state.regs[FLAG] == (if s.regs[0] as int + s.regs[1] > 0xFF then 1 else 0)
  {
    AddRun(s, draws);
  }

  lemma AddRun(s: State, draws: seq<RandByte>)
    requires AddLoaded(s) && |draws| >= 2
    ensures var sum := s.regs[0] as int + s.regs[1];
      Run(s, draws) == Transition(Halted,
        s.(pc := s.pc + 4, regs := s.regs[0 := sum % 0x100][FLAG := if sum > 0xFF then 1 else 0]))
  {
    var sum := s.regs[0] as int + s.regs[1];
    var s1 := s.(pc := s.pc + 2, regs := s.regs[0 := sum % 0x100][FLAG := if sum > 0xFF then 1 else 0]);
    AddStep(s, draws[0]);
    HaltAtZeroWord(s1, draws[1..]);
  }

  /** 8014 adds V1 to V0 and puts the carry in VF. */
  lemma AddStep(s: State, r: RandByte)
    requires AddLoaded(s)
    ensures var sum := s.regs[0] as int + s.regs[1];
      Step(s, r) == Transition(Continue,
        s.(pc := s.pc + 2, regs := s.regs[0 := sum % 0x100][FLAG := if sum > 0xFF then 1 else 0]))
  {
    assert OpCodeAt(s.mem, s.pc) == Encode(AddReg(0, 1));
    DecodeEncode(AddReg(0, 1));
  }

  /** Memory holding seventeen CALLs in a row from address 0, each to the next one. */
  function ChainMemory(): seq<Byte>
  {
    seq(MEMORY_SIZE, a => if a < 34 then (if a % 2 == 0 then 0x20 else a + 1) else 0)
  }

  /** The targets of `n` calls in a row from `start`, each to the word after it. */
  function NextWords(start: nat, n: nat): (targets: seq<Addr>)
    requires start + 2 * n < 0x1000
    ensures |targets| == n
    ensures forall i :: 0 <= i < n ==> targets[i] == start + 2 * (i + 1)
    decreases n
  {
    if n == 0 then [] else [start + 2] + NextWords(start + 2, n - 1)
  }

  lemma {:induction false} ChainMemoryCalls(start: nat, n: nat)
    requires start % 2 == 0 && start + 2 * n <= 34
    ensures CallsTo(ChainMemory(), start, NextWords(start, n))
    decreases n
  {
    if n > 0 {
      assert OpCodeAt(ChainMemory(), start) == AddrWord(0x2, start + 2);
      ChainMemoryCalls(start + 2, n - 1);
      assert NextWords(start, n)[1..] == NextWords(start + 2, n - 1);
    }
  }

  /** A program of seventeen nested calls from address 0 overflows the stack on the last one. */
  lemma ChainOverflows(draws: seq<RandByte>)
    requires |draws| == STACK_DEPTH + 1
    ensures Run(Initial().(mem := ChainMemory(), pc := 0), draws).outcome == Faulted(StackOverflow)
  {
    ChainMemoryCalls(0, STACK_DEPTH + 1);
    SeventeenthCallOverflows(Initial().(mem := ChainMemory(), pc := 0), NextWords(0, STACK_DEPTH + 1), draws);
  }

  /** The `Cpu` `main` builds, field by field. */
  method NewDemoCpu() returns (cpu: Interpreter.Cpu)
    ensures cpu.Valid() && DemoLoaded(cpu.Snapshot())
    ensures fresh(cpu) && fresh(cpu.registers) && fresh(cpu.memory) && fresh(cpu.stack)
  {
    cpu := new Interpreter.Cpu();
    cpu.progCounter := 0;
    cpu.registers[0] := 5;
    cpu.registers[1] := 10;
    cpu.memory[0x000] := 0x21;
    cpu.memory[0x001] := 0x00;
    cpu.memory[0x100] := 0x80;
    cpu.memory[0x101] := 0x1E;
    cpu.memory[0x102] := 0x80;
    cpu.memory[0x103] := 0x14;
    cpu.memory[0x104] := 0x00;
    cpu.memory[0x105] := 0xEE;
  }

  /**
   * `main`: build the `Cpu`, `run` it, and return V0 and VF, the two values
   * it prints: 20 and 0.
   */
  method Demo(draws: seq<RandByte>) returns (v0: Byte, vf: Byte)
    requires |draws| >= 5
    ensures v0 == 20 && vf == 0
  {
    var cpu := NewDemoCpu();
    ghost var loaded := cpu.Snapshot();
    DemoRun(loaded, draws);
    var o := cpu.Run(draws);
    v0, vf := cpu.registers[0], cpu.registers[FLAG];
  }

  /** A fresh `Cpu` holding ADD V0 V1 at 0x200, with V0 = a and V1 = b. */
  method NewAddCpu(a: Byte, b: Byte) returns (cpu: Interpreter.Cpu)
    ensures cpu.Valid() && AddLoaded(cpu.Snapshot())
    ensures cpu.registers[0] == a && cpu.registers[1] == b
    ensures fresh(cpu) && fresh(cpu.registers) && fresh(cpu.memory) && fresh(cpu.stack)
  {
    cpu := new Interpreter.Cpu();
    cpu.registers[0] := a;
    cpu.registers[1] := b;
    cpu.memory[0x200] := 0x80;
    cpu.memory[0x201] := 0x14;
  }

  /** The addition program on a `Cpu`: V0 gets the wrapped sum and VF the carry. */
  method AddOnCpu(a: Byte, b: Byte, draws: seq<RandByte>) returns (v0: Byte, vf: Byte)
    requires |draws| >= 2
    ensures v0 == (a as int + b) % 0x100
    ensures vf == (if a as int + b > 0xFF then 1 else 0)
  {
    var cpu := NewAddCpu(a, b);
    ghost var loaded := cpu.Snapshot();
    AddRun(loaded, draws);
    var o := cpu.Run(draws);
    v0, vf := cpu.registers[0], cpu.registers[FLAG];
  }

  /** 5 + 10 gives 15 without carry; 250 + 10 wraps to 4 with carry. */
  method AddExamples(draws: seq<RandByte>) returns (small: Byte, smallCarry: Byte, wrapped: Byte, wrappedCarry: Byte)
    requires |draws| >= 2
    ensures small == 15 && smallCarry == 0
    ensures wrapped == 4 && wrappedCarry == 1
  {
    small, smallCarry := AddOnCpu(5, 10, draws);
    wrapped, wrappedCarry := AddOnCpu(250, 10, draws);
  }
}

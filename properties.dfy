/**
 * What one iteration of the run loop does, stated instruction by instruction
 * against the fetched opcode, and what runs of several iterations do with the
 * call stack.
 */
module Properties {
  import opened Bits
  import opened Decoder
  import opened Machine

  /** The fetch faults exactly when `pc + 1` is past the end of memory, and then nothing changes. */
  lemma FetchFaultsPastEnd(s: State, r: RandByte)
    requires Valid(s)
    ensures Step(s, r).outcome == Faulted(OutOfBoundsFetch) <==> s.pc + 1 >= MEMORY_SIZE
    ensures s.pc + 1 >= MEMORY_SIZE ==> Step(s, r).state == s
  {
  }

  /** Decoding yields `Halt` for the all-zero word and no other. */
  lemma HaltIsZeroWord(op: Word)
    ensures Decode(op) == Halt <==> op == 0
  {
    if op == 0 {
      SplitJoin(0, 0, 0, 0);
    } else {
      HaltFields(Split(op));
    }
  }

  lemma HaltFields(f: Fields)
    ensures DecodeFields(f) == Halt <==> f.c == 0 && f.x == 0 && f.y == 0 && f.d == 0
  {
  }

  /** The run loop halts exactly on two zero bytes, with the program counter past them and nothing else changed. */
  lemma HaltOnlyAdvancesPc(s: State, r: RandByte)
    requires Valid(s)
    ensures Step(s, r).outcome == Halted <==>
      s.pc + 1 < MEMORY_SIZE && s.mem[s.pc] == 0 && s.mem[s.pc + 1] == 0
    ensures Step(s, r).outcome == Halted ==> Step(s, r).state == s.(pc := s.pc + 2)
  {
    if s.pc + 1 < MEMORY_SIZE {
      var op := OpCodeAt(s.mem, s.pc);
      HaltIsZeroWord(op);
      OnlyHaltHalts(s.(pc := s.pc + 2), Decode(op), r);
      assert op == 0 <==> s.mem[s.pc] == 0 && s.mem[s.pc + 1] == 0;
    }
  }

  /** Of all instructions only `Halt` ends the run loop with Halted, and it changes nothing. */
  lemma OnlyHaltHalts(s: State, ins: Instr, r: RandByte)
    requires Valid(s)
    ensures Execute(s, ins, r).outcome == Halted <==> ins == Halt
    ensures ins == Halt ==> Execute(s, ins, r).state == s
  {
    if ins.Return? {
      assert ReturnFromSubroutine(s).outcome != Halted;
    } else if ins.Call? {
      assert CallSubroutine(s, ins.nnn).outcome != Halted;
    }
  }

  /**
   * A fetched word ends the iteration in the `NotImplemented` fault exactly
   * when it is one of the stub encodings (Dxyn and the listed Ex.. and Fx..),
   * and in the `UnknownOpcode` fault exactly when no arm of the dispatch
   * accepts it.
   */
  lemma StubAndUnknownFault(s: State, r: RandByte)
    requires Valid(s) && s.pc + 1 < MEMORY_SIZE
    ensures Step(s, r).outcome == Faulted(NotImplemented) <==> IsStubEncoding(OpCodeAt(s.mem, s.pc))
    ensures Step(s, r).outcome == Faulted(UnknownOpcode) <==> !IsKnownEncoding(OpCodeAt(s.mem, s.pc))
  {
    var op := OpCodeAt(s.mem, s.pc);
    var t := s.(pc := s.pc + 2);
    DecodeClassifies(op);
    assert ReturnFromSubroutine(t).outcome != Faulted(NotImplemented);
    assert ReturnFromSubroutine(t).outcome != Faulted(UnknownOpcode);
    if Decode(op).Call? {
      assert CallSubroutine(t, Decode(op).nnn).outcome != Faulted(NotImplemented);
      assert CallSubroutine(t, Decode(op).nnn).outcome != Faulted(UnknownOpcode);
    }
  }

  /** The instructions after which execution continues with the next instruction in memory. */
  predicate FallsThrough(ins: Instr)
  {
    ins.Load? || ins.AddImm? || ins.Move? || ins.Or? || ins.And? || ins.Xor?
    || ins.AddReg? || ins.SubReg? || ins.ShiftRight? || ins.SubNeg? || ins.ShiftLeft?
    || ins.SetIndex? || ins.RandomAnd?
  }

  /** A fall-through instruction ends at the old program counter plus 2 and leaves the stack alone. */
  lemma FallThroughAdvancesPc(s: State, r: RandByte, ins: Instr)
    requires Valid(s) && Fetches(s, ins) && FallsThrough(ins)
    ensures Step(s, r).outcome == Continue
    ensures Step(s, r).state.pc == s.pc + 2
    ensures Step(s, r).state.mem == s.mem
    ensures Step(s, r).state.stack == s.stack && Step(s, r).state.sp == s.sp
  {
  }

  /** 3xkk, 4xkk and 5xy0 end 4 bytes on exactly when their condition holds, 2 otherwise, changing nothing else. */
  lemma SkipAddsFourWhenTaken(s: State, r: RandByte, ins: Instr)
    requires Valid(s) && Fetches(s, ins) && (ins.SkipEq? || ins.SkipNe? || ins.SkipEqReg?)
    ensures Step(s, r).outcome == Continue
    ensures Step(s, r).state == s.(pc := Step(s, r).state.pc)
    ensures Step(s, r).state.pc == s.pc + 2 || Step(s, r).state.pc == s.pc + 4
    ensures ins.SkipEq? ==> (Step(s, r).state.pc == s.pc + 4 <==> s.regs[ins.x] == ins.kk)
    ensures ins.SkipNe? ==> (Step(s, r).state.pc == s.pc + 4 <==> s.regs[ins.x] != ins.kk)
    ensures ins.SkipEqReg? ==> (Step(s, r).state.pc == s.pc + 4 <==> s.regs[ins.x] == s.regs[ins.y])
  {
  }

  /** 9xyN skips exactly when V[x] differs from the nibble value `y`, whatever `d` is. */
  lemma NineComparesWithNibble(s: State, r: RandByte, x: Nibble, y: Nibble, d: Nibble)
    requires Valid(s) && s.pc + 1 < MEMORY_SIZE && OpCodeAt(s.mem, s.pc) == Join(0x9, x, y, d)
    ensures Step(s, r) == Transition(Continue, s.(pc := if s.regs[x] != y then s.pc + 4 else s.pc + 2))
  {
    NineIsSkipNeOnNibble(x, y, d);
  }

  /**
   * With V0 = V1 = 3, the opcode 9010 skips (3 differs from the nibble 1),
   * while the unused `sne_xy` would not skip (V0 equals V1).
   */
  lemma NineDiffersFromRegisterCompare(s: State, r: RandByte)
    requires Valid(s) && s.pc + 1 < MEMORY_SIZE && OpCodeAt(s.mem, s.pc) == 0x9010
    requires s.regs[0] == 3 && s.regs[1] == 3
    ensures Step(s, r).state.pc == s.pc + 4
    ensures SkipIfRegistersDiffer(s.(pc := s.pc + 2), 0, 1).pc == s.pc + 2
  {
    NineComparesWithNibble(s, r, 0, 1, 0);
  }

  /** 1nnn sets the program counter to `nnn` and changes nothing else. */
  lemma JumpSetsPc(s: State, r: RandByte, nnn: Addr)
    requires Valid(s) && Fetches(s, Jump(nnn))
    ensures Step(s, r) == Transition(Continue, s.(pc := nnn))
  {
  }

  /** Bnnn sets the program counter to V0 + nnn, a sum that stays below 0x10FF, so nothing wraps. */
  lemma JumpOffsetNoWrap(s: State, r: RandByte, nnn: Addr)
    requires Valid(s) && Fetches(s, JumpOffset(nnn))
    ensures Step(s, r) == Transition(Continue, s.(pc := s.regs[0] + nnn))
    ensures Step(s, r).state.pc <= 0x10FE
  {
  }

  /** Annn changes only the index register (and advances the program counter). */
  lemma SetIndexOnlyIndex(s: State, r: RandByte, nnn: Addr)
    requires Valid(s) && Fetches(s, SetIndex(nnn))
    ensures Step(s, r) == Transition(Continue, s.(pc := s.pc + 2, index := nnn))
  {
  }

  /** The state after an instruction that only writes register `x` (and advances the program counter). */
  predicate OnlyRegisterChanged(s: State, t: State, x: Nibble)
    requires Valid(s) && Valid(t)
  {
    t == s.(pc := s.pc + 2, regs := s.regs[x := t.regs[x]])
  }

  /** 6xkk, 8xy0, 8xy1, 8xy2 and 8xy3 change only V[x], to the value Cowgod's reference prescribes. */
  lemma LoadsAndLogicChangeOnlyX(s: State, r: RandByte, ins: Instr)
    requires Valid(s) && Fetches(s, ins)
    requires ins.Load? || ins.Move? || ins.Or? || ins.And? || ins.Xor?
    ensures Step(s, r).outcome == Continue
    ensures OnlyRegisterChanged(s, Step(s, r).state, ins.x)
    ensures ins.Load? ==> Step(s, r).state.regs[ins.x] == ins.kk
    ensures ins.Move? ==> Step(s, r).state.regs[ins.x] == s.regs[ins.y]
    ensures ins.Or? ==> forall i: nat :: Bit(Step(s, r).state.regs[ins.x], i) == (Bit(s.regs[ins.x], i) || Bit(s.regs[ins.y], i))
    ensures ins.And? ==> forall i: nat :: Bit(Step(s, r).state.regs[ins.x], i) == (Bit(s.regs[ins.x], i) && Bit(s.regs[ins.y], i))
    ensures ins.Xor? ==> forall i: nat :: Bit(Step(s, r).state.regs[ins.x], i) == (Bit(s.regs[ins.x], i) != Bit(s.regs[ins.y], i))
  {
  }

  /** 7xkk adds modulo 256 and never writes the flag: it changes only V[x]. */
  lemma AddImmediateWrapsWithoutFlag(s: State, r: RandByte, x: Nibble, kk: Byte)
    requires Valid(s) && Fetches(s, AddImm(x, kk))
    ensures Step(s, r).outcome == Continue
    ensures OnlyRegisterChanged(s, Step(s, r).state, x)
    ensures Step(s, r).state.regs[x] == (s.regs[x] + kk) % 0x100
    ensures x != FLAG ==> Step(s, r).state.regs[FLAG] == s.regs[FLAG]
  {
  }

  /** Registers other than `x` and the flag keep their values. */
  predicate OthersKept(s: State, t: State, x: Nibble)
    requires Valid(s) && Valid(t)
  {
    forall i :: 0 <= i < REGISTER_COUNT && i != x && i != FLAG ==> t.regs[i] == s.regs[i]
  }

  /**
   * 8xy4: the flag is 1 exactly when the true sum exceeds 255; for x other
   * than 0xF the wrapped sum and the carry together make up the true sum,
   * and for x = 0xF the carry is what remains.
   */
  lemma AddRegistersCarry(s: State, r: RandByte, x: Nibble, y: Nibble)
    requires Valid(s) && Fetches(s, AddReg(x, y))
    ensures var t := Step(s, r).state;
      Step(s, r).outcome == Continue
      && t == s.(pc := s.pc + 2, regs := t.regs) && OthersKept(s, t, x)
      && (t.regs[FLAG] == 1 <==> s.regs[x] as int + s.regs[y] > 0xFF) && t.regs[FLAG] <= 1
      && (x != FLAG ==> t.regs[x] == (s.regs[x] as int + s.regs[y]) % 0x100
                        && t.regs[x] as int + 0x100 * (t.regs[FLAG] as int) == s.regs[x] as int + s.regs[y])
  {
  }

  /**
   * 8xy5: the flag is 1 exactly when V[x] > V[y] strictly (equal operands
   * give 0); V[x] becomes the difference modulo 256, also for x = 0xF, where
   * the difference overwrites the flag.
   */
  lemma SubtractRegistersBorrow(s: State, r: RandByte, x: Nibble, y: Nibble)
    requires Valid(s) && Fetches(s, SubReg(x, y))
    ensures var t := Step(s, r).state;
      Step(s, r).outcome == Continue
      && t == s.(pc := s.pc + 2, regs := t.regs) && OthersKept(s, t, x)
      && t.regs[x] == (s.regs[x] as int - s.regs[y]) % 0x100
      && (x != FLAG ==> (t.regs[FLAG] == 1 <==> s.regs[x] > s.regs[y]) && t.regs[FLAG] <= 1)
      && (s.regs[x] == s.regs[y] ==> t.regs[x] == 0 && t.regs[FLAG] == 0)
  {
  }

  /** 8xy7: the mirror of 8xy5, flag iff V[y] > V[x] and V[x] := V[y] - V[x] modulo 256. */
  lemma SubtractReversedBorrow(s: State, r: RandByte, x: Nibble, y: Nibble)
    requires Valid(s) && Fetches(s, SubNeg(x, y))
    ensures var t := Step(s, r).state;
      Step(s, r).outcome == Continue
      && t == s.(pc := s.pc + 2, regs := t.regs) && OthersKept(s, t, x)
      && t.regs[x] == (s.regs[y] as int - s.regs[x]) % 0x100
      && (x != FLAG ==> (t.regs[FLAG] == 1 <==> s.regs[y] > s.regs[x]) && t.regs[FLAG] <= 1)
      && (s.regs[x] == s.regs[y] ==> t.regs[x] == 0 && t.regs[FLAG] == 0)
  {
  }

  /**
   * 8xy6: the flag is the bit shifted out (bit 0 before the shift) and V[x]
   * is halved; for x other than 0xF no bit is lost, for x = 0xF the shifted
   * value overwrites the flag.
   */
  lemma ShiftRightFlagIsLowBit(s: State, r: RandByte, x: Nibble)
    requires Valid(s) && Fetches(s, ShiftRight(x))
    ensures var t := Step(s, r).state;
      Step(s, r).outcome == Continue
      && t == s.(pc := s.pc + 2, regs := t.regs) && OthersKept(s, t, x)
      && t.regs[x] == s.regs[x] / 2
      && (x != FLAG ==> (t.regs[FLAG] == 1 <==> Bit(s.regs[x], 0)) && 2 * t.regs[x] + t.regs[FLAG] == s.regs[x])
  {
  }

  /**
   * 8xyE: the flag is bit 7 before the shift and V[x] is doubled modulo 256;
   * for x other than 0xF the shifted value and the flag make up twice the
   * old value, for x = 0xF the shifted value overwrites the flag.
   */
  lemma ShiftLeftFlagIsHighBit(s: State, r: RandByte, x: Nibble)
    requires Valid(s) && Fetches(s, ShiftLeft(x))
    ensures var t := Step(s, r).state;
      Step(s, r).outcome == Continue
      && t == s.(pc := s.pc + 2, regs := t.regs) && OthersKept(s, t, x)
      && t.regs[x] == 2 * s.regs[x] as int % 0x100
      && (x != FLAG ==> (t.regs[FLAG] == 1 <==> s.regs[x] >= 0x80) && t.regs[x] as int + 0x100 * (t.regs[FLAG] as int) == 2 * s.regs[x] as int)
  {
  }

  /** Cxkk leaves in V[x] only bits that are set both in the random byte and in `kk`. */
  lemma RandomAndIsSubsetOfMask(s: State, r: RandByte, x: Nibble, kk: Byte)
    requires Valid(s) && Fetches(s, RandomAnd(x, kk))
    ensures Step(s, r).outcome == Continue
    ensures OnlyRegisterChanged(s, Step(s, r).state, x)
    ensures forall i: nat :: Bit(Step(s, r).state.regs[x], i) == (Bit(r, i) && Bit(kk, i))
    ensures Step(s, r).state.regs[x] <= kk
  {
    var v := Step(s, r).state.regs[x];
    BitsBound(v, kk, 8);
  }

  /** A byte whose set bits are all set in `b` is at most `b`. */
  lemma {:induction false} BitsBound(a: nat, b: nat, n: nat)
    requires a < Pow2(n) && b < Pow2(n)
    requires forall i: nat :: Bit(a, i) ==> Bit(b, i)
    ensures a <= b
  {
    if n > 0 {
      forall i: nat | Bit(a / 2, i)
        ensures Bit(b / 2, i)
      {
        assert Bit(a, i + 1);
      }
      BitsBound(a / 2, b / 2, n - 1);
      assert Bit(a, 0) ==> Bit(b, 0);
    }
  }

  /**
   * 2nnn faults with StackOverflow exactly when all 16 slots are in use;
   * otherwise it stores the address of the next instruction in the free slot,
   * bumps the stack pointer and jumps.
   */
  lemma CallPushesReturnAddress(s: State, r: RandByte, nnn: Addr)
    requires Valid(s) && Fetches(s, Call(nnn))
    ensures Step(s, r).outcome == Faulted(StackOverflow) <==> s.sp == STACK_DEPTH
    ensures Step(s, r).outcome != Faulted(StackOverflow) ==>
      Step(s, r) == Transition(Continue, s.(stack := s.stack[s.sp := s.pc + 2], sp := s.sp + 1, pc := nnn))
  {
  }

  /**
   * 00EE faults with StackUnderflow exactly when the stack is empty;
   * otherwise it pops the top return address into the program counter.
   */
  lemma ReturnPopsReturnAddress(s: State, r: RandByte)
    requires Valid(s) && Fetches(s, Return)
    ensures Step(s, r).outcome == Faulted(StackUnderflow) <==> s.sp == 0
    ensures s.sp > 0 ==>
      Step(s, r) == Transition(Continue, s.(sp := s.sp - 1, pc := s.stack[s.sp - 1]))
  {
  }

  /**
   * A CALL whose target is a RETURN comes back to the instruction after the
   * CALL with the stack pointer, registers and index register as before.
   */
  lemma CallThenReturn(s: State, r1: RandByte, r2: RandByte, nnn: Addr)
    requires Valid(s) && Fetches(s, Call(nnn)) && s.sp < STACK_DEPTH
    requires Fetches(Step(s, r1).state, Return)
    ensures var u := Step(Step(s, r1).state, r2);
      u.outcome == Continue && u.state.pc == s.pc + 2 && u.state.sp == s.sp
      && u.state.regs == s.regs && u.state.index == s.index && u.state.mem == s.mem
  {
    CallPushesReturnAddress(s, r1, nnn);
  }

  /** Running `a` and then `b` is running `a + b`, unless `a` already stopped. */
  lemma {:induction false} RunAppend(s: State, a: seq<RandByte>, b: seq<RandByte>)
    requires Valid(s)
    ensures Run(s, a + b) == if Run(s, a).outcome == Continue then Run(Run(s, a).state, b) else Run(s, a)
    decreases |a|
  {
    if a == [] {
      assert a + b == b;
    } else {
      assert (a + b)[0] == a[0];
      assert (a + b)[1..] == a[1..] + b;
      var t := Step(s, a[0]);
      if t.outcome == Continue {
        RunAppend(t.state, a[1..], b);
      }
    }
  }

  /** Every iteration keeps the state well formed; in particular the stack pointer stays in [0, 16]. */
  lemma RunKeepsStackPointerInRange(s: State, draws: seq<RandByte>)
    requires Valid(s)
    ensures 0 <= Run(s, draws).state.sp <= STACK_DEPTH
    ensures |Run(s, draws).state.stack| == STACK_DEPTH
  {
  }

  /**
   * Consecutive CALLs: the instruction at `start` calls `targets[0]`, the
   * instruction there calls `targets[1]`, and so on.
   */
  predicate CallsTo(mem: seq<Byte>, start: nat, targets: seq<Addr>)
    decreases |targets|
  {
    |targets| == 0
    || (start + 1 < |mem| && OpCodeAt(mem, start) == AddrWord(0x2, targets[0])
        && CallsTo(mem, targets[0], targets[1..]))
  }

  /** Where a chain of calls from `start` arrives: its last target. */
  function ChainEnd(start: nat, targets: seq<Addr>): nat
  {
    if |targets| == 0 then start else targets[|targets| - 1]
  }

  /** The address the `i`-th call of a chain from `start` pushes: the word after that call. */
  function ReturnAddress(start: nat, targets: seq<Addr>, i: nat): nat
    requires i < |targets|
  {
    (if i == 0 then start else targets[i - 1]) + 2
  }

  lemma {:induction false} CallsToSplit(mem: seq<Byte>, start: nat, targets: seq<Addr>, k: nat)
    requires CallsTo(mem, start, targets) && k <= |targets|
    ensures CallsTo(mem, start, targets[..k])
    ensures CallsTo(mem, ChainEnd(start, targets[..k]), targets[k..])
    decreases k
  {
    if k > 0 {
      var rest := targets[1..];
      CallsToSplit(mem, targets[0], rest, k - 1);
      assert targets[..k][1..] == rest[..k - 1];
      assert rest[k - 1..] == targets[k..];
      assert ChainEnd(start, targets[..k]) == ChainEnd(targets[0], rest[..k - 1]);
    }
  }

  /**
   * Nested calls succeed while the stack has room: each one pushes one return
   * address, and the run arrives at the last target with memory unchanged.
   */
  lemma {:induction false} NestedCallsSucceed(s: State, targets: seq<Addr>, draws: seq<RandByte>)
    requires Valid(s) && CallsTo(s.mem, s.pc, targets)
    requires |draws| == |targets| && s.sp + |targets| <= STACK_DEPTH
    ensures Run(s, draws).outcome == Continue
    ensures Run(s, draws).state.sp == s.sp + |targets|
    ensures Run(s, draws).state.pc == ChainEnd(s.pc, targets)
    ensures Run(s, draws).state.mem == s.mem
    ensures Run(s, draws).state.stack[..s.sp] == s.stack[..s.sp]
    ensures forall i :: 0 <= i < |targets| ==> Run(s, draws).state.stack[s.sp + i] == ReturnAddress(s.pc, targets, i)
    decreases |draws|
  {
    if draws != [] {
      DecodeEncode(Call(targets[0]));
      CallPushesReturnAddress(s, draws[0], targets[0]);
      var t := Step(s, draws[0]).state;
      NestedCallsSucceed(t, targets[1..], draws[1..]);
      assert ChainEnd(s.pc, targets) == ChainEnd(t.pc, targets[1..]);
      var u := Run(s, draws).state;
      assert u == Run(t, draws[1..]).state;
      assert u.stack[..t.sp][..s.sp] == u.stack[..s.sp];
      assert t.stack[..t.sp][..s.sp] == s.stack[..s.sp];
      assert u.stack[s.sp] == t.stack[..t.sp][s.sp] == s.pc + 2;
      forall i | 0 <= i < |targets|
        ensures u.stack[s.sp + i] == ReturnAddress(s.pc, targets, i)
      {
        if i > 0 {
          assert u.stack[t.sp + (i - 1)] == ReturnAddress(t.pc, targets[1..], i - 1);
        }
      }
    }
  }

  /** From an empty stack, sixteen nested calls succeed and the seventeenth faults with StackOverflow. */
  lemma SeventeenthCallOverflows(s: State, targets: seq<Addr>, draws: seq<RandByte>)
    requires Valid(s) && s.sp == 0 && |draws| == |targets| == STACK_DEPTH + 1
    requires CallsTo(s.mem, s.pc, targets)
    ensures Run(s, draws[..STACK_DEPTH]).outcome == Continue
    ensures Run(s, draws[..STACK_DEPTH]).state.sp == STACK_DEPTH
    ensures Run(s, draws).outcome == Faulted(StackOverflow)
  {
    var a, b := draws[..STACK_DEPTH], draws[STACK_DEPTH..];
    assert a + b == draws;
    CallsToSplit(s.mem, s.pc, targets, STACK_DEPTH);
    NestedCallsSucceed(s, targets[..STACK_DEPTH], a);
    RunAppend(s, a, b);
    var u := Run(s, a).state;
    var last := targets[STACK_DEPTH];
    assert targets[STACK_DEPTH..] == [last];
    DecodeEncode(Call(last));
    CallPushesReturnAddress(u, b[0], last);
  }
}

# CHIP-8 interpreter core, modelled in Dafny

This project models the CHIP-8 interpreter of `src/cpu.rs`. Its `Cpu` holds:

- sixteen byte registers, with V[0xF] doubling as the carry, borrow and shift-out flag;
- a 16-bit index register;
- 4096 bytes of memory;
- a program counter that starts at 0x200;
- a sixteen-slot return-address stack and its pointer.

`run` loops over these steps:

1. fetch the big-endian word at the program counter;
2. advance the program counter by 2;
3. split the word into the nibbles `c x y d` and the fields `nnn` and `kk`;
4. dispatch through an ordered `match` to one instruction method.

The encoding is the one of Cowgod's Chip-8 Technical Reference v1.0, section 3.1.

The model has six modules:

- `Bits` (bits.dfy) holds the fixed-width integer types. It defines bitwise OR, AND and XOR bit by bit.
- `Decoder` (decoder.dfy) covers the fetch, the field split, the dispatch table as a datatype `Instr`, and an encoder that inverts it.
- `Machine` (machine.dfy) is the specification. It treats the `Cpu` as a value, gives one function per instruction method, and defines `Step` (one loop iteration) and `Run`.
- `Interpreter` (cpu.dfy) is the interpreter as the source has it. `class Cpu` holds arrays and fields that its methods update in place. Every method is proved to perform the transition of the matching `Machine` function on the object's abstract state, `Snapshot()`.
- `Properties` (properties.dfy) holds what one iteration and several iterations do, instruction by instruction.
- `Scenarios` (scenarios.dfy) runs whole programs: the demonstration of `src/main.rs`, an addition with and without carry, and seventeen nested calls.

Behaviour kept exactly as the code has it:

- **9xyN** decodes as `skip_ne(x, y)`. It compares V[x] with the nibble value `y`, not with V[y], and it accepts any `d`. The register-to-register `sne_xy` is never called.
- **The guard `sp > 16` in `call`** never holds. A call with all sixteen slots in use fails on the write `stack[16]` instead. Both are the single fault `StackOverflow`.
- **`u8` arithmetic** wraps modulo 256. `overflowing_add` in 8xy4 wraps by definition, and `<< 1` in 8xyE drops the high bit in every build. `+=` in 7xkk and `-` in 8xy5 and 8xy7 wrap as a release build does.
- **Flag order.** 8xy4 writes the sum and then the flag. 8xy5, 8xy7, 8xy6 and 8xyE write the flag and then the result. So for x = 0xF the last write wins.
- **`main`'s demonstration** starts at address 0. It ends with V0 = 20, VF = 0, an empty stack and the program counter at 4. The commented-out expectation of 45 in `src/main.rs` does not match the code.

The panics and `todo!`s of the source become an outcome: `Faulted` with one of `StackOverflow`, `StackUnderflow`, `OutOfBoundsFetch`, `UnknownOpcode` or `NotImplemented`. The halting word `0000` gives `Halted`.

## Model

| member | source | states |
|---|---|---|
| Bits.ByteOp | src/cpu.rs:130-140 | `bitor`, `bitand`, `bitxor` on `u8`: every bit of the result is the OR, AND or XOR of the operands' bits at that position, and the result is again a byte |
| Bits.BitwiseBit | src/cpu.rs:130-140 | for unbounded naturals, bit i of `a op b` is `op` applied to bit i of `a` and bit i of `b` |
| Bits.BitwiseBelow | src/cpu.rs:130-140 | operands below 2^n give a result below 2^n, so bitwise operators never leave a byte |
| Decoder.OpCodeAt | src/cpu.rs:25-30 | `read_op_code`: the word's high byte is `memory[pc]` and its low byte `memory[pc + 1]` |
| Decoder.Split | src/cpu.rs:36-41 | the nibbles `c x y d`, weighted 0x1000, 0x100, 0x10, 1, add up to the opcode; `nnn` is the value of `x y d` and `kk` of `y d` |
| Decoder.SplitJoin | src/cpu.rs:36-41 | the nibbles of a word are unique: splitting the word built from `c x y d` returns exactly `c x y d` and the matching `nnn` and `kk` |
| Decoder.DecodeEncode | src/cpu.rs:42-78 | every instruction the dispatch knows has an encoding that the dispatch maps back to that same instruction |
| Decoder.NineIsSkipNeOnNibble | src/cpu.rs:63 | 9xyN, whatever N is, decodes as skip-if-not-equal against the immediate `y`, the same instruction as 4x0y |
| Decoder.ShiftIgnoresY | src/cpu.rs:60-62 | 8xy6 and 8xyE decode to the same shift of V[x] whatever the nibble `y` is |
| Decoder.Decode | src/cpu.rs:36-81 | the dispatch `match` as a total map from words to instructions; its promises are `Decoder.DecodeEncode` (every known instruction round-trips), `Decoder.DecodeClassifies` (which words are stubs and which fall through) and `Decoder.NineIsSkipNeOnNibble` |
| Decoder.DecodeClassifies | src/cpu.rs:42-81 | an opcode reaches the final `todo!` arm exactly when no class accepts it, and reaches a stub method exactly when it is a Dxyn, Ex9E, ExA1, Fx07, Fx0A, Fx15, Fx18, Fx1E, Fx29, Fx33, Fx55 or Fx65 encoding |
| Decoder.CapabilityClassifies | src/cpu.rs:68-78 | in classes E and F, the stub arms are taken exactly for the listed low bytes; every other low byte falls to the final arm |
| Decoder.UnknownExamples | src/cpu.rs:80 | 00E0, 5121, 8128, 812F, E19F and F175 all fall to the final arm |
| Machine.Valid | src/cpu.rs:4-11 | the `Cpu` struct as a value: 16 registers, 4096 bytes of memory, a 16-slot stack, and a stack pointer that never passes the stack's end |
| Machine.JumpTo | src/cpu.rs:85-87 | `jump` keeps the state well formed; `Properties.JumpSetsPc` gives its full effect |
| Machine.CallSubroutine | src/cpu.rs:89-98 | `call` keeps the stack pointer within 0..16; `Properties.CallPushesReturnAddress` gives the push, the jump and the overflow fault |
| Machine.ReturnFromSubroutine | src/cpu.rs:189-197 | `rtrn` keeps the stack pointer within 0..16; `Properties.ReturnPopsReturnAddress` gives the pop and the underflow fault |
| Machine.SkipIfEqual | src/cpu.rs:100-104 | `skip_e` keeps the state well formed; `Properties.SkipAddsFourWhenTaken` gives when it skips |
| Machine.SkipIfNotEqual | src/cpu.rs:106-110 | `skip_ne` keeps the state well formed; `Properties.SkipAddsFourWhenTaken` and `Properties.NineComparesWithNibble` give when it skips |
| Machine.SkipIfRegistersEqual | src/cpu.rs:112-116 | `skip_e_xy` keeps the state well formed; `Properties.SkipAddsFourWhenTaken` gives when it skips |
| Machine.SkipIfRegistersDiffer | src/cpu.rs:199-203 | `sne_xy` keeps the state well formed; `Properties.NineDiffersFromRegisterCompare` shows that the 9 arm does not use it |
| Machine.LoadImmediate | src/cpu.rs:118-120 | `ld_xkk` keeps the state well formed; `Properties.LoadsAndLogicChangeOnlyX` gives its effect |
| Machine.AddImmediate | src/cpu.rs:122-124 | `add_xkk` keeps the state well formed; `Properties.AddImmediateWrapsWithoutFlag` gives the wrapped sum |
| Machine.CopyRegister | src/cpu.rs:126-128 | `set_xy` keeps the state well formed; `Properties.LoadsAndLogicChangeOnlyX` gives its effect |
| Machine.CombineRegisters | src/cpu.rs:130-140 | `or_xy`, `and_xy` and `xor_xy` keep the state well formed; `Properties.LoadsAndLogicChangeOnlyX` gives the result bit by bit |
| Machine.AddRegisters | src/cpu.rs:142-153 | `add_xy` keeps the state well formed; `Properties.AddRegistersCarry` gives the sum and the carry |
| Machine.SubtractRegisters | src/cpu.rs:155-164 | `sub_xy` keeps the state well formed; `Properties.SubtractRegistersBorrow` gives the difference and the flag |
| Machine.SubtractRegistersReversed | src/cpu.rs:166-175 | `sub_yx` keeps the state well formed; `Properties.SubtractReversedBorrow` gives the difference and the flag |
| Machine.ShiftRightRegister | src/cpu.rs:177-181 | `shr` keeps the state well formed; `Properties.ShiftRightFlagIsLowBit` gives the result and the flag |
| Machine.ShiftLeftRegister | src/cpu.rs:183-187 | `shl` keeps the state well formed; `Properties.ShiftLeftFlagIsHighBit` gives the result and the flag |
| Machine.SetIndexRegister | src/cpu.rs:205-207 | `set_i_nnn` keeps the state well formed; `Properties.SetIndexOnlyIndex` gives its effect |
| Machine.JumpWithOffset | src/cpu.rs:209-211 | `add_reg0_nnn` keeps the state well formed; `Properties.JumpOffsetNoWrap` gives the target and its bound |
| Machine.RandomAndImmediate | src/cpu.rs:213-217 | `rand_byte_and_xkk` keeps the state well formed; `Properties.RandomAndIsSubsetOfMask` gives the masked result |
| Machine.Initial | src/cpu.rs:15-24 | `new`: all registers, memory and stack zero, index 0, stack pointer 0, program counter 0x200, arrays of 16, 4096 and 16 |
| Machine.Execute | src/cpu.rs:42-81 | every arm of the dispatch keeps the array sizes and keeps the stack pointer within 0..16 |
| Machine.Step | src/cpu.rs:32-41 | one iteration of the loop keeps the array sizes and the stack pointer within 0..16 |
| Machine.Run | src/cpu.rs:32-83 | any number of iterations keeps the array sizes and the stack pointer within 0..16 |
| Properties.FetchFaultsPastEnd | src/cpu.rs:25-30 | the fetch fails exactly when `pc + 1` is 4096 or more, and then no field changes |
| Properties.HaltIsZeroWord | src/cpu.rs:43-45 | the dispatch returns for the word 0000 and for no other word |
| Properties.OnlyHaltHalts | src/cpu.rs:42-81 | of all arms only the 0000 arm, which returns from `run`, ends the loop normally, and it changes nothing |
| Properties.HaltOnlyAdvancesPc | src/cpu.rs:33-45 | an iteration ends the loop exactly when both bytes at `pc` are zero, and then only the program counter has moved, by 2 |
| Properties.StubAndUnknownFault | src/cpu.rs:67-80 | a fetched word ends the iteration in the not-implemented fault exactly when it is a stub encoding, and in the unknown-opcode fault exactly when no arm accepts it |
| Properties.FallThroughAdvancesPc | src/cpu.rs:35-66 | after 6xkk, 7xkk, 8xy0 to 8xyE, Annn and Cxkk the program counter is the old one plus 2, and memory and stack are unchanged |
| Properties.SkipAddsFourWhenTaken | src/cpu.rs:100-116 | 3xkk, 4xkk and 5xy0 move the program counter by 4 exactly when their condition holds and by 2 otherwise, and change nothing else |
| Properties.NineComparesWithNibble | src/cpu.rs:63 | 9xyN skips exactly when V[x] differs from the number `y`, whatever N is, and changes nothing else |
| Properties.NineDiffersFromRegisterCompare | src/cpu.rs:199-203 | with V0 = V1 = 3, the opcode 9010 skips, while the unused register comparison `sne_xy` would not |
| Properties.JumpSetsPc | src/cpu.rs:85-87 | 1nnn sets the program counter to `nnn` and changes nothing else |
| Properties.JumpOffsetNoWrap | src/cpu.rs:209-211 | Bnnn sets the program counter to V0 + nnn, which is at most 0x10FE, so the `u16` sum never wraps |
| Properties.SetIndexOnlyIndex | src/cpu.rs:205-207 | Annn sets only the index register to `nnn`, apart from the usual advance by 2 |
| Properties.LoadsAndLogicChangeOnlyX | src/cpu.rs:118-140 | 6xkk, 8xy0, 8xy1, 8xy2 and 8xy3 change only V[x]: to `kk`, to V[y], or to the bitwise OR, AND or XOR of V[x] and V[y] |
| Properties.AddImmediateWrapsWithoutFlag | src/cpu.rs:122-124 | 7xkk sets V[x] to V[x] + kk modulo 256, never touches the flag as a carry, and changes no other register |
| Properties.AddRegistersCarry | src/cpu.rs:142-153 | 8xy4: the flag is 1 exactly when the true sum exceeds 255; for x other than F, V[x] is the sum modulo 256, and V[x] + 256 * flag is the true sum; other registers keep their values |
| Properties.SubtractRegistersBorrow | src/cpu.rs:155-164 | 8xy5: V[x] becomes V[x] - V[y] modulo 256, also for x = F; for other x the flag is 1 exactly when V[x] > V[y] strictly; equal operands give 0 and flag 0 |
| Properties.SubtractReversedBorrow | src/cpu.rs:166-175 | 8xy7: V[x] becomes V[y] - V[x] modulo 256; for x other than F the flag is 1 exactly when V[y] > V[x]; equal operands give 0 and flag 0 |
| Properties.ShiftRightFlagIsLowBit | src/cpu.rs:177-181 | 8xy6 halves V[x]; for x other than F the flag is the old bit 0 and 2 * V[x] + flag is the old value |
| Properties.ShiftLeftFlagIsHighBit | src/cpu.rs:183-187 | 8xyE doubles V[x] modulo 256; for x other than F the flag is 1 exactly when the old value was at least 0x80, and V[x] + 256 * flag is twice the old value |
| Properties.RandomAndIsSubsetOfMask | src/cpu.rs:213-217 | Cxkk changes only V[x], to a value whose bits are those set both in the random byte and in `kk`, so it is at most `kk` |
| Properties.CallPushesReturnAddress | src/cpu.rs:89-98 | 2nnn faults with stack overflow exactly when all 16 slots are used; otherwise it stores the address after the call in the free slot, increments the stack pointer and jumps to `nnn` |
| Properties.ReturnPopsReturnAddress | src/cpu.rs:189-197 | 00EE faults with stack underflow exactly when the stack is empty; otherwise it decrements the stack pointer and jumps to the address stored there |
| Properties.CallThenReturn | src/cpu.rs:89-98 | a call whose target is a return comes back to the call's address plus 2 with the stack pointer, registers, index and memory as before |
| Properties.RunAppend | src/cpu.rs:32-83 | running for a then b iterations is running for a + b iterations, unless the first run already stopped |
| Properties.RunKeepsStackPointerInRange | src/cpu.rs:89-98 | however long the loop runs, the stack pointer stays within 0..16 and the stack keeps 16 slots |
| Properties.NestedCallsSucceed | src/cpu.rs:89-98 | a chain of calls to any targets, each target holding the next call, succeeds while the stack has room: the stack pointer grows by one per call, the slots below are kept, each new slot holds the address after its call, the run arrives at the last target, and memory is unchanged |
| Properties.SeventeenthCallOverflows | src/cpu.rs:92-95 | from an empty stack, a chain of seventeen calls to any targets has its first sixteen succeed and fill the stack, and the seventeenth faults with stack overflow |
| Interpreter.Cpu.Snapshot | src/cpu.rs:4-11 | the fields of a well-formed `Cpu` form a well-formed machine state |
| Interpreter.Cpu.constructor | src/cpu.rs:15-24 | `new` builds fresh arrays and the initial machine state |
| Interpreter.Cpu.ReadOpCode | src/cpu.rs:25-30 | the word read from the memory array is the fetch of the specification at the program counter |
| Interpreter.Cpu.JumpTo | src/cpu.rs:85-87 | `jump` performs the 1nnn transition of the specification |
| Interpreter.Cpu.CallSubroutine | src/cpu.rs:89-98 | `call` performs the 2nnn transition, including its overflow fault |
| Interpreter.Cpu.ReturnFromSubroutine | src/cpu.rs:189-197 | `rtrn` performs the 00EE transition, including its underflow fault |
| Interpreter.Cpu.SkipIfEqual | src/cpu.rs:100-104 | `skip_e` performs the 3xkk transition |
| Interpreter.Cpu.SkipIfNotEqual | src/cpu.rs:106-110 | `skip_ne` performs the 4xkk transition, which 9xyN also uses |
| Interpreter.Cpu.SkipIfRegistersEqual | src/cpu.rs:112-116 | `skip_e_xy` performs the 5xy0 transition |
| Interpreter.Cpu.SkipIfRegistersDiffer | src/cpu.rs:199-203 | `sne_xy` skips when V[x] differs from V[y]; no arm calls it |
| Interpreter.Cpu.LoadImmediate | src/cpu.rs:118-120 | `ld_xkk` performs the 6xkk transition |
| Interpreter.Cpu.AddImmediate | src/cpu.rs:122-124 | `add_xkk` performs the wrapping 7xkk transition |
| Interpreter.Cpu.CopyRegister | src/cpu.rs:126-128 | `set_xy` performs the 8xy0 transition |
| Interpreter.Cpu.OrRegisters | src/cpu.rs:130-132 | `or_xy` performs the 8xy1 transition |
| Interpreter.Cpu.AndRegisters | src/cpu.rs:134-136 | `and_xy` performs the 8xy2 transition |
| Interpreter.Cpu.XorRegisters | src/cpu.rs:138-140 | `xor_xy` performs the 8xy3 transition |
| Interpreter.Cpu.AddRegisters | src/cpu.rs:142-153 | `add_xy` performs the 8xy4 transition: sum first, then carry |
| Interpreter.Cpu.SubtractRegisters | src/cpu.rs:155-164 | `sub_xy` performs the 8xy5 transition: flag first, then difference |
| Interpreter.Cpu.SubtractRegistersReversed | src/cpu.rs:166-175 | `sub_yx` performs the 8xy7 transition |
| Interpreter.Cpu.ShiftRightRegister | src/cpu.rs:177-181 | `shr` performs the 8xy6 transition |
| Interpreter.Cpu.ShiftLeftRegister | src/cpu.rs:183-187 | `shl` performs the 8xyE transition |
| Interpreter.Cpu.SetIndexRegister | src/cpu.rs:205-207 | `set_i_nnn` performs the Annn transition |
| Interpreter.Cpu.JumpWithOffset | src/cpu.rs:209-211 | `add_reg0_nnn` performs the Bnnn transition |
| Interpreter.Cpu.RandomAndImmediate | src/cpu.rs:213-217 | `rand_byte_and_xkk` with the drawn byte performs the Cxkk transition |
| Interpreter.Cpu.ExecuteFlow | src/cpu.rs:43-65 | the halt, return, jump, call and skip arms, together with the Bnnn arm, perform the specified transitions and outcomes |
| Interpreter.Cpu.ExecuteAssignment | src/cpu.rs:52-66 | the 6xkk, 7xkk, 8xy0 to 8xy3 arms and the Cxkk arm perform the specified transitions |
| Interpreter.Cpu.ExecuteArithmetic | src/cpu.rs:58-62 | the 8xy4 to 8xyE arms perform the specified transitions |
| Interpreter.Cpu.Execute | src/cpu.rs:42-81 | the whole dispatch performs the transition and outcome of the specification for every instruction, including the stub and unknown faults |
| Interpreter.Cpu.Step | src/cpu.rs:33-41 | one iteration on the object (fetch, advance by 2, dispatch) ends with the outcome and state of `Machine.Step` |
| Interpreter.Cpu.Run | src/cpu.rs:32-83 | the loop on the object ends with the outcome and state of `Machine.Run` for the same draws, so every `Properties` lemma about runs holds for it |
| Scenarios.DemoRun | src/main.rs:16-36 | `main`'s program runs CALL, SHL, ADD, RET and halts at address 2; only V0, VF, the first stack slot and the program counter differ from the start |
| Scenarios.DemoHaltsWithTwenty | src/main.rs:16-36 | `main`'s program halts with V0 = 20, VF = 0, an empty stack and the program counter at 4 |
| Scenarios.HaltAtZeroWord | src/cpu.rs:43-45 | a run that reaches two zero bytes halts there, with the program counter past them and nothing else changed |
| Scenarios.AddThenHalt | src/cpu.rs:142-153 | the program ADD V0 V1 followed by 0000 halts with the wrapped sum in V0, the carry in VF and V1 unchanged |
| Scenarios.ChainOverflows | src/cpu.rs:92-95 | a memory image of seventeen nested calls from address 0 ends in a stack overflow fault |
| Scenarios.NewDemoCpu | src/main.rs:7-35 | `main`'s field-by-field setup yields the demonstration program in a well-formed `Cpu` |
| Scenarios.Demo | src/main.rs:6-41 | `main` on the `Cpu` class: after `run`, the two printed values are 20 and 0 |
| Scenarios.AddOnCpu | src/cpu.rs:142-153 | on the `Cpu` class, ADD V0 V1 from `new` leaves (a + b) mod 256 in V0 and the carry in VF |
| Scenarios.AddExamples | src/cpu.rs:142-153 | 5 + 10 gives 15 with flag 0; 250 + 10 gives 4 with flag 1 |

## Left out

- Randomness: `rand_byte_and_xkk` calls the `rand` crate. The model passes the drawn byte in as a parameter limited to 0..254, because `random_range(0..255)` excludes 255. `Run` takes one draw per iteration.
- Machine.Run: the source loops without bound. The model runs at most one iteration per supplied draw and then ends with `Continue`. A program that never halts or faults is therefore seen only over finite prefixes.
- Interpreter.Cpu.Run: the same bound as `Machine.Run`.
- The bodies of the display, keyboard, timer, BCD, block-transfer and font methods are stubs (`todo!`) in the source. The model keeps only their dispatch and the `NotImplemented` fault.
- Panic and `todo!` messages are not modelled. Only the kind of fault is kept.
- Debug-build overflow panics are not modelled: `+=` and `-` on `u8` wrap modulo 256 as in a release build. A debug build would panic where 7xkk, 8xy5 or 8xy7 overflow.
- After a fault, the model returns the state at the point of failure. The source aborts the process, so there is no later state to compare with.
- The program counter is `usize` in the source and `nat` here. Its largest reachable value is 0x10FE, so a 64-bit wrap cannot occur.
- The `u16` truncation of the pushed return address is modelled, but it never changes a value, because the pushed address is at most 4096.
- `src/main.rs` prints with `println!`. The model returns the two printed values from `Scenarios.Demo` instead.

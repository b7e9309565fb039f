# Eight-register byte machine: a Dafny model of its execution engine

This project models the fetch-decode-execute engine of `cpu.py`, an emulator
for a small machine with eight registers (register 7 is the stack pointer),
256 memory cells, a program counter, a running flag and a flag register FL.
The model covers:

- the instruction set: thirteen instruction bytes and the rule that the top
  two bits of a byte give its operand count and bit 4 says whether the
  handler sets the program counter itself;
- the CPU record and its construction;
- every handler in the dispatch table (HLT, LDI, PRN, ADD through the ALU,
  MUL, PUSH and POP through the push/pop helpers, CALL, RET, CMP, JMP, JEQ,
  JNE);
- one step of the run loop, as a pure function from a state to a new state
  or a fault;
- the run loop itself, bounded by a fuel argument.

Modules, in dependency order:

- `Opcodes` (`opcodes.dfy`): instruction bytes, decoding, the layout rule.
- `State` (`state.dfy`): the CPU record, faults, guarded memory and register
  access.
- `Handlers` (`handlers.dfy`): the stack helpers, the ALU and one function
  per handler, plus the dispatch `Execute`.
- `Engine` (`engine.dfy`): `Fetch`, `Step`, `Run`, and exact one-step
  lemmas for each instruction.
- `Properties` (`properties.dfy`): properties that span several operations.
  These are stack LIFO order, PUSH/POP and CALL/RET pairing, JEQ/JNE
  complementarity, and a complete run of a small program.

Modelling decisions:

- **Unbounded values.** Registers and memory cells are unbounded integers,
  as Python integers are. ADD, MUL, LDI and the stack-pointer moves never
  reduce modulo 256. `cpu.py` never masks register or memory
  values: they are unbounded Python ints (cpu.py:76, 78, 130, 133, 141).
- **Guarded indices.** Every memory address and register index is checked.
  An address outside 0..255 is an `AddressFault`. A register index outside
  0..7 is a `RegisterFault`. The Python list's negative-index wrap-around
  is deliberately not modelled: a negative index is a fault.
- **Faults.** A fault ends the step with no state change. `Run` reports the
  state before the faulting step.
- **Unknown opcodes.** An unknown instruction byte is
  `UnknownOpcode(byte)`. The source prints the byte and then raises.
- **Instruction arithmetic.** `(IR >> 6) + 1` is written `IR / 64 + 1`.
  `(IR >> 4) & 1` is written `(IR / 16) % 2`. Dafny's division by a
  positive constant rounds down, so these agree with Python's shift for
  every integer.
- **Output.** PRN's console output is an `out` sequence in the state; each
  PRN appends one value.
- **Handler details kept from the source:**
  - CMP only ever sets FL to 1; it never clears it.
  - The not-taken branch of JEQ/JNE does not read register `a`.
  - POP into the stack pointer keeps the popped value.
  - CALL reads its target register after the push.
  - PUSH pushes the register's value from before the stack pointer moves.

## Model

| member | source | states |
|---|---|---|
| Opcodes.Encode | cpu.py:4-16 | each of the 13 operations has its instruction byte, a value in 0..255 |
| Opcodes.Size | cpu.py:108 | `(IR >> 6) + 1` for a byte is 1, 2, 3 or 4 according to its top two bits |
| Opcodes.SetsPc | cpu.py:109 | `((IR >> 4) & 1) == 1` holds exactly when IR's low five bits are at least 16 |
| Opcodes.Decode | cpu.py:108-114 | a byte decodes exactly when some operation has that byte; a decoded byte's length `(IR >> 6) + 1` equals one plus the operation's operand count, and its bit 4 is set exactly for CALL, RET, JMP, JEQ, JNE |
| Opcodes.DecodeEncode | cpu.py:34-48 | every operation in the dispatch table is found again from its own byte |
| Opcodes.EncodeInjective | cpu.py:4-16 | no two operations share an instruction byte |
| State.Boot | cpu.py:25-32 | a new CPU has 8 registers that are all zero except SP = 0xF4, 256 memory cells, pc 0, running, FL 0 |
| State.RamRead | cpu.py:50-51 | reading succeeds exactly for addresses 0..255 and returns that cell; otherwise an address fault |
| State.RamWrite | cpu.py:53-54 | writing succeeds exactly for addresses 0..255, sets that cell and changes no other part of the state |
| State.Reg | cpu.py:126-127 | a register read succeeds exactly for indices 0..7 and returns that register |
| State.SetReg | cpu.py:123-124 | a register write succeeds exactly for indices 0..7, sets that register and changes nothing else |
| State.RamReadAfterWrite | cpu.py:50-54 | a read after a write sees the written value at that address and the old contents elsewhere |
| State.RegAfterSetReg | cpu.py:123-124 | a register read after a register write sees the written value there and the old value elsewhere |
| Handlers.PushValue | cpu.py:132-134 | push decrements SP first and then stores the value at the new SP; it fails exactly when SP - 1 is not an address, and no other register or cell changes |
| Handlers.PopValue | cpu.py:139-142 | pop returns the cell at SP and then increments SP; it fails exactly when SP is not an address, and nothing else changes |
| Handlers.Alu | cpu.py:72-80 | "ADD" and "MUL" replace register a by the unbounded sum or product and touch nothing else; any other name is rejected |
| Handlers.Hlt | cpu.py:120-121 | the running flag becomes false and nothing else changes |
| Handlers.Ldi | cpu.py:123-124 | register a receives operand b and no other register changes |
| Handlers.Prn | cpu.py:126-127 | register a's value is appended to the output and nothing else changes |
| Handlers.Mul | cpu.py:129-130 | register a becomes the unbounded product of registers a and b and no other register changes |
| Handlers.Add | cpu.py:154-155 | register a becomes the unbounded sum of registers a and b and no other register changes |
| Handlers.Push | cpu.py:136-137 | SP moves down by one and the new top cell holds register a's old value; no other register or memory cell changes, nor pc, FL, output or running |
| Handlers.Pop | cpu.py:144-145 | register a receives the top cell; SP moves up by one unless a is SP; no other register changes |
| Handlers.Call | cpu.py:147-149 | pc + 2 is pushed and pc becomes register a as read after the push; no other register or memory cell changes, nor FL, output or running |
| Handlers.Ret | cpu.py:151-152 | pc becomes the top cell and SP moves up by one; nothing else changes |
| Handlers.Cmp | cpu.py:157-159 | FL becomes 1 when the registers are equal and is unchanged otherwise; nothing else changes |
| Handlers.Jmp | cpu.py:161-162 | pc becomes register a and nothing else changes |
| Handlers.Jeq | cpu.py:164-168 | it jumps to register a when FL is 1 and otherwise sets pc to pc + 2; it fails only on a taken jump with a bad register |
| Handlers.Jne | cpu.py:170-174 | it jumps to register a when FL is not 1 and otherwise sets pc to pc + 2; it fails only on a taken jump with a bad register |
| Handlers.Execute | cpu.py:34-48 | for every operation, only control transfers move pc, output grows by at most one value, FL stays or becomes 1, and the machine stops exactly on HLT |
| Handlers.MulIsAluMul | cpu.py:129-130 | the in-place MUL handler computes the same result as the ALU's "MUL", faults included |
| Handlers.ConditionalJumpsComplement | cpu.py:164-174 | for any FL, exactly one of JEQ and JNE behaves as JMP and the other falls through |
| Engine.Fetch | cpu.py:105-107 | the byte at pc and the two after it are all fetched, so this succeeds exactly when 0 <= pc <= 253; it fails at the first bad address |
| Engine.Step | cpu.py:104-118 | a successful step had a decodable byte at pc; it keeps the state's shape, extends the output by at most one value, never clears FL, and stops exactly on HLT |
| Engine.Run | cpu.py:102-118 | a run ends as Halted exactly when its final state is not running; the output only grows; once FL is 1 it stays 1 |
| Engine.StepAdvance | cpu.py:108-118 | when bit 4 of IR is clear, pc advances by `(IR >> 6) + 1`, which is one plus the operand count; when it is set, pc is left where the handler put it; nothing else differs from the handler's result |
| Engine.StepHalt | cpu.py:117-121 | HLT clears the running flag and advances pc by one; nothing else changes |
| Engine.StepUnknown | cpu.py:110-114 | a byte outside the dispatch table faults with that byte |
| Engine.StepLoad | cpu.py:123-124 | LDI sets register a to b, changes nothing else, and advances pc by 3 |
| Engine.StepArithmetic | cpu.py:72-80 | ADD and MUL replace register a by the unbounded sum or product, change nothing else, and advance pc by 3 |
| Engine.StepCompare | cpu.py:157-159 | CMP sets FL to 1 on equality, leaves it otherwise, changes nothing else, and advances pc by 3 |
| Engine.StepPrint | cpu.py:126-127 | PRN appends register a to the output and advances pc by 2 |
| Engine.StepPush | cpu.py:132-137 | PUSH lowers SP by one, stores register a's old value at the new SP, and advances pc by 2 |
| Engine.StepPop | cpu.py:139-145 | POP loads the top cell into register a after raising SP by one, and advances pc by 2 |
| Engine.StepCall | cpu.py:147-149 | CALL lowers SP, stores pc + 2 at the new SP, and jumps to register a as read after the push |
| Engine.StepReturn | cpu.py:151-152 | RET jumps to the top cell and raises SP by one |
| Engine.StepJump | cpu.py:161-162 | JMP sets pc to register a and changes nothing else |
| Engine.StepConditional | cpu.py:164-174 | JEQ jumps exactly when FL is 1 and JNE exactly when it is not; otherwise pc advances by 2; only pc changes |
| Engine.RunStep | cpu.py:104-118 | unfolding helper for the loop: one successful step from a running machine, then the rest of the run with one unit of fuel less |
| Engine.RunStopped | cpu.py:104 | unfolding helper for the loop guard: a machine that is not running ends as Halted at once |
| Engine.RunHalt | cpu.py:104-121 | a running machine at an HLT byte halts after exactly one step with pc past the HLT |
| Engine.RunUnknown | cpu.py:110-114 | a running machine at an unknown byte stops with a fault naming that byte, in the state it had |
| Properties.PushAll | cpu.py:132-137 | pushing k values lowers SP by k and stores the i-th value at SP - 1 - i; no cell outside that window changes |
| Properties.PopAll | cpu.py:139-142 | popping k values returns the k cells from SP upwards and raises SP by k |
| Properties.PushThenPop | cpu.py:132-142 | a pop right after a push returns the pushed value and restores the register file, SP included |
| Properties.PushAllThenPopAll | cpu.py:132-142 | nested pushes and pops are last in, first out: popping what was pushed returns it reversed and restores SP and every other register, memory keeping the pushed cells |
| Properties.PopStack | cpu.py:139-142 | popping k values from a stack holding k pushed values returns them reversed and raises SP to where the pushes started |
| Properties.PushThenPopStep | cpu.py:132-145 | the instruction pair PUSH r; POP q copies register r into q, restores SP unless q is SP, and advances pc by 4, provided the stack cell is not one of the two POP bytes the step reads |
| Properties.CallThenReturn | cpu.py:147-152 | a RET whose stack is balanced with a preceding CALL returns to the CALL's pc + 2 with the caller's SP |
| Properties.ConditionalStepsComplement | cpu.py:164-174 | at the same place with the same operand, exactly one of JEQ and JNE jumps and the other goes to pc + 2 |
| Properties.MultiplyProgramRun | cpu.py:102-130 | any running machine at address 0 of the program "LDI R0,8; LDI R1,9; MUL R0,R1; PRN R0; HLT" halts after five steps, having appended 72 to its output |
| Properties.MultiplyProgramBoot | cpu.py:25-32 | a freshly constructed CPU whose memory holds that program followed by zeros prints exactly 72 and halts |

## Left out

- `load` (cpu.py:56-70): reading a program file is I/O. The model starts
  from any 256-cell memory image given to `Boot`.
- `trace` (cpu.py:82-100): diagnostic printing only.
- PRN's console output: it is the `out` sequence instead of a stream.
- Engine.Run: the source loop has no bound and may never end. The fuel
  argument stops the model after `fuel` steps with `OutOfFuel`. Whether a
  given program terminates is not modelled.
- Partial updates before a Python exception are not modelled. For example,
  a push whose new SP is out of range has already decremented SP in the
  source. In the model, every fault leaves the state as it was before the
  step.
- Negative memory addresses and register indices are treated as faults.
  Python lists would instead read from the end of the list.
- The exception text of the source is not modelled. The fault kinds stand
  in for it: address fault, register fault, unknown opcode, unsupported ALU
  operation.

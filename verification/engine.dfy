/** The fetch-decode-execute loop: one step, and a run bounded by fuel. */
module Engine {
  import opened Opcodes
  import opened State
  import opened Handlers

  /** The instruction byte and the two bytes after it, all three fetched
      unconditionally: even a one-byte instruction needs `pc + 2` to be a
      memory address. The first address outside memory is the fault. */
  function Fetch(s: Cpu): (r: Result<(int, int, int)>)
    requires Wf(s)
    ensures r.Ok? <==> 0 <= s.pc && s.pc + 2 < RamSize
    ensures r.Ok? ==> r.value == (s.ram[s.pc], s.ram[s.pc + 1], s.ram[s.pc + 2])
    ensures r.Err? ==> r.fault == AddressFault(if s.pc < 0 || s.pc >= RamSize then s.pc
                                              else if s.pc + 1 >= RamSize then s.pc + 1
                                              else s.pc + 2)
  {
    var ir :- RamRead(s, s.pc);
    var a :- RamRead(s, s.pc + 1);
    var b :- RamRead(s, s.pc + 2);
    Ok((ir, a, b))
  }

  /** One iteration of the run loop: fetch, decode, dispatch, and then
      advance the program counter by the instruction length unless bit 4 of
      the instruction byte says the handler has set it. A fault leaves
      nothing but the fault. */
  function Step(s: Cpu): (r: Result<Cpu>)
    requires Wf(s)
    ensures r.Ok? ==> 0 <= s.pc && s.pc + 2 < RamSize && Decode(s.ram[s.pc]).Some?
    ensures r.Ok? ==> Wf(r.value)
    ensures r.Ok? ==> s.out <= r.value.out && |r.value.out| <= |s.out| + 1
    ensures r.Ok? ==> r.value.fl == s.fl || r.value.fl == 1
    ensures r.Ok? ==> (r.value.running <==> s.running && s.ram[s.pc] != Encode(HLT))
  {
    var f :- Fetch(s);
    var ir := f.0;
    match Decode(ir)
    case None => Err(UnknownOpcode(ir))
    case Some(op) =>
      var t :- Execute(op, s, f.1, f.2);
      Ok(if SetsPc(ir) then t else t.(pc := t.pc + Size(ir)))
  }

  /** How a bounded run ends: the machine halted, a step faulted (the state
      is the one before the faulting step), or the fuel ran out. */
  datatype Outcome = Halted(final: Cpu) | Faulted(at: Cpu, fault: Fault) | OutOfFuel(last: Cpu) {
    function Last(): Cpu
    {
      match this
      case Halted(t) => t
      case Faulted(t, _) => t
      case OutOfFuel(t) => t
    }
  }

  /** The run loop, allowed at most `fuel` steps. The loop stops as soon as
      the running flag is false; a fault stops it with the state as it was.
      The output of the run extends the output already printed, and once FL
      is 1 it stays 1. */
  function Run(s: Cpu, fuel: nat): (r: Outcome)
    requires Wf(s)
    ensures Wf(r.Last())
    ensures r.Halted? <==> !r.Last().running
    ensures s.out <= r.Last().out
    ensures s.fl == 1 ==> r.Last().fl == 1
    decreases fuel
  {
    if !s.running then Halted(s)
    else if fuel == 0 then OutOfFuel(s)
    else
      match Step(s)
      case Err(e) => Faulted(s, e)
      case Ok(t) => Run(t, fuel - 1)
  }

  /** The advance rule. An instruction that does not set the program
      counter moves it past its own bytes, one plus its operand count; one
      that does leaves it where its handler put it. */
  lemma StepAdvance(s: Cpu)
    requires Wf(s) && Step(s).Ok?
    ensures var ir := s.ram[s.pc];
      var op := Decode(ir).value;
      var f := Execute(op, s, s.ram[s.pc + 1], s.ram[s.pc + 2]);
      && f.Ok?
      && (!SetsPc(ir) ==> Step(s).value.pc == s.pc + Size(ir) == s.pc + OperandCount(op) + 1)
      && (SetsPc(ir) ==> Step(s).value.pc == f.value.pc)
      && Step(s).value == f.value.(pc := Step(s).value.pc)
  {
  }

  /** HLT stops the machine and touches nothing but the running flag and
      the program counter, which still advances by one. */
  lemma StepHalt(s: Cpu)
    requires Wf(s) && 0 <= s.pc && s.pc + 2 < RamSize
    requires s.ram[s.pc] == Encode(HLT)
    ensures Step(s) == Ok(s.(running := false, pc := s.pc + 1))
  {
    DecodeEncode(HLT);
  }

  /** A byte outside the dispatch table faults before anything changes. */
  lemma StepUnknown(s: Cpu)
    requires Wf(s) && 0 <= s.pc && s.pc + 2 < RamSize
    requires Decode(s.ram[s.pc]).None?
    ensures Step(s) == Err(UnknownOpcode(s.ram[s.pc]))
  {
  }

  /** LDI loads register `a` with the operand byte `b`, changes nothing
      else, and advances by three. */
  lemma StepLoad(s: Cpu)
    requires Wf(s) && 0 <= s.pc && s.pc + 2 < RamSize
    requires s.ram[s.pc] == Encode(LDI) && IsReg(s.ram[s.pc + 1])
    ensures Step(s) == Ok(s.(reg := s.reg[s.ram[s.pc + 1] := s.ram[s.pc + 2]], pc := s.pc + 3))
  {
    DecodeEncode(LDI);
    var t := Ldi(s, s.ram[s.pc + 1], s.ram[s.pc + 2]).value;
    assert t.reg == s.reg[s.ram[s.pc + 1] := s.ram[s.pc + 2]];
  }

  /** ADD and MUL replace register `a` by the unbounded sum or product of
      registers `a` and `b`, change nothing else, and advance by three. */
  lemma StepArithmetic(s: Cpu, op: Op)
    requires Wf(s) && 0 <= s.pc && s.pc + 2 < RamSize
    requires op == ADD || op == MUL
    requires s.ram[s.pc] == Encode(op)
    requires IsReg(s.ram[s.pc + 1]) && IsReg(s.ram[s.pc + 2])
    ensures Step(s).Ok?
    ensures var a, b := s.ram[s.pc + 1], s.ram[s.pc + 2];
      var v := if op == ADD then s.reg[a] + s.reg[b] else s.reg[a] * s.reg[b];
      Step(s).value == s.(reg := s.reg[a := v], pc := s.pc + 3)
  {
    DecodeEncode(op);
    var a, b := s.ram[s.pc + 1], s.ram[s.pc + 2];
    var t := Execute(op, s, a, b).value;
    assert t.reg == s.reg[a := t.reg[a]];
  }

  /** CMP changes only FL, sets it exactly when the registers agree, and
      advances by three. */
  lemma StepCompare(s: Cpu)
    requires Wf(s) && 0 <= s.pc && s.pc + 2 < RamSize
    requires s.ram[s.pc] == Encode(CMP)
    requires IsReg(s.ram[s.pc + 1]) && IsReg(s.ram[s.pc + 2])
    ensures Step(s).Ok?
    ensures var a, b := s.ram[s.pc + 1], s.ram[s.pc + 2];
      Step(s).value == s.(fl := if s.reg[a] == s.reg[b] then 1 else s.fl, pc := s.pc + 3)
  {
    DecodeEncode(CMP);
  }

  /** PRN appends register `a` to the output, changes nothing else, and
      advances by two. */
  lemma StepPrint(s: Cpu)
    requires Wf(s) && 0 <= s.pc && s.pc + 2 < RamSize
    requires s.ram[s.pc] == Encode(PRN) && IsReg(s.ram[s.pc + 1])
    ensures Step(s) == Ok(s.(out := s.out + [s.reg[s.ram[s.pc + 1]]], pc := s.pc + 2))
  {
    DecodeEncode(PRN);
  }

  /** PUSH moves the stack pointer down by one, stores register `a` (as it
      was before the move) in the new top cell, and advances by two. */
  lemma StepPush(s: Cpu)
    requires Wf(s) && 0 <= s.pc && s.pc + 2 < RamSize
    requires s.ram[s.pc] == Encode(PUSH) && IsReg(s.ram[s.pc + 1])
    requires IsAddr(s.reg[SP] - 1)
    ensures var sp := s.reg[SP];
      Step(s) == Ok(s.(reg := s.reg[SP := sp - 1], ram := s.ram[sp - 1 := s.reg[s.ram[s.pc + 1]]], pc := s.pc + 2))
  {
    DecodeEncode(PUSH);
    var sp := s.reg[SP];
    var t := Push(s, s.ram[s.pc + 1]).value;
    assert t.reg == s.reg[SP := sp - 1];
    assert t.ram == s.ram[sp - 1 := s.reg[s.ram[s.pc + 1]]];
  }

  /** POP reads the top cell into register `a` after moving the stack
      pointer up by one (so POP of the stack pointer itself keeps the
      popped value), and advances by two. */
  lemma StepPop(s: Cpu)
    requires Wf(s) && 0 <= s.pc && s.pc + 2 < RamSize
    requires s.ram[s.pc] == Encode(POP) && IsReg(s.ram[s.pc + 1])
    requires IsAddr(s.reg[SP])
    ensures var sp := s.reg[SP];
      Step(s) == Ok(s.(reg := s.reg[SP := sp + 1][s.ram[s.pc + 1] := s.ram[sp]], pc := s.pc + 2))
  {
    DecodeEncode(POP);
    var t := Pop(s, s.ram[s.pc + 1]).value;
    assert t.reg == s.reg[SP := s.reg[SP] + 1][s.ram[s.pc + 1] := s.ram[s.reg[SP]]];
  }

  /** CALL pushes the address of the next instruction, `pc + 2`, and jumps
      to register `a` as read after the push. */
  lemma StepCall(s: Cpu)
    requires Wf(s) && 0 <= s.pc && s.pc + 2 < RamSize
    requires s.ram[s.pc] == Encode(CALL) && IsReg(s.ram[s.pc + 1])
    requires IsAddr(s.reg[SP] - 1)
    ensures var sp := s.reg[SP];
      var reg := s.reg[SP := sp - 1];
      Step(s) == Ok(s.(reg := reg, ram := s.ram[sp - 1 := s.pc + 2], pc := reg[s.ram[s.pc + 1]]))
  {
    DecodeEncode(CALL);
    var sp := s.reg[SP];
    var t := Call(s, s.ram[s.pc + 1]).value;
    assert t.reg == s.reg[SP := sp - 1];
    assert t.ram == s.ram[sp - 1 := s.pc + 2];
  }

  /** RET jumps to the address on top of the stack and pops it. */
  lemma StepReturn(s: Cpu)
    requires Wf(s) && 0 <= s.pc && s.pc + 2 < RamSize
    requires s.ram[s.pc] == Encode(RET)
    requires IsAddr(s.reg[SP])
    ensures var sp := s.reg[SP];
      Step(s) == Ok(s.(reg := s.reg[SP := sp + 1], pc := s.ram[sp]))
  {
    DecodeEncode(RET);
    var t := Ret(s).value;
    assert t.reg == s.reg[SP := s.reg[SP] + 1];
  }

  /** JMP sets the program counter to register `a` and changes nothing else. */
  lemma StepJump(s: Cpu)
    requires Wf(s) && 0 <= s.pc && s.pc + 2 < RamSize
    requires s.ram[s.pc] == Encode(JMP) && IsReg(s.ram[s.pc + 1])
    ensures Step(s) == Ok(s.(pc := s.reg[s.ram[s.pc + 1]]))
  {
    DecodeEncode(JMP);
  }

  /** JEQ jumps to register `a` exactly when FL is 1 and JNE exactly when it
      is not; the one that does not jump steps over its two bytes. Nothing
      but the program counter changes. */
  lemma StepConditional(s: Cpu, op: Op)
    requires Wf(s) && 0 <= s.pc && s.pc + 2 < RamSize
    requires op == JEQ || op == JNE
    requires s.ram[s.pc] == Encode(op) && IsReg(s.ram[s.pc + 1])
    ensures var jumps := (s.fl == 1) == (op == JEQ);
      Step(s) == Ok(s.(pc := if jumps then s.reg[s.ram[s.pc + 1]] else s.pc + 2))
  {
    DecodeEncode(op);
  }

  /** Unfolding helper: the loop's stopping case, for any fuel. */
  lemma RunStopped(s: Cpu, fuel: nat)
    requires Wf(s) && !s.running
    ensures Run(s, fuel) == Halted(s)
  {
  }

  /** Unfolding helper: the loop's continuing case, taking a successful
      step with one unit of fuel. */
  lemma RunStep(s: Cpu, t: Cpu, fuel: nat)
    requires Wf(s) && s.running && Step(s) == Ok(t)
    ensures Run(s, fuel + 1) == Run(t, fuel)
  {
  }

  /** A running machine whose next instruction is HLT halts after exactly
      one step, with the program counter moved past the HLT byte. */
  lemma RunHalt(s: Cpu, fuel: nat)
    requires Wf(s) && s.running && 0 <= s.pc && s.pc + 2 < RamSize
    requires s.ram[s.pc] == Encode(HLT)
    ensures Run(s, fuel + 1) == Halted(s.(running := false, pc := s.pc + 1))
  {
    StepHalt(s);
    RunStopped(s.(running := false, pc := s.pc + 1), fuel);
  }

  /** A running machine whose next byte is not an instruction faults on
      that step, reporting the state as it was and the offending byte. */
  lemma RunUnknown(s: Cpu, fuel: nat)
    requires Wf(s) && s.running && 0 <= s.pc && s.pc + 2 < RamSize
    requires Decode(s.ram[s.pc]).None?
    ensures Run(s, fuel + 1) == Faulted(s, UnknownOpcode(s.ram[s.pc]))
  {
    StepUnknown(s);
  }
}

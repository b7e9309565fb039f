/** The instruction handlers, the stack helpers they share, the ALU entry
    point, and the dispatch from a decoded operation to its handler.

    A handler receives the two bytes after the instruction byte (`a`, `b`)
    whether or not it uses them. Only the control-transfer handlers (CALL,
    RET, JMP, JEQ, JNE) touch the program counter; the engine advances it
    for all the others. */
module Handlers {
  import opened Opcodes
  import opened State

  /** The stack pointer moves by exactly one and nothing else in the
      register file changes. */
  predicate SpMoved(s: Cpu, t: Cpu, delta: int)
    requires Wf(s) && Wf(t)
  {
    && t.reg[SP] == s.reg[SP] + delta
    && forall j :: 0 <= j < RegCount && j != SP ==> t.reg[j] == s.reg[j]
  }

  /** Push: the stack pointer is decremented first, then `v` is stored at
      the new top. The new top must be a memory address. */
  function PushValue(s: Cpu, v: int): (r: Result<Cpu>)
    requires Wf(s)
    ensures r.Ok? <==> IsAddr(s.reg[SP] - 1)
    ensures r.Err? ==> r.fault == AddressFault(s.reg[SP] - 1)
    ensures r.Ok? ==> Wf(r.value) && SpMoved(s, r.value, -1)
    ensures r.Ok? ==> r.value.ram[r.value.reg[SP]] == v
    ensures r.Ok? ==> forall j :: 0 <= j < RamSize && j != s.reg[SP] - 1 ==> r.value.ram[j] == s.ram[j]
    ensures r.Ok? ==> r.value == s.(reg := r.value.reg, ram := r.value.ram)
  {
    var t := s.(reg := s.reg[SP := s.reg[SP] - 1]);
    RamWrite(t, t.reg[SP], v)
  }

  /** Pop: the value at the current top is read first, then the stack
      pointer is incremented. Returns the value and the new state. */
  function PopValue(s: Cpu): (r: Result<(int, Cpu)>)
    requires Wf(s)
    ensures r.Ok? <==> IsAddr(s.reg[SP])
    ensures r.Err? ==> r.fault == AddressFault(s.reg[SP])
    ensures r.Ok? ==> r.value.0 == s.ram[s.reg[SP]]
    ensures r.Ok? ==> Wf(r.value.1) && SpMoved(s, r.value.1, 1)
    ensures r.Ok? ==> r.value.1 == s.(reg := r.value.1.reg)
  {
    var v :- RamRead(s, s.reg[SP]);
    Ok((v, s.(reg := s.reg[SP := s.reg[SP] + 1])))
  }

  /** The ALU entry point, keyed by operation name. An unknown name is
      rejected before any register is looked at; otherwise register `a`
      receives the unbounded sum or product of registers `a` and `b`. */
  function Alu(s: Cpu, op: string, a: int, b: int): (r: Result<Cpu>)
    requires Wf(s)
    ensures op != "ADD" && op != "MUL" ==> r == Err(UnsupportedAlu(op))
    ensures (op == "ADD" || op == "MUL") ==> (r.Ok? <==> IsReg(a) && IsReg(b))
    ensures r.Ok? && op == "ADD" ==> RegFrame(s, r.value, a) && r.value.reg[a] == s.reg[a] + s.reg[b]
    ensures r.Ok? && op == "MUL" ==> RegFrame(s, r.value, a) && r.value.reg[a] == s.reg[a] * s.reg[b]
  {
    if op == "ADD" then
      var x :- Reg(s, a);
      var y :- Reg(s, b);
      SetReg(s, a, x + y)
    else if op == "MUL" then
      var x :- Reg(s, a);
      var y :- Reg(s, b);
      SetReg(s, a, x * y)
    else
      Err(UnsupportedAlu(op))
  }

  /** HLT: the machine stops running; nothing else changes. */
  function Hlt(s: Cpu): (r: Result<Cpu>)
    requires Wf(s)
    ensures r.Ok? && Wf(r.value) && !r.value.running
    ensures r.value.(running := s.running) == s
  {
    Ok(s.(running := false))
  }

  /** LDI: register `a` is loaded with the operand byte `b`. */
  function Ldi(s: Cpu, a: int, b: int): (r: Result<Cpu>)
    requires Wf(s)
    ensures r.Ok? <==> IsReg(a)
    ensures r.Err? ==> r.fault == RegisterFault(a)
    ensures r.Ok? ==> RegFrame(s, r.value, a) && r.value.reg[a] == b
  {
    SetReg(s, a, b)
  }

  /** PRN: the value of register `a` is appended to the output. */
  function Prn(s: Cpu, a: int): (r: Result<Cpu>)
    requires Wf(s)
    ensures r.Ok? <==> IsReg(a)
    ensures r.Err? ==> r.fault == RegisterFault(a)
    ensures r.Ok? ==> r.value == s.(out := r.value.out) && r.value.out == s.out + [s.reg[a]]
  {
    var v :- Reg(s, a);
    Ok(s.(out := s.out + [v]))
  }

  /** MUL: register `a` becomes the unbounded product of registers `a` and
      `b`. The handler multiplies in place instead of calling the ALU. */
  function Mul(s: Cpu, a: int, b: int): (r: Result<Cpu>)
    requires Wf(s)
    ensures r.Ok? <==> IsReg(a) && IsReg(b)
    ensures r.Err? ==> r.fault == RegisterFault(if IsReg(a) then b else a)
    ensures r.Ok? ==> RegFrame(s, r.value, a) && r.value.reg[a] == s.reg[a] * s.reg[b]
  {
    var x :- Reg(s, a);
    var y :- Reg(s, b);
    SetReg(s, a, x * y)
  }

  /** ADD: delegated to the ALU under the name "ADD". */
  function Add(s: Cpu, a: int, b: int): (r: Result<Cpu>)
    requires Wf(s)
    ensures r.Ok? <==> IsReg(a) && IsReg(b)
    ensures r.Ok? ==> RegFrame(s, r.value, a) && r.value.reg[a] == s.reg[a] + s.reg[b]
  {
    Alu(s, "ADD", a, b)
  }

  /** PUSH: the value of register `a` is pushed. */
  function Push(s: Cpu, a: int): (r: Result<Cpu>)
    requires Wf(s)
    ensures r.Ok? <==> IsReg(a) && IsAddr(s.reg[SP] - 1)
    ensures r.Ok? ==> Wf(r.value) && SpMoved(s, r.value, -1) && r.value.ram[r.value.reg[SP]] == s.reg[a]
    ensures r.Ok? ==> r.value == s.(reg := r.value.reg, ram := r.value.ram)
    ensures r.Ok? ==> forall j :: 0 <= j < RamSize && j != s.reg[SP] - 1 ==> r.value.ram[j] == s.ram[j]
  {
    var v :- Reg(s, a);
    PushValue(s, v)
  }

  /** POP: the popped value is stored in register `a`. When `a` is the
      stack pointer itself, the popped value overrides the increment. */
  function Pop(s: Cpu, a: int): (r: Result<Cpu>)
    requires Wf(s)
    ensures r.Ok? <==> IsAddr(s.reg[SP]) && IsReg(a)
    ensures r.Ok? ==> Wf(r.value) && r.value.reg[a] == s.ram[s.reg[SP]]
    ensures r.Ok? && a != SP ==> r.value.reg[SP] == s.reg[SP] + 1
    ensures r.Ok? ==> forall j :: 0 <= j < RegCount && j != a && j != SP ==> r.value.reg[j] == s.reg[j]
    ensures r.Ok? ==> r.value == s.(reg := r.value.reg)
  {
    var p :- PopValue(s);
    SetReg(p.1, a, p.0)
  }

  /** CALL: the return address `pc + 2` is pushed, then the program counter
      is set from register `a` (read after the push). */
  function Call(s: Cpu, a: int): (r: Result<Cpu>)
    requires Wf(s)
    ensures r.Ok? <==> IsAddr(s.reg[SP] - 1) && IsReg(a)
    ensures r.Ok? ==> Wf(r.value) && SpMoved(s, r.value, -1)
    ensures r.Ok? ==> r.value.ram[r.value.reg[SP]] == s.pc + 2
    ensures r.Ok? ==> r.value.pc == r.value.reg[a]
    ensures r.Ok? ==> r.value == s.(reg := r.value.reg, ram := r.value.ram, pc := r.value.pc)
    ensures r.Ok? ==> forall j :: 0 <= j < RamSize && j != s.reg[SP] - 1 ==> r.value.ram[j] == s.ram[j]
  {
    var t :- PushValue(s, s.pc + 2);
    var target :- Reg(t, a);
    Ok(t.(pc := target))
  }

  /** RET: the program counter is popped off the stack. */
  function Ret(s: Cpu): (r: Result<Cpu>)
    requires Wf(s)
    ensures r.Ok? <==> IsAddr(s.reg[SP])
    ensures r.Ok? ==> Wf(r.value) && SpMoved(s, r.value, 1)
    ensures r.Ok? ==> r.value.pc == s.ram[s.reg[SP]]
    ensures r.Ok? ==> r.value == s.(reg := r.value.reg, pc := r.value.pc)
  {
    var p :- PopValue(s);
    Ok(p.1.(pc := p.0))
  }

  /** CMP: FL becomes 1 when registers `a` and `b` are equal and is left
      as it was otherwise; the flag is never cleared. */
  function Cmp(s: Cpu, a: int, b: int): (r: Result<Cpu>)
    requires Wf(s)
    ensures r.Ok? <==> IsReg(a) && IsReg(b)
    ensures r.Ok? ==> r.value == s.(fl := r.value.fl)
    ensures r.Ok? ==> (s.reg[a] == s.reg[b] ==> r.value.fl == 1)
    ensures r.Ok? ==> (s.reg[a] != s.reg[b] ==> r.value.fl == s.fl)
  {
    var x :- Reg(s, a);
    var y :- Reg(s, b);
    Ok(if x == y then s.(fl := 1) else s)
  }

  /** JMP: the program counter is set from register `a`. */
  function Jmp(s: Cpu, a: int): (r: Result<Cpu>)
    requires Wf(s)
    ensures r.Ok? <==> IsReg(a)
    ensures r.Ok? ==> r.value == s.(pc := s.reg[a])
  {
    var target :- Reg(s, a);
    Ok(s.(pc := target))
  }

  /** The not-taken branch of a conditional jump: step over the two bytes
      of the instruction by hand, since the engine will not. */
  function FallThrough(s: Cpu): Cpu
  {
    s.(pc := s.pc + 2)
  }

  /** JEQ: jump when FL is 1, otherwise fall through. Register `a` is only
      read when the jump is taken. */
  function Jeq(s: Cpu, a: int): (r: Result<Cpu>)
    requires Wf(s)
    ensures r.Err? <==> s.fl == 1 && !IsReg(a)
    ensures r.Ok? ==> r.value == s.(pc := r.value.pc)
    ensures r.Ok? ==> r.value.pc == if s.fl == 1 then s.reg[a] else s.pc + 2
  {
    if s.fl == 1 then Jmp(s, a) else Ok(FallThrough(s))
  }

  /** JNE: jump when FL is not 1, otherwise fall through. */
  function Jne(s: Cpu, a: int): (r: Result<Cpu>)
    requires Wf(s)
    ensures r.Err? <==> s.fl != 1 && !IsReg(a)
    ensures r.Ok? ==> r.value == s.(pc := r.value.pc)
    ensures r.Ok? ==> r.value.pc == if s.fl != 1 then s.reg[a] else s.pc + 2
  {
    if s.fl != 1 then Jmp(s, a) else Ok(FallThrough(s))
  }

  /** Runs the handler the dispatch table associates with `op`.

      Whatever the operation: the state keeps its shape; only
      control-transfer operations move the program counter; the output only
      grows, by at most one value; FL either stays or becomes 1; and the
      machine stops running exactly when the operation is HLT. */
  function Execute(op: Op, s: Cpu, a: int, b: int): (r: Result<Cpu>)
    requires Wf(s)
    ensures r.Ok? ==> Wf(r.value)
    ensures r.Ok? && !IsControl(op) ==> r.value.pc == s.pc
    ensures r.Ok? ==> s.out <= r.value.out && |r.value.out| <= |s.out| + 1
    ensures r.Ok? ==> r.value.fl == s.fl || r.value.fl == 1
    ensures r.Ok? ==> (r.value.running <==> s.running && op != HLT)
  {
    match op
    case HLT  => Hlt(s)
    case LDI  => Ldi(s, a, b)
    case PRN  => Prn(s, a)
    case MUL  => Mul(s, a, b)
    case PUSH => Push(s, a)
    case POP  => Pop(s, a)
    case CALL => Call(s, a)
    case RET  => Ret(s)
    case ADD  => Add(s, a, b)
    case JMP  => Jmp(s, a)
    case CMP  => Cmp(s, a, b)
    case JEQ  => Jeq(s, a)
    case JNE  => Jne(s, a)
  }

  /** The MUL handler, which multiplies in place, computes exactly what the
      ALU computes for "MUL", faults included. */
  lemma MulIsAluMul(s: Cpu, a: int, b: int)
    requires Wf(s)
    ensures Mul(s, a, b) == Alu(s, "MUL", a, b)
  {
  }

  /** Of JEQ and JNE, exactly one jumps to register `a` and the other falls
      through; FL == 1 decides which. */
  lemma ConditionalJumpsComplement(s: Cpu, a: int)
    requires Wf(s) && IsReg(a)
    ensures s.fl == 1 ==> Jeq(s, a) == Jmp(s, a) && Jne(s, a) == Ok(FallThrough(s))
    ensures s.fl != 1 ==> Jne(s, a) == Jmp(s, a) && Jeq(s, a) == Ok(FallThrough(s))
  {
  }
}

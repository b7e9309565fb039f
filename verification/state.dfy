/** The machine state: eight registers (register 7 is the stack pointer),
    256 memory cells, the program counter, the running flag, the flag
    register FL, and the sequence of values PRN has printed so far.

    Registers and memory cells hold unbounded integers: additions,
    multiplications and stack-pointer moves are never reduced to a byte.
    Every register index and memory address is checked; an access outside
    the register file or the memory is a fault, never a wrap-around. */
module State {

  const RegCount := 8
  const RamSize := 256
  /** Register index of the stack pointer. */
  const SP := 7
  /** Initial stack pointer: the stack grows downwards from here. */
  const StackTop := 0xF4

  datatype Fault =
    | AddressFault(addr: int)      // memory index outside 0..255
    | RegisterFault(index: int)    // register index outside 0..7
    | UnknownOpcode(ir: int)       // instruction byte not in the dispatch table
    | UnsupportedAlu(name: string) // ALU operation name other than "ADD" / "MUL"

  datatype Result<+T> = Ok(value: T) | Err(fault: Fault) {
    predicate IsFailure() { Err? }

    function PropagateFailure<U>(): Result<U>
      requires Err?
    {
      Err(fault)
    }

    function Extract(): T
      requires Ok?
    {
      value
    }
  }

  datatype Cpu = Cpu(
    reg: seq<int>,
    ram: seq<int>,
    pc: int,
    running: bool,
    fl: int,
    out: seq<int>)

  /** The shape every CPU has from construction on. */
  predicate Wf(s: Cpu)
  {
    |s.reg| == RegCount && |s.ram| == RamSize
  }

  predicate IsReg(i: int) { 0 <= i < RegCount }

  predicate IsAddr(a: int) { 0 <= a < RamSize }

  /** `t` is `s` with at most register `i` changed. */
  predicate RegFrame(s: Cpu, t: Cpu, i: int)
    requires Wf(s)
  {
    && Wf(t)
    && t == s.(reg := t.reg)
    && forall j :: 0 <= j < RegCount && j != i ==> t.reg[j] == s.reg[j]
  }

  /** `t` is `s` with at most memory cell `a` changed. */
  predicate RamFrame(s: Cpu, t: Cpu, a: int)
    requires Wf(s)
  {
    && Wf(t)
    && t == s.(ram := t.ram)
    && forall j :: 0 <= j < RamSize && j != a ==> t.ram[j] == s.ram[j]
  }

  /** A freshly constructed CPU with the given memory image: all registers
      zero except the stack pointer, program counter 0, running, FL clear,
      nothing printed. */
  function Boot(image: seq<int>): (s: Cpu)
    requires |image| == RamSize
    ensures Wf(s) && s.ram == image
    ensures s.running && s.pc == 0 && s.fl == 0 && s.out == []
    ensures s.reg[SP] == StackTop
    ensures forall i :: 0 <= i < RegCount && i != SP ==> s.reg[i] == 0
  {
    Cpu([0, 0, 0, 0, 0, 0, 0, StackTop], image, 0, true, 0, [])
  }

  /** Reads memory cell `addr`; an address outside memory is a fault. */
  function RamRead(s: Cpu, addr: int): (r: Result<int>)
    requires Wf(s)
    ensures r.Ok? <==> IsAddr(addr)
    ensures r.Ok? ==> r.value == s.ram[addr]
    ensures r.Err? ==> r.fault == AddressFault(addr)
  {
    if IsAddr(addr) then Ok(s.ram[addr]) else Err(AddressFault(addr))
  }

  /** Stores `v` in memory cell `addr`, leaving every other part of the
      state alone; an address outside memory is a fault. */
  function RamWrite(s: Cpu, addr: int, v: int): (r: Result<Cpu>)
    requires Wf(s)
    ensures r.Ok? <==> IsAddr(addr)
    ensures r.Ok? ==> RamFrame(s, r.value, addr) && r.value.ram[addr] == v
    ensures r.Err? ==> r.fault == AddressFault(addr)
  {
    if IsAddr(addr) then Ok(s.(ram := s.ram[addr := v])) else Err(AddressFault(addr))
  }

  /** Reads register `i`; an index outside the register file is a fault. */
  function Reg(s: Cpu, i: int): (r: Result<int>)
    requires Wf(s)
    ensures r.Ok? <==> IsReg(i)
    ensures r.Ok? ==> r.value == s.reg[i]
    ensures r.Err? ==> r.fault == RegisterFault(i)
  {
    if IsReg(i) then Ok(s.reg[i]) else Err(RegisterFault(i))
  }

  /** Stores `v` in register `i`, leaving every other part of the state
      alone; an index outside the register file is a fault. */
  function SetReg(s: Cpu, i: int, v: int): (r: Result<Cpu>)
    requires Wf(s)
    ensures r.Ok? <==> IsReg(i)
    ensures r.Ok? ==> RegFrame(s, r.value, i) && r.value.reg[i] == v
    ensures r.Err? ==> r.fault == RegisterFault(i)
  {
    if IsReg(i) then Ok(s.(reg := s.reg[i := v])) else Err(RegisterFault(i))
  }

  /** A read after a write sees the written value at the written address
      and the old contents everywhere else. */
  lemma RamReadAfterWrite(s: Cpu, a: int, v: int, b: int)
    requires Wf(s) && IsAddr(a)
    ensures RamWrite(s, a, v).Ok?
    ensures RamRead(RamWrite(s, a, v).value, b) == if a == b then Ok(v) else RamRead(s, b)
  {
  }

  /** The same for registers. */
  lemma RegAfterSetReg(s: Cpu, i: int, v: int, j: int)
    requires Wf(s) && IsReg(i)
    ensures SetReg(s, i, v).Ok?
    ensures Reg(SetReg(s, i, v).value, j) == if i == j then Ok(v) else Reg(s, j)
  {
  }
}

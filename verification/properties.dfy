/** Properties that relate several operations: the stack discipline of the
    push and pop helpers, instruction pairs that undo each other, and a
    complete run of a small program. */
module Properties {
  import opened Opcodes
  import opened State
  import opened Handlers
  import opened Engine

  /** Pushes the values of `vs` one after the other, `vs[0]` first. */
  function PushAll(s: Cpu, vs: seq<int>): (r: Result<Cpu>)
    requires Wf(s)
    ensures r.Ok? <==> vs == [] || (0 <= s.reg[SP] - |vs| && s.reg[SP] <= RamSize)
    ensures r.Ok? ==> Wf(r.value) && SpMoved(s, r.value, -|vs|)
    ensures r.Ok? ==> r.value == s.(reg := r.value.reg, ram := r.value.ram)
    ensures r.Ok? ==> forall i :: 0 <= i < |vs| ==> r.value.ram[s.reg[SP] - 1 - i] == vs[i]
    ensures r.Ok? ==> forall j :: 0 <= j < RamSize && !(s.reg[SP] - |vs| <= j < s.reg[SP]) ==> r.value.ram[j] == s.ram[j]
    decreases |vs|
  {
    if vs == [] then Ok(s)
    else
      var t :- PushValue(s, vs[0]);
      PushAll(t, vs[1..])
  }

  /** Pops `n` values; the first one popped comes first in the result. */
  function PopAll(s: Cpu, n: nat): (r: Result<(seq<int>, Cpu)>)
    requires Wf(s)
    ensures r.Ok? <==> n == 0 || (0 <= s.reg[SP] && s.reg[SP] + n <= RamSize)
    ensures r.Ok? ==> |r.value.0| == n
    ensures r.Ok? ==> forall i :: 0 <= i < n ==> r.value.0[i] == s.ram[s.reg[SP] + i]
    ensures r.Ok? ==> r.value.1 == s.(reg := s.reg[SP := s.reg[SP] + n])
    decreases n
  {
    if n == 0 then Ok(([], s))
    else
      var p :- PopValue(s);
      var q :- PopAll(p.1, n - 1);
      Ok(([p.0] + q.0, q.1))
  }

  /** `vs` backwards. */
  function Reverse(vs: seq<int>): (r: seq<int>)
    ensures |r| == |vs|
    ensures forall i :: 0 <= i < |vs| ==> r[i] == vs[|vs| - 1 - i]
  {
    if vs == [] then [] else Reverse(vs[1..]) + [vs[0]]
  }

  /** One push undone by one pop: the pushed value comes back and the
      register file, stack pointer included, is as before. Only the stack
      cell keeps the value. */
  lemma PushThenPop(s: Cpu, v: int)
    requires Wf(s) && IsAddr(s.reg[SP] - 1)
    ensures PushValue(s, v).Ok?
    ensures var t := PushValue(s, v).value;
      PopValue(t) == Ok((v, s.(ram := s.ram[s.reg[SP] - 1 := v])))
  {
    var t := PushValue(s, v).value;
    assert t.reg[SP := t.reg[SP] + 1] == s.reg;
    assert t.ram == s.ram[s.reg[SP] - 1 := v];
  }

  /** The stack is last in, first out: popping as many values as were
      pushed returns them in reverse order and restores the stack pointer
      and every other register. */
  lemma PushAllThenPopAll(s: Cpu, vs: seq<int>, t: Cpu)
    requires Wf(s) && PushAll(s, vs) == Ok(t)
    ensures PopAll(t, |vs|) == Ok((Reverse(vs), s.(ram := t.ram)))
  {
    PopAfterPush(s, t, vs);
  }

  /** The same, for any state `t` that has the shape pushing `vs` onto `s`
      leaves behind. */
  lemma PopAfterPush(s: Cpu, t: Cpu, vs: seq<int>)
    requires Wf(s) && Wf(t) && SpMoved(s, t, -|vs|)
    requires vs == [] || (0 <= s.reg[SP] - |vs| && s.reg[SP] <= RamSize)
    requires t == s.(reg := t.reg, ram := t.ram)
    requires forall i :: 0 <= i < |vs| ==> t.ram[s.reg[SP] - 1 - i] == vs[i]
    ensures PopAll(t, |vs|) == Ok((Reverse(vs), s.(ram := t.ram)))
  {
    StackPointerRestored(s, t, |vs|);
    if vs != [] {
      PopStack(t, s.reg[SP], vs);
    }
  }

  /** Raising the stack pointer of `t` by `n` gives back the registers of
      `s`, so the machine differs from `s` only in memory. */
  lemma StackPointerRestored(s: Cpu, t: Cpu, n: int)
    requires Wf(s) && Wf(t) && SpMoved(s, t, -n)
    requires t == s.(reg := t.reg, ram := t.ram)
    ensures t.(reg := t.reg[SP := t.reg[SP] + n]) == s.(ram := t.ram)
  {
    assert t.reg[SP := t.reg[SP] + n] == s.reg;
  }

  /** Popping `|vs|` values from a stack that holds `vs` pushed in order
      gives `vs` backwards and moves the stack pointer up to `top`. */
  lemma PopStack(t: Cpu, top: int, vs: seq<int>)
    requires Wf(t) && t.reg[SP] == top - |vs| && 0 <= t.reg[SP] && top <= RamSize
    requires forall i :: 0 <= i < |vs| ==> t.ram[top - 1 - i] == vs[i]
    ensures PopAll(t, |vs|) == Ok((Reverse(vs), t.(reg := t.reg[SP := top])))
  {
    var p := PopAll(t, |vs|).value;
    PoppedWindowReversed(t.ram, t.reg[SP], top, vs, p.0);
  }

  /** Reading upwards from `base` a window that `vs` was written into
      downwards from `top` gives `vs` backwards. */
  lemma PoppedWindowReversed(ram: seq<int>, base: int, top: int, vs: seq<int>, popped: seq<int>)
    requires base == top - |vs| && 0 <= base && top <= |ram| && |popped| == |vs|
    requires forall i :: 0 <= i < |vs| ==> ram[top - 1 - i] == vs[i]
    requires forall i :: 0 <= i < |vs| ==> popped[i] == ram[base + i]
    ensures popped == Reverse(vs)
  {
    var n := |vs|;
    forall i | 0 <= i < n
      ensures popped[i] == Reverse(vs)[i]
    {
      var j := n - 1 - i;
      assert top - 1 - j == base + i;
    }
  }

  /** PUSH r followed by POP q copies register r into register q and leaves
      every other register as it was, the stack pointer included unless q
      is the stack pointer. The stack cell keeps the copy, and the program
      counter has moved past both instructions. The stack cell must not be
      one of the two POP bytes the step uses. */
  lemma PushThenPopStep(s: Cpu)
    requires Wf(s) && 0 <= s.pc && s.pc + 4 < RamSize
    requires s.ram[s.pc] == Encode(PUSH) && IsReg(s.ram[s.pc + 1])
    requires s.ram[s.pc + 2] == Encode(POP) && IsReg(s.ram[s.pc + 3])
    requires IsAddr(s.reg[SP] - 1) && !(s.pc + 2 <= s.reg[SP] - 1 <= s.pc + 3)
    ensures Step(s).Ok? && Step(Step(s).value).Ok?
    ensures var r, q, sp := s.ram[s.pc + 1], s.ram[s.pc + 3], s.reg[SP];
      Step(Step(s).value).value
        == s.(reg := s.reg[q := s.reg[r]], ram := s.ram[sp - 1 := s.reg[r]], pc := s.pc + 4)
  {
    var r, q, sp := s.ram[s.pc + 1], s.ram[s.pc + 3], s.reg[SP];
    StepPush(s);
    var t := Step(s).value;
    assert t.pc == s.pc + 2 && t.reg[SP] == sp - 1;
    assert t.ram[t.pc] == Encode(POP) && t.ram[t.pc + 1] == q;
    StepPop(t);
    RegisterRestored(s.reg, SP, q, s.reg[r]);
  }

  /** Lowering a register and raising it again, then overwriting `q`, is
      overwriting `q`. */
  lemma RegisterRestored(reg: seq<int>, i: int, q: int, v: int)
    requires 0 <= i < |reg| && 0 <= q < |reg|
    ensures reg[i := reg[i] - 1][i := reg[i] - 1 + 1][q := v] == reg[q := v]
  {
    assert reg[i := reg[i] - 1][i := reg[i]] == reg;
  }

  /** CALL and RET pair up: if, after a CALL, the callee returns with the
      stack pointer where the CALL left it and the return address untouched,
      RET resumes at the instruction after the CALL with the caller's stack
      pointer. */
  lemma CallThenReturn(s: Cpu, u: Cpu)
    requires Wf(s) && 0 <= s.pc && s.pc + 2 < RamSize
    requires s.ram[s.pc] == Encode(CALL) && IsReg(s.ram[s.pc + 1])
    requires IsAddr(s.reg[SP] - 1)
    requires Wf(u) && 0 <= u.pc && u.pc + 2 < RamSize && u.ram[u.pc] == Encode(RET)
    requires Step(s).Ok? && u.reg[SP] == Step(s).value.reg[SP]
    requires u.ram[u.reg[SP]] == Step(s).value.ram[u.reg[SP]]
    ensures Step(u).Ok?
    ensures Step(u).value.pc == s.pc + 2
    ensures Step(u).value.reg[SP] == s.reg[SP]
  {
    StepCall(s);
    StepReturn(u);
  }

  /** Of JEQ and JNE at the same place with the same operand, exactly one
      jumps: the two successor program counters are the jump target and
      `pc + 2`, in an order decided by FL. */
  lemma ConditionalStepsComplement(s: Cpu, s': Cpu)
    requires Wf(s) && 0 <= s.pc && s.pc + 2 < RamSize
    requires s.ram[s.pc] == Encode(JEQ) && IsReg(s.ram[s.pc + 1])
    requires s' == s.(ram := s.ram[s.pc := Encode(JNE)])
    ensures Step(s).Ok? && Wf(s') && Step(s').Ok?
    ensures var target := s.reg[s.ram[s.pc + 1]];
      if s.fl == 1 then Step(s).value.pc == target && Step(s').value.pc == s.pc + 2
      else Step(s).value.pc == s.pc + 2 && Step(s').value.pc == target
  {
    StepConditional(s, JEQ);
    StepConditional(s', JNE);
  }

  /** A program that loads 8 and 9, multiplies them, prints the product
      and halts. */
  const MultiplyProgram: seq<int> :=
    [Encode(LDI), 0, 8, Encode(LDI), 1, 9, Encode(MUL), 0, 1, Encode(PRN), 0, Encode(HLT)]

  /** Started at address 0 of a memory that begins with that program, a
      running machine prints 72 and halts after five steps, with the product
      in register 0 and the program counter just past the HLT byte. */
  lemma MultiplyProgramRun(s: Cpu)
    requires Wf(s) && s.running && s.pc == 0
    requires s.ram[..|MultiplyProgram|] == MultiplyProgram
    ensures var r := Run(s, 5);
      && r.Halted?
      && r.final.out == s.out + [72]
      && r.final.reg[0] == 72 && r.final.reg[1] == 9
      && r.final.pc == 12
  {
    assert forall i :: 0 <= i < |MultiplyProgram| ==> s.ram[i] == s.ram[..|MultiplyProgram|][i];
    StepLoad(s);
    var s1 := Step(s).value;
    StepLoad(s1);
    var s2 := Step(s1).value;
    MultiplyProgramTail(s2);
  }

  /** The last three instructions of that program, from address 6 with the
      operands loaded. */
  lemma MultiplyProgramTail(s: Cpu)
    requires Wf(s) && s.running && s.pc == 6 && s.reg[0] == 8 && s.reg[1] == 9
    requires forall i :: 6 <= i < |MultiplyProgram| ==> s.ram[i] == MultiplyProgram[i]
    ensures var r := Run(s, 3);
      && r.Halted?
      && r.final.out == s.out + [72]
      && r.final.reg[0] == 72 && r.final.reg[1] == 9
      && r.final.pc == 12
  {
    StepArithmetic(s, MUL);
    var s1 := Step(s).value;
    StepPrint(s1);
    var s2 := Step(s1).value;
    RunHalt(s2, 0);
  }

  /** In particular a freshly booted machine whose memory holds the program
      followed by zeros prints exactly 72. */
  lemma MultiplyProgramBoot()
    ensures var image := MultiplyProgram + seq(RamSize - |MultiplyProgram|, _ => 0);
      |image| == RamSize && Run(Boot(image), 5).Halted? && Run(Boot(image), 5).final.out == [72]
  {
    var image := MultiplyProgram + seq(RamSize - |MultiplyProgram|, _ => 0);
    assert image[..|MultiplyProgram|] == MultiplyProgram;
    MultiplyProgramRun(Boot(image));
  }
}

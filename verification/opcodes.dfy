/** The instruction bytes of the eight-register machine and the layout rule
    every instruction byte follows: the two top bits give the operand count,
    bit 4 says whether the instruction sets the program counter itself. */
module Opcodes {

  datatype Option<+T> = None | Some(value: T)

  /** The closed instruction set: one constructor per entry of the dispatch table. */
  datatype Op = HLT | LDI | PRN | MUL | ADD | PUSH | POP | CALL | RET | CMP | JMP | JEQ | JNE

  /** The instruction byte assigned to each operation. */
  function Encode(op: Op): (ir: int)
    ensures 0 <= ir < 256
  {
    match op
    case HLT  => 0x01  // 0b00000001
    case LDI  => 0x82  // 0b10000010
    case PRN  => 0x47  // 0b01000111
    case MUL  => 0xA2  // 0b10100010
    case ADD  => 0xA0  // 0b10100000
    case PUSH => 0x45  // 0b01000101
    case POP  => 0x46  // 0b01000110
    case CALL => 0x50  // 0b01010000
    case RET  => 0x11  // 0b00010001
    case CMP  => 0xA7  // 0b10100111
    case JMP  => 0x54  // 0b01010100
    case JEQ  => 0x55  // 0b01010101
    case JNE  => 0x56  // 0b01010110
  }

  /** How many operand bytes each instruction uses, read off the instruction
      table rather than computed from the byte. */
  function OperandCount(op: Op): nat
  {
    match op
    case HLT | RET => 0
    case PRN | PUSH | POP | CALL | JMP | JEQ | JNE => 1
    case LDI | MUL | ADD | CMP => 2
  }

  /** The instructions whose handler decides the next program counter. */
  predicate IsControl(op: Op)
  {
    op == CALL || op == RET || op == JMP || op == JEQ || op == JNE
  }

  /** Instruction length `(IR >> 6) + 1`. Division by a positive constant
      rounds down in Dafny, as an arithmetic right shift does, so this is
      the shift for every integer IR, negative ones included. */
  function Size(ir: int): (n: int)
    ensures 0 <= ir < 256 ==> 1 <= n <= 4
    ensures 0 <= ir < 256 ==>
      && (n == 1 <==> ir < 0x40)
      && (n == 2 <==> 0x40 <= ir < 0x80)
      && (n == 3 <==> 0x80 <= ir < 0xC0)
      && (n == 4 <==> 0xC0 <= ir)
  {
    ir / 64 + 1
  }

  /** Bit 4 of the instruction byte, `((IR >> 4) & 1) == 1`: set exactly
      when the low five bits are 16 or more. */
  predicate SetsPc(ir: int): (b: bool)
    ensures b <==> 16 <= ir % 32
  {
    BitFour(ir);
    (ir / 16) % 2 == 1
  }

  /** Bit 4 of `ir` read off its quotient by 16 and off its remainder
      modulo 32 agree. */
  lemma BitFour(ir: int)
    ensures (ir / 16) % 2 == 1 <==> 16 <= ir % 32
  {
    var k, m := ir / 32, ir % 32;
    assert ir == 16 * (2 * k + m / 16) + m % 16;
    assert ir / 16 == 2 * k + m / 16;
    assert (ir / 16) % 2 == m / 16;
  }

  /** Looks an instruction byte up in the dispatch table. A hit is the one
      operation encoded by that byte, and the byte's own layout bits agree
      with that operation's operand count and control-transfer nature. */
  function Decode(ir: int): (r: Option<Op>)
    ensures r.Some? ==> Encode(r.value) == ir
    ensures r.None? ==> forall op: Op :: Encode(op) != ir
    ensures r.Some? ==> Size(ir) == OperandCount(r.value) + 1
    ensures r.Some? ==> (SetsPc(ir) <==> IsControl(r.value))
  {
    if ir == 0x01 then Some(HLT)
    else if ir == 0x82 then Some(LDI)
    else if ir == 0x47 then Some(PRN)
    else if ir == 0xA2 then Some(MUL)
    else if ir == 0xA0 then Some(ADD)
    else if ir == 0x45 then Some(PUSH)
    else if ir == 0x46 then Some(POP)
    else if ir == 0x50 then Some(CALL)
    else if ir == 0x11 then Some(RET)
    else if ir == 0xA7 then Some(CMP)
    else if ir == 0x54 then Some(JMP)
    else if ir == 0x55 then Some(JEQ)
    else if ir == 0x56 then Some(JNE)
    else None
  }

  /** Decoding inverts encoding: every operation is found again from its byte. */
  lemma DecodeEncode(op: Op)
    ensures Decode(Encode(op)) == Some(op)
  {
    match op
    case HLT => case LDI => case PRN => case MUL => case ADD =>
    case PUSH => case POP => case CALL => case RET => case CMP =>
    case JMP => case JEQ => case JNE =>
  }

  /** Distinct operations have distinct bytes, so the table is a function. */
  lemma EncodeInjective(op1: Op, op2: Op)
    ensures Encode(op1) == Encode(op2) ==> op1 == op2
  {
    DecodeEncode(op1);
    DecodeEncode(op2);
  }
}

/** The instruction-execution core of the 8080 emulator (src/cpu.rs): the flag
    record, the ten-entry instruction table, the handlers, and the dispatcher
    `process_instruction`, first as a specification on values (`State`, `Exec`)
    and then as the `Cpu` class whose methods update their fields in place. */
module Cpu8080 {
  import opened Bits

  const NumOfInstructions := 10
  const MemorySize := 16000

  datatype Option<T> = None | Some(value: T)

  /** The status flags. `pad` is an inert reserved field. */
  datatype Flags = Flags(z: bool, s: bool, p: bool, cy: bool, ac: bool, pad: u8)

  /** One constructor per handler bound in the table; `Rlc` is `rlc_1`. */
  datatype Op = Nop | LxiBD16 | StaxB | InxB | InrB | DcrB | MviBD8 | Rlc | DadB

  /** A table entry. `name` is printed and `cycles` is never read. */
  datatype Instruction = Instruction(name: string, op: Op, cycles: u8)

  /** The table built by `Cpu::new`, indexed by opcode; slot 0x08 is a second NOP. */
  const Table: seq<Instruction> := [
    Instruction("NOP", Nop, 1),
    Instruction("LXI B,D16", LxiBD16, 3),
    Instruction("STAX B", StaxB, 2),
    Instruction("INX B", InxB, 1),
    Instruction("INR B", InrB, 1),
    Instruction("DCR B", DcrB, 1),
    Instruction("MVI B,D8", MviBD8, 2),
    Instruction("RLC 1", Rlc, 1),
    Instruction("NOP", Nop, 1),
    Instruction("DAD B", DadB, 3)
  ]

  /** The opcode each handler's comment documents. */
  function OpcodeOf(op: Op): u8 {
    match op
    case Nop => 0x00
    case LxiBD16 => 0x01
    case StaxB => 0x02
    case InxB => 0x03
    case InrB => 0x04
    case DcrB => 0x05
    case MviBD8 => 0x06
    case Rlc => 0x07
    case DadB => 0x09
  }

  /** The instruction length in bytes that each handler's comment documents. */
  function Length(op: Op): nat {
    match op
    case LxiBD16 => 3
    case MviBD8 => 2
    case _ => 1
  }

  /** Looks an opcode up in the table; opcodes past its end have no entry. The
      table agrees with the opcodes the handlers document, and every other
      slot in it is a NOP. */
  function Decode(opcode: nat): (r: Option<Op>)
    ensures r.Some? <==> opcode < NumOfInstructions
    ensures r.Some? ==> opcode == OpcodeOf(r.value) || (opcode == 0x08 && r.value == Nop)
  {
    if opcode < |Table| then Some(Table[opcode].op) else None
  }

  /** Every handler can be reached through the opcode its comment documents. */
  lemma DecodeOpcodeOf(op: Op)
    ensures Decode(OpcodeOf(op)) == Some(op)
  {
  }

  /** What would make the source panic: indexing memory out of range, or
      indexing the table past its ten entries. */
  datatype Fault = AddressOutOfRange(addr: nat) | UnimplementedOpcode(opcode: u8, at: nat)

  datatype Result<T> = Ok(value: T) | Err(fault: Fault)

  /** The observable state of a `Cpu`: registers, program counter, memory,
      flags and the interrupt-enable byte. */
  datatype State = State(
    a: u8, b: u8, c: u8, d: u8, e: u8, h: u8, l: u8,
    sp: u16,
    pc: nat,
    mem: seq<u8>,
    flags: Flags,
    intEnable: u8)

  /** The state `Cpu::new` builds. */
  function Initial(): (s: State)
    ensures |s.mem| == MemorySize
  {
    State(1, 1, 1, 1, 1, 1, 1, 1, 0, seq(MemorySize, _ => 0),
          Flags(true, true, true, true, true, 3), 0)
  }

  /** The first out-of-range memory access `op` makes when it runs at `pc`
      with register pair BC == `bc` over a memory of `size` cells. Operand
      bytes are read at pc+1 and pc+2; STAX B writes at BC. */
  function AccessFault(op: Op, pc: nat, bc: u16, size: nat): (r: Option<Fault>)
    ensures r.None? <==>
      && (op == LxiBD16 ==> pc + 2 < size)
      && (op == MviBD8 ==> pc + 1 < size)
      && (op == StaxB ==> bc < size)
    ensures r.Some? ==> r.value.AddressOutOfRange? && r.value.addr >= size
  {
    match op
    case LxiBD16 =>
      if pc + 1 >= size then Some(AddressOutOfRange(pc + 1))
      else if pc + 2 >= size then Some(AddressOutOfRange(pc + 2))
      else None
    case MviBD8 =>
      if pc + 1 >= size then Some(AddressOutOfRange(pc + 1)) else None
    case StaxB =>
      if bc >= size then Some(AddressOutOfRange(bc)) else None
    case _ => None
  }

  /** `self.b -= 1`, corrected to 8-bit wrap-around: the result is one less
      than `v` modulo 256. */
  function Decrement(v: u8): (r: u8)
    ensures (r + 1) % 0x100 == v
  {
    if v == 0 then 0xFF else v - 1
  }

  /** `self.b -= 1` as written on a `u16`: subtracting from 0 overflows, which
      panics; on every other value it is the ordinary predecessor. */
  function DecrementAsWritten(v: u16): (r: Option<u16>)
    ensures r.None? <==> v == 0
    ensures r.Some? ==> r.value + 1 == v
  {
    if v == 0 then None else Some(v - 1)
  }

  /** B = 0 is where the two disagree: the source panics, an 8080 gives 0xFF. */
  lemma DecrementUnderflow()
    ensures DecrementAsWritten(0) == None && Decrement(0) == 0xFF
  {
  }

  /** The result of DAD B: the new H and L and the carry flag. */
  datatype PairSum = PairSum(h: u8, l: u8, carry: bool)

  /** DAD B with the sum kept to 17 bits, as the comment `HL = HL + BC` with
      CY intends: HL becomes the sum modulo 2^16 and CY records the carry out
      of bit 15. */
  function AddPairs(h: u8, l: u8, b: u8, c: u8): (r: PairSum)
    ensures Pair(r.h, r.l) == (Pair(h, l) + Pair(b, c)) % 0x1_0000
    ensures r.carry <==> Pair(h, l) + Pair(b, c) >= 0x1_0000
  {
    var res := Pair(h, l) + Pair(b, c);
    var hi := (res / 0x100) % 0x100;
    var lo := res % 0x100;
    Low16(res);
    PairSum(hi, lo, res / 0x1_0000 > 0)
  }

  /** DAD B as written: the sum is a `u16`, so a sum of 2^16 or more overflows
      (a panic), and masking a `u16` with 0xffff0000 always gives 0, so the
      carry it reports is always false. */
  function AddPairsAsWritten(h: u8, l: u8, b: u8, c: u8): (r: Option<PairSum>)
    ensures r.None? <==> Pair(h, l) + Pair(b, c) >= 0x1_0000
    ensures r.Some? ==> !r.value.carry
    ensures r.Some? ==> Pair(r.value.h, r.value.l) == Pair(h, l) + Pair(b, c)
  {
    var sum := Pair(h, l) + Pair(b, c);
    if sum >= 0x1_0000 then None
    else
      var res: u16 := sum;
      Some(PairSum((res / 0x100) % 0x100, res % 0x100, res / 0x1_0000 > 0))
  }

  /** HL = 0xFFFF, BC = 0x0001 is where the two disagree: the source panics
      (and could never report the carry), the intended result is HL = 0 with
      CY set. */
  lemma AddPairsCarryLost()
    ensures AddPairsAsWritten(0xFF, 0xFF, 0x00, 0x01) == None
    ensures AddPairs(0xFF, 0xFF, 0x00, 0x01) == PairSum(0, 0, true)
  {
    assert Pair(0xFF, 0xFF) + Pair(0x00, 0x01) == 0x1_0000;
    var r := AddPairs(0xFF, 0xFF, 0x00, 0x01);
    assert Pair(r.h, r.l) == 0;
  }

  /** What handler `op` does to `s`, including its own change to the program
      counter (LXI B adds 2, MVI B adds 1) but not the dispatcher's. Each
      handler touches only what its comment names: A, D, E, SP, the
      interrupt byte, AC and the reserved flag bits never change, memory
      changes only under STAX B, CY only under DAD B, Z, S and P only under
      DCR B. */
  function Execute(op: Op, s: State): (r: State)
    requires AccessFault(op, s.pc, Pair(s.b, s.c), |s.mem|).None?
    ensures r.a == s.a && r.d == s.d && r.e == s.e && r.sp == s.sp && r.intEnable == s.intEnable
    ensures |r.mem| == |s.mem| && (op != StaxB ==> r.mem == s.mem)
    ensures r.flags.ac == s.flags.ac && r.flags.pad == s.flags.pad
    ensures op != DadB ==> r.flags.cy == s.flags.cy
    ensures op != DcrB ==> r.flags.z == s.flags.z && r.flags.s == s.flags.s && r.flags.p == s.flags.p
    ensures op !in {LxiBD16, DcrB, MviBD8} ==> r.b == s.b
    ensures op != LxiBD16 ==> r.c == s.c
    ensures op != DadB ==> r.h == s.h && r.l == s.l
    ensures r.pc + 1 == s.pc + Length(op)
  {
    match op
    case Nop => s
    case LxiBD16 => s.(c := s.mem[s.pc + 1], b := s.mem[s.pc + 2], pc := s.pc + 2)
    case StaxB => s.(mem := s.mem[Pair(s.b, s.c) := s.a])
    case InxB => s
    case InrB => s
    case DcrB =>
      var v := Decrement(s.b);
      s.(b := v, flags := s.flags.(z := 0 == v, s := (v / 0x80) % 2 == 1, p := OnesBelow(v, 8) % 2 == 0))
    case MviBD8 => s.(b := s.mem[s.pc + 1], pc := s.pc + 1)
    case Rlc => s
    case DadB =>
      var sum := AddPairs(s.h, s.l, s.b, s.c);
      s.(h := sum.h, l := sum.l, flags := s.flags.(cy := sum.carry))
  }

  /** `process_instruction` on a value: fetch the opcode at PC, look it up,
      run the handler, then add 1 to PC. An index out of range (PC, the
      table, an operand or the STAX address) is a fault here and leaves no
      new state; the two `u16` overflows of DCR B and DAD B are replaced by
      8-bit and 16-bit wrap-around (`Decrement`, `AddPairs`). A completed step moves
      PC past exactly the bytes the instruction documents, and never changes
      A, D, E, SP or the interrupt byte. */
  function Exec(s: State): (r: Result<State>)
    ensures r.Ok? <==>
      && s.pc < |s.mem|
      && s.mem[s.pc] < NumOfInstructions
      && AccessFault(Decode(s.mem[s.pc]).value, s.pc, Pair(s.b, s.c), |s.mem|).None?
    ensures s.pc >= |s.mem| ==> r == Err(AddressOutOfRange(s.pc))
    ensures s.pc < |s.mem| && s.mem[s.pc] >= NumOfInstructions ==>
      r == Err(UnimplementedOpcode(s.mem[s.pc], s.pc))
    ensures s.pc < |s.mem| && s.mem[s.pc] < NumOfInstructions ==>
      var f := AccessFault(Decode(s.mem[s.pc]).value, s.pc, Pair(s.b, s.c), |s.mem|);
      f.Some? ==> r == Err(f.value)
    ensures r.Ok? ==> r.value.pc == s.pc + Length(Decode(s.mem[s.pc]).value)
    ensures r.Ok? ==>
      && r.value.a == s.a && r.value.d == s.d && r.value.e == s.e
      && r.value.sp == s.sp && r.value.intEnable == s.intEnable
      && |r.value.mem| == |s.mem|
  {
    if s.pc >= |s.mem| then Err(AddressOutOfRange(s.pc))
    else
      var opcode := s.mem[s.pc];
      match Decode(opcode)
      case None => Err(UnimplementedOpcode(opcode, s.pc))
      case Some(op) =>
        match AccessFault(op, s.pc, Pair(s.b, s.c), |s.mem|)
        case Some(f) => Err(f)
        case None =>
          var t := Execute(op, s);
          Ok(t.(pc := t.pc + 1))
  }

  /** The emulated processor, updated in place. `memory` and the instruction
      table are fixed at construction. */
  class Cpu {
    var a: u8
    var b: u8
    var c: u8
    var d: u8
    var e: u8
    var h: u8
    var l: u8
    var sp: u16
    var pc: nat
    const memory: array<u8>
    const instructions: seq<Instruction>
    var flags: Flags
    var intEnable: u8

    ghost predicate Valid() {
      memory.Length == MemorySize && instructions == Table
    }

    /** The observable state, as a value. */
    ghost function Snapshot(): State
      reads this, memory
    {
      State(a, b, c, d, e, h, l, sp, pc, memory[..], flags, intEnable)
    }

    /** `Cpu::new`: every register 1 except PC = 0, memory all zero, every
        flag set, the reserved bits 3, interrupts off. */
    constructor ()
      ensures Valid() && fresh(memory)
      ensures Snapshot() == Initial()
    {
      a, b, c := 1, 1, 1;
      d, e, h := 1, 1, 1;
      l, sp, pc := 1, 1, 0;
      memory := new u8[MemorySize](_ => 0);
      flags := Flags(true, true, true, true, true, 3);
      instructions := Table;
      intEnable := 0;
      new;
      assert memory[..] == seq(MemorySize, _ => 0);
    }

    /** NOP. */
    method Nop()
      requires Valid()
      ensures Snapshot() == Execute(Op.Nop, old(Snapshot()))
    {
    }

    /** LXI B,D16: C := byte 2, B := byte 3, and the handler's own PC += 2. */
    method LxiBD16()
      requires Valid() && pc + 2 < memory.Length
      modifies this
      ensures Snapshot() == Execute(Op.LxiBD16, old(Snapshot()))
    {
      c := memory[pc + 1];
      b := memory[pc + 2];
      pc := pc + 2;
    }

    /** STAX B: memory[BC] := A. */
    method StaxB()
      requires Valid() && Pair(b, c) < memory.Length
      modifies memory
      ensures Snapshot() == Execute(Op.StaxB, old(Snapshot()))
    {
      var addr := Pair(b, c);
      memory[addr] := a;
    }

    /** INX B: a stub that only prints. */
    method InxB()
      requires Valid()
      ensures Snapshot() == Execute(Op.InxB, old(Snapshot()))
    {
    }

    /** INR B: a stub that only prints. */
    method InrB()
      requires Valid()
      ensures Snapshot() == Execute(Op.InrB, old(Snapshot()))
    {
    }

    /** DCR B: B := B - 1 (wrapping at 8 bits), then Z, S and P from the new B. */
    method DcrB()
      requires Valid()
      modifies this
      ensures Snapshot() == Execute(Op.DcrB, old(Snapshot()))
    {
      b := Decrement(b);
      flags := flags.(z := 0 == b);
      flags := flags.(s := (b / 0x80) % 2 == 1);
      var even := Parity(b, 8);
      flags := flags.(p := even);
    }

    /** MVI B,D8: B := byte 2, and the handler's own PC += 1. */
    method MviBD8()
      requires Valid() && pc + 1 < memory.Length
      modifies this
      ensures Snapshot() == Execute(Op.MviBD8, old(Snapshot()))
    {
      b := memory[pc + 1];
      pc := pc + 1;
    }

    /** RLC (`rlc_1`): a stub that returns at once. */
    method Rlc1()
      requires Valid()
      ensures Snapshot() == Execute(Op.Rlc, old(Snapshot()))
    {
    }

    /** DAD B: HL := HL + BC with the carry out of bit 15 in CY. */
    method DadB()
      requires Valid()
      modifies this
      ensures Snapshot() == Execute(Op.DadB, old(Snapshot()))
    {
      var sum := AddPairs(h, l, b, c);
      h := sum.h;
      l := sum.l;
      flags := flags.(cy := sum.carry);
    }

    /** `Instruction::call`: runs the handler bound to `op`. */
    method Call(op: Op)
      requires Valid() && AccessFault(op, pc, Pair(b, c), memory.Length).None?
      modifies this, memory
      ensures Snapshot() == Execute(op, old(Snapshot()))
    {
      match op
      case Nop => Nop();
      case LxiBD16 => LxiBD16();
      case StaxB => StaxB();
      case InxB => InxB();
      case InrB => InrB();
      case DcrB => DcrB();
      case MviBD8 => MviBD8();
      case Rlc => Rlc1();
      case DadB => DadB();
    }

    /** `process_instruction`: fetch, look up, call, then PC += 1. Where the
        source would index out of range it returns the fault and changes
        nothing. */
    method ProcessInstruction() returns (fault: Option<Fault>)
      requires Valid()
      modifies this, memory
      ensures Exec(old(Snapshot())) == if fault.None? then Ok(Snapshot()) else Err(fault.value)
      ensures fault.Some? ==> Snapshot() == old(Snapshot())
    {
      if pc >= memory.Length {
        return Some(AddressOutOfRange(pc));
      }
      var opcode := memory[pc];
      if opcode >= |instructions| {
        return Some(UnimplementedOpcode(opcode, pc));
      }
      var instruction := instructions[opcode];
      fault := AccessFault(instruction.op, pc, Pair(b, c), memory.Length);
      if fault.Some? {
        return;
      }
      Call(instruction.op);
      pc := pc + 1;
    }
  }
}

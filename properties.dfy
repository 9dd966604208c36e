/** What one call of `process_instruction` does, instruction by instruction,
    stated on the value-level specification `Exec`; the scenarios of the
    source's own unit tests; and a two-instruction program. */
module Cpu8080Properties {
  import opened Bits
  import opened Cpu8080

  /** A fetched opcode that is in the table and whose operands are in range
      runs its handler, then PC moves one further. */
  lemma Dispatch(s: State, op: Op)
    requires s.pc < |s.mem| && Decode(s.mem[s.pc]) == Some(op)
    requires AccessFault(op, s.pc, Pair(s.b, s.c), |s.mem|).None?
    ensures Exec(s) == Ok(Execute(op, s).(pc := Execute(op, s).pc + 1))
  {
  }

  /** NOP (0x00, and the second NOP slot 0x08) changes nothing but PC, which
      moves past its one byte. */
  lemma NopStep(s: State)
    requires s.pc < |s.mem| && (s.mem[s.pc] == 0x00 || s.mem[s.pc] == 0x08)
    ensures Exec(s) == Ok(s.(pc := s.pc + 1))
  {
  }

  /** The stubs INX B, INR B and RLC (0x03, 0x04, 0x07) behave as NOP. */
  lemma StubStep(s: State)
    requires s.pc < |s.mem| && (s.mem[s.pc] == 0x03 || s.mem[s.pc] == 0x04 || s.mem[s.pc] == 0x07)
    ensures Exec(s) == Ok(s.(pc := s.pc + 1))
  {
  }

  /** LXI B,D16 (0x01): C := memory[PC+1], B := memory[PC+2], PC += 3, and
      nothing else changes; it faults at the first operand address past the
      end of memory. */
  lemma LxiBD16Step(s: State)
    requires s.pc < |s.mem| && s.mem[s.pc] == 0x01
    ensures s.pc + 1 >= |s.mem| ==> Exec(s) == Err(AddressOutOfRange(s.pc + 1))
    ensures s.pc + 1 < |s.mem| <= s.pc + 2 ==> Exec(s) == Err(AddressOutOfRange(s.pc + 2))
    ensures s.pc + 2 < |s.mem| ==>
      Exec(s) == Ok(s.(c := s.mem[s.pc + 1], b := s.mem[s.pc + 2], pc := s.pc + 3))
  {
  }

  /** STAX B (0x02): the cell addressed by BC receives A, every other cell
      keeps its value, flags and registers are untouched and PC += 1; a BC
      past the end of memory faults. */
  lemma StaxBStep(s: State)
    requires s.pc < |s.mem| && s.mem[s.pc] == 0x02
    ensures Pair(s.b, s.c) >= |s.mem| ==> Exec(s) == Err(AddressOutOfRange(Pair(s.b, s.c)))
    ensures Pair(s.b, s.c) < |s.mem| ==>
      && Exec(s).Ok?
      && var t := Exec(s).value;
      && |t.mem| == |s.mem|
      && t.mem[Pair(s.b, s.c)] == s.a
      && (forall k :: 0 <= k < |s.mem| && k != Pair(s.b, s.c) ==> t.mem[k] == s.mem[k])
      && t == s.(mem := t.mem, pc := s.pc + 1)
  {
  }

  /** DCR B (0x05): B becomes B - 1 modulo 256; Z is set iff the new B is 0,
      S iff its bit 7 is set, P iff it has an even number of set bits; CY
      and AC keep their values, PC += 1, and nothing else changes. */
  lemma DcrBStep(s: State)
    requires s.pc < |s.mem| && s.mem[s.pc] == 0x05
    ensures Exec(s).Ok?
    ensures var t := Exec(s).value;
      && (t.b + 1) % 0x100 == s.b
      && (t.flags.z <==> t.b == 0)
      && (t.flags.s <==> t.b >= 0x80)
      && (t.flags.p <==> OnesBelow(t.b, 8) % 2 == 0)
      && t.flags.cy == s.flags.cy && t.flags.ac == s.flags.ac && t.flags.pad == s.flags.pad
      && t == s.(b := t.b, flags := t.flags, pc := s.pc + 1)
  {
    Dispatch(s, DcrB);
    var v := Decrement(s.b);
    SignBit(v);
    assert Execute(DcrB, s) == s.(b := v, flags := s.flags.(z := 0 == v, s := (v / 0x80) % 2 == 1, p := OnesBelow(v, 8) % 2 == 0));
  }

  /** MVI B,D8 (0x06): B := memory[PC+1] and PC += 2; an operand past the end
      of memory faults. */
  lemma MviBD8Step(s: State)
    requires s.pc < |s.mem| && s.mem[s.pc] == 0x06
    ensures s.pc + 1 >= |s.mem| ==> Exec(s) == Err(AddressOutOfRange(s.pc + 1))
    ensures s.pc + 1 < |s.mem| ==> Exec(s) == Ok(s.(b := s.mem[s.pc + 1], pc := s.pc + 2))
  {
  }

  /** One DAD B step as a whole state: H, L and CY from `AddPairs`, PC + 1. */
  lemma DadBExec(s: State)
    requires s.pc < |s.mem| && s.mem[s.pc] == 0x09
    ensures var sum := AddPairs(s.h, s.l, s.b, s.c);
      Exec(s) == Ok(s.(h := sum.h, l := sum.l, flags := s.flags.(cy := sum.carry), pc := s.pc + 1))
  {
    Dispatch(s, DadB);
    var sum := AddPairs(s.h, s.l, s.b, s.c);
    assert Execute(DadB, s) == s.(h := sum.h, l := sum.l, flags := s.flags.(cy := sum.carry));
  }

  /** DAD B (0x09): HL becomes HL + BC modulo 2^16, CY is set iff the sum
      reaches 2^16, no other flag changes, PC += 1. */
  lemma DadBStep(s: State)
    requires s.pc < |s.mem| && s.mem[s.pc] == 0x09
    ensures Exec(s).Ok?
    ensures var t := Exec(s).value;
      && Pair(t.h, t.l) == (Pair(s.h, s.l) + Pair(s.b, s.c)) % 0x1_0000
      && (t.flags.cy <==> Pair(s.h, s.l) + Pair(s.b, s.c) >= 0x1_0000)
      && t.flags == s.flags.(cy := t.flags.cy)
      && t == s.(h := t.h, l := t.l, flags := t.flags, pc := s.pc + 1)
  {
    DadBExec(s);
  }

  /** The state of `Cpu::new` with `program` poked into memory from address 0. */
  function Loaded(program: seq<u8>): (s: State)
    requires |program| <= MemorySize
    ensures |s.mem| == MemorySize && s.mem[..|program|] == program
    ensures forall k :: |program| <= k < MemorySize ==> s.mem[k] == 0
    ensures s == Initial().(mem := s.mem)
  {
    Initial().(mem := program + Initial().mem[|program|..])
  }

  /** Test `nop_increments_program_counter`: from the initial state (memory
      all zero) one step leaves flags and memory alone and PC = 1. */
  lemma NopIncrementsProgramCounter()
    ensures Exec(Initial()).Ok?
    ensures var t := Exec(Initial()).value;
      t.flags == Initial().flags && t.mem == Initial().mem && t.pc == 1
  {
    NopStep(Initial());
  }

  /** Test `lxi_b_d16_changes_c_and_b`: program [0x01, 1, 2] loads C = 1 and
      B = 2, PC = 3, flags and memory unchanged. */
  lemma LxiBD16ChangesCAndB()
    ensures var s := Loaded([0x01, 1, 2]);
      && Exec(s).Ok?
      && var t := Exec(s).value;
      && t.flags == s.flags && t.mem == s.mem
      && t.c == 1 && t.b == 2 && t.pc == 3
  {
    var s := Loaded([0x01, 1, 2]);
    assert s.mem[0] == 0x01 && s.mem[1] == 1 && s.mem[2] == 2 by {
      assert s.mem[..3] == [0x01, 1, 2];
    }
    LxiBD16Step(s);
  }

  /** Test `stax_b_moves_a_into_addr_bc`: with B = 1 and C = 2, STAX B stores
      A in cell 258 and leaves the flags alone. */
  lemma StaxBMovesAIntoAddrBC()
    ensures var s := Loaded([0x02]).(b := 1, c := 2);
      && Exec(s).Ok?
      && var t := Exec(s).value;
      && t.flags == s.flags && t.mem[258] == s.a
  {
    var s := Loaded([0x02]).(b := 1, c := 2);
    assert s.mem[0] == 0x02 by {
      assert s.mem[..1] == [0x02];
    }
    StaxBStep(s);
  }

  /** Test `dcr_b_handles_zero_result`: with B = 1 and every flag set, DCR B
      leaves B = 0 with Z and P still set, S now clear, CY unchanged. */
  lemma DcrBHandlesZeroResult()
    ensures var s := Loaded([0x05]).(b := 1);
      && Exec(s).Ok?
      && var t := Exec(s).value;
      && t.flags.z == s.flags.z && t.flags.s != s.flags.s
      && t.flags.p == s.flags.p && t.flags.cy == s.flags.cy
      && s.b == t.b + 1
  {
    var s := Loaded([0x05]).(b := 1);
    assert s.mem[0] == 0x05 by {
      assert s.mem[..1] == [0x05];
    }
    DcrBStep(s);
    assert OnesBelow(0, 8) == 0;
  }

  /** DAD B at the top of the range: HL = 0xFFFF plus BC = 0x0001 wraps HL to
      0x0000 and sets CY. */
  lemma DadBWrapsAndCarries(s: State)
    requires s.pc < |s.mem| && s.mem[s.pc] == 0x09
    requires Pair(s.h, s.l) == 0xFFFF && Pair(s.b, s.c) == 0x0001
    ensures Exec(s).Ok?
    ensures Pair(Exec(s).value.h, Exec(s).value.l) == 0x0000 && Exec(s).value.flags.cy
  {
    assert (Pair(s.h, s.l) + Pair(s.b, s.c)) % 0x1_0000 == 0x0000;
    DadBStep(s);
  }

  /** DAD B without overflow: HL = 0x0000 plus BC = 0x0001 gives HL = 0x0001
      and clears CY. */
  lemma DadBWithoutCarry(s: State)
    requires s.pc < |s.mem| && s.mem[s.pc] == 0x09
    requires Pair(s.h, s.l) == 0x0000 && Pair(s.b, s.c) == 0x0001
    ensures Exec(s).Ok?
    ensures Pair(Exec(s).value.h, Exec(s).value.l) == 0x0001 && !Exec(s).value.flags.cy
  {
    assert (Pair(s.h, s.l) + Pair(s.b, s.c)) % 0x1_0000 == 0x0001;
    DadBStep(s);
  }

  /** LXI B,D16 followed by STAX B stores A at the 16-bit address given as
      LXI's operand (low byte first), and leaves PC just past the program. */
  lemma LoadPairThenStore(s: State, lo: u8, hi: u8)
    requires s.pc + 3 < |s.mem|
    requires s.mem[s.pc] == 0x01 && s.mem[s.pc + 1] == lo && s.mem[s.pc + 2] == hi
    requires s.mem[s.pc + 3] == 0x02
    requires Pair(hi, lo) < |s.mem|
    ensures Exec(s).Ok? && Exec(Exec(s).value).Ok?
    ensures var u := Exec(Exec(s).value).value;
      && u.mem[Pair(hi, lo)] == s.a && u.pc == s.pc + 4 && u.flags == s.flags
      && u.b == hi && u.c == lo
  {
    LxiBD16Step(s);
    var t := Exec(s).value;
    assert t.mem == s.mem && t.pc == s.pc + 3 && t.b == hi && t.c == lo;
    StaxBStep(t);
  }
}

// What one step of parseOpcode (src/vm.go:150-398) does, stated about
// Semantics.Step for every machine and every instruction word: where pc goes,
// how the stack moves, which registers an instruction writes and with what,
// and which words end in log.Fatal.

module Properties {
  import opened Opcode
  import opened Bits
  import opened Semantics

  /** The word a step fetches from m. */
  function WordAt(m: Machine): (op: Word)
    requires Shaped(m) && CanStep(m)
    ensures op == m.mem[m.pc] as int * 0x100 + m.mem[m.pc + 1] as int
  {
    Fetch(m.mem, m.pc)
  }

  /** m as it stands once parseOpcode has cleared drawflag and loaded the
      opcode register, before the switch. */
  function Fetched(m: Machine): (f: Machine)
    requires Shaped(m) && CanStep(m)
    ensures f.opcode == WordAt(m) && !f.drawflag
    ensures f.(drawflag := m.drawflag, opcode := m.opcode) == m
  {
    m.(drawflag := false, opcode := WordAt(m))
  }

  /** A step on a known word is its case of the switch followed by pc += 2. */
  lemma StepRuns(m: Machine, rnd: Byte)
    requires Shaped(m) && CanStep(m) && Decode(WordAt(m)) != Unknown
    ensures Step(m, rnd) == Transition(Continue, Advance(Execute(Fetched(m), Decode(WordAt(m)), rnd)))
  {
  }

  // ----- Fetch and the fatal path -----

  /** Every step loads the big-endian word at pc into opcode, and drawflag
      comes out set exactly for 00E0 and Dxyn. */
  lemma {:induction false} StepFetches(m: Machine, rnd: Byte)
    requires Shaped(m) && CanStep(m)
    ensures Step(m, rnd).next.opcode == m.mem[m.pc] as int * 0x100 + m.mem[m.pc + 1] as int
    ensures Step(m, rnd).next.drawflag <==> Decode(WordAt(m)) == Cls || Decode(WordAt(m)).Draw?
  {
    if Decode(WordAt(m)) != Unknown {
      StepRuns(m, rnd);
    }
  }

  /** log.Fatal is reached exactly for the 0 family apart from 00E0 and 00EE,
      the 8 family with low nibble 8 to D or F, the E family apart from Ex9E
      and ExA1, and the whole F family. It reports the word and the pc it came
      from, and nothing but drawflag and opcode has changed by then. */
  lemma {:induction false} FatalWords(m: Machine, rnd: Byte)
    requires Shaped(m) && CanStep(m)
    ensures var op := WordAt(m);
      Step(m, rnd).status.Fatal? <==>
        (Family(op) == 0x0 && op != 0x00E0 && op != 0x00EE) ||
        (Family(op) == 0x8 && (8 <= N(op) <= 0xD || N(op) == 0xF)) ||
        (Family(op) == 0xE && KK(op) != 0x9E && KK(op) != 0xA1) ||
        Family(op) == 0xF
    ensures Step(m, rnd).status.Fatal? ==>
      Step(m, rnd).status == Fatal(WordAt(m), m.pc) &&
      Step(m, rnd).next == m.(drawflag := false, opcode := WordAt(m))
  {
    UnknownWords(WordAt(m));
  }

  /** The F family never runs: whatever x and low byte, the word is fatal. */
  lemma {:induction false} FamilyFIsFatal(m: Machine, rnd: Byte)
    requires Shaped(m) && CanStep(m) && m.mem[m.pc] >= 0xF0
    ensures Step(m, rnd).status == Fatal(WordAt(m), m.pc)
  {
    assert Family(WordAt(m)) == 0xF;
  }

  // ----- pc advance -----

  /** The instructions that do not touch pc in their case of the switch. */
  predicate Sequential(ins: Instr) {
    ins.Cls? || ins.LoadByte? || ins.AddByte? || ins.LoadReg? || ins.Or? ||
    ins.And? || ins.Xor? || ins.AddReg? || ins.Sub? || ins.ShiftRight? ||
    ins.SubN? || ins.ShiftLeft? || ins.LoadI? || ins.Random? || ins.Draw? ||
    ins.SkipKey? || ins.SkipNoKey?
  }

  /** Straight-line instructions move pc to the next word. pc + 1 < 4096 makes
      the uint16 increment exact. */
  lemma {:induction false} SequentialAdvance(m: Machine, rnd: Byte)
    requires Shaped(m) && CanStep(m) && Sequential(Decode(WordAt(m)))
    ensures Step(m, rnd).status == Continue
    ensures Step(m, rnd).next.pc == m.pc + 2
    ensures Step(m, rnd).next.sp == m.sp && Step(m, rnd).next.stack == m.stack
  {
    var f, ins := Fetched(m), Decode(WordAt(m));
    StepRuns(m, rnd);
    ExecuteKeepsPc(f, ins, rnd);
    ExecuteWrites(f, ins, rnd);
  }

  /** The case of a straight-line instruction does not write pc. */
  lemma ExecuteKeepsPc(m: Machine, ins: Instr, rnd: Byte)
    requires Shaped(m) && InBounds(m, ins) && Sequential(ins)
    ensures Execute(m, ins, rnd).pc == m.pc
  {
  }

  /** Whether the condition of a skip instruction holds in m. */
  predicate SkipTaken(m: Machine, ins: Instr)
    requires Shaped(m)
  {
    match ins
    case SkipEqByte(x, kk) => m.v[x] == kk
    case SkipNeByte(x, kk) => m.v[x] != kk
    case SkipEqReg(x, y) => m.v[x] == m.v[y]
    case SkipNeReg(x, y) => m.v[x] != m.v[y]
    case _ => false
  }

  /** 3xkk, 4xkk, 5xy_ and 9xy_ move pc four bytes on when their comparison
      holds and two when it does not, and change nothing else. */
  lemma {:induction false} SkipAdvance(m: Machine, rnd: Byte)
    requires Shaped(m) && CanStep(m)
    requires var ins := Decode(WordAt(m));
      ins.SkipEqByte? || ins.SkipNeByte? || ins.SkipEqReg? || ins.SkipNeReg?
    ensures Step(m, rnd).status == Continue
    ensures Step(m, rnd).next.pc == if SkipTaken(m, Decode(WordAt(m))) then m.pc + 4 else m.pc + 2
    ensures Step(m, rnd).next.(pc := m.pc) == Fetched(m)
  {
    var f, ins := Fetched(m), Decode(WordAt(m));
    StepRuns(m, rnd);
    ExecuteSkips(f, ins, rnd);
    assert SkipTaken(f, ins) == SkipTaken(m, ins);
  }

  /** The case of a skip instruction adds 2 to pc when its comparison holds
      and changes nothing otherwise. */
  lemma ExecuteSkips(m: Machine, ins: Instr, rnd: Byte)
    requires Shaped(m)
    requires ins.SkipEqByte? || ins.SkipNeByte? || ins.SkipEqReg? || ins.SkipNeReg?
    ensures Execute(m, ins, rnd) == if SkipTaken(m, ins) then Advance(m) else m
  {
  }

  /** The pc += 2 after the switch applies to jumps too: 1nnn and 2nnn leave
      pc at nnn + 2, and Bnnn at nnn + V0 + 2. 1nnn and Bnnn change nothing
      else after the fetch. */
  lemma {:induction false} JumpTargets(m: Machine, rnd: Byte)
    requires Shaped(m) && CanStep(m)
    requires var ins := Decode(WordAt(m)); ins.Jump? || ins.Call? || ins.JumpV0?
    ensures Step(m, rnd).status == Continue
    ensures var ins := Decode(WordAt(m));
      Step(m, rnd).next.pc == if ins.JumpV0? then ins.nnn + m.v[0] + 2 else ins.nnn + 2
    ensures var ins := Decode(WordAt(m));
      !ins.Call? ==> Step(m, rnd).next.(pc := m.pc) == Fetched(m)
  {
    StepRuns(m, rnd);
  }

  // ----- Call and return -----

  /** 2nnn increments sp first (wrapping as a uint16) and stores the address
      of the CALL itself at the new top; stack[0] is therefore never written
      by a CALL from an empty stack. Registers, I and memory are untouched. */
  lemma {:induction false} CallPushes(m: Machine, rnd: Byte)
    requires Shaped(m) && CanStep(m) && Decode(WordAt(m)).Call?
    ensures var t := Step(m, rnd);
      t.status == Continue &&
      t.next.sp == (m.sp + 1) % 0x1_0000 && t.next.sp < 16 &&
      t.next.stack[t.next.sp] == m.pc &&
      (forall k | 0 <= k < 16 && k != t.next.sp :: t.next.stack[k] == m.stack[k]) &&
      t.next.v == m.v && t.next.i == m.i && t.next.screen == m.screen
    ensures m.sp == 0 ==> Step(m, rnd).next.stack[0] == m.stack[0]
  {
    StepRuns(m, rnd);
  }

  /** 00EE reads stack[sp] and then decrements sp (wrapping as a uint16); pc
      ends two bytes past the saved address. Nothing but pc and sp changes
      after the fetch. */
  lemma {:induction false} RetPops(m: Machine, rnd: Byte)
    requires Shaped(m) && CanStep(m) && Decode(WordAt(m)) == Ret
    ensures var t := Step(m, rnd);
      t.status == Continue &&
      t.next.pc == (m.stack[m.sp] as int + 2) % 0x1_0000 &&
      t.next.sp == (m.sp as int + 0xFFFF) % 0x1_0000 &&
      t.next.stack == m.stack && t.next.v == m.v
    ensures Step(m, rnd).next.(pc := m.pc, sp := m.sp) == Fetched(m)
  {
    StepRuns(m, rnd);
  }

  /** A CALL to nnn runs the word at nnn + 2 next (pc += 2 follows the jump);
      when that word is 00EE, the RET restores sp and resumes two bytes past
      the CALL. */
  lemma {:induction false} CallThenRet(m: Machine, rnd1: Byte, rnd2: Byte)
    requires Shaped(m) && CanStep(m) && Decode(WordAt(m)).Call?
    requires var nnn := Decode(WordAt(m)).nnn;
      nnn + 3 < MemorySize && m.mem[nnn + 2] == 0x00 && m.mem[nnn + 3] == 0xEE
    ensures var m1 := Step(m, rnd1).next;
      m1.pc == Decode(WordAt(m)).nnn + 2 && CanStep(m1) &&
      Step(m1, rnd2).status == Continue &&
      Step(m1, rnd2).next.pc == m.pc + 2 &&
      Step(m1, rnd2).next.sp == m.sp &&
      Step(m1, rnd2).next.v == m.v
  {
    var m1 := Step(m, rnd1).next;
    CallPushes(m, rnd1);
    JumpTargets(m, rnd1);
    var nnn := Decode(WordAt(m)).nnn;
    assert m1.mem == m.mem && m1.pc == nnn + 2;
    ReturnTo(m1, rnd2, m.pc, m.sp);
  }

  /** The second half of CallThenRet: a 00EE at pc, with the stack top
      holding pc0 and sp one above sp0, resumes at pc0 + 2 with sp back at
      sp0. */
  lemma {:induction false} ReturnTo(m1: Machine, rnd: Byte, pc0: Word, sp0: Word)
    requires Shaped(m1) && m1.pc + 1 < MemorySize
    requires m1.mem[m1.pc] == 0x00 && m1.mem[m1.pc + 1] == 0xEE
    requires m1.sp == (sp0 as int + 1) % 0x1_0000 && m1.sp < 16 && m1.stack[m1.sp] == pc0 && pc0 + 1 < MemorySize
    ensures CanStep(m1) && Step(m1, rnd).status == Continue
    ensures Step(m1, rnd).next.pc == pc0 + 2 && Step(m1, rnd).next.sp == sp0
    ensures Step(m1, rnd).next.v == m1.v
  {
    assert Fetch(m1.mem, m1.pc) == 0x00EE;
    assert Decode(0x00EE) == Ret;
    RetPops(m1, rnd);
  }

  // ----- 7xkk, 6xkk, Annn and Cxkk -----

  /** 7xkk adds kk to Vx modulo 256 and touches nothing else, VF included. */
  lemma {:induction false} AddByteWraps(m: Machine, rnd: Byte)
    requires Shaped(m) && CanStep(m) && Decode(WordAt(m)).AddByte?
    ensures var ins := Decode(WordAt(m)); var t := Step(m, rnd);
      t.next.v[ins.x] == (m.v[ins.x] as int + ins.kk) % 0x100 &&
      (forall r | 0 <= r < 16 && r != ins.x :: t.next.v[r] == m.v[r]) &&
      t.next.(v := m.v) == Advance(Fetched(m))
  {
    StepRuns(m, rnd);
  }

  /** 6xkk loads the byte after the opcode's high byte into Vx, and writes
      nothing else: VF, the other registers, I, the stack, the screen and
      memory keep their values, and pc moves to the next word. */
  lemma {:induction false} LoadByteWritesVx(m: Machine, rnd: Byte)
    requires Shaped(m) && CanStep(m) && Decode(WordAt(m)).LoadByte?
    ensures var x := Decode(WordAt(m)).x; var t := Step(m, rnd);
      t.next.v[x] == m.mem[m.pc + 1] &&
      (forall r | 0 <= r < 16 && r != x :: t.next.v[r] == m.v[r]) &&
      t.next.(v := m.v) == Advance(Fetched(m))
  {
    StepRuns(m, rnd);
  }

  /** Annn sets I to the low twelve bits of the word and writes nothing else. */
  lemma {:induction false} LoadIOnly(m: Machine, rnd: Byte)
    requires Shaped(m) && CanStep(m) && Decode(WordAt(m)).LoadI?
    ensures var t := Step(m, rnd);
      t.next.i == WordAt(m) % 0x1000 && t.next.(i := m.i) == Advance(Fetched(m))
  {
    StepRuns(m, rnd);
  }

  /** Cxkk masks the random byte with kk: the result has no bit set outside
      kk (or-ing it into kk gives kk back), whatever the random byte, and no
      register but Vx changes. */
  lemma {:induction false} RandomWithinMask(m: Machine, rnd: Byte)
    requires Shaped(m) && CanStep(m) && Decode(WordAt(m)).Random?
    ensures var ins := Decode(WordAt(m)); var t := Step(m, rnd);
      Or8(t.next.v[ins.x], ins.kk) == ins.kk &&
      (forall r | 0 <= r < 16 && r != ins.x :: t.next.v[r] == m.v[r]) &&
      t.next.(v := m.v) == Advance(Fetched(m))
  {
    var ins := Decode(WordAt(m));
    StepRuns(m, rnd);
    And8WithinMask(rnd, ins.kk);
  }

  // ----- 8xy_ -----

  /** A step on an 8xy_ word changes the registers as Alu says, and nothing
      else but drawflag, opcode and pc. */
  lemma {:induction false} StepAlu(m: Machine, rnd: Byte)
    requires Shaped(m) && CanStep(m) && IsAlu(Decode(WordAt(m)))
    ensures Step(m, rnd) == Transition(Continue, Advance(Fetched(m)).(v := Alu(m.v, Decode(WordAt(m)))))
  {
    StepRuns(m, rnd);
  }

  /** 8xy0-8xy3 write Vx alone; VF and every other register keep their
      values. 8xy0 copies Vy. */
  lemma {:induction false} LogicWritesOnlyVx(v: seq<Byte>, ins: Instr)
    requires |v| == 16 && (ins.LoadReg? || ins.Or? || ins.And? || ins.Xor?)
    ensures |Alu(v, ins)| == 16
    ensures forall r | 0 <= r < 16 && r != ins.x :: Alu(v, ins)[r] == v[r]
    ensures ins.LoadReg? ==> Alu(v, ins)[ins.x] == v[ins.y]
  {
  }

  /** 8xy3 undoes itself: applied twice with x != y it gives the registers
      back. */
  lemma {:induction false} XorUndoes(v: seq<Byte>, x: Reg, y: Reg)
    requires |v| == 16 && x != y
    ensures Alu(Alu(v, Xor(x, y)), Xor(x, y)) == v
  {
    var v1 := Alu(v, Xor(x, y));
    assert v1 == v[x := Xor8(v[y], v[x])];
    Xor8Undoes(v[y], v[x]);
    assert Alu(v1, Xor(x, y)) == v1[x := Xor8(v[y], Xor8(v[y], v[x]))];
  }

  /** 8xy4 computes the sum in a uint8, so its carry test never holds: Vx
      gets the sum modulo 256 and, for x != F, VF gets 0, even when the true
      sum exceeds 255. For x = F the sum overwrites that 0. */
  lemma {:induction false} AddRegNeverCarries(v: seq<Byte>, x: Reg, y: Reg)
    requires |v| == 16
    ensures var w := Alu(v, AddReg(x, y));
      |w| == 16 && w[x] == (v[x] as int + v[y]) % 0x100 &&
      (x != VF ==> w[VF] == 0) &&
      (forall r | 0 <= r < 16 && r != x && r != VF :: w[r] == v[r])
  {
  }

  /** 8xy5, for x and y other than F: VF = 1 exactly when Vx > Vy (equal
      operands give 0), and Vx gets Vx - Vy modulo 256. */
  lemma {:induction false} SubFlag(v: seq<Byte>, x: Reg, y: Reg)
    requires |v| == 16 && x != VF && y != VF
    ensures var w := Alu(v, Sub(x, y));
      |w| == 16 && (w[VF] == 1 <==> v[x] > v[y]) && w[VF] <= 1 &&
      w[x] == (v[x] as int - v[y]) % 0x100 &&
      (forall r | 0 <= r < 16 && r != x && r != VF :: w[r] == v[r])
  {
  }

  /** 8xy7, for x and y other than F: VF = 1 exactly when Vy > Vx, and Vx
      gets Vy - Vx modulo 256. */
  lemma {:induction false} SubNFlag(v: seq<Byte>, x: Reg, y: Reg)
    requires |v| == 16 && x != VF && y != VF
    ensures var w := Alu(v, SubN(x, y));
      |w| == 16 && (w[VF] == 1 <==> v[y] > v[x]) && w[VF] <= 1 &&
      w[x] == (v[y] as int - v[x]) % 0x100 &&
      (forall r | 0 <= r < 16 && r != x && r != VF :: w[r] == v[r])
  {
  }

  /** With y = F, 8xy5 subtracts the flag it has just written, not the old
      VF: Vx - 1 when Vx > VF, Vx otherwise. */
  lemma {:induction false} SubReadsNewFlag(v: seq<Byte>, x: Reg)
    requires |v| == 16 && x != VF
    ensures Alu(v, Sub(x, VF))[x] == if v[x] > v[VF] then v[x] as int - 1 else v[x]
  {
  }

  /** 8xy6 shifts Vx right by one with zero fill and puts the bit shifted
      out in VF; Vy is not read. For x != F no bit is lost: 2 * Vx + VF
      afterwards is the old Vx. */
  lemma {:induction false} ShiftRightKeepsBits(v: seq<Byte>, x: Reg, y: Reg)
    requires |v| == 16 && x != VF
    ensures var w := Alu(v, ShiftRight(x, y));
      |w| == 16 && w[VF] <= 1 && 2 * w[x] as int + w[VF] == v[x] &&
      (forall r | 0 <= r < 16 && r != x && r != VF :: w[r] == v[r])
  {
  }

  /** 8xyE shifts Vx left by one, dropping the top bit into VF; Vy is not
      read. For x != F no bit is lost: Vx + 256 * VF afterwards is twice the
      old Vx. */
  lemma {:induction false} ShiftLeftKeepsBits(v: seq<Byte>, x: Reg, y: Reg)
    requires |v| == 16 && x != VF
    ensures var w := Alu(v, ShiftLeft(x, y));
      |w| == 16 && w[VF] <= 1 && w[x] as int + 0x100 * w[VF] as int == 2 * v[x] as int &&
      (forall r | 0 <= r < 16 && r != x && r != VF :: w[r] == v[r])
  {
  }

  /** For x = F the shift applies to the flag just written: 8Fy6 always
      leaves VF = 0, and 8FyE leaves 2 if the old VF had its top bit set and
      0 otherwise. */
  lemma {:induction false} ShiftFlagRegister(v: seq<Byte>, y: Reg)
    requires |v| == 16
    ensures Alu(v, ShiftRight(VF, y))[VF] == 0
    ensures Alu(v, ShiftLeft(VF, y))[VF] == if v[VF] >= 0x80 then 2 else 0
  {
  }

  // ----- Screen, keys and memory -----

  /** 00E0 blanks all 32 x 8 screen bytes, raises drawflag and changes no
      register; running it again from the same pc gives the same machine. */
  lemma {:induction false} ClearIsIdempotent(m: Machine, rnd1: Byte, rnd2: Byte)
    requires Shaped(m) && CanStep(m) && Decode(WordAt(m)) == Cls
    ensures var m1 := Step(m, rnd1).next;
      (forall r, c | 0 <= r < Rows && 0 <= c < RowBytes :: m1.screen[r][c] == 0) &&
      m1.drawflag && m1.v == m.v &&
      CanStep(m1.(pc := m.pc)) && Step(m1.(pc := m.pc), rnd2).next == m1
  {
    var m1 := Step(m, rnd1).next;
    StepRuns(m, rnd1);
    assert WordAt(m1.(pc := m.pc)) == WordAt(m);
  }

  /** Dxyn only raises drawflag and zeroes VF: the screen, memory and the
      other registers are untouched. */
  lemma {:induction false} DrawIsStub(m: Machine, rnd: Byte)
    requires Shaped(m) && CanStep(m) && Decode(WordAt(m)).Draw?
    ensures var t := Step(m, rnd);
      t.next.drawflag && t.next.v[VF] == 0 && t.next.screen == m.screen &&
      (forall r | 0 <= r < VF :: t.next.v[r] == m.v[r]) &&
      t.next.(drawflag := false, v := m.v) == Advance(Fetched(m))
  {
    StepRuns(m, rnd);
  }

  /** Ex9E and ExA1 have empty cases: the step only fetches and moves on,
      whatever the keys and Vx. */
  lemma {:induction false} KeysAreNoOps(m: Machine, rnd: Byte)
    requires Shaped(m) && CanStep(m)
    requires var ins := Decode(WordAt(m)); ins.SkipKey? || ins.SkipNoKey?
    ensures Step(m, rnd) == Transition(Continue, Advance(Fetched(m)))
  {
    StepRuns(m, rnd);
  }
}

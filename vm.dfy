// The VM struct of src/vm.go and the three operations on it: newVM,
// initialiseFont and parseOpcode, changing the struct's fields and arrays in
// place as the Go code does.

module Interpreter {
  import opened Opcode
  import opened Bits
  import Font
  import opened Semantics

  class VM {
    var pc: Word
    var sp: Word
    var I: Word
    var opcode: Word
    /** Set to 0 by newVM and written nowhere else: it paces the run loop,
        which is not part of this model. */
    const clockspeed: Word
    var drawflag: bool
    const stack: array<Word>
    /** [32][8]uint8: 32 rows of 8 bytes, 64 one-bit pixels a row. */
    const screen: array2<Byte>
    const memory: array<Byte>
    const V: array<Byte>

    /** The screen's contents as rows, kept equal to the array by Valid(). */
    ghost var Screen: seq<seq<Byte>>

    /** The sizes of the struct's arrays, and Screen mirrors screen. */
    ghost predicate Valid()
      reads this, screen
    {
      stack.Length == 16 && V.Length == 16 && memory.Length == MemorySize &&
      memory != V &&
      screen.Length0 == Rows && screen.Length1 == RowBytes &&
      |Screen| == Rows && (forall r | 0 <= r < Rows :: |Screen[r]| == RowBytes) &&
      forall r, c | 0 <= r < Rows && 0 <= c < RowBytes :: screen[r, c] == Screen[r][c]
    }

    /** The struct's fields as a Semantics.Machine value. */
    ghost function Model(): (m: Machine)
      requires Valid()
      reads this, stack, screen, memory, V
      ensures Shaped(m)
    {
      Machine(pc, sp, I, opcode, drawflag, V[..], stack[..], Screen, memory[..])
    }

    /** newVM, with the ROM file's bytes given: every field zero except
        pc = 0x200, the ROM copied to 0x200 (Go's copy stops at the end of
        memory, so at most 3584 bytes land), and the font at 0x050. */
    constructor (rom: seq<Byte>)
      ensures Valid()
      ensures fresh(stack) && fresh(screen) && fresh(memory) && fresh(V)
      ensures pc == 0x200 && sp == 0 && I == 0 && opcode == 0 && clockspeed == 0 && !drawflag
      ensures forall r | 0 <= r < 16 :: V[r] == 0 && stack[r] == 0
      ensures Screen == Blank()
      ensures forall d, r | 0 <= d < 16 && 0 <= r < 5 :: memory[Font.Base + 5 * d + r] == Font.Glyph(d)[r]
      ensures forall k | 0 <= k < |rom| && 0x200 + k < MemorySize :: memory[0x200 + k] == rom[k]
      ensures forall a | 0 <= a < MemorySize && !(Font.Base <= a < Font.Base + Font.Size) && !(0x200 <= a < 0x200 + |rom|) ::
        memory[a] == 0
    {
      pc := 0x200;
      sp, I, opcode, drawflag := 0, 0, 0, false;
      clockspeed := 0;
      stack := new Word[16](_ => 0);
      screen := new Byte[Rows, RowBytes]((_, _) => 0);
      memory := new Byte[MemorySize](_ => 0);
      V := new Byte[16](_ => 0);
      Screen := Blank();
      new;
      CopyRom(rom);
      InitialiseFont();
    }

    /** copy(vm.memory[0x200:], romData): byte k of the ROM goes to 0x200 + k
        while both slices last; the rest of memory is untouched. */
    method CopyRom(rom: seq<Byte>)
      requires memory.Length == MemorySize
      modifies memory
      ensures forall k | 0 <= k < |rom| && 0x200 + k < MemorySize :: memory[0x200 + k] == rom[k]
      ensures forall a | 0 <= a < MemorySize && !(0x200 <= a < 0x200 + |rom|) :: memory[a] == old(memory[a])
    {
      var n := if |rom| < MemorySize - 0x200 then |rom| else MemorySize - 0x200;
      var k := 0;
      while k < n
        invariant 0 <= k <= n
        invariant forall j | 0 <= j < k :: memory[0x200 + j] == rom[j]
        invariant forall a | 0 <= a < MemorySize && !(0x200 <= a < 0x200 + k) :: memory[a] == old(memory[a])
      {
        memory[0x200 + k] := rom[k];
        k := k + 1;
      }
    }

    /** initialiseFont: the sixteen glyphs, five bytes each, at 0x050-0x09F;
        every other address keeps its byte. */
    method InitialiseFont()
      requires memory.Length == MemorySize
      modifies memory
      ensures forall d, r | 0 <= d < 16 && 0 <= r < 5 :: memory[Font.Base + 5 * d + r] == Font.Glyph(d)[r]
      ensures forall a | 0 <= a < MemorySize && !(Font.Base <= a < Font.Base + Font.Size) :: memory[a] == old(memory[a])
    {
      var table := Font.Table();
      forall k | 0 <= k < Font.Size {
        memory[Font.Base + k] := table[k];
      }
    }

    /** parseOpcode, with rnd standing for rand.Intn(256): one step, exactly
        as Semantics.Step describes it. The requires is what keeps Go's array
        indexing from panicking. */
    method ParseOpcode(rnd: Byte) returns (status: Status)
      requires Valid() && CanStep(Model())
      modifies this, stack, screen, V
      ensures Valid()
      ensures status == Step(old(Model()), rnd).status
      ensures Model() == Step(old(Model()), rnd).next
    {
      ghost var m0 := Model();
      drawflag := false;
      opcode := memory[pc] as int * 0x100 + memory[pc + 1] as int;
      assert opcode == Fetch(m0.mem, m0.pc);
      assert Model() == m0.(drawflag := false, opcode := opcode);
      var known := RunCase(rnd);
      if !known {
        assert Step(m0, rnd) == Transition(Fatal(opcode, pc), Model());
        return Fatal(opcode, pc);
      }
      ghost var executed := Model();
      pc := Wrap16(pc + 2);
      assert Model() == Advance(executed);
      status := Continue;
    }

    /** The switch of parseOpcode on opcode&0xF000, before the pc += 2 that
        follows it: each family's case is one of the methods below. known is
        false where the switch reaches a log.Fatal default. */
    method RunCase(rnd: Byte) returns (known: bool)
      requires Valid() && InBounds(Model(), Decode(opcode))
      modifies this, stack, screen, V
      ensures Valid()
      ensures opcode == old(opcode) && known == (Decode(opcode) != Unknown)
      ensures known ==> Model() == Execute(old(Model()), Decode(old(opcode)), rnd)
      ensures !known ==> Model() == old(Model())
    {
      var family := Family(opcode);
      ghost var m0, ins := Model(), Decode(opcode);
      known := true;
      if family == 0x0 {
        known := ExecuteSystem();
        if known {
          ExecuteIgnoresRnd(m0, ins, 0, rnd);
        }
      } else if family == 0x1 || family == 0x2 || family == 0xB {
        ExecuteIgnoresRnd(m0, ins, 0, rnd);
        ExecuteJump();
      } else if family == 0x3 || family == 0x4 || family == 0x5 || family == 0x9 {
        ExecuteIgnoresRnd(m0, ins, 0, rnd);
        ExecuteSkip();
      } else if family == 0x6 || family == 0x7 || family == 0xA || family == 0xC {
        ExecuteLoad(rnd);
      } else if family == 0x8 {
        assert ins == DecodeAlu(opcode);
        known := ExecuteAlu();
        if known {
          assert Execute(m0, ins, rnd) == m0.(v := Alu(m0.v, ins));
        }
      } else if family == 0xD {
        ExecuteIgnoresRnd(m0, ins, 0, rnd);
        ExecuteDraw();
      } else if family == 0xE {
        known := ExecuteKeys();
        if known {
          ExecuteIgnoresRnd(m0, ins, 0, rnd);
        }
      } else {
        // F family: the switch is on the constant 0x00FF, which is none of
        // the case labels 0xA1, 0x07, 0x0A, 0x15, 0x18, 0x1E, 0x29, 0x33,
        // 0x55, 0x65, so its default always runs
        known := false;
      }
    }

    /** The cases 0x1000 (JP), 0x2000 (CALL: sp is incremented before the
        push, so stack[0] is never written by a first call) and 0xB000 (JP V0). */
    method ExecuteJump()
      requires Valid() && (Family(opcode) == 0x1 || Family(opcode) == 0x2 || Family(opcode) == 0xB)
      requires InBounds(Model(), Decode(opcode))
      modifies this, stack
      ensures Valid() && opcode == old(opcode)
      ensures Model() == Execute(old(Model()), Decode(old(opcode)), 0)
    {
      var family, nnn := Family(opcode), NNN(opcode);
      if family == 0x1 {
        assert Decode(opcode) == Jump(nnn);
        pc := nnn;
      } else if family == 0x2 {
        assert Decode(opcode) == Call(nnn);
        sp := Wrap16(sp + 1);
        stack[sp] := pc;
        pc := nnn;
      } else {
        assert Decode(opcode) == JumpV0(nnn);
        pc := nnn + V[0] as int;
      }
    }

    /** The cases 0x3000, 0x4000, 0x5000 and 0x9000: pc += 2 when the
        comparison holds (and once more after the switch). */
    method ExecuteSkip()
      requires Valid() && (Family(opcode) == 0x3 || Family(opcode) == 0x4 || Family(opcode) == 0x5 || Family(opcode) == 0x9)
      modifies this
      ensures Valid() && opcode == old(opcode)
      ensures Model() == Execute(old(Model()), Decode(old(opcode)), 0)
    {
      var family, x, y, kk := Family(opcode), X(opcode), Y(opcode), KK(opcode);
      if family == 0x3 {
        assert Decode(opcode) == SkipEqByte(x, kk);
        if V[x] == kk {
          pc := Wrap16(pc + 2);
        }
      } else if family == 0x4 {
        assert Decode(opcode) == SkipNeByte(x, kk);
        if V[x] != kk {
          pc := Wrap16(pc + 2);
        }
      } else if family == 0x5 {
        assert Decode(opcode) == SkipEqReg(x, y);
        if V[x] == V[y] {
          pc := Wrap16(pc + 2);
        }
      } else {
        assert Decode(opcode) == SkipNeReg(x, y);
        if V[x] != V[y] {
          pc := Wrap16(pc + 2);
        }
      }
    }

    /** The cases 0x6000 (LD Vx, kk), 0x7000 (ADD Vx, kk, wrapping, VF
        untouched), 0xA000 (LD I, nnn) and 0xC000 (RND: rnd & kk). */
    method ExecuteLoad(rnd: Byte)
      requires Valid() && (Family(opcode) == 0x6 || Family(opcode) == 0x7 || Family(opcode) == 0xA || Family(opcode) == 0xC)
      modifies this, V
      ensures Valid() && opcode == old(opcode)
      ensures Model() == Execute(old(Model()), Decode(old(opcode)), rnd)
    {
      var family, x, kk, nnn := Family(opcode), X(opcode), KK(opcode), NNN(opcode);
      if family == 0x6 {
        assert Decode(opcode) == LoadByte(x, kk);
        V[x] := kk;
      } else if family == 0x7 {
        assert Decode(opcode) == AddByte(x, kk);
        V[x] := (V[x] as int + kk) % 0x100;
      } else if family == 0xA {
        assert Decode(opcode) == LoadI(nnn);
        I := nnn;
      } else {
        assert Decode(opcode) == Random(x, kk);
        V[x] := And8(rnd, kk);
      }
    }

    /** The case 0xD000, a stub: it sets drawflag and VF = 0, and reads
        V[opcode&0x0F00], V[opcode&0x00F0] and memory[I+i] for i < n without
        using them. The indices are not shifted down, so only x = 0 and y = 0
        stay in range. */
    method ExecuteDraw()
      requires Valid() && Family(opcode) == 0xD && InBounds(Model(), Decode(opcode))
      modifies this, V
      ensures Valid() && opcode == old(opcode)
      ensures Model() == Execute(old(Model()), Decode(old(opcode)), 0)
    {
      var x, y, n := X(opcode), Y(opcode), N(opcode);
      assert Decode(opcode) == Draw(x, y, n);
      drawflag := true;
      var vx := V[x * 0x100] % 64;
      var vy := V[y * 0x10] % 32;
      V[VF] := 0;
      var i := 0;
      while i < n
        modifies {}
        invariant 0 <= i <= n
      {
        var currentByte := memory[SpriteAddr(I, i)];
        i := i + 1;
      }
    }

    /** The 0x0000 case of parseOpcode's switch: 00E0 clears the screen, 00EE
        returns from a subroutine, any other word is unknown. */
    method ExecuteSystem() returns (known: bool)
      requires Valid() && Family(opcode) == 0x0 && InBounds(Model(), Decode(opcode))
      modifies this, screen
      ensures Valid()
      ensures opcode == old(opcode) && known == (Decode(opcode) != Unknown)
      ensures known ==> Model() == Execute(old(Model()), Decode(old(opcode)), 0)
      ensures !known ==> Model() == old(Model())
    {
      known := true;
      if opcode == 0x00E0 {
        drawflag := true;
        for r := 0 to 32
          modifies screen
          invariant forall i, j | 0 <= i < r && 0 <= j < RowBytes :: screen[i, j] == 0
        {
          for c := 0 to 8
            modifies screen
            invariant forall i, j | 0 <= i < r && 0 <= j < RowBytes :: screen[i, j] == 0
            invariant forall j | 0 <= j < c :: screen[r, j] == 0
          {
            screen[r, c] := 0;
          }
        }
        Screen := Blank();
      } else if opcode == 0x00EE {
        pc := stack[sp];
        sp := Wrap16(sp - 1);
      } else {
        known := false;
      }
    }

    /** The 0x8000 case of parseOpcode's switch, on the low nibble: the
        register-to-register operations. Where VF is written, it is written
        before Vx; 8xy5 and 8xy7 then read Vx and Vy again, 8xy6 and 8xyE
        read Vx again. */
    method ExecuteAlu() returns (known: bool)
      requires V.Length == 16
      modifies V
      ensures known == (DecodeAlu(opcode) != Unknown)
      ensures known ==> V[..] == Alu(old(V[..]), DecodeAlu(opcode))
      ensures !known ==> V[..] == old(V[..])
    {
      known := true;
      var x, y := X(opcode), Y(opcode);
      var low := N(opcode);
      if low == 0x0 {
        assert DecodeAlu(opcode) == LoadReg(x, y);
        V[x] := V[y];
      } else if low == 0x1 {
        assert DecodeAlu(opcode) == Or(x, y);
        V[x] := Or8(V[y], V[x]);
      } else if low == 0x2 {
        assert DecodeAlu(opcode) == And(x, y);
        V[x] := And8(V[y], V[x]);
      } else if low == 0x3 {
        assert DecodeAlu(opcode) == Xor(x, y);
        V[x] := Xor8(V[y], V[x]);
      } else if low == 0x4 {
        assert DecodeAlu(opcode) == AddReg(x, y);
        var sum := (V[y] as int + V[x]) % 0x100;
        // sum is a uint8, so the carry test never holds
        var carry: int := if sum > 0xFF then 1 else 0;
        V[VF] := carry;
        V[x] := sum;
      } else if low == 0x5 {
        assert DecodeAlu(opcode) == Sub(x, y);
        if V[x] > V[y] {
          V[VF] := 1;
        } else {
          V[VF] := 0;
        }
        V[x] := (V[x] as int - V[y]) % 0x100;
      } else if low == 0x6 {
        assert DecodeAlu(opcode) == ShiftRight(x, y);
        if V[x] % 2 == 1 {
          V[VF] := 1;
        } else {
          V[VF] := 0;
        }
        V[x] := V[x] / 2;
      } else if low == 0x7 {
        assert DecodeAlu(opcode) == SubN(x, y);
        if V[y] > V[x] {
          V[VF] := 1;
        } else {
          V[VF] := 0;
        }
        V[x] := (V[y] as int - V[x]) % 0x100;
      } else if low == 0xE {
        assert DecodeAlu(opcode) == ShiftLeft(x, y);
        if V[x] >= 0x80 {
          V[VF] := 1;
        } else {
          V[VF] := 0;
        }
        V[x] := V[x] as int * 2 % 0x100;
      } else {
        known := false;
      }
    }

    /** The 0xE000 case of parseOpcode's switch: Ex9E and ExA1 have empty
        bodies, any other low byte is unknown. */
    method ExecuteKeys() returns (known: bool)
      requires Valid() && Family(opcode) == 0xE && InBounds(Model(), Decode(opcode))
      modifies {}
      ensures Valid()
      ensures opcode == old(opcode) && known == (Decode(opcode) != Unknown)
      ensures known ==> Model() == Execute(old(Model()), Decode(old(opcode)), 0)
      ensures !known ==> Model() == old(Model())
    {
      known := true;
      var kk := KK(opcode);
      if kk == 0x9E {
        // Ex9E: empty case
      } else if kk == 0xA1 {
        // ExA1: empty case
      } else {
        known := false;
      }
    }
  }

  /** TestLoadRomIntoMemory in src/vm_test.go: after newVM, memory[200]
      (decimal, 0xC8) is 0, for any ROM: it lies between the font and 0x200. */
  method MemoryAfterLoad(rom: seq<Byte>) returns (b: Byte)
    ensures b == 0
  {
    var vm := new VM(rom);
    b := vm.memory[200];
  }
}

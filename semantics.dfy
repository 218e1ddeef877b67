// One fetch-decode-execute step of parseOpcode (src/vm.go:150-398) as a
// function on the VM's state taken as a value. Interpreter.VM.ParseOpcode is
// proved to change the fields of a VM exactly as Step says.

module Semantics {
  import opened Opcode
  import opened Bits

  /** Index of the flag register VF. */
  const VF: nat := 0xF

  /** Number of bytes of memory. */
  const MemorySize: nat := 0x1000

  /** Rows of the screen and bytes per row (Go's [32][8]uint8: 64 pixels a row). */
  const Rows: nat := 32
  const RowBytes: nat := 8

  /** How a step ends: parseOpcode returns true, or log.Fatal reports the
      unknown word and the pc it was fetched from and ends the process. */
  datatype Status = Continue | Fatal(opcode: Word, pc: Word)

  /** The fields of the Go VM struct that a step reads or writes. */
  datatype Machine = Machine(
    pc: Word,
    sp: Word,
    i: Word,
    opcode: Word,
    drawflag: bool,
    v: seq<Byte>,
    stack: seq<Word>,
    screen: seq<seq<Byte>>,
    mem: seq<Byte>)

  /** The sizes of the struct's fixed arrays. */
  predicate Shaped(m: Machine) {
    |m.v| == 16 && |m.stack| == 16 && |m.mem| == MemorySize &&
    |m.screen| == Rows && forall r | 0 <= r < Rows :: |m.screen[r]| == RowBytes
  }

  /** The all-off screen. */
  function Blank(): seq<seq<Byte>> {
    seq(Rows, _ => seq(RowBytes, _ => 0))
  }

  /** Go's uint16 wrap-around. */
  function Wrap16(n: int): Word {
    n % 0x1_0000
  }

  /** pc += 2 (uint16). */
  function Advance(m: Machine): Machine {
    m.(pc := Wrap16(m.pc + 2))
  }

  /** vm.I+i, the address of sprite byte k (a uint16 sum). */
  function SpriteAddr(i: Word, k: nat): Word {
    Wrap16(i + k)
  }

  /** The array indexing that executing ins does stays in range, so Go does
      not panic: RET reads stack[sp]; CALL writes stack[sp+1]; Dxyn reads
      V[opcode&0x0F00] and V[opcode&0x00F0] (unshifted, so only x = 0 and
      y = 0 are in range) and memory[I+i] for i < n, with I+i a uint16. */
  function InBounds(m: Machine, ins: Instr): (ok: bool)
    requires Shaped(m)
    ensures ok <==>
      (ins.Ret? ==> m.sp < |m.stack|) &&
      (ins.Call? ==> Wrap16(m.sp + 1) < |m.stack|) &&
      (ins.Draw? ==> ins.x * 0x100 < |m.v| && ins.y * 0x10 < |m.v| &&
                     forall k | 0 <= k < ins.n :: SpriteAddr(m.i, k) < |m.mem|)
  {
    match ins
    case Ret => m.sp < 16
    case Call(_) => Wrap16(m.sp + 1) < 16
    case Draw(x, y, n) => x == 0 && y == 0 && forall k | 0 <= k < n :: SpriteAddr(m.i, k) < MemorySize
    case _ => true
  }

  /** A step can run without an index panic: both bytes of the word at pc
      exist, and the instruction they spell stays in bounds. */
  predicate CanStep(m: Machine)
    requires Shaped(m)
  {
    m.pc + 1 < MemorySize && InBounds(m, Decode(Fetch(m.mem, m.pc)))
  }

  /** The body of the case of parseOpcode's switch that handles ins, before
      the pc += 2 that follows the switch. */
  function Execute(m: Machine, ins: Instr, rnd: Byte): (r: Machine)
    requires Shaped(m) && InBounds(m, ins) && ins != Unknown
    ensures Shaped(r) && r.mem == m.mem && r.opcode == m.opcode
  {
    match ins
    case Cls => m.(drawflag := true, screen := Blank())
    case Ret => m.(pc := m.stack[m.sp], sp := Wrap16(m.sp - 1))
    case Jump(nnn) => m.(pc := nnn)
    case Call(nnn) =>
      var sp := Wrap16(m.sp + 1);
      m.(sp := sp, stack := m.stack[sp := m.pc], pc := nnn)
    case SkipEqByte(x, kk) => if m.v[x] == kk then Advance(m) else m
    case SkipNeByte(x, kk) => if m.v[x] != kk then Advance(m) else m
    case SkipEqReg(x, y) => if m.v[x] == m.v[y] then Advance(m) else m
    case LoadByte(x, kk) => m.(v := m.v[x := kk])
    case AddByte(x, kk) => m.(v := m.v[x := (m.v[x] as int + kk) % 0x100])
    case LoadReg(_, _) | Or(_, _) | And(_, _) | Xor(_, _) | AddReg(_, _) | Sub(_, _)
      | ShiftRight(_, _) | SubN(_, _) | ShiftLeft(_, _) => m.(v := Alu(m.v, ins))
    case SkipNeReg(x, y) => if m.v[x] != m.v[y] then Advance(m) else m
    case LoadI(nnn) => m.(i := nnn)
    case JumpV0(nnn) => m.(pc := nnn + m.v[0] as int)
    case Random(x, kk) => m.(v := m.v[x := And8(rnd, kk)])
    case Draw(_, _, _) => m.(drawflag := true, v := m.v[VF := 0])
    case SkipKey(_) => m
    case SkipNoKey(_) => m
  }

  /** Which fields a case writes: only 00E0 touches the screen, only 00E0
      and Dxyn raise drawflag, only CALL writes the stack, only CALL and RET
      move sp, only Annn sets I. */
  lemma ExecuteWrites(m: Machine, ins: Instr, rnd: Byte)
    requires Shaped(m) && InBounds(m, ins) && ins != Unknown
    ensures var r := Execute(m, ins, rnd);
      r.screen == (if ins == Cls then Blank() else m.screen) &&
      r.drawflag == (m.drawflag || ins == Cls || ins.Draw?) &&
      (!ins.Call? ==> r.stack == m.stack) &&
      (!ins.Call? && !ins.Ret? ==> r.sp == m.sp) &&
      (!ins.LoadI? ==> r.i == m.i)
  {
  }

  /** Only Cxkk uses the random byte. */
  lemma ExecuteIgnoresRnd(m: Machine, ins: Instr, r1: Byte, r2: Byte)
    requires Shaped(m) && InBounds(m, ins) && ins != Unknown && !ins.Random?
    ensures Execute(m, ins, r1) == Execute(m, ins, r2)
  {
  }

  /** The 8xy_ instructions, which the inner switch on the low nibble runs. */
  predicate IsAlu(ins: Instr) {
    ins.LoadReg? || ins.Or? || ins.And? || ins.Xor? || ins.AddReg? || ins.Sub? ||
    ins.ShiftRight? || ins.SubN? || ins.ShiftLeft?
  }

  /** The registers after an 8xy_ instruction. Where VF is written, it is
      written before Vx; 8xy5 and 8xy7 then read Vx and Vy again, 8xy6 and
      8xyE read Vx again (they never read Vy). */
  function Alu(v: seq<Byte>, ins: Instr): (w: seq<Byte>)
    requires |v| == 16 && IsAlu(ins)
    ensures |w| == 16
    ensures forall k | 0 <= k < 16 && k != ins.x && k != VF :: w[k] == v[k]
    ensures (ins.LoadReg? || ins.Or? || ins.And? || ins.Xor?) && ins.x != VF ==> w[VF] == v[VF]
    ensures !(ins.LoadReg? || ins.Or? || ins.And? || ins.Xor?) && ins.x != VF ==> w[VF] <= 1
  {
    match ins
    case LoadReg(x, y) => v[x := v[y]]
    case Or(x, y) => v[x := Or8(v[y], v[x])]
    case And(x, y) => v[x := And8(v[y], v[x])]
    case Xor(x, y) => v[x := Xor8(v[y], v[x])]
    case AddReg(x, y) =>
      // sum is a uint8, so the carry test sum > 0x00FF never holds
      var sum: Byte := (v[y] as int + v[x]) % 0x100;
      var v1 := v[VF := if sum > 0xFF then 1 else 0];
      v1[x := sum]
    case Sub(x, y) =>
      var v1 := v[VF := if v[x] > v[y] then 1 else 0];
      v1[x := (v1[x] as int - v1[y]) % 0x100]
    case ShiftRight(x, _) =>
      // Vx&1 == 1 is Vx % 2 == 1, and Vx >>= 1 is Vx / 2
      var v1 := v[VF := if v[x] % 2 == 1 then 1 else 0];
      v1[x := v1[x] / 2]
    case SubN(x, y) =>
      var v1 := v[VF := if v[y] > v[x] then 1 else 0];
      v1[x := (v1[y] as int - v1[x]) % 0x100]
    case ShiftLeft(x, _) =>
      // Vx&0x80 == 0x80 is Vx >= 0x80, and Vx <<= 1 on a uint8 is Vx * 2 % 256
      var v1 := v[VF := if v[x] >= 0x80 then 1 else 0];
      v1[x := v1[x] as int * 2 % 0x100]
  }

  /** The result of one step. */
  datatype Transition = Transition(status: Status, next: Machine)

  /** parseOpcode: clear drawflag, fetch the word at pc into opcode, and either
      stop on an unknown word or run its case and then pc += 2. rnd is the
      byte rand.Intn(256) would return (used by Cxkk only). */
  function Step(m: Machine, rnd: Byte): (t: Transition)
    requires Shaped(m) && CanStep(m)
    ensures Shaped(t.next)
    ensures t.next.mem == m.mem
  {
    var op := Fetch(m.mem, m.pc);
    var fetched := m.(drawflag := false, opcode := op);
    var ins := Decode(op);
    if ins == Unknown then Transition(Fatal(op, m.pc), fetched)
    else Transition(Continue, Advance(Execute(fetched, ins, rnd)))
  }
}

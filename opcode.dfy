// Instruction words of the CHIP-8 interpreter in src/vm.go: how parseOpcode
// fetches a 16-bit word from memory, cuts it into operand fields, and which
// case of its nested switch each word reaches.

module Opcode {

  /** A register or memory cell: Go's uint8, as an integer in [0, 256). */
  type Byte = b: int | 0 <= b < 0x100

  /** pc, sp, I, the opcode register and the stack entries: Go's uint16, as an
      integer in [0, 65536). Arithmetic on them wraps explicitly (% 0x1_0000). */
  type Word = w: int | 0 <= w < 0x1_0000

  /** The instruction word at pc: uint16(memory[pc])<<8 | uint16(memory[pc+1]),
      so the byte at pc is the high half (big-endian). */
  function Fetch(mem: seq<Byte>, pc: Word): (op: Word)
    requires pc + 1 < |mem|
    ensures op / 0x100 == mem[pc] && op % 0x100 == mem[pc + 1]
  {
    mem[pc] as int * 0x100 + mem[pc + 1] as int
  }

  // The fields below are the source's masks and shifts written as integer
  // division and remainder: opcode&0xF000 is Family(op) * 0x1000,
  // 0x0F00&opcode>>8 is X(op), 0x00F0&opcode>>4 is Y(op), 0x000F&opcode is
  // N(op), 0x00FF&opcode is KK(op) and 0x0FFF&opcode is NNN(op).

  /** The leading nibble, which selects the instruction family. */
  function Family(op: Word): (f: nat)
    ensures f < 16
  {
    op / 0x1000
  }

  /** The register index x of the word _x__. */
  function X(op: Word): (x: nat)
    ensures x < 16
  {
    op / 0x100 % 16
  }

  /** The register index y of the word __y_. */
  function Y(op: Word): (y: nat)
    ensures y < 16
  {
    op / 0x10 % 16
  }

  /** The low nibble n of the word ___n. */
  function N(op: Word): (n: nat)
    ensures n < 16
  {
    op % 16
  }

  /** The immediate byte kk of the word __kk. */
  function KK(op: Word): (kk: Byte)
    ensures kk == Y(op) * 16 + N(op)
  {
    op % 0x100
  }

  /** The 12-bit address nnn of the word _nnn. */
  function NNN(op: Word): (nnn: Addr)
    ensures nnn < 0x1000
    ensures nnn == X(op) * 0x100 + KK(op)
  {
    op % 0x1000
  }

  /** The four nibbles, in order, spell the word: decoding loses nothing. */
  lemma {:induction false} FieldsRecompose(op: Word)
    ensures op == Family(op) * 0x1000 + X(op) * 0x100 + Y(op) * 0x10 + N(op)
  {
    assert op == op / 0x1000 * 0x1000 + op % 0x1000;
    assert op % 0x1000 == NNN(op);
  }

  /** A word assembled from four nibbles decodes to exactly those nibbles. */
  lemma {:induction false} FieldsOfNibbles(f: nat, x: nat, y: nat, n: nat)
    requires f < 16 && x < 16 && y < 16 && n < 16
    ensures var op := f * 0x1000 + x * 0x100 + y * 0x10 + n;
      op < 0x1_0000 && Family(op) == f && X(op) == x && Y(op) == y && N(op) == n
  {
    var op := f * 0x1000 + x * 0x100 + y * 0x10 + n;
    assert op / 0x1000 == f;
    assert op / 0x100 == f * 16 + x;
    assert op / 0x10 == f * 0x100 + x * 16 + y;
  }

  /** The fields of the fetched word come from the two bytes: kk is the byte
      at pc + 1, and the family and x are the two nibbles of the byte at pc. */
  lemma {:induction false} FetchBigEndian(mem: seq<Byte>, pc: Word)
    requires pc + 1 < |mem|
    ensures KK(Fetch(mem, pc)) == mem[pc + 1]
    ensures Family(Fetch(mem, pc)) == mem[pc] / 16 && X(Fetch(mem, pc)) == mem[pc] % 16
  {
  }

  /** A register index: V has 16 registers. */
  type Reg = r: nat | r < 16

  /** A sprite height: the low nibble of Dxyn. */
  type Nibble = n: nat | n < 16

  /** A 12-bit address operand. */
  type Addr = a: nat | a < 0x1000

  /** What parseOpcode does with a word, one constructor per case of its
      switch (mnemonics as in the comments of src/vm.go). */
  datatype Instr =
    | Cls                                   // 00E0
    | Ret                                   // 00EE
    | Jump(nnn: Addr)                       // 1nnn
    | Call(nnn: Addr)                       // 2nnn
    | SkipEqByte(x: Reg, kk: Byte)          // 3xkk
    | SkipNeByte(x: Reg, kk: Byte)          // 4xkk
    | SkipEqReg(x: Reg, y: Reg)             // 5xy_ (low nibble not inspected)
    | LoadByte(x: Reg, kk: Byte)            // 6xkk
    | AddByte(x: Reg, kk: Byte)             // 7xkk
    | LoadReg(x: Reg, y: Reg)               // 8xy0
    | Or(x: Reg, y: Reg)                    // 8xy1
    | And(x: Reg, y: Reg)                   // 8xy2
    | Xor(x: Reg, y: Reg)                   // 8xy3
    | AddReg(x: Reg, y: Reg)                // 8xy4
    | Sub(x: Reg, y: Reg)                   // 8xy5
    | ShiftRight(x: Reg, y: Reg)            // 8xy6
    | SubN(x: Reg, y: Reg)                  // 8xy7
    | ShiftLeft(x: Reg, y: Reg)             // 8xyE
    | SkipNeReg(x: Reg, y: Reg)             // 9xy_ (low nibble not inspected)
    | LoadI(nnn: Addr)                      // Annn
    | JumpV0(nnn: Addr)                     // Bnnn
    | Random(x: Reg, kk: Byte)              // Cxkk
    | Draw(x: Reg, y: Reg, n: Nibble)       // Dxyn
    | SkipKey(x: Reg)                       // Ex9E (empty handler)
    | SkipNoKey(x: Reg)                     // ExA1 (empty handler)
    | Unknown                               // the log.Fatal defaults

  /** The case of parseOpcode's switch that a word reaches. The F family
      switches on the constant 0x00FF, which equals none of its case labels,
      so every F word reaches that switch's default. */
  function Decode(op: Word): (ins: Instr)
    ensures ins == Cls <==> op == 0x00E0
    ensures ins == Ret <==> op == 0x00EE
    ensures ins.Jump? || ins.Call? || ins.LoadI? || ins.JumpV0? ==> ins.nnn == NNN(op)
    ensures (ins.SkipEqByte? || ins.SkipNeByte? || ins.LoadByte? || ins.AddByte? || ins.Random?) ==>
      ins.x == X(op) && ins.kk == KK(op)
    ensures (ins.SkipEqReg? || ins.LoadReg? || ins.Or? || ins.And? || ins.Xor? || ins.AddReg? ||
             ins.Sub? || ins.ShiftRight? || ins.SubN? || ins.ShiftLeft? || ins.SkipNeReg?) ==>
      ins.x == X(op) && ins.y == Y(op)
    ensures ins.Draw? ==> ins == Draw(X(op), Y(op), N(op))
    ensures ins.SkipKey? || ins.SkipNoKey? ==> ins.x == X(op)
  {
    var family := Family(op);
    var x, y := X(op), Y(op);
    if family == 0x0 then DecodeSystem(op)
    else if family == 0x1 then Jump(NNN(op))
    else if family == 0x2 then Call(NNN(op))
    else if family == 0x3 then SkipEqByte(x, KK(op))
    else if family == 0x4 then SkipNeByte(x, KK(op))
    else if family == 0x5 then SkipEqReg(x, y)
    else if family == 0x6 then LoadByte(x, KK(op))
    else if family == 0x7 then AddByte(x, KK(op))
    else if family == 0x8 then DecodeAlu(op)
    else if family == 0x9 then SkipNeReg(x, y)
    else if family == 0xA then LoadI(NNN(op))
    else if family == 0xB then JumpV0(NNN(op))
    else if family == 0xC then Random(x, KK(op))
    else if family == 0xD then Draw(x, y, N(op))
    else if family == 0xE then DecodeKeys(op)
    else Unknown
  }

  /** The inner switch of the 0x0000 case, on the whole word. */
  function DecodeSystem(op: Word): Instr {
    if op == 0x00E0 then Cls
    else if op == 0x00EE then Ret
    else Unknown
  }

  /** The inner switch of the 0x8000 case, on the low nibble. */
  function DecodeAlu(op: Word): Instr {
    var x, y, low := X(op), Y(op), N(op);
    if low == 0x0 then LoadReg(x, y)
    else if low == 0x1 then Or(x, y)
    else if low == 0x2 then And(x, y)
    else if low == 0x3 then Xor(x, y)
    else if low == 0x4 then AddReg(x, y)
    else if low == 0x5 then Sub(x, y)
    else if low == 0x6 then ShiftRight(x, y)
    else if low == 0x7 then SubN(x, y)
    else if low == 0xE then ShiftLeft(x, y)
    else Unknown
  }

  /** The inner switch of the 0xE000 case, on the low byte. */
  function DecodeKeys(op: Word): Instr {
    var low := KK(op);
    if low == 0x9E then SkipKey(X(op))
    else if low == 0xA1 then SkipNoKey(X(op))
    else Unknown
  }

  /** The words that end in log.Fatal, described by their fields: the 0 family
      apart from 00E0 and 00EE, the 8 family with low nibble 8 to D or F, the E
      family apart from Ex9E and ExA1, and the whole F family. */
  lemma UnknownWords(op: Word)
    ensures Decode(op) == Unknown <==>
      (Family(op) == 0x0 && op != 0x00E0 && op != 0x00EE) ||
      (Family(op) == 0x8 && (8 <= N(op) <= 0xD || N(op) == 0xF)) ||
      (Family(op) == 0xE && KK(op) != 0x9E && KK(op) != 0xA1) ||
      Family(op) == 0xF
  {
  }

  /** The word with nibbles f, x, y, n, from the high end. */
  function Word4(f: nat, x: nat, y: nat, n: nat): (op: Word)
    requires f < 16 && x < 16 && y < 16 && n < 16
    ensures Family(op) == f && X(op) == x && Y(op) == y && N(op) == n
  {
    FieldsOfNibbles(f, x, y, n);
    f * 0x1000 + x * 0x100 + y * 0x10 + n
  }

  /** The word fxkk. */
  function WordKK(f: nat, x: Reg, kk: Byte): (op: Word)
    requires f < 16
    ensures Family(op) == f && X(op) == x && KK(op) == kk
    ensures op == f * 0x1000 + x * 0x100 + kk
  {
    Word4(f, x, kk / 16, kk % 16)
  }

  /** The word fnnn. */
  function WordNNN(f: nat, nnn: Addr): (op: Word)
    requires f < 16
    ensures Family(op) == f && NNN(op) == nnn
    ensures op == f * 0x1000 + nnn
  {
    Word4(f, nnn / 0x100, nnn / 16 % 16, nnn % 16)
  }

  /** The word that reaches the case of ins, with the low nibble of 5xy_ and
      9xy_ written as 0 (the 5xy0 and 9xy0 of the instruction set). */
  function Encode(ins: Instr): (op: Word)
    requires ins != Unknown
  {
    match ins
    case Cls => 0x00E0
    case Ret => 0x00EE
    case Jump(nnn) => WordNNN(0x1, nnn)
    case Call(nnn) => WordNNN(0x2, nnn)
    case SkipEqByte(x, kk) => WordKK(0x3, x, kk)
    case SkipNeByte(x, kk) => WordKK(0x4, x, kk)
    case SkipEqReg(x, y) => Word4(0x5, x, y, 0)
    case LoadByte(x, kk) => WordKK(0x6, x, kk)
    case AddByte(x, kk) => WordKK(0x7, x, kk)
    case LoadReg(x, y) => Word4(0x8, x, y, 0x0)
    case Or(x, y) => Word4(0x8, x, y, 0x1)
    case And(x, y) => Word4(0x8, x, y, 0x2)
    case Xor(x, y) => Word4(0x8, x, y, 0x3)
    case AddReg(x, y) => Word4(0x8, x, y, 0x4)
    case Sub(x, y) => Word4(0x8, x, y, 0x5)
    case ShiftRight(x, y) => Word4(0x8, x, y, 0x6)
    case SubN(x, y) => Word4(0x8, x, y, 0x7)
    case ShiftLeft(x, y) => Word4(0x8, x, y, 0xE)
    case SkipNeReg(x, y) => Word4(0x9, x, y, 0)
    case LoadI(nnn) => WordNNN(0xA, nnn)
    case JumpV0(nnn) => WordNNN(0xB, nnn)
    case Random(x, kk) => WordKK(0xC, x, kk)
    case Draw(x, y, n) => Word4(0xD, x, y, n)
    case SkipKey(x) => WordKK(0xE, x, 0x9E)
    case SkipNoKey(x) => WordKK(0xE, x, 0xA1)
  }

  /** Every instruction has a word that reaches its case. */
  lemma DecodeEncode(ins: Instr)
    requires ins != Unknown
    ensures Decode(Encode(ins)) == ins
  {
  }

  /** Decoding keeps every field a case reads: re-encoding a word that does
      not end in log.Fatal gives it back, except the low nibble of 5xy_ and
      9xy_, which their cases never inspect. */
  lemma EncodeDecode(op: Word)
    requires Decode(op) != Unknown
    ensures Encode(Decode(op)) == if Family(op) == 0x5 || Family(op) == 0x9 then op - N(op) else op
  {
    var f := Family(op);
    if f == 0x0 {
    } else if f in {0x5, 0x8, 0x9, 0xD} {
      EncodeDecodeRegs(op);
    } else if f in {0x1, 0x2, 0xA, 0xB} {
      EncodeDecodeAddr(op);
    } else {
      EncodeDecodeByte(op);
    }
  }

  /** EncodeDecode for the register forms 5xy_, 8xyn, 9xy_ and Dxyn. */
  lemma {:induction false} EncodeDecodeRegs(op: Word)
    requires Decode(op) != Unknown && Family(op) in {0x5, 0x8, 0x9, 0xD}
    ensures Encode(Decode(op)) == if Family(op) == 0x5 || Family(op) == 0x9 then op - N(op) else op
  {
    FieldsRecompose(op);
    var f, x, y := Family(op), X(op), Y(op);
    if f == 0x5 || f == 0x9 {
      assert Encode(Decode(op)) == Word4(f, x, y, 0);
    } else {
      assert Encode(Decode(op)) == Word4(f, x, y, N(op));
    }
  }

  /** EncodeDecode for the address forms 1nnn, 2nnn, Annn and Bnnn. */
  lemma {:induction false} EncodeDecodeAddr(op: Word)
    requires Family(op) in {0x1, 0x2, 0xA, 0xB}
    ensures Encode(Decode(op)) == op
  {
    assert op == Family(op) * 0x1000 + NNN(op);
    assert Encode(Decode(op)) == WordNNN(Family(op), NNN(op));
  }

  /** EncodeDecode for the byte forms 3xkk, 4xkk, 6xkk, 7xkk, Cxkk and Exkk. */
  lemma {:induction false} EncodeDecodeByte(op: Word)
    requires Decode(op) != Unknown && Family(op) in {0x3, 0x4, 0x6, 0x7, 0xC, 0xE}
    ensures Encode(Decode(op)) == op
  {
    assert op == Family(op) * 0x1000 + X(op) * 0x100 + KK(op) by {
      FieldsRecompose(op);
    }
    assert Encode(Decode(op)) == WordKK(Family(op), X(op), KK(op));
  }
}

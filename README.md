# go-chip8 interpreter core in Dafny

This project models the CHIP-8 interpreter core of go-chip8 (`src/vm.go`):

- the `VM` struct: `pc`, `sp`, `I`, `opcode`, `clockspeed`, `drawflag`, the 16-entry `stack`, the 32 x 8 byte `screen`, 4096 bytes of `memory` and the 16 registers `V`;
- `newVM`, which sets `pc = 0x200`, copies the ROM to `0x200` and loads the font;
- `initialiseFont`, which stores sixteen 5-byte hex glyphs at `0x050`-`0x09F`;
- `parseOpcode`, one fetch-decode-execute step.

Modules:

- `Opcode` (opcode.dfy): Go's `uint8`/`uint16` as the integer subset types `Byte`/`Word`, with wrap-around written out.
  - `Fetch` builds the big-endian instruction word.
  - `X`, `Y`, `N`, `KK` and `NNN` extract the operand fields.
  - `Decode` maps a word to the case of the nested switch it reaches (`Instr`, with `Unknown` for the `log.Fatal` defaults).
  - `Encode` gives a word for each instruction: `Decode(Encode(i)) == i` for every instruction, and `Encode(Decode(op)) == op` for every non-fatal word with the low nibble of 5xy_/9xy_ set to 0.
- `Bits` (bits.dfy): `&`, `|` and `^` on bytes, defined bit by bit.
- `Font` (font.dfy): the glyph table.
- `Semantics` (semantics.dfy): `Step`, one `parseOpcode` call as a function on the struct taken as a value (`Machine`).
  - It returns the new state and a `Status`: `Continue`, or `Fatal(opcode, pc)` where the Go code calls `log.Fatal`.
  - `CanStep` states when Go's array indexing does not panic.
- `Interpreter` (vm.dfy): the struct as class `VM` over arrays.
  - The constructor, `CopyRom` and `InitialiseFont` are modelled, along with `ParseOpcode`, which updates the fields in place.
  - `ParseOpcode` is proved to change the object exactly as `Step` says: `Model() == Step(old(Model()), rnd).next`. `Model()` holds every field but `clockspeed`, which is a `const` that only the constructor sets.
- `Properties` (properties.dfy): what a step does, proved about `Step`.

The model follows the code as written, not the CHIP-8 instruction set it cites (Cowgod's Chip-8 Technical Reference, section 3.1):

- `pc += 2` runs after every case, jumps included, so `1nnn` and `2nnn` continue at `nnn + 2`, `Bnnn` at `nnn + V0 + 2`, and a taken skip moves `pc` on by 4.
- The `8xy4` sum is a `uint8`, so the carry test never holds and VF is always written 0 (then overwritten by the sum when x = F).
- `8xy5`, `8xy6`, `8xy7` and `8xyE` write VF before Vx. Then `8xy5` and `8xy7` read Vx and Vy again, and `8xy6` and `8xyE` read Vx again (they never read Vy), so x = F (or y = F for the subtractions) sees the new flag.
- `5xy_` and `9xy_` do not look at their low nibble.
- `Ex9E` and `ExA1` have empty bodies.
- The F family switches on the constant `0x00FF`, so every F word reaches `log.Fatal`.
- `Dxyn` only sets `drawflag` and VF = 0. It indexes `V` with the unshifted `opcode&0x0F00` and `opcode&0x00F0`, so it stays in range only for x = 0 and y = 0.
- CALL increments `sp` before storing the current `pc` at `stack[sp]`, and RET reads `stack[sp]` before decrementing `sp`, both wrapping as `uint16`.

Go panics on an out-of-range array index. Each operation's `requires` (`CanStep`, `InBounds`) states exactly the conditions under which the Go code does not panic:

- `pc + 1 < 4096`;
- `sp < 16` for RET;
- `(sp + 1) mod 65536 < 16` for CALL;
- x = 0, y = 0 and `(I + i) mod 65536 < 4096` for every i < n for `Dxyn`.

## Model

| member | source | states |
|---|---|---|
| Opcode.Fetch | src/vm.go:153 | the fetched word's high byte is `memory[pc]` and its low byte `memory[pc+1]` (big-endian) |
| Opcode.FieldsRecompose | src/vm.go:154-316 | the family, x, y and n fields the switch masks out spell the whole word again |
| Opcode.FieldsOfNibbles | src/vm.go:154-316 | a word built from four nibbles has exactly those nibbles as family, x, y and n |
| Opcode.Family | src/vm.go:154 | `opcode & 0xF000` selects one of 16 families |
| Opcode.X | src/vm.go:192 | `0x0F00&opcode>>8` is a register index below 16 |
| Opcode.Y | src/vm.go:206 | `0x00F0&opcode>>4` is a register index below 16 |
| Opcode.N | src/vm.go:220 | `0x000F & opcode` is below 16 |
| Opcode.KK | src/vm.go:192 | `0x00FF&opcode` is the byte made of the y and n nibbles |
| Opcode.NNN | src/vm.go:180 | `0x0FFF & opcode` is a 12-bit address made of x and kk |
| Opcode.Decode | src/vm.go:154-393 | the nested switch (with its inner switches on the whole word, the low nibble and the low byte) reaches 00E0 exactly for the word 0x00E0 and 00EE exactly for 0x00EE, and every case takes its operands nnn, x, y, kk and n from the word's fields |
| Opcode.FetchBigEndian | src/vm.go:153 | the fetched word's kk is `memory[pc+1]`, and its family and x are the two nibbles of `memory[pc]` |
| Opcode.UnknownWords | src/vm.go:154-393 | a word reaches a `log.Fatal` default iff it is in the 0 family other than 00E0/00EE, the 8 family with low nibble 8-D or F, the E family with low byte other than 9E/A1, or the F family |
| Opcode.DecodeEncode | src/vm.go:154-393 | every instruction has a word that reaches its case of the switch |
| Opcode.EncodeDecode | src/vm.go:154-393 | decoding keeps every field a case reads: re-encoding a non-fatal word gives it back, except the low nibble of 5xy_ and 9xy_, which is dropped |
| Bits.AndWithinMask | src/vm.go:316 | `a & b` has no bit outside `b`: `(a & b) \| b == b` |
| Bits.And8WithinMask | src/vm.go:316 | on bytes, `rnd & kk` has no bit outside kk |
| Bits.XorCancels | src/vm.go:240 | `b ^ (b ^ a) == a` |
| Bits.Xor8Undoes | src/vm.go:240 | on bytes, xor with the same operand twice gives the operand back |
| Bits.OrBelow | src/vm.go:230 | or of two w-bit values is a w-bit value (so `uint8 \| uint8` fits a byte) |
| Bits.XorBelow | src/vm.go:240 | xor of two w-bit values is a w-bit value |
| Font.GlyphsRow | src/vm.go:49-148 | row r of digit d is byte 5d + r of the concatenated glyphs |
| Font.Table | src/vm.go:49-148 | the 80-byte table holds row r of digit d at offset 5d + r |
| Semantics.InBounds | src/vm.go:166-330 | holds exactly when every array index the case uses exists: `stack[sp]` for RET, `stack[sp+1]` (uint16) for CALL, `V[opcode&0x0F00]`, `V[opcode&0x00F0]` and `memory[I+i]` (uint16) for i < n for Dxyn |
| Semantics.Execute | src/vm.go:155-390 | a case body keeps the array sizes, memory and opcode |
| Semantics.ExecuteWrites | src/vm.go:155-390 | only 00E0 writes the screen, only 00E0 and Dxyn raise drawflag, only CALL writes the stack, only CALL and RET move sp, only Annn sets I |
| Semantics.Alu | src/vm.go:219-291 | an 8xy_ case changes no register but Vx and VF; 8xy0-8xy3 leave VF alone, and the others leave 0 or 1 in it (for x != F) |
| Semantics.ExecuteIgnoresRnd | src/vm.go:150-398 | only Cxkk's case depends on the random byte |
| Semantics.Step | src/vm.go:150-398 | a step keeps the array sizes and never writes memory |
| Interpreter.VM.constructor | src/vm.go:35-47 | pc = 0x200, sp = I = opcode = 0, V, stack and screen zero, ROM byte k at 0x200 + k while memory lasts, the font at 0x050, every other byte zero |
| Interpreter.VM.CopyRom | src/vm.go:44 | `copy` puts ROM byte k at 0x200 + k for every k that fits in memory and leaves the rest untouched |
| Interpreter.VM.InitialiseFont | src/vm.go:49-148 | `memory[0x050 + 5d + r]` is row r of glyph d, and no address outside 0x050-0x09F changes |
| Interpreter.VM.ParseOpcode | src/vm.go:150-398 | the object's new state and the status are exactly `Semantics.Step` of the old state |
| Interpreter.VM.RunCase | src/vm.go:154-393 | the outer switch runs the case of the decoded instruction, and reports the words that reach a fatal default, leaving the state unchanged for them |
| Interpreter.VM.ExecuteSystem | src/vm.go:155-175 | 00E0 clears all 32 x 8 screen bytes with the nested loop and sets drawflag, and 00EE pops the return address; other 0-family words are unknown |
| Interpreter.VM.ExecuteJump | src/vm.go:176-187 | 1nnn and 2nnn set pc to nnn, and 2nnn first increments sp and stores pc at `stack[sp]`, as `Execute` says (Bnnn, lines 307-311, likewise) |
| Interpreter.VM.ExecuteSkip | src/vm.go:188-208 | 3xkk, 4xkk and 5xy_ add 2 to pc exactly when their comparison holds (9xy_, lines 295-301, likewise) |
| Interpreter.VM.ExecuteLoad | src/vm.go:209-218 | 6xkk and 7xkk write Vx as `Execute` says (Annn and Cxkk, lines 302-316, likewise) |
| Interpreter.VM.ExecuteAlu | src/vm.go:219-294 | the 8xy_ cases leave V as `Semantics.Alu` says, and the low nibbles 8-D and F are unknown with V unchanged |
| Interpreter.VM.ExecuteDraw | src/vm.go:317-332 | the Dxyn stub sets drawflag and VF = 0 and nothing else; it reads `memory[I+i]` with the uint16 sum |
| Interpreter.VM.ExecuteKeys | src/vm.go:333-345 | Ex9E and ExA1 change nothing, and other E-family low bytes are unknown |
| Interpreter.MemoryAfterLoad | src/vm_test.go:5-14 | `memory[200]` (decimal) is 0 after `newVM`, whatever the ROM |
| Properties.StepFetches | src/vm.go:152-153 | every step leaves the fetched word in opcode, and drawflag is set afterwards iff the word was 00E0 or Dxyn |
| Properties.FatalWords | src/vm.go:173-174 | a step is fatal iff the word is one of the unknown words, and then the status carries the word and the unadvanced pc, and only drawflag and opcode have changed |
| Properties.FamilyFIsFatal | src/vm.go:346-390 | every F-family word is fatal |
| Properties.SequentialAdvance | src/vm.go:395 | every instruction that does not touch pc leaves it at pc + 2, with sp and stack unchanged |
| Properties.ExecuteKeepsPc | src/vm.go:157-333 | the cases of the straight-line instructions do not write pc |
| Properties.SkipAdvance | src/vm.go:188-208 | 3xkk, 4xkk, 5xy_ and 9xy_ move pc by 4 when the comparison holds and by 2 otherwise, and change nothing else |
| Properties.JumpTargets | src/vm.go:176-187 | the step continues; 1nnn and 2nnn leave pc at nnn + 2, and Bnnn at nnn + V0 + 2; 1nnn and Bnnn otherwise leave the machine as the fetch left it (V, I, sp, stack, screen and memory unchanged, drawflag cleared) |
| Properties.CallPushes | src/vm.go:181-187 | CALL sets sp to sp + 1 (uint16), which must be below 16, stores the CALL's own address at `stack[sp]`, changes no other stack entry, V, I or screen, and never writes `stack[0]` from sp = 0 |
| Properties.RetPops | src/vm.go:166-171 | RET sets pc to `stack[sp] + 2` and sp to sp - 1 (both uint16), and otherwise leaves the machine as the fetch left it (stack, V, I, screen and memory unchanged, drawflag cleared) |
| Properties.CallThenRet | src/vm.go:181-187 | a CALL to a 00EE runs it next, and that RET restores sp and leaves pc at the CALL's address + 2 |
| Properties.ReturnTo | src/vm.go:166-171 | a RET with the pushed address on the stack top returns to it + 2 and restores sp |
| Properties.AddByteWraps | src/vm.go:214-218 | 7xkk stores (Vx + kk) mod 256 in Vx and leaves VF and every other register and field unchanged |
| Properties.LoadByteWritesVx | src/vm.go:209-213 | 6xkk writes `memory[pc+1]` into Vx and nothing else |
| Properties.LoadIOnly | src/vm.go:302-306 | Annn sets I to the low 12 bits of the word and nothing else |
| Properties.RandomWithinMask | src/vm.go:312-316 | Cxkk leaves in Vx a byte with no bit outside kk, and nothing else changes |
| Properties.StepAlu | src/vm.go:219-294 | a step on an 8xy_ word changes V as `Alu` says, plus `pc += 2`, and nothing else |
| Properties.LogicWritesOnlyVx | src/vm.go:221-240 | 8xy0-8xy3 write Vx only, VF included among the unchanged; 8xy0 copies Vy |
| Properties.XorUndoes | src/vm.go:236-240 | 8xy3 applied twice with x != y restores the registers |
| Properties.AddRegNeverCarries | src/vm.go:241-251 | 8xy4 stores (Vx + Vy) mod 256, VF is 0 unless x = F, and other registers are unchanged |
| Properties.SubFlag | src/vm.go:252-261 | for x, y != F, 8xy5 sets VF = 1 iff Vx > Vy, else 0, and Vx = (Vx - Vy) mod 256 |
| Properties.SubNFlag | src/vm.go:272-281 | for x, y != F, 8xy7 sets VF = 1 iff Vy > Vx, else 0, and Vx = (Vy - Vx) mod 256 |
| Properties.SubReadsNewFlag | src/vm.go:252-261 | with y = F, 8xy5 subtracts the flag it just wrote |
| Properties.ShiftRightKeepsBits | src/vm.go:262-271 | 8xy6 sets Vx and VF so that 2 * Vx' + VF' is the old Vx: the lsb goes to VF and the shift is zero-filled |
| Properties.ShiftLeftKeepsBits | src/vm.go:282-291 | 8xyE sets Vx and VF so that Vx' + 256 * VF' is twice the old Vx: the msb goes to VF |
| Properties.ShiftFlagRegister | src/vm.go:262-291 | for x = F, the shifts act on the flag just written: 8Fy6 leaves VF = 0, and 8FyE leaves 2 or 0 |
| Properties.ClearIsIdempotent | src/vm.go:157-165 | 00E0 zeroes the screen, sets drawflag and keeps V; clearing again from the same pc changes nothing |
| Properties.DrawIsStub | src/vm.go:317-332 | Dxyn sets drawflag and VF = 0 and leaves the screen and V0-VE unchanged |
| Properties.KeysAreNoOps | src/vm.go:333-342 | Ex9E and ExA1 only fetch and advance pc |

## Left out

- `loop` (src/vm.go:400-411) is not modelled: it paces steps with `time.Sleep`, which divides by `clockspeed` (never set) and calls the display. Timing and the display are outside the step semantics. `clockspeed` is a `const` field that the constructor sets to 0, so no method can change it, and `Model()` leaves it out.
- `Display` and `Keyboard` are not modelled: they are interfaces over the SDL library (`src/sdl_display.go`, `src/sdl_keyboard.go`, `src/main.go`), whose code is not part of this model.
- `readRom` (src/utils.go) is left out because it does file I/O. The constructor takes the ROM's bytes, so its error return (`newVM` returning `nil, err`) is not modelled.
- `rand.Intn(256)` in Cxkk is left out; the random byte is the parameter `rnd` of `ParseOpcode` and `Step`.
- `log.Fatal` ends the process. Here it is the status `Fatal(opcode, pc)` with the state left as it was after the fetch. The message text is not modelled.
- `Interpreter.VM.InitialiseFont` does not model the write order: the source's 80 single-byte assignments become one simultaneous `forall` assignment of the same 80 bytes. The final memory is the same.
- Sprite drawing, key reads, the delay and sound timers, BCD and Fx55/Fx65 are not modelled, because the source implements none of them. Only the stubs that exist are modelled: Dxyn's flag writes and its unused reads, the empty E cases and the fatal F family.
- The variables `vx`, `vy` and `currentByte` in the Dxyn case are declared and never used. Go refuses to compile such a file, so `src/vm.go` as written does not build. The model keeps the reads, because they decide when Go would panic.
- The outer `default` of `parseOpcode` (src/vm.go:391-392) is not modelled: all 16 families have a case, so it cannot be reached.
- The boolean result of `parseOpcode` is not modelled as a separate value: it is always `true` when the function returns, which is `Continue`.

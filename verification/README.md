# CHIP-8 decoder, registers and machine state

A Dafny model of the core of a small CHIP-8 interpreter written in Rust:

- `Registers` (registers.dfy): the register file and the two partial
  conversions between a 4-bit operand and a general register
  (`Register::from`, `Register::to_usize`).
- `Opcodes` (opcodes.dfy): the 35-instruction `Opcode` type, the fields the
  decoder extracts from a 16-bit word, and two decoders.
  `DecodeAsWritten` is `Opcode::decode` as the source writes it, operator
  precedence included. `DecodeIntended` is the same table dispatched on the
  extracted fields.
- `Reference` (reference.dfy): an independent encoder, `Encode`, built from
  the operand forms of the CHIP-8 instruction set (section 3.1 of Cowgod's
  Chip-8 Technical Reference). It is proved inverse to `DecodeIntended` in
  both directions.
- `Emulator` (emulator.dfy): the `Emu` record (program counter, stack
  pointer, sixteen-entry return stack, 64 by 32 display) with `new`, `cls`,
  `ret` and `execute` as pure transitions.

`Opcodes.DecodeAsWritten` (src/opcode.rs:43-92) has no contract of its own.
The lemmas below state what it does, family by family. Its match table,
`Opcodes.Table`, takes the second and third tuple components as parameters:
`DecodeAsWritten` passes them as Rust reads them, `hex & (0x0f00 >> 8)` (Rust
binds `>>` tighter than `&`, Dafny the opposite), and `Opcodes.DecodeFixed`
passes the parenthesised `(hex & 0x0f00) >> 8`.

A panic in the source (`unreachable!`, an out-of-range index, a `usize`
underflow) becomes a precondition of the corresponding function.

The source panics on a return with an empty stack (src/emu.rs:33) and on any
instruction `execute` does not handle (src/emu.rs:24); the model makes each a
precondition.

## Model

| member | source | states |
|---|---|---|
| Registers.FromIndex | src/register.rs:28-49 | every operand below 16 names a general register, never I, Delay, Sound, Pc or Sp |
| Registers.ToIndex | src/register.rs:52-73 | `to_usize` is defined on the general registers only, and its result lies in 0..15 |
| Registers.IndexByte | src/register.rs:52-73 | the operand nibble of a general register is below 16 |
| Registers.FromToIndex | src/register.rs:28-73 | `from(to_usize(r)) == r` for each of V0..Vf |
| Registers.ToFromIndex | src/register.rs:28-73 | `to_usize(from(i)) == i` for every `i < 16` |
| Registers.FromIndexInjective | src/register.rs:30-47 | distinct indices below 16 give distinct registers, and equal registers come from equal indices |
| Registers.ToIndexInjective | src/register.rs:55-70 | two general registers have the same index exactly when they are the same register |
| Registers.GeneralIsImage | src/register.rs:21-47 | a register is general exactly when some index below 16 names it; the five special registers are never produced by `from` |
| Opcodes.Top | src/opcode.rs:50 | the family nibble is below 16 and is exactly bits 12-15 of the word |
| Opcodes.Nnn | src/opcode.rs:44 | `nnn` is below 0x1000, and together with the family nibble it rebuilds the word |
| Opcodes.N | src/opcode.rs:45 | `n` is below 16 and is the word modulo 16 |
| Opcodes.Kk | src/opcode.rs:46 | `kk` is the word modulo 256 |
| Opcodes.X | src/opcode.rs:47 | `x` is below 16 (so `Register::from(x)` cannot panic) and is bits 8-11 |
| Opcodes.Y | src/opcode.rs:48 | `y` is below 16 (so `Register::from(y)` cannot panic) and is bits 4-7 |
| Opcodes.FieldsReassemble | src/opcode.rs:44-48 | the four nibbles rebuild the word, and `kk` is `y` followed by `n` |
| Opcodes.FieldsOfConsistent | src/opcode.rs:44-48 | the extracted fields agree with each other, and `x` and `y` name the registers of bits 8-11 and 4-7 |
| Opcodes.DecodeAsWritten | src/opcode.rs:43-92 | no contract of its own: `Opcode::decode` arm for arm, with Rust's precedence in the tuple; the lemmas from `SourceTestVectors` to `FamilyFDivergence` state what it does |
| Opcodes.SourceTestVectors | src/opcode.rs:99-121 | 0x3012, 0x4112 and 0x5230 decode to the instructions the unit tests expect |
| Opcodes.TupleCollapses | src/opcode.rs:49-54 | as written, the second, third and fourth dispatch components all equal the low nibble |
| Opcodes.AsWrittenNeverClsOrRet | src/opcode.rs:55-56 | as written, no word decodes to `Cls` or `Ret` |
| Opcodes.AsWrittenFamily0 | src/opcode.rs:55-57 | as written, every word of family 0, 0x00E0 and 0x00EE included, decodes to `Sys` of its low 12 bits |
| Opcodes.SystemWords | src/opcode.rs:55-57 | in family 0 the word is its own `nnn`, and the `Cls`/`Ret` arm patterns describe exactly 0x00E0 and 0x00EE when read on `x`, `y`, `n` |
| Opcodes.ClearScreenWordAsWritten | src/opcode.rs:51-57 | 0x00E0 and 0x00EE decode to `Sys` as written but to `Cls` and `Ret` as intended |
| Opcodes.AddressFamilies | src/opcode.rs:58-76 | families 1, 2, A and B always decode to `Jp`, `Call`, `LdI`, `JpV0` carrying exactly the low 12 bits |
| Opcodes.RegisterFamilies | src/opcode.rs:60-78 | families 3, 4, 6, 7, C and D always decode, with `x` from bits 8-11 and `kk` the low byte (`y` and `n` for `Drw`) |
| Opcodes.RegisterPairFamilies | src/opcode.rs:62-74 | families 5 and 9 decode exactly when the low nibble is 0, and otherwise give None |
| Opcodes.ArithmeticFamily | src/opcode.rs:65-73 | family 8 decodes exactly when the low nibble is 0..7 or 0xE, and the low nibble alone picks the variant |
| Opcodes.AsWrittenFamilyE | src/opcode.rs:79-80 | as written, every word of family E decodes to None |
| Opcodes.AsWrittenFamilyF | src/opcode.rs:81-90 | as written, family F gives `LdB` on low nibble 3, `StoreRegs` on low nibble 5, and None otherwise |
| Opcodes.StoreRegsAsWritten | src/opcode.rs:83-88 | as written, 0xF065 and 0xF015 both decode to `StoreRegs(V0)`; 0xF015 is intended as `LdDtVx(V0)` |
| Opcodes.AgreeOnMiddleFamilies | src/opcode.rs:58-78 | the decoder as written and the intended decoder agree on every word of families 1 through D |
| Opcodes.Family0Divergence | src/opcode.rs:55-57 | in family 0 the two decoders differ exactly on 0x00E0 and 0x00EE |
| Opcodes.FamilyEDivergence | src/opcode.rs:79-80 | in family E the two decoders agree exactly on the words the intended decoder rejects |
| Opcodes.FamilyFDivergence | src/opcode.rs:81-90 | in family F the two decoders agree on low nibbles 3 and 5 exactly when bits 4-7 repeat the low nibble, and elsewhere exactly on rejected words |
| Opcodes.IntendedIsFixedTable | src/opcode.rs:43-92 | on every word, the intended decoder equals the source's own table with the tuple components of lines 51-52 parenthesised as lines 47-48 are |
| Opcodes.AsWrittenWellFormed | src/opcode.rs:43-92 | the decoder as written never panics: it builds instructions from general registers, 12-bit addresses and 4-bit heights only |
| Opcodes.IntendedWellFormed | src/opcode.rs:43-92 | the intended decoder builds well-formed instructions only |
| Opcodes.DispatchWellFormed | src/opcode.rs:55-90 | the intended table builds well-formed instructions from any fields in range |
| Reference.Assemble | src/opcode.rs:44-48 | a word spelled from a form has that form's family nibble and operands in the fields the decoder extracts |
| Reference.Layout | src/opcode.rs:55-89 | every well-formed instruction has a valid operand form |
| Reference.AssembleReads | src/opcode.rs:44-48 | the fields extracted from a spelled word are the operands it was spelled from |
| Reference.DispatchLayout | src/opcode.rs:55-89 | the intended table gives back every instruction from the fields of its own form |
| Reference.DecodeEncode | src/opcode.rs:43-92 | decoding the word of any well-formed instruction gives it back; the only exceptions are `Sys(0x0E0)` and `Sys(0x0EE)`, whose words belong to `Cls` and `Ret` |
| Reference.LayoutDispatch | src/opcode.rs:55-90 | every instruction the intended table gives is well formed and laid out in the form its fields are read in |
| Reference.DispatchShift | src/opcode.rs:71-73 | the table gives `Shr` or `Shl` exactly for family 8 with low nibble 6 or 0xE |
| Reference.AssembleFieldForm | src/opcode.rs:44-48 | a word is spelled back from the form of its own fields |
| Reference.AssembleWithoutY | src/opcode.rs:71-73 | for family 8, spelling the form without its `y` operand clears bits 4-7 of the word |
| Reference.EncodeDecode | src/opcode.rs:43-92 | encoding what a word decodes to gives the word back, except that `Shr` and `Shl` drop the `y` nibble they ignore |
| Reference.IntendedSurjective | src/opcode.rs:55-89 | every well-formed instruction except `Sys(0x0E0)` and `Sys(0x0EE)` is the decoding of some word |
| Reference.IntendedInjective | src/opcode.rs:43-92 | two words decode to the same instruction only when they are equal, or are `Shr`/`Shl` words that differ only in bits 4-7 |
| Reference.IntendedClsRetWords | src/opcode.rs:55-56 | under the intended decoder, 0x00E0 is the one word of `Cls` and 0x00EE the one word of `Ret` |
| Reference.AsWrittenReachesMiddle | src/opcode.rs:58-78 | the decoder as written still produces every well-formed instruction of families 1 through D |
| Reference.AsWrittenLosesClsRet | src/opcode.rs:51-57 | the decoder as written maps the encodings of `Cls` and `Ret` to system calls on those same words |
| Emulator.New | src/emu.rs:11-18 | a new machine is valid and starts at 0x200, with stack pointer 0, sixteen zero stack entries and a blank 2048-pixel display |
| Emulator.ClearScreen | src/emu.rs:28-30 | `cls` blanks all 64 by 32 pixels and leaves pc, sp and the stack alone; the result is valid exactly when sp is in range |
| Emulator.Return | src/emu.rs:32-35 | `ret` needs 1 <= sp <= 16; it loads `stack[sp - 1]` into pc, decrements sp, keeps the stack and display, and preserves validity |
| Emulator.CanExecute | src/emu.rs:20-35 | no contract of its own: the inputs on which `execute` neither reaches `unreachable!` (line 24) nor indexes the stack at `sp - 1` out of range (line 33) |
| Emulator.Execute | src/emu.rs:20-26 | `execute` behaves as `cls` on `Cls` and as `ret` on `Ret`, keeps the stack, and preserves validity |
| Emulator.ClearScreenIdempotent | src/emu.rs:28-30 | clearing the screen twice is the same as clearing it once |
| Emulator.ClearScreenReturnCommute | src/emu.rs:28-35 | `cls` and `ret` touch disjoint state, so either order gives the same machine |
| Emulator.ExecutePreservesValid | src/emu.rs:20-35 | the invariant `sp <= 16` and a 2048-pixel display survive every instruction `execute` accepts |
| Emulator.NewCannotReturn | src/emu.rs:11-35 | a fresh machine can clear the screen but cannot return: its stack is empty |
| Emulator.AsWrittenNeverExecutable | src/emu.rs:20-26 | no instruction the decoder as written produces is one `execute` accepts |
| Emulator.IntendedExecutableWords | src/emu.rs:20-26 | with the intended decoder, the words whose instruction `execute` accepts are exactly 0x00E0, and 0x00EE when the stack is not empty |
| Emulator.IntendedExecutable | src/emu.rs:20-26 | the intended decoder turns 0x00E0 into an always-executable `Cls`, and 0x00EE into a `Ret` that executes exactly when the stack is non-empty |

## Left out

- The semantics of every instruction except `Cls` and `Ret`. `execute` implements no others, so `Execute` requires one of those two.
- `Emulator.Return`: a `usize` underflow of `sp - 1` (a panic in debug builds, a wrap followed by an out-of-bounds panic in release builds) is stated as the precondition `1 <= sp`. No wrapping is modelled.
- The `Debug`, `PartialEq`, `Eq`, `Copy` and `Clone` derives, and the heap allocation behind `Vec`. The display is a `seq<u8>` whose length is part of `Valid`; the stack is a sequence of exactly sixteen addresses.
- Program loading, the fetch loop, timers, input, rendering, audio and randomness. None of them is part of the modelled files.
- `Opcodes.DecodeIntended`: this is not code in the source. It dispatches families E and F on the low byte `kk`, which is `y` followed by `n`, and `Opcodes.IntendedIsFixedTable` proves it equal to the source's table with lines 51-52 corrected.
- `Reference.Encode`: the source has no encoder. The encoding comes from the arm patterns of `Opcode::decode` and section 3.1 of Cowgod's Chip-8 Technical Reference. It writes a zero `y` nibble for `Shr` and `Shl`.

## Findings

| source | as written | input that shows it | evidently intended | confidence | as-written member | corrected member |
|---|---|---|---|---|---|---|
| src/opcode.rs:51-52 | the dispatch tuple's second and third components are `hex & 0x0f00 >> 8` and `hex & 0x00f0 >> 4`, which Rust reads as `hex & 0xf`. So the `Cls`, `Ret` and family-E arms never match, and family F matches on the low nibble only | 0x00E0 decodes to `Sys(0x0E0)` instead of `Cls`. 0x00EE gives `Sys(0x0EE)`. 0xE09E gives None. 0xF015 gives `StoreRegs(V0)` | mask, then shift, as lines 47-48 already do: the components are `x` and `y` | high (not executed) | Opcodes.DecodeAsWritten, shown by Opcodes.ClearScreenWordAsWritten and Opcodes.StoreRegsAsWritten | Opcodes.DecodeIntended, equal to the corrected table Opcodes.DecodeFixed by Opcodes.IntendedIsFixedTable and proved inverse to the encoder by Reference.DecodeEncode and Reference.EncodeDecode |

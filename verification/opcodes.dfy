/** The CHIP-8 instruction set and the interpreter's decoder from a 16-bit
    instruction word. Two decoders live here: `DecodeAsWritten`, which
    follows the interpreter's match table including its operator-precedence
    slip, and `DecodeIntended`, which matches on the nibble fields the
    interpreter itself extracts. */
module Opcodes {

  import opened Wrappers
  import opened Registers

  type u16 = bv16

  /** One variant per instruction; operand names follow the usual CHIP-8
      notation: `addr` a 12-bit address, `x`/`y` registers, `kk` a byte,
      `n` a nibble. */
  datatype Opcode =
    | Sys(addr: u16)
    | Cls
    | Ret
    | Jp(addr: u16)
    | Call(addr: u16)
    | SeVal(x: Register, kk: u8)
    | SneVal(x: Register, kk: u8)
    | SeReg(x: Register, y: Register)
    | LdVal(x: Register, kk: u8)
    | AddVal(x: Register, kk: u8)
    | LdReg(x: Register, y: Register)
    | Or(x: Register, y: Register)
    | And(x: Register, y: Register)
    | Xor(x: Register, y: Register)
    | AddReg(x: Register, y: Register)
    | Sub(x: Register, y: Register)
    | Shr(x: Register)
    | Subn(x: Register, y: Register)
    | Shl(x: Register)
    | SneReg(x: Register, y: Register)
    | LdI(addr: u16)
    | JpV0(addr: u16)
    | Rnd(x: Register, kk: u8)
    | Drw(x: Register, y: Register, n: u8)
    | Skp(x: Register)
    | SkNp(x: Register)
    | LdVxDt(x: Register)
    | LdK(x: Register)
    | LdDtVx(x: Register)
    | LdSt(x: Register)
    | AddI(x: Register)
    | LdF(x: Register)
    | LdB(x: Register)
    | StoreRegs(x: Register)
    | ReadRegs(x: Register)
  {
    /** Operands an instruction word can carry: general registers only,
        addresses of 12 bits, sprite heights of 4 bits. */
    predicate WellFormed() {
      match this
      case Cls | Ret => true
      case Sys(_) | Jp(_) | Call(_) | LdI(_) | JpV0(_) => addr < 0x1000
      case SeReg(_, _) | LdReg(_, _) | Or(_, _) | And(_, _) | Xor(_, _) | AddReg(_, _)
        | Sub(_, _) | Subn(_, _) | SneReg(_, _) => x.IsGeneral() && y.IsGeneral()
      case Drw(_, _, _) => x.IsGeneral() && y.IsGeneral() && n < 16
      case _ => x.IsGeneral()
    }
  }

  // The fields the decoder extracts before dispatching.

  /** Bits 12-15, the instruction family. */
  function Top(hex: u16): (t: u16)
    ensures t < 16
    ensures t << 12 == hex & 0xf000
  {
    hex >> 12
  }

  /** `nnn`: the 12-bit address, the word without its family nibble. */
  function Nnn(hex: u16): (a: u16)
    ensures a < 0x1000
    ensures (Top(hex) << 12) | a == hex
  {
    hex & 0x0fff
  }

  /** `n`: the low nibble. */
  function N(hex: u16): (n: u8)
    ensures n < 16
    ensures n as u16 == hex % 0x10
  {
    (hex & 0x000f) as u8
  }

  /** `kk`: the low byte. */
  function Kk(hex: u16): (kk: u8)
    ensures kk as u16 == hex % 0x100
  {
    (hex & 0x00ff) as u8
  }

  /** `x`: bits 8-11, masked and then shifted. */
  function X(hex: u16): (x: u8)
    ensures x < 16
    ensures x as u16 == (hex >> 8) & 0xf
  {
    ((hex & 0x0f00) >> 8) as u8
  }

  /** `y`: bits 4-7, masked and then shifted. */
  function Y(hex: u16): (y: u8)
    ensures y < 16
    ensures y as u16 == (hex >> 4) & 0xf
  {
    ((hex & 0x00f0) >> 4) as u8
  }

  /** The four nibbles determine the word. */
  lemma FieldsReassemble(hex: u16)
    ensures hex == (Top(hex) << 12) | (X(hex) as u16 << 8) | (Y(hex) as u16 << 4) | N(hex) as u16
    ensures Kk(hex) as u16 == (Y(hex) as u16 << 4) | N(hex) as u16
  {
  }

  /** `Opcode::decode` as the interpreter writes it. The second and third
      components of the dispatch tuple are written without parentheses, and
      since Rust's `>>` binds tighter than `&` they mask the word with the
      shifted constants: both are the low nibble, not `x` and `y`. The
      parentheses below make that reading explicit, because Dafny's own
      precedence of `&` and `>>` is the opposite of Rust's. */
  function DecodeAsWritten(hex: u16): (r: Option<Opcode>)
  {
    Table(hex, hex & (0x0f00 >> 8), hex & (0x00f0 >> 4))
  }

  /** `Opcode::decode` with the second and third tuple components
      parenthesised as lines 47-48 of the same function already do: mask,
      then shift, so that they are `x` and `y`. */
  function DecodeFixed(hex: u16): (r: Option<Opcode>)
  {
    Table(hex, (hex & 0x0f00) >> 8, (hex & 0x00f0) >> 4)
  }

  /** The match table of `Opcode::decode`, arm for arm, with the second and
      third components of its dispatch tuple given as `second` and
      `third`. */
  function Table(hex: u16, second: u16, third: u16): (r: Option<Opcode>)
  {
    var nnn := Nnn(hex);
    var n := N(hex);
    var kk := Kk(hex);
    var x := X(hex);
    var y := Y(hex);
    match (hex >> 12, second, third, hex & 0x000f)
    case (0x0, 0x0, 0xe, 0x0) => Some(Cls)
    case (0x0, 0x0, 0xe, 0xe) => Some(Ret)
    case (0x0, _, _, _) => Some(Sys(nnn))
    case (0x1, _, _, _) => Some(Jp(nnn))
    case (0x2, _, _, _) => Some(Call(nnn))
    case (0x3, _, _, _) => Some(SeVal(FromIndex(x), kk))
    case (0x4, _, _, _) => Some(SneVal(FromIndex(x), kk))
    case (0x5, _, _, 0x0) => Some(SeReg(FromIndex(x), FromIndex(y)))
    case (0x6, _, _, _) => Some(LdVal(FromIndex(x), kk))
    case (0x7, _, _, _) => Some(AddVal(FromIndex(x), kk))
    case (0x8, _, _, 0x0) => Some(LdReg(FromIndex(x), FromIndex(y)))
    case (0x8, _, _, 0x1) => Some(Or(FromIndex(x), FromIndex(y)))
    case (0x8, _, _, 0x2) => Some(And(FromIndex(x), FromIndex(y)))
    case (0x8, _, _, 0x3) => Some(Xor(FromIndex(x), FromIndex(y)))
    case (0x8, _, _, 0x4) => Some(AddReg(FromIndex(x), FromIndex(y)))
    case (0x8, _, _, 0x5) => Some(Sub(FromIndex(x), FromIndex(y)))
    case (0x8, _, _, 0x6) => Some(Shr(FromIndex(x)))
    case (0x8, _, _, 0x7) => Some(Subn(FromIndex(x), FromIndex(y)))
    case (0x8, _, _, 0xe) => Some(Shl(FromIndex(x)))
    case (0x9, _, _, 0x0) => Some(SneReg(FromIndex(x), FromIndex(y)))
    case (0xa, _, _, _) => Some(LdI(hex & 0x0fff))
    case (0xb, _, _, _) => Some(JpV0(hex & 0x0fff))
    case (0xc, _, _, _) => Some(Rnd(FromIndex(x), kk))
    case (0xd, _, _, _) => Some(Drw(FromIndex(x), FromIndex(y), n))
    case (0xe, _, 0x9, 0xe) => Some(Skp(FromIndex(x)))
    case (0xe, _, 0xa, 0x1) => Some(SkNp(FromIndex(x)))
    case (0xf, _, 0x0, 0x7) => Some(LdVxDt(FromIndex(x)))
    case (0xf, _, 0x0, 0xa) => Some(LdK(FromIndex(x)))
    case (0xf, _, 0x1, 0x5) => Some(LdDtVx(FromIndex(x)))
    case (0xf, _, 0x1, 0x8) => Some(LdSt(FromIndex(x)))
    case (0xf, _, 0x1, 0xe) => Some(AddI(FromIndex(x)))
    case (0xf, _, 0x2, 0x9) => Some(LdF(FromIndex(x)))
    case (0xf, _, 0x3, 0x3) => Some(LdB(FromIndex(x)))
    case (0xf, _, 0x5, 0x5) => Some(StoreRegs(FromIndex(x)))
    case (0xf, _, 0x6, 0x5) => Some(ReadRegs(FromIndex(x)))
    case _ => None
  }

  /** The fields the decoder extracts from a word, all at once, with the
      operand nibbles `x` and `y` already read as registers. */
  datatype Fields = Fields(top: u16, x: Register, y: Register, n: u8, kk: u8, nnn: u16)
  {
    /** Each field within the range a word can give it. */
    predicate Bounded() {
      top < 16 && x.IsGeneral() && y.IsGeneral() && n < 16 && nnn < 0x1000
    }

    /** Fields as one word yields them: `nnn` is the word without its
        family nibble, and the other fields are read from it. */
    predicate Consistent() {
      && Bounded()
      && nnn == ((IndexByte(x) as u16) << 8) | ((IndexByte(y) as u16) << 4) | n as u16
      && kk == (nnn & 0xff) as u8
    }
  }

  function FieldsOf(hex: u16): (f: Fields)
  {
    Fields(Top(hex), FromIndex(X(hex)), FromIndex(Y(hex)), N(hex), Kk(hex), Nnn(hex))
  }

  /** The fields of a word are consistent, and `x` and `y` name the
      registers of its operand nibbles. */
  lemma FieldsOfConsistent(hex: u16)
    ensures FieldsOf(hex).Consistent()
    ensures IndexByte(FieldsOf(hex).x) == X(hex) && IndexByte(FieldsOf(hex).y) == Y(hex)
  {
    ToFromIndex(X(hex));
    ToFromIndex(Y(hex));
  }

  /** The decoder as evidently intended, dispatched on the fields the
      decoder extracts. It follows the layout of the CHIP-8 instruction set
      in section 3.1 of Cowgod's Chip-8 Technical Reference: the family
      nibble first, then whichever fields disambiguate within the family.
      For the key, timer and memory instructions of families E and F that
      is the low byte `kk`, which is `y` followed by `n`; the lemma
      `IntendedIsFixedTable` shows it is `DecodeFixed`. */
  function DecodeIntended(hex: u16): (r: Option<Opcode>)
  {
    Dispatch(FieldsOf(hex))
  }

  /** The corrected table, on the extracted fields. */
  function Dispatch(f: Fields): (r: Option<Opcode>)
  {
    match f.top
    case 0x0 =>
      if f.x == V0 && f.y == Ve && f.n == 0x0 then Some(Cls)
      else if f.x == V0 && f.y == Ve && f.n == 0xe then Some(Ret)
      else Some(Sys(f.nnn))
    case 0x1 => Some(Jp(f.nnn))
    case 0x2 => Some(Call(f.nnn))
    case 0x3 => Some(SeVal(f.x, f.kk))
    case 0x4 => Some(SneVal(f.x, f.kk))
    case 0x5 => if f.n == 0x0 then Some(SeReg(f.x, f.y)) else None
    case 0x6 => Some(LdVal(f.x, f.kk))
    case 0x7 => Some(AddVal(f.x, f.kk))
    case 0x8 =>
      (match f.n
       case 0x0 => Some(LdReg(f.x, f.y))
       case 0x1 => Some(Or(f.x, f.y))
       case 0x2 => Some(And(f.x, f.y))
       case 0x3 => Some(Xor(f.x, f.y))
       case 0x4 => Some(AddReg(f.x, f.y))
       case 0x5 => Some(Sub(f.x, f.y))
       case 0x6 => Some(Shr(f.x))
       case 0x7 => Some(Subn(f.x, f.y))
       case 0xe => Some(Shl(f.x))
       case _ => None)
    case 0x9 => if f.n == 0x0 then Some(SneReg(f.x, f.y)) else None
    case 0xa => Some(LdI(f.nnn))
    case 0xb => Some(JpV0(f.nnn))
    case 0xc => Some(Rnd(f.x, f.kk))
    case 0xd => Some(Drw(f.x, f.y, f.n))
    case 0xe =>
      (match f.kk
       case 0x9e => Some(Skp(f.x))
       case 0xa1 => Some(SkNp(f.x))
       case _ => None)
    case _ =>
      (match f.kk
       case 0x07 => Some(LdVxDt(f.x))
       case 0x0a => Some(LdK(f.x))
       case 0x15 => Some(LdDtVx(f.x))
       case 0x18 => Some(LdSt(f.x))
       case 0x1e => Some(AddI(f.x))
       case 0x29 => Some(LdF(f.x))
       case 0x33 => Some(LdB(f.x))
       case 0x55 => Some(StoreRegs(f.x))
       case 0x65 => Some(ReadRegs(f.x))
       case _ => None)
  }

  // Properties of the decoder as written.

  /** The examples the interpreter's own tests check. */
  lemma SourceTestVectors()
    ensures DecodeAsWritten(0x3012) == Some(SeVal(V0, 0x12))
    ensures DecodeAsWritten(0x4112) == Some(SneVal(V1, 0x12))
    ensures DecodeAsWritten(0x5230) == Some(SeReg(V2, V3))
  {
  }

  /** As written, the second, third and fourth dispatch components are one
      and the same value, the low nibble `n`. */
  lemma TupleCollapses(hex: u16)
    ensures hex & (0x0f00 >> 8) == hex & 0x000f == N(hex) as u16
    ensures hex & (0x00f0 >> 4) == hex & 0x000f
  {
  }

  /** As written, no word decodes to `Cls` or `Ret`: their arms ask for a
      second component of 0 and a third of 0xe at once. */
  lemma AsWrittenNeverClsOrRet(hex: u16)
    ensures DecodeAsWritten(hex) != Some(Cls)
    ensures DecodeAsWritten(hex) != Some(Ret)
  {
  }

  /** As written, every word of family 0 is a `Sys` call on its low 12
      bits, including the clear-screen and return words. */
  lemma AsWrittenFamily0(hex: u16)
    requires Top(hex) == 0x0
    ensures DecodeAsWritten(hex) == Some(Sys(hex))
  {
  }

  /** In family 0 the address is the whole word, and the clear-screen and
      return words are the ones whose fields read 0, E, 0 and 0, E, E. */
  lemma SystemWords(hex: u16)
    requires Top(hex) == 0x0
    ensures Nnn(hex) == hex
    ensures hex == 0x00e0 <==> X(hex) == 0x0 && Y(hex) == 0xe && N(hex) == 0x0
    ensures hex == 0x00ee <==> X(hex) == 0x0 && Y(hex) == 0xe && N(hex) == 0xe
  {
  }

  /** The discrepancy on the clear-screen and return words: the decoder as
      written turns them into system calls. */
  lemma ClearScreenWordAsWritten()
    ensures DecodeAsWritten(0x00e0) == Some(Sys(0x0e0))
    ensures DecodeIntended(0x00e0) == Some(Cls)
    ensures DecodeAsWritten(0x00ee) == Some(Sys(0x0ee))
    ensures DecodeIntended(0x00ee) == Some(Ret)
  {
  }

  /** Families 1, 2, A and B always decode and carry exactly the low 12
      bits of the word as their address. */
  lemma AddressFamilies(hex: u16)
    ensures Top(hex) == 0x1 ==> DecodeAsWritten(hex) == Some(Jp(Nnn(hex)))
    ensures Top(hex) == 0x2 ==> DecodeAsWritten(hex) == Some(Call(Nnn(hex)))
    ensures Top(hex) == 0xa ==> DecodeAsWritten(hex) == Some(LdI(Nnn(hex)))
    ensures Top(hex) == 0xb ==> DecodeAsWritten(hex) == Some(JpV0(Nnn(hex)))
  {
  }

  /** Families 3, 4, 6, 7, C and D always decode, with register `x` from
      bits 8-11 and the byte `kk` (or, for `Drw`, `y` and `n`). */
  lemma RegisterFamilies(hex: u16)
    ensures Top(hex) == 0x3 ==> DecodeAsWritten(hex) == Some(SeVal(FromIndex(X(hex)), Kk(hex)))
    ensures Top(hex) == 0x4 ==> DecodeAsWritten(hex) == Some(SneVal(FromIndex(X(hex)), Kk(hex)))
    ensures Top(hex) == 0x6 ==> DecodeAsWritten(hex) == Some(LdVal(FromIndex(X(hex)), Kk(hex)))
    ensures Top(hex) == 0x7 ==> DecodeAsWritten(hex) == Some(AddVal(FromIndex(X(hex)), Kk(hex)))
    ensures Top(hex) == 0xc ==> DecodeAsWritten(hex) == Some(Rnd(FromIndex(X(hex)), Kk(hex)))
    ensures Top(hex) == 0xd ==>
      DecodeAsWritten(hex) == Some(Drw(FromIndex(X(hex)), FromIndex(Y(hex)), N(hex)))
  {
  }

  /** Families 5 and 9 decode exactly when the low nibble is 0. */
  lemma RegisterPairFamilies(hex: u16)
    ensures Top(hex) == 0x5 ==>
      DecodeAsWritten(hex) == if N(hex) == 0 then Some(SeReg(FromIndex(X(hex)), FromIndex(Y(hex)))) else None
    ensures Top(hex) == 0x9 ==>
      DecodeAsWritten(hex) == if N(hex) == 0 then Some(SneReg(FromIndex(X(hex)), FromIndex(Y(hex)))) else None
  {
  }

  /** Family 8 decodes exactly when the low nibble is 0..7 or 0xe, and the
      low nibble alone selects the arithmetic or logic variant. */
  lemma ArithmeticFamily(hex: u16)
    requires Top(hex) == 0x8
    ensures DecodeAsWritten(hex).Some? <==> N(hex) <= 7 || N(hex) == 0xe
    ensures N(hex) == 0x0 ==> DecodeAsWritten(hex) == Some(LdReg(FromIndex(X(hex)), FromIndex(Y(hex))))
    ensures N(hex) == 0x1 ==> DecodeAsWritten(hex) == Some(Or(FromIndex(X(hex)), FromIndex(Y(hex))))
    ensures N(hex) == 0x2 ==> DecodeAsWritten(hex) == Some(And(FromIndex(X(hex)), FromIndex(Y(hex))))
    ensures N(hex) == 0x3 ==> DecodeAsWritten(hex) == Some(Xor(FromIndex(X(hex)), FromIndex(Y(hex))))
    ensures N(hex) == 0x4 ==> DecodeAsWritten(hex) == Some(AddReg(FromIndex(X(hex)), FromIndex(Y(hex))))
    ensures N(hex) == 0x5 ==> DecodeAsWritten(hex) == Some(Sub(FromIndex(X(hex)), FromIndex(Y(hex))))
    ensures N(hex) == 0x6 ==> DecodeAsWritten(hex) == Some(Shr(FromIndex(X(hex))))
    ensures N(hex) == 0x7 ==> DecodeAsWritten(hex) == Some(Subn(FromIndex(X(hex)), FromIndex(Y(hex))))
    ensures N(hex) == 0xe ==> DecodeAsWritten(hex) == Some(Shl(FromIndex(X(hex))))
  {
  }

  /** As written, no word of family E decodes: both key-skip arms need two
      different values of the low nibble at once. */
  lemma AsWrittenFamilyE(hex: u16)
    requires Top(hex) == 0xe
    ensures DecodeAsWritten(hex) == None
  {
  }

  /** As written, family F decodes only on low nibble 3 (`LdB`) and low
      nibble 5 (`StoreRegs`), whatever bits 4-7 hold. */
  lemma AsWrittenFamilyF(hex: u16)
    requires Top(hex) == 0xf
    ensures DecodeAsWritten(hex) ==
      if N(hex) == 3 then Some(LdB(FromIndex(X(hex))))
      else if N(hex) == 5 then Some(StoreRegs(FromIndex(X(hex))))
      else None
  {
  }

  /** As written, the timer-store word 0xF015 reads as a register store. */
  lemma StoreRegsAsWritten()
    ensures DecodeAsWritten(0xf065) == Some(StoreRegs(V0))
    ensures DecodeAsWritten(0xf015) == Some(StoreRegs(V0))
    ensures DecodeIntended(0xf015) == Some(LdDtVx(V0))
  {
  }

  // Where the two decoders agree and where they part.

  /** Families 1 through D never look at the collapsed components, so the
      two decoders agree on them. */
  lemma AgreeOnMiddleFamilies(hex: u16)
    requires 0x1 <= Top(hex) <= 0xd
    ensures DecodeAsWritten(hex) == DecodeIntended(hex)
  {
  }

  /** In family 0 the decoders part exactly on the clear-screen and
      return words. */
  lemma Family0Divergence(hex: u16)
    requires Top(hex) == 0x0
    ensures DecodeAsWritten(hex) == DecodeIntended(hex) <==> hex != 0x00e0 && hex != 0x00ee
  {
  }

  /** In family E the decoders agree exactly on the words that name no
      instruction. */
  lemma FamilyEDivergence(hex: u16)
    requires Top(hex) == 0xe
    ensures DecodeAsWritten(hex) == DecodeIntended(hex) <==> DecodeIntended(hex) == None
  {
  }

  /** In family F the decoders agree on low nibbles 3 and 5 exactly when
      bits 4-7 repeat the low nibble, and elsewhere exactly on the words
      that name no instruction. */
  lemma FamilyFDivergence(hex: u16)
    requires Top(hex) == 0xf
    ensures N(hex) == 3 || N(hex) == 5 ==>
      (DecodeAsWritten(hex) == DecodeIntended(hex) <==> Y(hex) == N(hex))
    ensures N(hex) != 3 && N(hex) != 5 ==>
      (DecodeAsWritten(hex) == DecodeIntended(hex) <==> DecodeIntended(hex) == None)
  {
  }

  /** The intended decoder is the source's own table with the second and
      third tuple components corrected, on every word. */
  lemma IntendedIsFixedTable(hex: u16)
    ensures DecodeIntended(hex) == DecodeFixed(hex)
  {
    if Top(hex) == 0x0 {
      FixedTableFamily0(hex);
    } else if Top(hex) <= 0x7 {
      FixedTableLow(hex);
    } else if Top(hex) == 0x8 {
      FixedTableArithmetic(hex);
    } else if Top(hex) <= 0xd {
      FixedTableMiddle(hex);
    } else if Top(hex) == 0xe {
      FixedTableKeys(hex);
    } else {
      FixedTableMisc(hex);
    }
  }

  lemma FixedTableFamily0(hex: u16)
    requires Top(hex) == 0x0
    ensures DecodeIntended(hex) == DecodeFixed(hex)
  {
    FieldsOfConsistent(hex);
  }

  lemma FixedTableLow(hex: u16)
    requires 0x1 <= Top(hex) <= 0x7
    ensures DecodeIntended(hex) == DecodeFixed(hex)
  {
  }

  lemma FixedTableArithmetic(hex: u16)
    requires Top(hex) == 0x8
    ensures DecodeIntended(hex) == DecodeFixed(hex)
  {
  }

  lemma FixedTableMiddle(hex: u16)
    requires 0x9 <= Top(hex) <= 0xd
    ensures DecodeIntended(hex) == DecodeFixed(hex)
  {
  }

  lemma FixedTableKeys(hex: u16)
    requires Top(hex) == 0xe
    ensures DecodeIntended(hex) == DecodeFixed(hex)
  {
    FieldsReassemble(hex);
  }

  lemma FixedTableMisc(hex: u16)
    requires Top(hex) == 0xf
    ensures DecodeIntended(hex) == DecodeFixed(hex)
  {
    FieldsReassemble(hex);
  }

  // Neither decoder can panic: every register index it hands to
  // `FromIndex` is below 16, and every operand it builds fits its field.

  lemma AsWrittenWellFormed(hex: u16)
    ensures DecodeAsWritten(hex).Some? ==> DecodeAsWritten(hex).value.WellFormed()
  {
    if Top(hex) < 0x8 {
      AsWrittenWellFormedLow(hex);
    } else if Top(hex) == 0x8 {
      AsWrittenWellFormedArithmetic(hex);
    } else if 0x9 <= Top(hex) <= 0xd {
      AsWrittenWellFormedMiddle(hex);
    } else {
      AsWrittenWellFormedHigh(hex);
    }
  }

  lemma AsWrittenWellFormedLow(hex: u16)
    requires Top(hex) < 0x8
    ensures DecodeAsWritten(hex).Some? ==> DecodeAsWritten(hex).value.WellFormed()
  {
  }

  lemma AsWrittenWellFormedArithmetic(hex: u16)
    requires Top(hex) == 0x8
    ensures DecodeAsWritten(hex).Some? ==> DecodeAsWritten(hex).value.WellFormed()
  {
  }

  lemma AsWrittenWellFormedMiddle(hex: u16)
    requires 0x9 <= Top(hex) <= 0xd
    ensures DecodeAsWritten(hex).Some? ==> DecodeAsWritten(hex).value.WellFormed()
  {
  }

  lemma AsWrittenWellFormedHigh(hex: u16)
    requires Top(hex) >= 0xe
    ensures DecodeAsWritten(hex).Some? ==> DecodeAsWritten(hex).value.WellFormed()
  {
  }

  lemma IntendedWellFormed(hex: u16)
    ensures DecodeIntended(hex).Some? ==> DecodeIntended(hex).value.WellFormed()
  {
    FieldsOfConsistent(hex);
    DispatchWellFormed(FieldsOf(hex));
  }

  /** The table builds well-formed instructions from fields in range. */
  lemma DispatchWellFormed(f: Fields)
    requires f.Bounded()
    ensures Dispatch(f).Some? ==> Dispatch(f).value.WellFormed()
  {
    if f.top < 0x8 {
      DispatchWellFormedLow(f);
    } else if f.top == 0x8 {
      DispatchWellFormedArithmetic(f);
    } else if 0x9 <= f.top <= 0xd {
      DispatchWellFormedMiddle(f);
    } else {
      DispatchWellFormedHigh(f);
    }
  }

  lemma DispatchWellFormedLow(f: Fields)
    requires f.Bounded() && f.top < 0x8
    ensures Dispatch(f).Some? ==> Dispatch(f).value.WellFormed()
  {
  }

  lemma DispatchWellFormedArithmetic(f: Fields)
    requires f.Bounded() && f.top == 0x8
    ensures Dispatch(f).Some? ==> Dispatch(f).value.WellFormed()
  {
  }

  lemma DispatchWellFormedMiddle(f: Fields)
    requires f.Bounded() && 0x9 <= f.top <= 0xd
    ensures Dispatch(f).Some? ==> Dispatch(f).value.WellFormed()
  {
  }

  lemma DispatchWellFormedHigh(f: Fields)
    requires f.Bounded() && f.top >= 0xe
    ensures Dispatch(f).Some? ==> Dispatch(f).value.WellFormed()
  {
  }
}

/** The CHIP-8 register file as named by the interpreter: sixteen general
    registers V0..Vf addressable by a 4-bit operand, plus the special
    registers I, Delay, Sound, Pc and Sp that no operand can name. */
module Registers {

  type u8 = bv8

  datatype Register =
    | V0 | V1 | V2 | V3 | V4 | V5 | V6 | V7
    | V8 | V9 | Va | Vb | Vc | Vd | Ve | Vf
    | I | Delay | Sound | Pc | Sp
  {
    /** The general registers are exactly the ones an operand nibble can name. */
    predicate IsGeneral() {
      !(I? || Delay? || Sound? || Pc? || Sp?)
    }
  }

  /** `Register::from`: a 4-bit operand to its general register. Any
      index of 16 or more is a panic in the source, hence the precondition. */
  function FromIndex(i: u8): (r: Register)
    requires i < 16
    ensures r.IsGeneral()
  {
    match i
    case 0x0 => V0
    case 0x1 => V1
    case 0x2 => V2
    case 0x3 => V3
    case 0x4 => V4
    case 0x5 => V5
    case 0x6 => V6
    case 0x7 => V7
    case 0x8 => V8
    case 0x9 => V9
    case 0xa => Va
    case 0xb => Vb
    case 0xc => Vc
    case 0xd => Vd
    case 0xe => Ve
    case 0xf => Vf
    case _ => V0
  }

  /** `Register::to_usize`: the operand index of a general register; the
      special registers are a panic in the source. */
  function ToIndex(r: Register): (n: int)
    requires r.IsGeneral()
    ensures 0 <= n < 16
  {
    IndexByte(r) as int
  }

  /** The operand nibble of a general register, as the byte `FromIndex`
      takes. */
  function IndexByte(r: Register): (b: u8)
    requires r.IsGeneral()
    ensures b < 16
  {
    match r
    case V0 => 0x0
    case V1 => 0x1
    case V2 => 0x2
    case V3 => 0x3
    case V4 => 0x4
    case V5 => 0x5
    case V6 => 0x6
    case V7 => 0x7
    case V8 => 0x8
    case V9 => 0x9
    case Va => 0xa
    case Vb => 0xb
    case Vc => 0xc
    case Vd => 0xd
    case Ve => 0xe
    case Vf => 0xf
    case _ => 0x0
  }

  /** Round trip from the register side: every general register is the
      image of its own index. */
  lemma FromToIndex(r: Register)
    requires r.IsGeneral()
    ensures FromIndex(IndexByte(r)) == r
  {
    match r
    case V0 =>
    case V1 =>
    case V2 =>
    case V3 =>
    case V4 =>
    case V5 =>
    case V6 =>
    case V7 =>
    case V8 =>
    case V9 =>
    case Va =>
    case Vb =>
    case Vc =>
    case Vd =>
    case Ve =>
    case Vf =>
  }

  /** Round trip from the index side: `to_usize(from(i)) == i` below 16. */
  lemma ToFromIndex(i: u8)
    requires i < 16
    ensures ToIndex(FromIndex(i)) == i as int
    ensures IndexByte(FromIndex(i)) == i
  {
  }

  /** Distinct indices name distinct registers. */
  lemma FromIndexInjective(i: u8, j: u8)
    requires i < 16 && j < 16
    ensures FromIndex(i) == FromIndex(j) <==> i == j
  {
    ToFromIndex(i);
    ToFromIndex(j);
  }

  /** Distinct general registers have distinct indices. */
  lemma ToIndexInjective(r: Register, s: Register)
    requires r.IsGeneral() && s.IsGeneral()
    ensures ToIndex(r) == ToIndex(s) <==> r == s
  {
    FromToIndex(r);
    FromToIndex(s);
  }

  /** The general registers are exactly the registers some index below 16
      names; I, Delay, Sound, Pc and Sp are nobody's image. */
  lemma GeneralIsImage(r: Register)
    ensures r.IsGeneral() <==> exists i: u8 :: i < 16 && FromIndex(i) == r
  {
    if r.IsGeneral() {
      FromToIndex(r);
    }
  }
}

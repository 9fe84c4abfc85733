/** The CHIP-8 instruction encoding as laid out in section 3.1 of Cowgod's
    Chip-8 Technical Reference: the independent definition the decoders are
    measured against. */
module Reference {

  import opened Wrappers
  import opened Registers
  import opened Opcodes

  /** The three operand forms of the reference: an address `nnn`, a
      register and a byte `xkk`, or two registers and a nibble `xyn`. Each
      carries the family nibble that heads the word. */
  datatype Form =
    | FormNnn(family: u16, addr: u16)
    | FormXkk(family: u16, x: Register, kk: u8)
    | FormXyn(family: u16, x: Register, y: Register, n: u8)
  {
    predicate Valid() {
      && family < 16
      && (FormNnn? ==> addr < 0x1000)
      && (!FormNnn? ==> x.IsGeneral())
      && (FormXyn? ==> y.IsGeneral() && n < 16)
    }
  }

  /** The word spelled by a form, registers written as their operand
      nibbles. */
  function Assemble(f: Form): (w: u16)
    requires f.Valid()
    ensures Top(w) == f.family
    ensures f.FormNnn? ==> Nnn(w) == f.addr
    ensures !f.FormNnn? ==> X(w) == IndexByte(f.x)
    ensures f.FormXkk? ==> Kk(w) == f.kk
    ensures f.FormXyn? ==> Y(w) == IndexByte(f.y) && N(w) == f.n
  {
    match f
    case FormNnn(family, addr) => (family << 12) | addr
    case FormXkk(family, x, kk) => (family << 12) | ((IndexByte(x) as u16) << 8) | kk as u16
    case FormXyn(family, x, y, n) =>
      (family << 12) | ((IndexByte(x) as u16) << 8) | ((IndexByte(y) as u16) << 4) | n as u16
  }

  /** The form of each instruction. `Shr` and `Shl` leave their unused `y`
      nibble zero, which reads as `V0`; the key, timer and memory
      instructions of families E and F carry a fixed low byte. */
  function Layout(op: Opcode): (f: Form)
    requires op.WellFormed()
    ensures f.Valid()
  {
    match op
    case Sys(a) => FormNnn(0x0, a)
    case Cls => FormNnn(0x0, 0x0e0)
    case Ret => FormNnn(0x0, 0x0ee)
    case Jp(a) => FormNnn(0x1, a)
    case Call(a) => FormNnn(0x2, a)
    case SeVal(x, kk) => FormXkk(0x3, x, kk)
    case SneVal(x, kk) => FormXkk(0x4, x, kk)
    case SeReg(x, y) => FormXyn(0x5, x, y, 0x0)
    case LdVal(x, kk) => FormXkk(0x6, x, kk)
    case AddVal(x, kk) => FormXkk(0x7, x, kk)
    case LdReg(x, y) => FormXyn(0x8, x, y, 0x0)
    case Or(x, y) => FormXyn(0x8, x, y, 0x1)
    case And(x, y) => FormXyn(0x8, x, y, 0x2)
    case Xor(x, y) => FormXyn(0x8, x, y, 0x3)
    case AddReg(x, y) => FormXyn(0x8, x, y, 0x4)
    case Sub(x, y) => FormXyn(0x8, x, y, 0x5)
    case Shr(x) => FormXyn(0x8, x, V0, 0x6)
    case Subn(x, y) => FormXyn(0x8, x, y, 0x7)
    case Shl(x) => FormXyn(0x8, x, V0, 0xe)
    case SneReg(x, y) => FormXyn(0x9, x, y, 0x0)
    case LdI(a) => FormNnn(0xa, a)
    case JpV0(a) => FormNnn(0xb, a)
    case Rnd(x, kk) => FormXkk(0xc, x, kk)
    case Drw(x, y, n) => FormXyn(0xd, x, y, n)
    case Skp(x) => FormXkk(0xe, x, 0x9e)
    case SkNp(x) => FormXkk(0xe, x, 0xa1)
    case LdVxDt(x) => FormXkk(0xf, x, 0x07)
    case LdK(x) => FormXkk(0xf, x, 0x0a)
    case LdDtVx(x) => FormXkk(0xf, x, 0x15)
    case LdSt(x) => FormXkk(0xf, x, 0x18)
    case AddI(x) => FormXkk(0xf, x, 0x1e)
    case LdF(x) => FormXkk(0xf, x, 0x29)
    case LdB(x) => FormXkk(0xf, x, 0x33)
    case StoreRegs(x) => FormXkk(0xf, x, 0x55)
    case ReadRegs(x) => FormXkk(0xf, x, 0x65)
  }

  /** The word of an instruction. */
  function Encode(op: Opcode): (w: u16)
    requires op.WellFormed()
  {
    Assemble(Layout(op))
  }

  /** The system calls on 0x0E0 and 0x0EE share their words with `Cls` and
      `Ret`, which the decoder prefers. */
  predicate Shadowed(op: Opcode) {
    op == Sys(0x0e0) || op == Sys(0x0ee)
  }

  /** The fields a word reads as agree with a form on the operands the
      form lays out. */
  predicate Reads(f: Fields, form: Form) {
    && f.top == form.family
    && match form
       case FormNnn(_, addr) => f.nnn == addr
       case FormXkk(_, x, kk) => f.x == x && f.kk == kk
       case FormXyn(_, x, y, n) => f.x == x && f.y == y && f.n == n
  }

  /** A word spelled from a form reads as that form. */
  lemma AssembleReads(form: Form)
    requires form.Valid()
    ensures Reads(FieldsOf(Assemble(form)), form)
  {
    if !form.FormNnn? {
      FromToIndex(form.x);
    }
    if form.FormXyn? {
      FromToIndex(form.y);
    }
  }

  /** Decoding an encoded instruction gives it back. */
  lemma DecodeEncode(op: Opcode)
    requires op.WellFormed() && !Shadowed(op)
    ensures DecodeIntended(Encode(op)) == Some(op)
  {
    AssembleReads(Layout(op));
    FieldsOfConsistent(Encode(op));
    DispatchLayout(op, FieldsOf(Encode(op)));
  }

  /** The table gives back an instruction from any consistent fields its
      form reads. */
  lemma DispatchLayout(op: Opcode, f: Fields)
    requires op.WellFormed() && !Shadowed(op)
    requires f.Consistent() && Reads(f, Layout(op))
    ensures Dispatch(f) == Some(op)
  {
    if op.Sys? || op.Cls? || op.Ret? {
      DispatchSystem(op, f);
    } else if op.Jp? || op.Call? || op.LdI? || op.JpV0? {
      DispatchAddress(op, f);
    } else if op.SeVal? || op.SneVal? || op.LdVal? || op.AddVal? || op.Rnd? {
      DispatchByte(op, f);
    } else if op.SeReg? || op.SneReg? || op.Drw? {
      DispatchPair(op, f);
    } else if op.LdReg? || op.Or? || op.And? || op.Xor? || op.AddReg? {
      DispatchLogic(op, f);
    } else if op.Sub? || op.Shr? || op.Subn? || op.Shl? {
      DispatchShiftSubtract(op, f);
    } else if op.Skp? || op.SkNp? || op.LdVxDt? || op.LdK? || op.LdDtVx? {
      DispatchKeysTimers(op, f);
    } else if op.LdSt? || op.AddI? || op.LdF? {
      DispatchSoundIndex(op, f);
    } else {
      DispatchMemory(op, f);
    }
  }

  // A few instructions at a time, which keeps each proof small.

  lemma DispatchSystem(op: Opcode, f: Fields)
    requires op.WellFormed() && !Shadowed(op) && (op.Sys? || op.Cls? || op.Ret?)
    requires f.Consistent() && Reads(f, Layout(op))
    ensures Dispatch(f) == Some(op)
  {
  }

  lemma DispatchAddress(op: Opcode, f: Fields)
    requires op.WellFormed() && (op.Jp? || op.Call? || op.LdI? || op.JpV0?)
    requires Reads(f, Layout(op))
    ensures Dispatch(f) == Some(op)
  {
  }

  lemma DispatchByte(op: Opcode, f: Fields)
    requires op.WellFormed() && (op.SeVal? || op.SneVal? || op.LdVal? || op.AddVal? || op.Rnd?)
    requires Reads(f, Layout(op))
    ensures Dispatch(f) == Some(op)
  {
  }

  lemma DispatchPair(op: Opcode, f: Fields)
    requires op.WellFormed() && (op.SeReg? || op.SneReg? || op.Drw?)
    requires Reads(f, Layout(op))
    ensures Dispatch(f) == Some(op)
  {
  }

  lemma DispatchLogic(op: Opcode, f: Fields)
    requires op.WellFormed() && (op.LdReg? || op.Or? || op.And? || op.Xor? || op.AddReg?)
    requires Reads(f, Layout(op))
    ensures Dispatch(f) == Some(op)
  {
  }

  lemma DispatchShiftSubtract(op: Opcode, f: Fields)
    requires op.WellFormed() && (op.Sub? || op.Shr? || op.Subn? || op.Shl?)
    requires Reads(f, Layout(op))
    ensures Dispatch(f) == Some(op)
  {
  }

  lemma DispatchKeysTimers(op: Opcode, f: Fields)
    requires op.WellFormed() && (op.Skp? || op.SkNp? || op.LdVxDt? || op.LdK? || op.LdDtVx?)
    requires Reads(f, Layout(op))
    ensures Dispatch(f) == Some(op)
  {
  }

  lemma DispatchSoundIndex(op: Opcode, f: Fields)
    requires op.WellFormed() && (op.LdSt? || op.AddI? || op.LdF?)
    requires Reads(f, Layout(op))
    ensures Dispatch(f) == Some(op)
  {
  }

  lemma DispatchMemory(op: Opcode, f: Fields)
    requires op.WellFormed() && (op.LdB? || op.StoreRegs? || op.ReadRegs?)
    requires Reads(f, Layout(op))
    ensures Dispatch(f) == Some(op)
  {
  }

  /** The form fields are read in, chosen by the family nibble. */
  function FieldForm(f: Fields): (form: Form)
    requires f.Bounded()
    ensures form.Valid()
  {
    match f.top
    case 0x0 | 0x1 | 0x2 | 0xa | 0xb => FormNnn(f.top, f.nnn)
    case 0x3 | 0x4 | 0x6 | 0x7 | 0xc | 0xe | 0xf => FormXkk(f.top, f.x, f.kk)
    case _ => FormXyn(f.top, f.x, f.y, f.n)
  }

  /** The form of a word with its `y` nibble cleared. */
  function WithoutY(form: Form): Form {
    if form.FormXyn? then form.(y := V0) else form
  }

  /** The fields of the shift instructions, which ignore their `y`
      nibble. */
  predicate IsShift(f: Fields) {
    f.top == 0x8 && (f.n == 0x6 || f.n == 0xe)
  }

  /** The form the instruction decoded from some fields is laid out in:
      the fields' own form, except that the shifts drop the `y` nibble. */
  function ReadForm(f: Fields): Form
    requires f.Bounded()
  {
    if IsShift(f) then WithoutY(FieldForm(f)) else FieldForm(f)
  }

  /** The instruction the table gives for some fields is well formed and
      laid out in their read form. */
  predicate LaidOutAsRead(f: Fields)
    requires f.Bounded()
  {
    Dispatch(f).Some? ==>
      Dispatch(f).value.WellFormed() && Layout(Dispatch(f).value) == ReadForm(f)
  }

  /** The shift instructions are the ones decoded from shift fields. */
  lemma DispatchShift(f: Fields)
    requires Dispatch(f).Some?
    ensures Dispatch(f).value.Shr? || Dispatch(f).value.Shl? <==> IsShift(f)
  {
  }

  /** Every instruction the table gives is well formed and laid out in
      the form its fields are read in. */
  lemma LayoutDispatch(f: Fields)
    requires f.Consistent()
    ensures LaidOutAsRead(f)
  {
    if f.top == 0x0 {
      LayoutDispatchSystem(f);
    } else if f.top == 0x1 || f.top == 0x2 {
      LayoutDispatchJump(f);
    } else if f.top == 0xa || f.top == 0xb {
      LayoutDispatchIndex(f);
    } else if f.top == 0x3 || f.top == 0x4 {
      LayoutDispatchSkip(f);
    } else if f.top == 0x6 || f.top == 0x7 {
      LayoutDispatchLoad(f);
    } else if f.top == 0xc {
      LayoutDispatchRandom(f);
    } else if f.top == 0x5 {
      LayoutDispatchSkipEqual(f);
    } else if f.top == 0x9 {
      LayoutDispatchSkipNotEqual(f);
    } else if f.top == 0xd {
      LayoutDispatchDraw(f);
    } else if f.top == 0x8 && f.n <= 0x1 {
      LayoutDispatchOr(f);
    } else if f.top == 0x8 && f.n == 0x2 {
      LayoutDispatchAnd(f);
    } else if f.top == 0x8 && f.n == 0x3 {
      LayoutDispatchXor(f);
    } else if f.top == 0x8 && f.n == 0x4 {
      LayoutDispatchAdd(f);
    } else if f.top == 0x8 && f.n == 0x5 {
      LayoutDispatchSubtract(f);
    } else if f.top == 0x8 && 0x6 <= f.n <= 0x7 {
      LayoutDispatchShiftRight(f);
    } else if f.top == 0x8 {
      LayoutDispatchShiftLeft(f);
    } else if f.top == 0xe {
      LayoutDispatchKeys(f);
    } else if f.top == 0xf && f.kk < 0x10 {
      LayoutDispatchDelayTimer(f);
    } else if f.top == 0xf && f.kk < 0x1b {
      LayoutDispatchTimers(f);
    } else if f.top == 0xf && f.kk < 0x30 {
      LayoutDispatchIndexRegister(f);
    } else if f.top == 0xf && f.kk < 0x40 {
      LayoutDispatchDecimal(f);
    } else {
      LayoutDispatchMemory(f);
    }
  }

  // One family, or part of one, at a time; each proof first states what
  // the table gives and what form the fields are read in.

  lemma LayoutDispatchSystem(f: Fields)
    requires f.Consistent() && f.top == 0x0
    ensures LaidOutAsRead(f)
  {
    assert Dispatch(f) == Some(if f.x == V0 && f.y == Ve && f.n == 0x0 then Cls
                           else if f.x == V0 && f.y == Ve && f.n == 0xe then Ret
                           else Sys(f.nnn));
    assert ReadForm(f) == FormNnn(0x0, f.nnn);
  }

  lemma LayoutDispatchJump(f: Fields)
    requires f.Bounded() && (f.top == 0x1 || f.top == 0x2)
    ensures LaidOutAsRead(f)
  {
    assert Dispatch(f) == Some(if f.top == 0x1 then Jp(f.nnn) else Call(f.nnn));
    assert ReadForm(f) == FormNnn(f.top, f.nnn);
  }

  lemma LayoutDispatchIndex(f: Fields)
    requires f.Bounded() && (f.top == 0xa || f.top == 0xb)
    ensures LaidOutAsRead(f)
  {
    assert Dispatch(f) == Some(if f.top == 0xa then LdI(f.nnn) else JpV0(f.nnn));
    assert ReadForm(f) == FormNnn(f.top, f.nnn);
  }

  lemma LayoutDispatchSkip(f: Fields)
    requires f.Bounded() && (f.top == 0x3 || f.top == 0x4)
    ensures LaidOutAsRead(f)
  {
    assert Dispatch(f) == Some(if f.top == 0x3 then SeVal(f.x, f.kk) else SneVal(f.x, f.kk));
    assert ReadForm(f) == FormXkk(f.top, f.x, f.kk);
  }

  lemma LayoutDispatchLoad(f: Fields)
    requires f.Bounded() && (f.top == 0x6 || f.top == 0x7)
    ensures LaidOutAsRead(f)
  {
    assert Dispatch(f) == Some(if f.top == 0x6 then LdVal(f.x, f.kk) else AddVal(f.x, f.kk));
    assert ReadForm(f) == FormXkk(f.top, f.x, f.kk);
  }

  lemma LayoutDispatchRandom(f: Fields)
    requires f.Bounded() && f.top == 0xc
    ensures LaidOutAsRead(f)
  {
    assert Dispatch(f) == Some(Rnd(f.x, f.kk));
    assert ReadForm(f) == FormXkk(0xc, f.x, f.kk);
  }

  lemma LayoutDispatchSkipEqual(f: Fields)
    requires f.Bounded() && f.top == 0x5
    ensures LaidOutAsRead(f)
  {
    assert Dispatch(f) == if f.n == 0x0 then Some(SeReg(f.x, f.y)) else None;
    assert ReadForm(f) == FormXyn(0x5, f.x, f.y, f.n);
  }

  lemma LayoutDispatchSkipNotEqual(f: Fields)
    requires f.Bounded() && f.top == 0x9
    ensures LaidOutAsRead(f)
  {
    assert Dispatch(f) == if f.n == 0x0 then Some(SneReg(f.x, f.y)) else None;
    assert ReadForm(f) == FormXyn(0x9, f.x, f.y, f.n);
  }

  lemma LayoutDispatchDraw(f: Fields)
    requires f.Bounded() && f.top == 0xd
    ensures LaidOutAsRead(f)
  {
    assert Dispatch(f) == Some(Drw(f.x, f.y, f.n));
    assert ReadForm(f) == FormXyn(0xd, f.x, f.y, f.n);
  }

  lemma LayoutDispatchOr(f: Fields)
    requires f.Bounded() && f.top == 0x8 && f.n <= 0x1
    ensures LaidOutAsRead(f)
  {
    assert Dispatch(f) == Some(if f.n == 0x0 then LdReg(f.x, f.y) else Or(f.x, f.y));
    assert ReadForm(f) == FormXyn(0x8, f.x, f.y, f.n);
  }

  lemma LayoutDispatchAnd(f: Fields)
    requires f.Bounded() && f.top == 0x8 && f.n == 0x2
    ensures LaidOutAsRead(f)
  {
    assert Dispatch(f) == Some(And(f.x, f.y));
    assert ReadForm(f) == FormXyn(0x8, f.x, f.y, 0x2);
  }

  lemma LayoutDispatchXor(f: Fields)
    requires f.Bounded() && f.top == 0x8 && f.n == 0x3
    ensures LaidOutAsRead(f)
  {
    assert Dispatch(f) == Some(Xor(f.x, f.y));
    assert ReadForm(f) == FormXyn(0x8, f.x, f.y, 0x3);
  }

  lemma LayoutDispatchAdd(f: Fields)
    requires f.Bounded() && f.top == 0x8 && f.n == 0x4
    ensures LaidOutAsRead(f)
  {
    assert Dispatch(f) == Some(AddReg(f.x, f.y));
    assert ReadForm(f) == FormXyn(0x8, f.x, f.y, 0x4);
  }

  lemma LayoutDispatchSubtract(f: Fields)
    requires f.Bounded() && f.top == 0x8 && f.n == 0x5
    ensures LaidOutAsRead(f)
  {
    assert Dispatch(f) == Some(Sub(f.x, f.y));
    assert ReadForm(f) == FormXyn(0x8, f.x, f.y, 0x5);
  }

  lemma LayoutDispatchShiftRight(f: Fields)
    requires f.Bounded() && f.top == 0x8 && 0x6 <= f.n <= 0x7
    ensures LaidOutAsRead(f)
  {
    assert Dispatch(f) == Some(if f.n == 0x6 then Shr(f.x) else Subn(f.x, f.y));
    assert ReadForm(f) == if f.n == 0x6 then FormXyn(0x8, f.x, V0, f.n) else FormXyn(0x8, f.x, f.y, f.n);
  }

  lemma LayoutDispatchShiftLeft(f: Fields)
    requires f.Bounded() && f.top == 0x8 && 0x8 <= f.n
    ensures LaidOutAsRead(f)
  {
    assert Dispatch(f) == if f.n == 0xe then Some(Shl(f.x)) else None;
    assert ReadForm(f) == if f.n == 0xe then FormXyn(0x8, f.x, V0, f.n) else FormXyn(0x8, f.x, f.y, f.n);
  }

  lemma LayoutDispatchKeys(f: Fields)
    requires f.Bounded() && f.top == 0xe
    ensures LaidOutAsRead(f)
  {
    assert Dispatch(f) == if f.kk == 0x9e then Some(Skp(f.x))
                      else if f.kk == 0xa1 then Some(SkNp(f.x))
                      else None;
    assert ReadForm(f) == FormXkk(0xe, f.x, f.kk);
  }

  lemma LayoutDispatchDelayTimer(f: Fields)
    requires f.Bounded() && f.top == 0xf && f.kk < 0x10
    ensures LaidOutAsRead(f)
  {
    assert Dispatch(f) == if f.kk == 0x07 then Some(LdVxDt(f.x))
                      else if f.kk == 0x0a then Some(LdK(f.x))
                      else None;
    assert ReadForm(f) == FormXkk(0xf, f.x, f.kk);
  }

  lemma LayoutDispatchTimers(f: Fields)
    requires f.Bounded() && f.top == 0xf && 0x10 <= f.kk < 0x1b
    ensures LaidOutAsRead(f)
  {
    assert Dispatch(f) == if f.kk == 0x15 then Some(LdDtVx(f.x))
                      else if f.kk == 0x18 then Some(LdSt(f.x))
                      else None;
    assert ReadForm(f) == FormXkk(0xf, f.x, f.kk);
  }

  lemma LayoutDispatchIndexRegister(f: Fields)
    requires f.Bounded() && f.top == 0xf && 0x1b <= f.kk < 0x30
    ensures LaidOutAsRead(f)
  {
    assert Dispatch(f) == if f.kk == 0x1e then Some(AddI(f.x))
                      else if f.kk == 0x29 then Some(LdF(f.x))
                      else None;
    assert ReadForm(f) == FormXkk(0xf, f.x, f.kk);
  }

  lemma LayoutDispatchDecimal(f: Fields)
    requires f.Bounded() && f.top == 0xf && 0x30 <= f.kk < 0x40
    ensures LaidOutAsRead(f)
  {
    assert Dispatch(f) == if f.kk == 0x33 then Some(LdB(f.x)) else None;
    assert ReadForm(f) == FormXkk(0xf, f.x, f.kk);
  }

  lemma LayoutDispatchMemory(f: Fields)
    requires f.Bounded() && f.top == 0xf && 0x40 <= f.kk
    ensures LaidOutAsRead(f)
  {
    assert Dispatch(f) == if f.kk == 0x55 then Some(StoreRegs(f.x))
                      else if f.kk == 0x65 then Some(ReadRegs(f.x))
                      else None;
    assert ReadForm(f) == FormXkk(0xf, f.x, f.kk);
  }

  // A word is spelled back by the form of its own fields.

  lemma AssembleNnnFields(hex: u16)
    ensures Assemble(FormNnn(Top(hex), Nnn(hex))) == hex
  {
  }

  lemma AssembleXkkFields(hex: u16)
    ensures Assemble(FormXkk(Top(hex), FromIndex(X(hex)), Kk(hex))) == hex
  {
    ToFromIndex(X(hex));
  }

  lemma AssembleXynFields(hex: u16)
    ensures Assemble(FormXyn(Top(hex), FromIndex(X(hex)), FromIndex(Y(hex)), N(hex))) == hex
  {
    ToFromIndex(X(hex));
    ToFromIndex(Y(hex));
  }

  lemma AssembleFieldForm(hex: u16)
    ensures FieldsOf(hex).Bounded()
    ensures Assemble(FieldForm(FieldsOf(hex))) == hex
  {
    FieldsOfConsistent(hex);
    match FieldForm(FieldsOf(hex))
    case FormNnn(_, _) => AssembleNnnFields(hex);
    case FormXkk(_, _, _) => AssembleXkkFields(hex);
    case FormXyn(_, _, _, _) => AssembleXynFields(hex);
  }

  /** Clearing the `y` nibble of a word of family 8 clears it in the
      word's form. */
  lemma AssembleWithoutY(hex: u16)
    requires Top(hex) == 0x8
    ensures FieldsOf(hex).Bounded()
    ensures Assemble(WithoutY(FieldForm(FieldsOf(hex)))) == hex & 0xff0f
  {
    FieldsOfConsistent(hex);
    ToFromIndex(X(hex));
  }

  /** Encoding a decoded word gives the word back, except that `Shr` and
      `Shl` forget the `y` nibble they ignore. */
  lemma EncodeDecode(hex: u16)
    requires DecodeIntended(hex).Some?
    ensures DecodeIntended(hex).value.WellFormed()
    ensures var op := DecodeIntended(hex).value;
      Encode(op) == if op.Shr? || op.Shl? then hex & 0xff0f else hex
  {
    var f := FieldsOf(hex);
    FieldsOfConsistent(hex);
    LayoutDispatch(f);
    DispatchShift(f);
    if IsShift(f) {
      AssembleWithoutY(hex);
    } else {
      AssembleFieldForm(hex);
    }
  }

  /** Every instruction a word can carry is decoded from some word,
      except the two system calls that `Cls` and `Ret` shadow. */
  lemma IntendedSurjective(op: Opcode)
    requires op.WellFormed() && !Shadowed(op)
    ensures exists hex :: DecodeIntended(hex) == Some(op)
  {
    DecodeEncode(op);
  }

  /** Two words decode to the same instruction only if they are the same
      word, or a shift instruction's words that differ in the `y` nibble
      it ignores. */
  lemma IntendedInjective(a: u16, b: u16)
    requires DecodeIntended(a).Some? && DecodeIntended(a) == DecodeIntended(b)
    ensures a & 0xff0f == b & 0xff0f
    ensures !(DecodeIntended(a).value.Shr? || DecodeIntended(a).value.Shl?) ==> a == b
  {
    var op := DecodeIntended(a).value;
    if op.Shr? || op.Shl? {
      SameShift(a, b, op);
    } else {
      SameInstruction(a, b, op);
    }
  }

  /** Two words that decode to one instruction other than a shift are the
      same word. */
  lemma SameInstruction(a: u16, b: u16, op: Opcode)
    requires DecodeIntended(a) == Some(op) && DecodeIntended(b) == Some(op)
    requires !(op.Shr? || op.Shl?)
    ensures a == b
  {
    var wa := ReencodeTo(a, op);
    var wb := ReencodeTo(b, op);
  }

  /** Two words that decode to one shift agree outside bits 4-7. */
  lemma SameShift(a: u16, b: u16, op: Opcode)
    requires DecodeIntended(a) == Some(op) && DecodeIntended(b) == Some(op)
    requires op.Shr? || op.Shl?
    ensures a & 0xff0f == b & 0xff0f
  {
    var wa := ReencodeTo(a, op);
    var wb := ReencodeTo(b, op);
  }

  /** The word an instruction encodes to, seen from a word that decodes to
      it. */
  lemma ReencodeTo(hex: u16, op: Opcode) returns (w: u16)
    requires DecodeIntended(hex) == Some(op)
    ensures op.WellFormed() && w == Encode(op)
    ensures w == if op.Shr? || op.Shl? then hex & 0xff0f else hex
  {
    EncodeDecode(hex);
    w := Encode(op);
  }

  /** Under the intended decoder, 0x00E0 is the only word of `Cls` and
      0x00EE the only word of `Ret`. */
  lemma IntendedClsRetWords(hex: u16)
    ensures DecodeIntended(hex) == Some(Cls) <==> hex == 0x00e0
    ensures DecodeIntended(hex) == Some(Ret) <==> hex == 0x00ee
  {
    if DecodeIntended(hex) == Some(Cls) {
      var w := ReencodeTo(hex, Cls);
    }
    if DecodeIntended(hex) == Some(Ret) {
      var w := ReencodeTo(hex, Ret);
    }
  }

  /** The decoder as written still reaches every instruction of families
      1 through D. */
  lemma AsWrittenReachesMiddle(op: Opcode)
    requires op.WellFormed() && 0x1 <= Layout(op).family <= 0xd
    ensures exists hex :: DecodeAsWritten(hex) == Some(op)
  {
    DecodeEncode(op);
    AgreeOnMiddleFamilies(Encode(op));
  }

  /** The decoder as written does not invert the encoding: the words of
      `Cls` and `Ret` come back as system calls. */
  lemma AsWrittenLosesClsRet()
    ensures DecodeAsWritten(Encode(Cls)) == Some(Sys(Encode(Cls)))
    ensures DecodeAsWritten(Encode(Ret)) == Some(Sys(Encode(Ret)))
  {
  }
}

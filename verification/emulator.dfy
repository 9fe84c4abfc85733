/** The interpreter's machine state and the two instructions it executes:
    clearing the screen and returning from a subroutine. */
module Emulator {

  import opened Wrappers
  import opened Registers
  import opened Opcodes
  import opened Reference

  const StackDepth: nat := 16
  const DisplayWidth: nat := 64
  const DisplayHeight: nat := 32
  const DisplaySize: nat := DisplayWidth * DisplayHeight

  /** The fixed return stack of sixteen addresses. */
  type Stack = s: seq<u16> | |s| == StackDepth witness seq(StackDepth, _ => 0)

  /** Program counter, stack pointer, return stack and one byte per pixel
      of the 64 by 32 display. */
  datatype Emu = Emu(pc: u16, sp: nat, stack: Stack, display: seq<u8>)
  {
    /** The stack pointer stays within the stack and the display keeps its
        size. */
    predicate Valid() {
      sp <= StackDepth && |display| == DisplaySize
    }
  }

  /** A display with every pixel off. */
  predicate IsBlank(display: seq<u8>) {
    |display| == DisplaySize && forall i :: 0 <= i < |display| ==> display[i] == 0
  }

  /** `Emu::new`: execution starts at 0x200 with an empty, zeroed stack and
      a blank display. */
  function New(): (e: Emu)
    ensures e.Valid()
    ensures e.pc == 0x200 && e.sp == 0
    ensures forall i :: 0 <= i < StackDepth ==> e.stack[i] == 0
    ensures IsBlank(e.display)
  {
    Emu(0x200, 0, seq(StackDepth, _ => 0), seq(DisplaySize, _ => 0))
  }

  /** `cls`: blanks the display and touches nothing else. */
  function ClearScreen(e: Emu): (e': Emu)
    ensures IsBlank(e'.display)
    ensures e'.pc == e.pc && e'.sp == e.sp && e'.stack == e.stack
    ensures e'.Valid() <==> e.sp <= StackDepth
  {
    e.(display := seq(DisplaySize, _ => 0))
  }

  /** `ret`: pops the return address on top of the stack into the program
      counter. The source indexes the stack at `sp - 1`, so an empty stack
      (an underflow of `sp - 1`) and a pointer past the stack both panic. */
  function Return(e: Emu): (e': Emu)
    requires 1 <= e.sp <= StackDepth
    ensures e'.pc == e.stack[e.sp - 1]
    ensures e'.sp + 1 == e.sp
    ensures e'.stack == e.stack && e'.display == e.display
    ensures e.Valid() ==> e'.Valid()
  {
    e.(pc := e.stack[e.sp - 1], sp := e.sp - 1)
  }

  /** The instructions `execute` handles, with the state `ret` needs; any
      other instruction is a panic in the source. */
  predicate CanExecute(e: Emu, op: Opcode) {
    op.Cls? || (op.Ret? && 1 <= e.sp <= StackDepth)
  }

  /** `execute`: dispatches `Cls` and `Ret` and nothing else. */
  function Execute(e: Emu, op: Opcode): (e': Emu)
    requires CanExecute(e, op)
    ensures op.Cls? ==> IsBlank(e'.display) && e'.pc == e.pc && e'.sp == e.sp
    ensures op.Ret? ==> e'.pc == e.stack[e.sp - 1] && e'.sp + 1 == e.sp && e'.display == e.display
    ensures e'.stack == e.stack
    ensures e.Valid() ==> e'.Valid()
  {
    match op
    case Cls => ClearScreen(e)
    case Ret => Return(e)
  }

  /** Clearing a clear screen changes nothing. */
  lemma ClearScreenIdempotent(e: Emu)
    ensures ClearScreen(ClearScreen(e)) == ClearScreen(e)
  {
  }

  /** Clearing the screen and returning touch disjoint parts of the state,
      so their order does not matter. */
  lemma ClearScreenReturnCommute(e: Emu)
    requires 1 <= e.sp <= StackDepth
    ensures ClearScreen(Return(e)) == Return(ClearScreen(e))
  {
  }

  /** The valid states, `New()` among them, are closed under every
      instruction `execute` accepts. */
  lemma ExecutePreservesValid(e: Emu, op: Opcode)
    requires e.Valid() && CanExecute(e, op)
    ensures Execute(e, op).Valid()
  {
  }

  /** A return straight after `new` underflows: the stack starts empty. */
  lemma NewCannotReturn()
    ensures !CanExecute(New(), Ret)
    ensures CanExecute(New(), Cls)
  {
  }

  /** No word decoded as the source writes it can be executed: the decoder
      never produces `Cls` or `Ret`, the only instructions `execute`
      accepts. */
  lemma AsWrittenNeverExecutable(hex: u16, e: Emu)
    ensures DecodeAsWritten(hex).Some? ==> !CanExecute(e, DecodeAsWritten(hex).value)
  {
    AsWrittenNeverClsOrRet(hex);
  }

  /** With the intended decoder, the clear-screen word always executes and
      the return word executes whenever the stack is not empty. */
  lemma IntendedExecutable(e: Emu)
    ensures DecodeIntended(0x00e0) == Some(Cls) && CanExecute(e, Cls)
    ensures DecodeIntended(0x00ee) == Some(Ret) && (CanExecute(e, Ret) <==> 1 <= e.sp <= StackDepth)
    ensures CanExecute(e, Cls) ==> IsBlank(Execute(e, DecodeIntended(0x00e0).value).display)
  {
  }

  /** Against `AsWrittenNeverExecutable`: with the intended decoder, the
      words whose instruction `execute` accepts are exactly 0x00E0, and
      0x00EE whenever the stack is not empty. */
  lemma IntendedExecutableWords(e: Emu, hex: u16)
    ensures DecodeIntended(hex).Some? && CanExecute(e, DecodeIntended(hex).value)
      <==> hex == 0x00e0 || (hex == 0x00ee && 1 <= e.sp <= StackDepth)
  {
    IntendedClsRetWords(hex);
  }
}

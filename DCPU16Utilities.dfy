/** The DCPU-16 disassembler: one instruction word split into its opcode
    and operand fields, each operand rendered through the 64-entry
    addressing-mode table (some entries consume the next word), and the
    address of the following instruction returned.

    `Disassemble` is the pure meaning of one call; the methods at the end
    are the source's imperative form, which appends to a caller-owned
    StringBuilder and advances a local cursor. */
module DCPU16Utilities {
  import opened Words
  import opened HexText
  import opened DCPU16

  // ---------------------------------------------------------------------
  // Field split of the first word

  /** `n & 0xF` on the sign-extended `short`. */
  function OpField(n: Word): nat
  {
    Signed(n) % 16
  }

  /** `(n >> 4) & 0x3F` on the sign-extended `short` (`>>` is floor division). */
  function AField(n: Word): nat
  {
    (Signed(n) / 16) % 64
  }

  /** `(n >> 10) & 0x3F` on the sign-extended `short`. */
  function BField(n: Word): nat
  {
    (Signed(n) / 1024) % 64
  }

  /** Sign extension does not disturb the split: the opcode is bits 0-3,
      a is bits 4-9 and b is bits 10-15 of the unsigned word, and the three
      fields put back together give the word. */
  lemma FieldSplit(n: Word)
    ensures OpField(n) == n % 16 && AField(n) == (n / 16) % 64 && BField(n) == n / 1024
    ensures OpField(n) < 16 && AField(n) < 64 && BField(n) < 64
    ensures n == OpField(n) + 16 * AField(n) + 1024 * BField(n)
  {
    SignedFields(n);
    UnsignedFields(n);
  }

  /** Shifting the sign-extended value gives the unsigned word's fields. */
  lemma SignedFields(n: Word)
    ensures OpField(n) == n % 16 && AField(n) == (n / 16) % 64 && BField(n) == (n / 1024) % 64
  {
    if n >= 0x8000 {
      var s := n - 0x1_0000;
      assert Signed(n) == s;
      assert s % 16 == n % 16;
      assert s / 16 == n / 16 - 0x1000;
      assert (n / 16 - 0x1000) % 64 == (n / 16) % 64;
      assert s / 1024 == n / 1024 - 64;
      assert (n / 1024 - 64) % 64 == (n / 1024) % 64;
    }
  }

  /** The three fields of a 16-bit word put back together give the word. */
  lemma UnsignedFields(n: Word)
    ensures n / 1024 < 64 && (n / 1024) % 64 == n / 1024
    ensures n == n % 16 + 16 * ((n / 16) % 64) + 1024 * (n / 1024)
  {
    var q := n / 16;
    assert n == 16 * q + n % 16;
    assert q == 64 * (q / 64) + q % 64;
    assert q / 64 == n / 1024;
  }

  // ---------------------------------------------------------------------
  // Operands

  /** The addressing modes that read the next word of the instruction:
      [next word + register], [next word] and next word (literal). */
  predicate ConsumesWord(v: nat)
  {
    0x10 <= v < 0x18 || v == 0x1E || v == 0x1F
  }

  /** How many extra words operand v adds to the instruction. */
  function OperandWords(v: nat): (k: nat)
    ensures k <= 1
    ensures k == 1 <==> ConsumesWord(v)
  {
    if ConsumesWord(v) then 1 else 0
  }

  /** The text of operand v, where w is the extra word when v consumes one
      (and is ignored otherwise). */
  function OperandText(v: nat, w: Word): (s: string)
    requires v < 64
    ensures |s| >= 1 && ' ' !in s && ',' !in s
    ensures !ConsumesWord(v) ==> s == OperandText(v, 0)
  {
    if v < 0x08 then [RegisterName(v % 8)]
    else if v < 0x10 then "[" + [RegisterName(v % 8)] + "]"
    else if v < 0x18 then "[0x" + Hex(w, 4) + "+" + [RegisterName(v % 8)] + "]"
    else if v > 0x1F then "0x" + Hex(v - 0x20, 1)
    else if v == 0x18 then "POP"
    else if v == 0x19 then "PEEK"
    else if v == 0x1A then "PUSH"
    else if v == 0x1B then "SP"
    else if v == 0x1C then "PC"
    else if v == 0x1D then "O"
    else if v == 0x1E then "[0x" + Hex(w, 4) + "]"
    else "0x" + Hex(w, 4)
  }

  /** What one call of `disassemble`/`disassembleOperand` leaves behind: the
      text appended to the buffer and the address returned, or `None` when
      an array read was out of bounds and the call threw
      ArrayIndexOutOfBoundsException after appending `text`. */
  datatype Listing = Listing(text: string, next: Option<int>)

  /** `disassembleOperand(memory, pc, v, buf)`. */
  function DisassembleOperand(memory: seq<Word>, pc: int, v: nat): (r: Listing)
    requires v < 64
    ensures r.next.Some? <==> !ConsumesWord(v) || 0 <= pc < |memory|
    ensures r.next.Some? ==> r.next.value == pc + OperandWords(v)
    ensures r.next.None? ==> r.text == ""
  {
    if ConsumesWord(v) then
      if 0 <= pc < |memory| then Listing(OperandText(v, memory[pc]), Some(pc + 1))
      else Listing("", None)
    else Listing(OperandText(v, 0), Some(pc))
  }

  // ---------------------------------------------------------------------
  // Instructions

  /** Words taken by the instruction whose first word is n: the word itself,
      plus the extra words of both operands for a basic opcode, or of b
      alone for a non-basic one. */
  function InstructionLength(n: Word): (k: nat)
    ensures 1 <= k <= 3
  {
    1 + (if OpField(n) > 0 then OperandWords(AField(n)) else 0) + OperandWords(BField(n))
  }

  /** The whole instruction at pc lies inside memory: disassembling it reads
      no index out of bounds. */
  predicate Fits(memory: seq<Word>, pc: int)
  {
    0 <= pc < |memory| && pc + InstructionLength(memory[pc]) <= |memory|
  }

  /** The 3-argument `disassemble(memory, pc, buf)`. */
  function Disassemble(memory: seq<Word>, pc: int): (r: Listing)
    ensures r.next.Some? <==> Fits(memory, pc)
    ensures r.next.Some? ==> r.next.value == pc + InstructionLength(memory[pc])
  {
    if !(0 <= pc < |memory|) then Listing("", None)
    else
      var n := memory[pc];
      var op, a, b := OpField(n), AField(n), BField(n);
      FieldSplit(n);
      if op > 0 then
        var head := OpcodeName(op) + " ";
        var ra := DisassembleOperand(memory, pc + 1, a);
        if ra.next.None? then Listing(head + ra.text, None)
        else
          var rb := DisassembleOperand(memory, ra.next.value, b);
          Listing(head + ra.text + ", " + rb.text, rb.next)
      else
        var head := if a == 1 then "JSR " else "UNK[" + Hex(a, 2) + "] ";
        var rb := DisassembleOperand(memory, pc + 1, b);
        Listing(head + rb.text, rb.next)
  }

  /** The extra words operand v takes when its word, if any, is at `at`. */
  function Extras(memory: seq<Word>, at: int, v: nat): (ws: seq<Word>)
    requires ConsumesWord(v) ==> 0 <= at < |memory|
    ensures |ws| == OperandWords(v)
  {
    if ConsumesWord(v) then [memory[at]] else []
  }

  /** The text of an operand whose word, if any, is at `at`. */
  function OperandAt(memory: seq<Word>, at: int, v: nat): string
    requires v < 64 && (ConsumesWord(v) ==> 0 <= at < |memory|)
  {
    OperandText(v, if ConsumesWord(v) then memory[at] else 0)
  }

  /** The text of a complete instruction. A basic opcode renders
      "NAME a, b" with a's extra word read first (at pc + 1) and b's after
      it; opcode field 0 renders "JSR b" when a = 1 and "UNK[aa] b"
      otherwise, with a never read as an operand. The instruction's words
      are the first word followed by the operands' extra words in order. */
  lemma DisassembleText(memory: seq<Word>, pc: int)
    requires Fits(memory, pc)
    ensures var n := memory[pc];
      var op, a, b := OpField(n), AField(n), BField(n);
      var text := Disassemble(memory, pc).text;
      && op < 16 && a < 64 && b < 64
      && (op > 0 ==>
            && text == OpcodeName(op) + " " + OperandAt(memory, pc + 1, a) + ", "
                       + OperandAt(memory, pc + 1 + OperandWords(a), b)
            && memory[pc .. pc + InstructionLength(n)]
               == [n] + Extras(memory, pc + 1, a) + Extras(memory, pc + 1 + OperandWords(a), b))
      && (op == 0 && a == 1 ==> text == "JSR " + OperandAt(memory, pc + 1, b))
      && (op == 0 && a != 1 ==> text == "UNK[" + Hex(a, 2) + "] " + OperandAt(memory, pc + 1, b))
      && (op == 0 ==> memory[pc .. pc + InstructionLength(n)] == [n] + Extras(memory, pc + 1, b))
  {
    var n := memory[pc];
    FieldSplit(n);
    var op, a, b := OpField(n), AField(n), BField(n);
    if op > 0 {
      BasicSlice(memory, pc, a, b);
    } else {
      JumpSlice(memory, pc, b);
    }
  }

  /** The words of a basic instruction: its first word, then a's extra
      word, then b's. */
  lemma BasicSlice(memory: seq<Word>, pc: int, a: nat, b: nat)
    requires 0 <= pc && pc + 1 + OperandWords(a) + OperandWords(b) <= |memory|
    ensures memory[pc .. pc + 1 + OperandWords(a) + OperandWords(b)]
            == [memory[pc]] + Extras(memory, pc + 1, a) + Extras(memory, pc + 1 + OperandWords(a), b)
  {
    var la, end := OperandWords(a), pc + 1 + OperandWords(a) + OperandWords(b);
    var ea, eb := Extras(memory, pc + 1, a), Extras(memory, pc + 1 + la, b);
    assert |memory[pc .. end]| == |[memory[pc]] + ea + eb|;
    forall k | 0 <= k < end - pc
      ensures memory[pc .. end][k] == ([memory[pc]] + ea + eb)[k]
    {
      if k > 0 && k <= la {
        assert ea == [memory[pc + 1]];
      } else if k > la {
        assert eb == [memory[pc + 1 + la]];
      }
    }
  }

  /** The words of a non-basic instruction: its first word, then b's
      extra word. */
  lemma JumpSlice(memory: seq<Word>, pc: int, b: nat)
    requires 0 <= pc && pc + 1 + OperandWords(b) <= |memory|
    ensures memory[pc .. pc + 1 + OperandWords(b)] == [memory[pc]] + Extras(memory, pc + 1, b)
  {
  }

  /** Disassembly looks only at the instruction's own words: two memories
      that agree on pc .. pc + length - 1 give the same listing. */
  lemma DisassembleReadsOnlyInstruction(m1: seq<Word>, m2: seq<Word>, pc: int)
    requires Fits(m1, pc)
    requires pc + InstructionLength(m1[pc]) <= |m2|
    requires m1[pc .. pc + InstructionLength(m1[pc])] == m2[pc .. pc + InstructionLength(m1[pc])]
    ensures Disassemble(m2, pc) == Disassemble(m1, pc)
  {
    var len := InstructionLength(m1[pc]);
    assert m1[pc] == m1[pc .. pc + len][0] == m2[pc];
    forall k | pc <= k < pc + len
      ensures m1[k] == m2[k]
    {
      assert m1[k] == m1[pc .. pc + len][k - pc];
      assert m2[k] == m2[pc .. pc + len][k - pc];
    }
  }

  // ---------------------------------------------------------------------
  // The imperative form: a caller-owned buffer and a moving cursor

  /** `java.lang.StringBuilder`, as far as the disassembler uses it. */
  class StringBuilder {
    var text: string

    constructor ()
      ensures text == ""
    {
      text := "";
    }

    method Append(s: string)
      modifies this
      ensures text == old(text) + s
    {
      text := text + s;
    }
  }

  /** `disassembleOperand`: appends the operand's text to buf and returns
      the cursor, advanced past the word it consumed; `None` is the
      out-of-bounds exception, thrown before anything is appended. */
  method DisassembleOperandInto(memory: array<Word>, pc: int, operand: nat, buf: StringBuilder)
    returns (next: Option<int>)
    requires operand < 64
    modifies buf
    ensures buf.text == old(buf.text) + DisassembleOperand(memory[..], pc, operand).text
    ensures next == DisassembleOperand(memory[..], pc, operand).next
  {
    var cursor := pc;
    if ConsumesWord(operand) {
      if !(0 <= cursor < memory.Length) {
        return None;
      }
      var w := memory[cursor];
      cursor := cursor + 1;
      buf.Append(OperandText(operand, w));
    } else {
      buf.Append(OperandText(operand, 0));
    }
    return Some(cursor);
  }

  /** `disassemble` on a basic instruction: the name, operand a, and, when a
      did not throw, ", " and operand b. */
  lemma BasicSteps(m: seq<Word>, pc: int)
    requires 0 <= pc < |m| && OpField(m[pc]) > 0
    ensures var n := m[pc];
      var op, a, b := OpField(n), AField(n), BField(n);
      var ra := DisassembleOperand(m, pc + 1, a);
      && op < 16 && a < 64 && b < 64
      && (ra.next.None? ==> Disassemble(m, pc) == Listing(OpcodeName(op) + " " + ra.text, None))
      && (ra.next.Some? ==>
            var rb := DisassembleOperand(m, ra.next.value, b);
            Disassemble(m, pc) == Listing(OpcodeName(op) + " " + ra.text + ", " + rb.text, rb.next))
  {
    FieldSplit(m[pc]);
  }

  /** `disassemble` on a non-basic instruction: "JSR " or "UNK[..] ", then
      operand b. */
  lemma NonBasicSteps(m: seq<Word>, pc: int)
    requires 0 <= pc < |m| && OpField(m[pc]) == 0
    ensures var n := m[pc];
      var a, b := AField(n), BField(n);
      var rb := DisassembleOperand(m, pc + 1, b);
      && a < 64 && b < 64
      && Disassemble(m, pc) == Listing((if a == 1 then "JSR " else "UNK[" + Hex(a, 2) + "] ") + rb.text, rb.next)
  {
    FieldSplit(m[pc]);
  }

  lemma AppendAssociates(s0: string, s1: string, s2: string, s3: string, s4: string)
    ensures s0 + s1 + s2 + s3 + s4 == s0 + (s1 + s2 + s3 + s4)
    ensures s0 + s1 + s2 == s0 + (s1 + s2)
  {
  }

  /** The 3-argument `disassemble`: appends the instruction's text to buf
      and returns the address of the next instruction. */
  method DisassembleInto(memory: array<Word>, pc: int, buf: StringBuilder)
    returns (next: Option<int>)
    modifies buf
    ensures buf.text == old(buf.text) + Disassemble(memory[..], pc).text
    ensures next == Disassemble(memory[..], pc).next
  {
    if !(0 <= pc < memory.Length) {
      return None;
    }
    ghost var m := memory[..];
    ghost var before := buf.text;
    var n := memory[pc];
    assert n == m[pc];
    var cursor := pc + 1;
    var op, a, b := OpField(n), AField(n), BField(n);
    if op > 0 {
      BasicSteps(m, pc);
      var head := OpcodeName(op) + " ";
      buf.Append(head);
      var afterA := DisassembleOperandInto(memory, cursor, a, buf);
      ghost var ta := DisassembleOperand(m, cursor, a).text;
      if afterA.None? {
        AppendAssociates(before, head, ta, "", "");
        return None;
      }
      buf.Append(", ");
      next := DisassembleOperandInto(memory, afterA.value, b, buf);
      AppendAssociates(before, head, ta, ", ", DisassembleOperand(m, afterA.value, b).text);
      return;
    }
    NonBasicSteps(m, pc);
    var head := if a == 1 then "JSR " else "UNK[" + Hex(a, 2) + "] ";
    buf.Append(head);
    next := DisassembleOperandInto(memory, cursor, b, buf);
    AppendAssociates(before, head, DisassembleOperand(m, cursor, b).text, "", "");
  }

  /** The `String` overload: a fresh buffer, filled by `DisassembleInto`.
      It yields a string exactly when the whole instruction lies inside
      memory, and the string is then the instruction's listing. */
  method DisassembleToString(memory: array<Word>, pc: int) returns (s: Option<string>)
    ensures s.Some? <==> Fits(memory[..], pc)
    ensures s.Some? ==> s.value == Disassemble(memory[..], pc).text
  {
    var buf := new StringBuilder();
    var next := DisassembleInto(memory, pc, buf);
    if next.Some? {
      s := Some(buf.text);
    } else {
      s := None;
    }
  }
}

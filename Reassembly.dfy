/** An assembler for exactly the text the disassembler writes, used as an
    independent reference for it: reading a listing back recovers the
    instruction words it was made from, so the listing loses nothing
    (every operand field, every extra word and the order they were read). */
module Reassembly {
  import opened Words
  import opened HexText
  import opened DCPU16
  import opened DCPU16Utilities

  /** The first position of c in s. */
  function IndexOf(s: string, c: char): (k: Option<nat>)
    ensures k.Some? ==> k.value < |s| && s[k.value] == c && c !in s[..k.value]
    ensures k.None? ==> c !in s
  {
    if s == [] then None
    else if s[0] == c then Some(0)
    else match IndexOf(s[1..], c)
      case None => None
      case Some(j) =>
        assert s[..j + 1] == [s[0]] + s[1..][..j];
        Some(j + 1)
  }

  /** The first c in `p + [c] + q` is the one after p when p has none. */
  lemma IndexOfAfter(p: string, c: char, q: string)
    requires c !in p
    ensures IndexOf(p + [c] + q, c) == Some(|p|)
  {
    var s := p + [c] + q;
    assert s[|p|] == c;
    assert s[..|p|] == p;
  }

  /** The operand field and extra words that an operand's text stands for. */
  function ParseOperand(s: string): (r: Option<(nat, seq<Word>)>)
    ensures r.Some? ==> r.value.0 < 64 && |r.value.1| == OperandWords(r.value.0)
  {
    if |s| == 1 then
      if s[0] == 'O' then Some((0x1D, []))
      else match RegisterByLetter(s[0])
        case Some(r) => Some((r, []))
        case None => None
    else if s == "POP" then Some((0x18, []))
    else if s == "PEEK" then Some((0x19, []))
    else if s == "PUSH" then Some((0x1A, []))
    else if s == "SP" then Some((0x1B, []))
    else if s == "PC" then Some((0x1C, []))
    else if |s| >= 2 && s[0] == '0' && s[1] == 'x' then ParseLiteral(s[2..])
    else if |s| >= 2 && s[0] == '[' && s[|s| - 1] == ']' then ParseIndirect(s[1..|s| - 1])
    else None
  }

  /** The digits after "0x": four of them are a next-word literal, one or
      two an inline literal below 0x20. */
  function ParseLiteral(d: string): (r: Option<(nat, seq<Word>)>)
    ensures r.Some? ==> r.value.0 < 64 && |r.value.1| == OperandWords(r.value.0)
  {
    if |d| == 4 && AllHexDigits(d) && HexValue(d) < 0x1_0000 then Some((0x1F, [HexValue(d)]))
    else if 1 <= |d| <= 2 && AllHexDigits(d) && HexValue(d) < 0x20 then Some((0x20 + HexValue(d), []))
    else None
  }

  /** What stands between the brackets: a register, "0xWWWW", or
      "0xWWWW+R". */
  function ParseIndirect(t: string): (r: Option<(nat, seq<Word>)>)
    ensures r.Some? ==> r.value.0 < 64 && |r.value.1| == OperandWords(r.value.0)
  {
    if |t| == 1 then
      match RegisterByLetter(t[0])
      case Some(r) => Some((0x08 + r, []))
      case None => None
    else if |t| == 6 && t[..2] == "0x" && AllHexDigits(t[2..]) && HexValue(t[2..]) < 0x1_0000 then
      Some((0x1E, [HexValue(t[2..])]))
    else if |t| == 8 && t[..2] == "0x" && t[6] == '+' && AllHexDigits(t[2..6])
         && HexValue(t[2..6]) < 0x1_0000 && RegisterByLetter(t[7]).Some? then
      Some((0x10 + RegisterByLetter(t[7]).value, [HexValue(t[2..6])]))
    else None
  }

  /** The first word of an instruction with opcode `op` and fields a, b. */
  function InstructionWord(op: nat, a: nat, b: nat): Word
    requires op < 16 && a < 64 && b < 64
  {
    op + 16 * a + 1024 * b
  }

  /** The instruction words that a listing line stands for. */
  function Assemble(text: string): Option<seq<Word>>
  {
    match IndexOf(text, ' ')
    case None => None
    case Some(k) =>
      var mnemonic, rest := text[..k], text[k + 1..];
      if mnemonic == "JSR" then
        match ParseOperand(rest)
        case None => None
        case Some((b, wb)) => Some([InstructionWord(0, 1, b)] + wb)
      else if |mnemonic| == 7 && mnemonic[..4] == "UNK[" && mnemonic[6] == ']'
              && AllHexDigits(mnemonic[4..6]) && HexValue(mnemonic[4..6]) < 64 then
        match ParseOperand(rest)
        case None => None
        case Some((b, wb)) => Some([InstructionWord(0, HexValue(mnemonic[4..6]), b)] + wb)
      else
        match OpcodeByName(mnemonic)
        case None => None
        case Some(op) => if op == 0 then None else AssembleOperands(op, rest)
  }

  /** The words of a basic instruction whose operands read "a, b". */
  function AssembleOperands(op: nat, rest: string): Option<seq<Word>>
    requires op < 16
  {
    match IndexOf(rest, ',')
    case None => None
    case Some(j) =>
      if j + 1 < |rest| && rest[j + 1] == ' ' then
        match (ParseOperand(rest[..j]), ParseOperand(rest[j + 2..]))
        case (Some((a, wa)), Some((b, wb))) => Some([InstructionWord(op, a, b)] + wa + wb)
        case _ => None
      else None
  }

  /** Reading a four-digit word back. */
  lemma FourDigits(w: Word)
    ensures |Hex(w, 4)| == 4 && AllHexDigits(Hex(w, 4)) && HexValue(Hex(w, 4)) == w
  {
    HexFourDigits(w);
    HexValueOfHex(w, 4);
  }

  /** A bracketed text is read by ParseIndirect. */
  lemma ParseBracketed(t: string)
    requires |t| >= 1
    ensures ParseOperand("[" + t + "]") == ParseIndirect(t)
  {
    var s := "[" + t + "]";
    assert s[0] == '[' && s[|s| - 1] == ']';
    assert s[1..|s| - 1] == t;
  }

  /** A text starting with "0x" is read by ParseLiteral. */
  lemma ParseHexPrefixed(d: string)
    requires |d| >= 1
    ensures ParseOperand("0x" + d) == ParseLiteral(d)
  {
    var s := "0x" + d;
    assert s[0] == '0' && s[1] == 'x';
    assert s[2..] == d;
  }

  /** The register forms 0x00-0x0F. */
  lemma ParseRegisterText(v: nat, w: Word)
    requires v < 0x10
    ensures ParseOperand(OperandText(v, w)) == Some((v, []))
  {
    var r := RegisterName(v % 8);
    if v >= 0x08 {
      ParseBracketed([r]);
    }
  }

  /** The form 0x10-0x17, "[0xWWWW+R]". */
  lemma ParseIndexedText(v: nat, w: Word)
    requires 0x10 <= v < 0x18
    ensures ParseOperand(OperandText(v, w)) == Some((v, [w]))
  {
    var t := "0x" + Hex(w, 4) + "+" + [RegisterName(v % 8)];
    assert OperandText(v, w) == "[" + t + "]";
    ParseBracketed(t);
    IndirectIndexed(v, w);
  }

  lemma IndirectIndexed(v: nat, w: Word)
    requires 0x10 <= v < 0x18
    ensures ParseIndirect("0x" + Hex(w, 4) + "+" + [RegisterName(v % 8)]) == Some((v, [w]))
  {
    var h, r := Hex(w, 4), RegisterName(v % 8);
    FourDigits(w);
    var t := "0x" + h + "+" + [r];
    assert t[..2] == "0x" && t[2..6] == h && t[6] == '+' && t[7] == r;
    assert RegisterByLetter(r) == Some(v % 8);
  }

  /** The form 0x1E, "[0xWWWW]". */
  lemma ParseAddressText(w: Word)
    ensures ParseOperand(OperandText(0x1E, w)) == Some((0x1E, [w]))
  {
    var h := Hex(w, 4);
    FourDigits(w);
    var t := "0x" + h;
    assert OperandText(0x1E, w) == "[" + t + "]";
    ParseBracketed(t);
    assert |t| == 6 && t[..2] == "0x" && t[2..] == h;
  }

  /** The form 0x1F, "0xWWWW". */
  lemma ParseNextWordText(w: Word)
    ensures ParseOperand(OperandText(0x1F, w)) == Some((0x1F, [w]))
  {
    FourDigits(w);
    ParseHexPrefixed(Hex(w, 4));
  }

  /** The inline literals 0x20-0x3F, "0xN" or "0xNN". */
  lemma ParseShortLiteralText(v: nat, w: Word)
    requires 0x20 <= v < 64
    ensures ParseOperand(OperandText(v, w)) == Some((v, []))
  {
    var h := Hex(v - 0x20, 1);
    HexShort(v - 0x20);
    HexValueOfHex(v - 0x20, 1);
    ParseHexPrefixed(h);
  }

  /** Every operand text reads back as its field and the word it consumed. */
  lemma ParseOperandText(v: nat, w: Word)
    requires v < 64
    ensures ParseOperand(OperandText(v, w)) == Some((v, if ConsumesWord(v) then [w] else []))
  {
    if v < 0x10 {
      ParseRegisterText(v, w);
    } else if v < 0x18 {
      ParseIndexedText(v, w);
    } else if v >= 0x20 {
      ParseShortLiteralText(v, w);
    } else if v == 0x1E {
      ParseAddressText(w);
    } else if v == 0x1F {
      ParseNextWordText(w);
    }
  }

  /** "JSR b" reads back as the non-basic word with a = 1. */
  lemma AssembleJump(tb: string, b: nat, wb: seq<Word>)
    requires ParseOperand(tb) == Some((b, wb))
    ensures Assemble("JSR " + tb) == Some([0x10 + 1024 * b] + wb)
  {
    var text := "JSR " + tb;
    assert text == "JSR" + [' '] + tb;
    IndexOfAfter("JSR", ' ', tb);
    assert text[..3] == "JSR" && text[4..] == tb;
  }

  /** "UNK[aa] b" reads back as the non-basic word with field a. */
  lemma AssembleUnknown(a: nat, tb: string, b: nat, wb: seq<Word>)
    requires a < 64 && a != 1
    requires ParseOperand(tb) == Some((b, wb))
    ensures Assemble("UNK[" + Hex(a, 2) + "] " + tb) == Some([16 * a + 1024 * b] + wb)
  {
    var mnemonic := "UNK[" + Hex(a, 2) + "]";
    UnknownMnemonic(a);
    var text := "UNK[" + Hex(a, 2) + "] " + tb;
    assert text == mnemonic + [' '] + tb;
    IndexOfAfter(mnemonic, ' ', tb);
    assert text[..7] == mnemonic && text[8..] == tb;
  }

  /** The mnemonic "UNK[aa]" is seven characters without a space, and its
      two digits read back as a. */
  lemma UnknownMnemonic(a: nat)
    requires a < 64
    ensures var mnemonic := "UNK[" + Hex(a, 2) + "]";
      && |mnemonic| == 7 && ' ' !in mnemonic && mnemonic != "JSR"
      && mnemonic[..4] == "UNK[" && mnemonic[6] == ']'
      && AllHexDigits(mnemonic[4..6]) && HexValue(mnemonic[4..6]) == a
  {
    var h := Hex(a, 2);
    HexShort(a);
    HexValueOfHex(a, 2);
    var mnemonic := "UNK[" + h + "]";
    assert mnemonic[..4] == "UNK[" && mnemonic[4..6] == h && mnemonic[6] == ']';
  }

  /** "NAME a, b" reads back as the basic word with its two fields, followed
      by a's extra words and then b's. */
  lemma AssembleBasic(op: nat, ta: string, a: nat, wa: seq<Word>, tb: string, b: nat, wb: seq<Word>)
    requires 0 < op < 16
    requires ',' !in ta
    requires ParseOperand(ta) == Some((a, wa)) && ParseOperand(tb) == Some((b, wb))
    ensures Assemble(OpcodeName(op) + " " + ta + ", " + tb) == Some([op + 16 * a + 1024 * b] + wa + wb)
  {
    var name := OpcodeName(op);
    var rest := ta + ", " + tb;
    var text := name + " " + ta + ", " + tb;
    assert text == name + [' '] + rest;
    IndexOfAfter(name, ' ', rest);
    assert text[..|name|] == name && text[|name| + 1..] == rest;
    OpcodeByNameInverts(op);
    assert OpcodeByName("JSR") == None;
    OperandsText(op, ta, a, wa, tb, b, wb);
  }

  lemma OperandsText(op: nat, ta: string, a: nat, wa: seq<Word>, tb: string, b: nat, wb: seq<Word>)
    requires 0 < op < 16
    requires ',' !in ta
    requires ParseOperand(ta) == Some((a, wa)) && ParseOperand(tb) == Some((b, wb))
    ensures AssembleOperands(op, ta + ", " + tb) == Some([op + 16 * a + 1024 * b] + wa + wb)
  {
    SplitAtComma(ta, tb);
  }

  /** The text "a, b" splits at its first comma back into a and b. */
  lemma SplitAtComma(ta: string, tb: string)
    requires ',' !in ta
    ensures var rest := ta + ", " + tb;
      && IndexOf(rest, ',') == Some(|ta|) && |ta| + 1 < |rest| && rest[|ta| + 1] == ' '
      && rest[..|ta|] == ta && rest[|ta| + 2..] == tb
  {
    var rest := ta + ", " + tb;
    assert rest == ta + [','] + (" " + tb);
    IndexOfAfter(ta, ',', " " + tb);
    assert rest[..|ta|] == ta;
    assert rest[|ta| + 2..] == tb;
  }

  /** The basic-opcode case of AssembleDisassemble. */
  lemma AssembleDisassembleBasic(memory: seq<Word>, pc: int)
    requires Fits(memory, pc) && OpField(memory[pc]) > 0
    ensures Assemble(Disassemble(memory, pc).text)
            == Some(memory[pc .. pc + InstructionLength(memory[pc])])
  {
    DisassembleText(memory, pc);
    var n := memory[pc];
    FieldsRebuild(n);
    var op, a, b := OpField(n), AField(n), BField(n);
    var at := pc + 1 + OperandWords(a);
    OperandParses(memory, pc + 1, a);
    OperandParses(memory, at, b);
    BasicWords(n, op, a, b, OperandAt(memory, pc + 1, a), OperandAt(memory, at, b),
               Extras(memory, pc + 1, a), Extras(memory, at, b));
  }

  /** The fields put back together give the word. */
  lemma FieldsRebuild(n: Word)
    ensures OpField(n) < 16 && AField(n) < 64 && BField(n) < 64
    ensures n == OpField(n) + 16 * AField(n) + 1024 * BField(n)
  {
    FieldSplit(n);
  }

  /** An operand's text read back from memory gives its value and the
      extra words it took. */
  lemma OperandParses(memory: seq<Word>, at: int, v: nat)
    requires v < 64 && (ConsumesWord(v) ==> 0 <= at < |memory|)
    ensures ParseOperand(OperandAt(memory, at, v)) == Some((v, Extras(memory, at, v)))
    ensures ',' !in OperandAt(memory, at, v)
  {
    ParseOperandText(v, if ConsumesWord(v) then memory[at] else 0);
  }

  lemma BasicWords(n: Word, op: nat, a: nat, b: nat, ta: string, tb: string, ea: seq<Word>, eb: seq<Word>)
    requires 0 < op < 16 && n == op + 16 * a + 1024 * b && ',' !in ta
    requires ParseOperand(ta) == Some((a, ea)) && ParseOperand(tb) == Some((b, eb))
    ensures Assemble(OpcodeName(op) + " " + ta + ", " + tb) == Some([n] + ea + eb)
  {
    AssembleBasic(op, ta, a, ea, tb, b, eb);
  }

  /** The non-basic case of AssembleDisassemble. */
  lemma AssembleDisassembleNonBasic(memory: seq<Word>, pc: int)
    requires Fits(memory, pc) && OpField(memory[pc]) == 0
    ensures Assemble(Disassemble(memory, pc).text)
            == Some(memory[pc .. pc + InstructionLength(memory[pc])])
  {
    DisassembleText(memory, pc);
    var n := memory[pc];
    FieldsRebuild(n);
    var a, b := AField(n), BField(n);
    OperandParses(memory, pc + 1, b);
    if a == 1 {
      JumpWords(n, a, b, OperandAt(memory, pc + 1, b), Extras(memory, pc + 1, b));
    } else {
      UnknownWords(n, a, b, OperandAt(memory, pc + 1, b), Extras(memory, pc + 1, b));
    }
  }

  lemma JumpWords(n: Word, a: nat, b: nat, tb: string, eb: seq<Word>)
    requires a == 1 && n == 16 * a + 1024 * b
    requires ParseOperand(tb) == Some((b, eb))
    ensures Assemble("JSR " + tb) == Some([n] + eb)
  {
    AssembleJump(tb, b, eb);
  }

  lemma UnknownWords(n: Word, a: nat, b: nat, tb: string, eb: seq<Word>)
    requires a < 64 && a != 1 && n == 16 * a + 1024 * b
    requires ParseOperand(tb) == Some((b, eb))
    ensures Assemble("UNK[" + Hex(a, 2) + "] " + tb) == Some([n] + eb)
  {
    AssembleUnknown(a, tb, b, eb);
  }

  /** Reassembling a listing gives back exactly the words the disassembler
      read: the first word, then the extra words of the operands in order. */
  lemma AssembleDisassemble(memory: seq<Word>, pc: int)
    requires Fits(memory, pc)
    ensures Assemble(Disassemble(memory, pc).text)
            == Some(memory[pc .. pc + InstructionLength(memory[pc])])
  {
    if OpField(memory[pc]) > 0 {
      AssembleDisassembleBasic(memory, pc);
    } else {
      AssembleDisassembleNonBasic(memory, pc);
    }
  }

  /** Hence a listing determines its instruction: two instructions with the
      same text are the same words. */
  lemma ListingDeterminesInstruction(m1: seq<Word>, p1: int, m2: seq<Word>, p2: int)
    requires Fits(m1, p1) && Fits(m2, p2)
    requires Disassemble(m1, p1).text == Disassemble(m2, p2).text
    ensures m1[p1 .. p1 + InstructionLength(m1[p1])] == m2[p2 .. p2 + InstructionLength(m2[p2])]
  {
    AssembleDisassemble(m1, p1);
    AssembleDisassemble(m2, p2);
  }
}

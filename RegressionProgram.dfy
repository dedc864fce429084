/** The sample program of version 1.1 of the DCPU-16 specification, as the
    regression test loads it at address 0, and the listing the disassembler
    gives for each instruction the test steps through. */
module RegressionProgram {
  import opened Words
  import opened HexText
  import opened DCPU16
  import opened DCPU16Utilities

  const Program: seq<Word> := [
    0x7c01, 0x0030, 0x7de1, 0x1000, 0x0020, 0x7803, 0x1000, 0xc00d,
    0x7dc1, 0x001a, 0xa861, 0x7c01, 0x2000, 0x2161, 0x2000, 0x8463,
    0x806d, 0x7dc1, 0x000d, 0x9031, 0x7c10, 0x0018, 0x7dc1, 0x001a,
    0x9037, 0x61c1, 0x7dc1, 0x001a, 0x0000, 0x0000, 0x0000, 0x0000
  ]

  /** A basic instruction's listing: its opcode's name and its operands'
      texts, ending after its extra words. */
  lemma BasicListing(m: seq<Word>, pc: int, n: Word, op: nat, a: nat, b: nat, wa: Word, wb: Word, len: nat)
    requires 0 <= pc < |m| && pc + len <= |m| && m[pc] == n
    requires OpField(n) == op && AField(n) == a && BField(n) == b && 0 < op < 16 && a < 64 && b < 64
    requires len == 1 + OperandWords(a) + OperandWords(b)
    requires ConsumesWord(a) ==> m[pc + 1] == wa
    requires ConsumesWord(b) ==> m[pc + 1 + OperandWords(a)] == wb
    ensures Disassemble(m, pc) == Listing(OpcodeName(op) + " " + OperandText(a, wa) + ", " + OperandText(b, wb), Some(pc + len))
  {
    DisassembleText(m, pc);
    OperandAtText(m, pc + 1, a, wa);
    OperandAtText(m, pc + 1 + OperandWords(a), b, wb);
  }

  /** A JSR's listing: "JSR" and its operand's text, ending after its
      extra word. */
  lemma JumpListing(m: seq<Word>, pc: int, n: Word, b: nat, wb: Word, len: nat)
    requires 0 <= pc < |m| && pc + len <= |m| && m[pc] == n
    requires OpField(n) == 0 && AField(n) == 1 && BField(n) == b && b < 64
    requires len == 1 + OperandWords(b)
    requires ConsumesWord(b) ==> m[pc + 1] == wb
    ensures Disassemble(m, pc) == Listing("JSR " + OperandText(b, wb), Some(pc + len))
  {
    DisassembleText(m, pc);
    OperandAtText(m, pc + 1, b, wb);
  }

  /** An operand read from memory has the text of the word it reads. */
  lemma OperandAtText(m: seq<Word>, at: int, v: nat, w: Word)
    requires v < 64 && (ConsumesWord(v) ==> 0 <= at < |m| && m[at] == w)
    ensures OperandAt(m, at, v) == OperandText(v, w)
  {
  }

  /** The text of a register operand. */
  lemma RegisterText(v: nat, w: Word, c: char)
    requires v < 0x08 && RegisterName(v) == c
    ensures OperandText(v, w) == [c]
  {
  }

  /** The text of an indirect register operand. */
  lemma IndirectText(v: nat, w: Word, c: char)
    requires 0x08 <= v < 0x10 && RegisterName(v % 8) == c
    ensures OperandText(v, w) == "[" + [c] + "]"
  {
  }

  /** The text of an indexed operand whose offset prints as `h`. */
  lemma IndexedText(v: nat, w: Word, c: char, h: string)
    requires 0x10 <= v < 0x18 && RegisterName(v % 8) == c && Hex(w, 4) == h
    ensures OperandText(v, w) == "[0x" + h + "+" + [c] + "]"
  {
  }

  /** The text of an address operand whose address prints as `h`. */
  lemma AddressText(w: Word, h: string)
    requires Hex(w, 4) == h
    ensures OperandText(0x1E, w) == "[0x" + h + "]"
  {
  }

  /** The text of a next-word literal that prints as `h`. */
  lemma NextWordText(w: Word, h: string)
    requires Hex(w, 4) == h
    ensures OperandText(0x1F, w) == "0x" + h
  {
  }

  /** The text of an inline literal whose value prints as `h`. */
  lemma LiteralText(v: nat, w: Word, h: string)
    requires 0x20 <= v < 64 && Hex(v - 0x20, 1) == h
    ensures OperandText(v, w) == "0x" + h
  {
  }

  /** The names of the opcodes the program uses. */
  lemma SetName()
    ensures OpcodeName(1) == "SET"
  {
    OpcodeOrder();
  }

  lemma SubName()
    ensures OpcodeName(3) == "SUB"
  {
    OpcodeOrder();
  }

  lemma ShlName()
    ensures OpcodeName(7) == "SHL"
  {
    OpcodeOrder();
  }

  lemma IfnName()
    ensures OpcodeName(13) == "IFN"
  {
    OpcodeOrder();
  }

  /** The three fields of an instruction word put together from them. */
  lemma Fields(n: Word, op: nat, a: nat, b: nat)
    requires op < 16 && a < 64 && b < 64 && n == op + 16 * a + 1024 * b
    ensures OpField(n) == op && AField(n) == a && BField(n) == b
  {
    FieldSplit(n);
  }

  /** The digits the program's extra words print with. */
  lemma DigitCharacters()
    ensures HexDigit(0) == '0' && HexDigit(1) == '1' && HexDigit(2) == '2' && HexDigit(3) == '3'
    ensures HexDigit(8) == '8' && HexDigit(10) == 'A' && HexDigit(13) == 'D'
  {
  }

  /** `%04X` of the extra word 0x0030. */
  lemma Word0030()
    ensures Hex(0x0030, 4) == "0030"
  {
    var s := Hex(0x0030, 4);
    HexWordDigits(0x0030);
    DigitCharacters();
    assert s == [HexDigit(0), HexDigit(0), HexDigit(3), HexDigit(0)];
  }

  /** `%04X` of the extra word 0x1000. */
  lemma Word1000()
    ensures Hex(0x1000, 4) == "1000"
  {
    var s := Hex(0x1000, 4);
    HexWordDigits(0x1000);
    DigitCharacters();
    assert s == [HexDigit(1), HexDigit(0), HexDigit(0), HexDigit(0)];
  }

  /** `%04X` of the extra word 0x0020. */
  lemma Word0020()
    ensures Hex(0x0020, 4) == "0020"
  {
    var s := Hex(0x0020, 4);
    HexWordDigits(0x0020);
    DigitCharacters();
    assert s == [HexDigit(0), HexDigit(0), HexDigit(2), HexDigit(0)];
  }

  /** `%04X` of the extra word 0x001A. */
  lemma Word001A()
    ensures Hex(0x001A, 4) == "001A"
  {
    var s := Hex(0x001A, 4);
    HexWordDigits(0x001A);
    DigitCharacters();
    assert s == [HexDigit(0), HexDigit(0), HexDigit(1), HexDigit(10)];
  }

  /** `%04X` of the extra word 0x2000. */
  lemma Word2000()
    ensures Hex(0x2000, 4) == "2000"
  {
    var s := Hex(0x2000, 4);
    HexWordDigits(0x2000);
    DigitCharacters();
    assert s == [HexDigit(2), HexDigit(0), HexDigit(0), HexDigit(0)];
  }

  /** `%04X` of the extra word 0x000D. */
  lemma Word000D()
    ensures Hex(0x000D, 4) == "000D"
  {
    var s := Hex(0x000D, 4);
    HexWordDigits(0x000D);
    DigitCharacters();
    assert s == [HexDigit(0), HexDigit(0), HexDigit(0), HexDigit(13)];
  }

  /** `%04X` of the extra word 0x0018. */
  lemma Word0018()
    ensures Hex(0x0018, 4) == "0018"
  {
    var s := Hex(0x0018, 4);
    HexWordDigits(0x0018);
    DigitCharacters();
    assert s == [HexDigit(0), HexDigit(0), HexDigit(1), HexDigit(8)];
  }

  /** `%X` of the inline literals the program holds. */
  lemma ProgramLiterals()
    ensures Hex(0x10, 1) == "10" && Hex(0xA, 1) == "A" && Hex(1, 1) == "1"
    ensures Hex(0, 1) == "0" && Hex(4, 1) == "4"
  {
    assert Hex(1, 0) == [HexDigit(1)];
  }

  /** `disassemble(memory, 0x00)` in the regression test. */
  lemma ListingAt00(m: seq<Word>)
    requires |m| > 0x01 && m[0x00] == 0x7c01 && m[0x01] == 0x0030
    ensures Disassemble(m, 0x00) == Listing("SET A, 0x0030", Some(0x02))
  {
    Fields(0x7c01, 1, 0x00, 0x1F);
    BasicListing(m, 0x00, 0x7c01, 1, 0x00, 0x1F, 0x0000, 0x0030, 2);
    TextAt00();
  }

  /** The text of the instruction at 0x00. */
  lemma TextAt00()
    ensures OpcodeName(1) + " " + OperandText(0x00, 0x0000) + ", " + OperandText(0x1F, 0x0030) == "SET A, 0x0030"
  {
    var n, a, b := OpcodeName(1), OperandText(0x00, 0x0000), OperandText(0x1F, 0x0030);
    SetName();
    RegisterOrder();
    RegisterText(0x00, 0x0000, 'A');
    Word0030();
    NextWordText(0x0030, "0030");
    SpellAt00(n, a, b);
  }

  lemma SpellAt00(n: string, a: string, b: string)
    requires n == "SET" && a == "A" && b == "0x" + "0030"
    ensures n + " " + a + ", " + b == "SET A, 0x0030"
  {
  }

  /** `disassemble(memory, 0x02)` in the regression test. */
  lemma ListingAt02(m: seq<Word>)
    requires |m| > 0x04 && m[0x02] == 0x7de1 && m[0x03] == 0x1000 && m[0x04] == 0x0020
    ensures Disassemble(m, 0x02) == Listing("SET [0x1000], 0x0020", Some(0x05))
  {
    Fields(0x7de1, 1, 0x1E, 0x1F);
    BasicListing(m, 0x02, 0x7de1, 1, 0x1E, 0x1F, 0x1000, 0x0020, 3);
    TextAt02();
  }

  /** The text of the instruction at 0x02. */
  lemma TextAt02()
    ensures OpcodeName(1) + " " + OperandText(0x1E, 0x1000) + ", " + OperandText(0x1F, 0x0020) == "SET [0x1000], 0x0020"
  {
    var n, a, b := OpcodeName(1), OperandText(0x1E, 0x1000), OperandText(0x1F, 0x0020);
    SetName();
    Word1000();
    AddressText(0x1000, "1000");
    Word0020();
    NextWordText(0x0020, "0020");
    SpellAt02(n, a, b);
  }

  lemma SpellAt02(n: string, a: string, b: string)
    requires n == "SET" && a == "[0x" + "1000" + "]" && b == "0x" + "0020"
    ensures n + " " + a + ", " + b == "SET [0x1000], 0x0020"
  {
  }

  /** `disassemble(memory, 0x05)` in the regression test. */
  lemma ListingAt05(m: seq<Word>)
    requires |m| > 0x06 && m[0x05] == 0x7803 && m[0x06] == 0x1000
    ensures Disassemble(m, 0x05) == Listing("SUB A, [0x1000]", Some(0x07))
  {
    Fields(0x7803, 3, 0x00, 0x1E);
    BasicListing(m, 0x05, 0x7803, 3, 0x00, 0x1E, 0x0000, 0x1000, 2);
    TextAt05();
  }

  /** The text of the instruction at 0x05. */
  lemma TextAt05()
    ensures OpcodeName(3) + " " + OperandText(0x00, 0x0000) + ", " + OperandText(0x1E, 0x1000) == "SUB A, [0x1000]"
  {
    var n, a, b := OpcodeName(3), OperandText(0x00, 0x0000), OperandText(0x1E, 0x1000);
    SubName();
    RegisterOrder();
    RegisterText(0x00, 0x0000, 'A');
    Word1000();
    AddressText(0x1000, "1000");
    SpellAt05(n, a, b);
  }

  lemma SpellAt05(n: string, a: string, b: string)
    requires n == "SUB" && a == "A" && b == "[0x" + "1000" + "]"
    ensures n + " " + a + ", " + b == "SUB A, [0x1000]"
  {
  }

  /** `disassemble(memory, 0x07)` in the regression test. */
  lemma ListingAt07(m: seq<Word>)
    requires |m| > 0x07 && m[0x07] == 0xc00d
    ensures Disassemble(m, 0x07) == Listing("IFN A, 0x10", Some(0x08))
  {
    Fields(0xc00d, 13, 0x00, 0x30);
    BasicListing(m, 0x07, 0xc00d, 13, 0x00, 0x30, 0x0000, 0x0000, 1);
    TextAt07();
  }

  /** The text of the instruction at 0x07. */
  lemma TextAt07()
    ensures OpcodeName(13) + " " + OperandText(0x00, 0x0000) + ", " + OperandText(0x30, 0x0000) == "IFN A, 0x10"
  {
    var n, a, b := OpcodeName(13), OperandText(0x00, 0x0000), OperandText(0x30, 0x0000);
    IfnName();
    RegisterOrder();
    ProgramLiterals();
    RegisterText(0x00, 0x0000, 'A');
    LiteralText(0x30, 0x0000, "10");
    SpellAt07(n, a, b);
  }

  lemma SpellAt07(n: string, a: string, b: string)
    requires n == "IFN" && a == "A" && b == "0x" + "10"
    ensures n + " " + a + ", " + b == "IFN A, 0x10"
  {
  }

  /** `disassemble(memory, 0x08)` in the regression test. */
  lemma ListingAt08(m: seq<Word>)
    requires |m| > 0x09 && m[0x08] == 0x7dc1 && m[0x09] == 0x001a
    ensures Disassemble(m, 0x08) == Listing("SET PC, 0x001A", Some(0x0A))
  {
    Fields(0x7dc1, 1, 0x1C, 0x1F);
    BasicListing(m, 0x08, 0x7dc1, 1, 0x1C, 0x1F, 0x0000, 0x001A, 2);
    TextAt08();
  }

  /** The text of the instruction at 0x08. */
  lemma TextAt08()
    ensures OpcodeName(1) + " " + OperandText(0x1C, 0x0000) + ", " + OperandText(0x1F, 0x001A) == "SET PC, 0x001A"
  {
    var n, a, b := OpcodeName(1), OperandText(0x1C, 0x0000), OperandText(0x1F, 0x001A);
    SetName();
    Word001A();
    NextWordText(0x001A, "001A");
    SpellAt08(n, a, b);
  }

  lemma SpellAt08(n: string, a: string, b: string)
    requires n == "SET" && a == "PC" && b == "0x" + "001A"
    ensures n + " " + a + ", " + b == "SET PC, 0x001A"
  {
  }

  /** `disassemble(memory, 0x0A)` in the regression test. */
  lemma ListingAt0A(m: seq<Word>)
    requires |m| > 0x0A && m[0x0A] == 0xa861
    ensures Disassemble(m, 0x0A) == Listing("SET I, 0xA", Some(0x0B))
  {
    Fields(0xa861, 1, 0x06, 0x2A);
    BasicListing(m, 0x0A, 0xa861, 1, 0x06, 0x2A, 0x0000, 0x0000, 1);
    TextAt0A();
  }

  /** The text of the instruction at 0x0A. */
  lemma TextAt0A()
    ensures OpcodeName(1) + " " + OperandText(0x06, 0x0000) + ", " + OperandText(0x2A, 0x0000) == "SET I, 0xA"
  {
    var n, a, b := OpcodeName(1), OperandText(0x06, 0x0000), OperandText(0x2A, 0x0000);
    SetName();
    RegisterOrder();
    ProgramLiterals();
    RegisterText(0x06, 0x0000, 'I');
    LiteralText(0x2A, 0x0000, "A");
    SpellAt0A(n, a, b);
  }

  lemma SpellAt0A(n: string, a: string, b: string)
    requires n == "SET" && a == "I" && b == "0x" + "A"
    ensures n + " " + a + ", " + b == "SET I, 0xA"
  {
  }

  /** `disassemble(memory, 0x0B)` in the regression test. */
  lemma ListingAt0B(m: seq<Word>)
    requires |m| > 0x0C && m[0x0B] == 0x7c01 && m[0x0C] == 0x2000
    ensures Disassemble(m, 0x0B) == Listing("SET A, 0x2000", Some(0x0D))
  {
    Fields(0x7c01, 1, 0x00, 0x1F);
    BasicListing(m, 0x0B, 0x7c01, 1, 0x00, 0x1F, 0x0000, 0x2000, 2);
    TextAt0B();
  }

  /** The text of the instruction at 0x0B. */
  lemma TextAt0B()
    ensures OpcodeName(1) + " " + OperandText(0x00, 0x0000) + ", " + OperandText(0x1F, 0x2000) == "SET A, 0x2000"
  {
    var n, a, b := OpcodeName(1), OperandText(0x00, 0x0000), OperandText(0x1F, 0x2000);
    SetName();
    RegisterOrder();
    RegisterText(0x00, 0x0000, 'A');
    Word2000();
    NextWordText(0x2000, "2000");
    SpellAt0B(n, a, b);
  }

  lemma SpellAt0B(n: string, a: string, b: string)
    requires n == "SET" && a == "A" && b == "0x" + "2000"
    ensures n + " " + a + ", " + b == "SET A, 0x2000"
  {
  }

  /** `disassemble(memory, 0x0D)` in the regression test. */
  lemma ListingAt0D(m: seq<Word>)
    requires |m| > 0x0E && m[0x0D] == 0x2161 && m[0x0E] == 0x2000
    ensures Disassemble(m, 0x0D) == Listing("SET [0x2000+I], [A]", Some(0x0F))
  {
    Fields(0x2161, 1, 0x16, 0x08);
    BasicListing(m, 0x0D, 0x2161, 1, 0x16, 0x08, 0x2000, 0x0000, 2);
    TextAt0D();
  }

  /** The text of the instruction at 0x0D. */
  lemma TextAt0D()
    ensures OpcodeName(1) + " " + OperandText(0x16, 0x2000) + ", " + OperandText(0x08, 0x0000) == "SET [0x2000+I], [A]"
  {
    var n, a, b := OpcodeName(1), OperandText(0x16, 0x2000), OperandText(0x08, 0x0000);
    SetName();
    IndexedAt0D();
    IndirectAt0D();
    SpellAt0D(n, a, b);
  }

  /** The first operand of the instruction at 0x0D, [0x2000+I]. */
  lemma IndexedAt0D()
    ensures OperandText(0x16, 0x2000) == "[0x" + "2000" + "+" + "I" + "]"
  {
    RegisterOrder();
    Word2000();
    IndexedText(0x16, 0x2000, 'I', "2000");
  }

  /** The second operand of the instruction at 0x0D, [A]. */
  lemma IndirectAt0D()
    ensures OperandText(0x08, 0x0000) == "[" + "A" + "]"
  {
    RegisterOrder();
    IndirectText(0x08, 0x0000, 'A');
  }

  lemma SpellAt0D(n: string, a: string, b: string)
    requires n == "SET" && a == "[0x" + "2000" + "+" + "I" + "]" && b == "[" + "A" + "]"
    ensures n + " " + a + ", " + b == "SET [0x2000+I], [A]"
  {
  }

  /** `disassemble(memory, 0x0F)` in the regression test. */
  lemma ListingAt0F(m: seq<Word>)
    requires |m| > 0x0F && m[0x0F] == 0x8463
    ensures Disassemble(m, 0x0F) == Listing("SUB I, 0x1", Some(0x10))
  {
    Fields(0x8463, 3, 0x06, 0x21);
    BasicListing(m, 0x0F, 0x8463, 3, 0x06, 0x21, 0x0000, 0x0000, 1);
    TextAt0F();
  }

  /** The text of the instruction at 0x0F. */
  lemma TextAt0F()
    ensures OpcodeName(3) + " " + OperandText(0x06, 0x0000) + ", " + OperandText(0x21, 0x0000) == "SUB I, 0x1"
  {
    var n, a, b := OpcodeName(3), OperandText(0x06, 0x0000), OperandText(0x21, 0x0000);
    SubName();
    RegisterOrder();
    ProgramLiterals();
    RegisterText(0x06, 0x0000, 'I');
    LiteralText(0x21, 0x0000, "1");
    SpellAt0F(n, a, b);
  }

  lemma SpellAt0F(n: string, a: string, b: string)
    requires n == "SUB" && a == "I" && b == "0x" + "1"
    ensures n + " " + a + ", " + b == "SUB I, 0x1"
  {
  }

  /** `disassemble(memory, 0x10)` in the regression test. */
  lemma ListingAt10(m: seq<Word>)
    requires |m| > 0x10 && m[0x10] == 0x806d
    ensures Disassemble(m, 0x10) == Listing("IFN I, 0x0", Some(0x11))
  {
    Fields(0x806d, 13, 0x06, 0x20);
    BasicListing(m, 0x10, 0x806d, 13, 0x06, 0x20, 0x0000, 0x0000, 1);
    TextAt10();
  }

  /** The text of the instruction at 0x10. */
  lemma TextAt10()
    ensures OpcodeName(13) + " " + OperandText(0x06, 0x0000) + ", " + OperandText(0x20, 0x0000) == "IFN I, 0x0"
  {
    var n, a, b := OpcodeName(13), OperandText(0x06, 0x0000), OperandText(0x20, 0x0000);
    IfnName();
    RegisterOrder();
    ProgramLiterals();
    RegisterText(0x06, 0x0000, 'I');
    LiteralText(0x20, 0x0000, "0");
    SpellAt10(n, a, b);
  }

  lemma SpellAt10(n: string, a: string, b: string)
    requires n == "IFN" && a == "I" && b == "0x" + "0"
    ensures n + " " + a + ", " + b == "IFN I, 0x0"
  {
  }

  /** `disassemble(memory, 0x11)` in the regression test. */
  lemma ListingAt11(m: seq<Word>)
    requires |m| > 0x12 && m[0x11] == 0x7dc1 && m[0x12] == 0x000d
    ensures Disassemble(m, 0x11) == Listing("SET PC, 0x000D", Some(0x13))
  {
    Fields(0x7dc1, 1, 0x1C, 0x1F);
    BasicListing(m, 0x11, 0x7dc1, 1, 0x1C, 0x1F, 0x0000, 0x000D, 2);
    TextAt11();
  }

  /** The text of the instruction at 0x11. */
  lemma TextAt11()
    ensures OpcodeName(1) + " " + OperandText(0x1C, 0x0000) + ", " + OperandText(0x1F, 0x000D) == "SET PC, 0x000D"
  {
    var n, a, b := OpcodeName(1), OperandText(0x1C, 0x0000), OperandText(0x1F, 0x000D);
    SetName();
    Word000D();
    NextWordText(0x000D, "000D");
    SpellAt11(n, a, b);
  }

  lemma SpellAt11(n: string, a: string, b: string)
    requires n == "SET" && a == "PC" && b == "0x" + "000D"
    ensures n + " " + a + ", " + b == "SET PC, 0x000D"
  {
  }

  /** `disassemble(memory, 0x13)` in the regression test. */
  lemma ListingAt13(m: seq<Word>)
    requires |m| > 0x13 && m[0x13] == 0x9031
    ensures Disassemble(m, 0x13) == Listing("SET X, 0x4", Some(0x14))
  {
    Fields(0x9031, 1, 0x03, 0x24);
    BasicListing(m, 0x13, 0x9031, 1, 0x03, 0x24, 0x0000, 0x0000, 1);
    TextAt13();
  }

  /** The text of the instruction at 0x13. */
  lemma TextAt13()
    ensures OpcodeName(1) + " " + OperandText(0x03, 0x0000) + ", " + OperandText(0x24, 0x0000) == "SET X, 0x4"
  {
    var n, a, b := OpcodeName(1), OperandText(0x03, 0x0000), OperandText(0x24, 0x0000);
    SetName();
    RegisterOrder();
    ProgramLiterals();
    RegisterText(0x03, 0x0000, 'X');
    LiteralText(0x24, 0x0000, "4");
    SpellAt13(n, a, b);
  }

  lemma SpellAt13(n: string, a: string, b: string)
    requires n == "SET" && a == "X" && b == "0x" + "4"
    ensures n + " " + a + ", " + b == "SET X, 0x4"
  {
  }

  /** `disassemble(memory, 0x14)` in the regression test. */
  lemma ListingAt14(m: seq<Word>)
    requires |m| > 0x15 && m[0x14] == 0x7c10 && m[0x15] == 0x0018
    ensures Disassemble(m, 0x14) == Listing("JSR 0x0018", Some(0x16))
  {
    Fields(0x7c10, 0, 0x01, 0x1F);
    JumpListing(m, 0x14, 0x7c10, 0x1F, 0x0018, 2);
    TextAt14();
  }

  /** The text of the instruction at 0x14. */
  lemma TextAt14()
    ensures "JSR " + OperandText(0x1F, 0x0018) == "JSR 0x0018"
  {
    var b := OperandText(0x1F, 0x0018);
    Word0018();
    NextWordText(0x0018, "0018");
    SpellAt14(b);
  }

  lemma SpellAt14(b: string)
    requires b == "0x" + "0018"
    ensures "JSR " + b == "JSR 0x0018"
  {
  }

  /** `disassemble(memory, 0x16)` in the regression test. */
  lemma ListingAt16(m: seq<Word>)
    requires |m| > 0x17 && m[0x16] == 0x7dc1 && m[0x17] == 0x001a
    ensures Disassemble(m, 0x16) == Listing("SET PC, 0x001A", Some(0x18))
  {
    Fields(0x7dc1, 1, 0x1C, 0x1F);
    BasicListing(m, 0x16, 0x7dc1, 1, 0x1C, 0x1F, 0x0000, 0x001A, 2);
    TextAt16();
  }

  /** The text of the instruction at 0x16. */
  lemma TextAt16()
    ensures OpcodeName(1) + " " + OperandText(0x1C, 0x0000) + ", " + OperandText(0x1F, 0x001A) == "SET PC, 0x001A"
  {
    var n, a, b := OpcodeName(1), OperandText(0x1C, 0x0000), OperandText(0x1F, 0x001A);
    SetName();
    Word001A();
    NextWordText(0x001A, "001A");
    SpellAt16(n, a, b);
  }

  lemma SpellAt16(n: string, a: string, b: string)
    requires n == "SET" && a == "PC" && b == "0x" + "001A"
    ensures n + " " + a + ", " + b == "SET PC, 0x001A"
  {
  }

  /** `disassemble(memory, 0x18)` in the regression test. */
  lemma ListingAt18(m: seq<Word>)
    requires |m| > 0x18 && m[0x18] == 0x9037
    ensures Disassemble(m, 0x18) == Listing("SHL X, 0x4", Some(0x19))
  {
    Fields(0x9037, 7, 0x03, 0x24);
    BasicListing(m, 0x18, 0x9037, 7, 0x03, 0x24, 0x0000, 0x0000, 1);
    TextAt18();
  }

  /** The text of the instruction at 0x18. */
  lemma TextAt18()
    ensures OpcodeName(7) + " " + OperandText(0x03, 0x0000) + ", " + OperandText(0x24, 0x0000) == "SHL X, 0x4"
  {
    var n, a, b := OpcodeName(7), OperandText(0x03, 0x0000), OperandText(0x24, 0x0000);
    ShlName();
    RegisterOrder();
    ProgramLiterals();
    RegisterText(0x03, 0x0000, 'X');
    LiteralText(0x24, 0x0000, "4");
    SpellAt18(n, a, b);
  }

  lemma SpellAt18(n: string, a: string, b: string)
    requires n == "SHL" && a == "X" && b == "0x" + "4"
    ensures n + " " + a + ", " + b == "SHL X, 0x4"
  {
  }

  /** `disassemble(memory, 0x19)` in the regression test. */
  lemma ListingAt19(m: seq<Word>)
    requires |m| > 0x19 && m[0x19] == 0x61c1
    ensures Disassemble(m, 0x19) == Listing("SET PC, POP", Some(0x1A))
  {
    Fields(0x61c1, 1, 0x1C, 0x18);
    BasicListing(m, 0x19, 0x61c1, 1, 0x1C, 0x18, 0x0000, 0x0000, 1);
    TextAt19();
  }

  /** The text of the instruction at 0x19. */
  lemma TextAt19()
    ensures OpcodeName(1) + " " + OperandText(0x1C, 0x0000) + ", " + OperandText(0x18, 0x0000) == "SET PC, POP"
  {
    var n, a, b := OpcodeName(1), OperandText(0x1C, 0x0000), OperandText(0x18, 0x0000);
    SetName();
    SpellAt19(n, a, b);
  }

  lemma SpellAt19(n: string, a: string, b: string)
    requires n == "SET" && a == "PC" && b == "POP"
    ensures n + " " + a + ", " + b == "SET PC, POP"
  {
  }

  /** `disassemble(memory, 0x1A)` in the regression test. */
  lemma ListingAt1A(m: seq<Word>)
    requires |m| > 0x1B && m[0x1A] == 0x7dc1 && m[0x1B] == 0x001a
    ensures Disassemble(m, 0x1A) == Listing("SET PC, 0x001A", Some(0x1C))
  {
    Fields(0x7dc1, 1, 0x1C, 0x1F);
    BasicListing(m, 0x1A, 0x7dc1, 1, 0x1C, 0x1F, 0x0000, 0x001A, 2);
    TextAt1A();
  }

  /** The text of the instruction at 0x1A. */
  lemma TextAt1A()
    ensures OpcodeName(1) + " " + OperandText(0x1C, 0x0000) + ", " + OperandText(0x1F, 0x001A) == "SET PC, 0x001A"
  {
    var n, a, b := OpcodeName(1), OperandText(0x1C, 0x0000), OperandText(0x1F, 0x001A);
    SetName();
    Word001A();
    NextWordText(0x001A, "001A");
    SpellAt1A(n, a, b);
  }

  lemma SpellAt1A(n: string, a: string, b: string)
    requires n == "SET" && a == "PC" && b == "0x" + "001A"
    ensures n + " " + a + ", " + b == "SET PC, 0x001A"
  {
  }


  /** A memory into which the test has stored the program from address 0. */
  predicate Loaded(m: seq<Word>)
  {
    |m| >= |Program| && forall k :: 0 <= k < |Program| ==> m[k] == Program[k]
  }

  /** The words of the program as a loaded memory holds them. */
  lemma LoadedWords(m: seq<Word>)
    requires Loaded(m)
    ensures |m| >= 0x20
    ensures m[0x00] == 0x7c01 && m[0x01] == 0x0030 && m[0x02] == 0x7de1 && m[0x03] == 0x1000
    ensures m[0x04] == 0x0020 && m[0x05] == 0x7803 && m[0x06] == 0x1000 && m[0x07] == 0xc00d
    ensures m[0x08] == 0x7dc1 && m[0x09] == 0x001a && m[0x0A] == 0xa861 && m[0x0B] == 0x7c01
    ensures m[0x0C] == 0x2000 && m[0x0D] == 0x2161 && m[0x0E] == 0x2000 && m[0x0F] == 0x8463
    ensures m[0x10] == 0x806d && m[0x11] == 0x7dc1 && m[0x12] == 0x000d && m[0x13] == 0x9031
    ensures m[0x14] == 0x7c10 && m[0x15] == 0x0018 && m[0x16] == 0x7dc1 && m[0x17] == 0x001a
    ensures m[0x18] == 0x9037 && m[0x19] == 0x61c1 && m[0x1A] == 0x7dc1 && m[0x1B] == 0x001a
  {
  }

  /** The listing and the following address at every instruction the
      regression test disassembles, in any memory holding the program. */
  lemma ProgramListing(m: seq<Word>)
    requires Loaded(m)
    ensures Disassemble(m, 0x00) == Listing("SET A, 0x0030", Some(0x02))
    ensures Disassemble(m, 0x02) == Listing("SET [0x1000], 0x0020", Some(0x05))
    ensures Disassemble(m, 0x05) == Listing("SUB A, [0x1000]", Some(0x07))
    ensures Disassemble(m, 0x07) == Listing("IFN A, 0x10", Some(0x08))
    ensures Disassemble(m, 0x08) == Listing("SET PC, 0x001A", Some(0x0A))
    ensures Disassemble(m, 0x0A) == Listing("SET I, 0xA", Some(0x0B))
    ensures Disassemble(m, 0x0B) == Listing("SET A, 0x2000", Some(0x0D))
    ensures Disassemble(m, 0x0D) == Listing("SET [0x2000+I], [A]", Some(0x0F))
    ensures Disassemble(m, 0x0F) == Listing("SUB I, 0x1", Some(0x10))
    ensures Disassemble(m, 0x10) == Listing("IFN I, 0x0", Some(0x11))
    ensures Disassemble(m, 0x11) == Listing("SET PC, 0x000D", Some(0x13))
    ensures Disassemble(m, 0x13) == Listing("SET X, 0x4", Some(0x14))
    ensures Disassemble(m, 0x14) == Listing("JSR 0x0018", Some(0x16))
    ensures Disassemble(m, 0x16) == Listing("SET PC, 0x001A", Some(0x18))
    ensures Disassemble(m, 0x18) == Listing("SHL X, 0x4", Some(0x19))
    ensures Disassemble(m, 0x19) == Listing("SET PC, POP", Some(0x1A))
    ensures Disassemble(m, 0x1A) == Listing("SET PC, 0x001A", Some(0x1C))
  {
    LoadedWords(m);
    ListingAt00(m);
    ListingAt02(m);
    ListingAt05(m);
    ListingAt07(m);
    ListingAt08(m);
    ListingAt0A(m);
    ListingAt0B(m);
    ListingAt0D(m);
    ListingAt0F(m);
    ListingAt10(m);
    ListingAt11(m);
    ListingAt13(m);
    ListingAt14(m);
    ListingAt16(m);
    ListingAt18(m);
    ListingAt19(m);
    ListingAt1A(m);
  }
}

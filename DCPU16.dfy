/** The name tables of the DCPU-16 interface: its eight registers and its
    sixteen basic opcode slots, numbered as the instruction encoding numbers
    them, plus the shape of the state its accessors expose. */
module DCPU16 {
  import opened Words

  datatype Register = A | B | C | X | Y | Z | I | J

  /** `Register.values()`: the registers in declaration order. */
  const Registers: seq<Register> := [A, B, C, X, Y, Z, I, J]

  /** The register's number: its position in `Registers`. */
  function Number(r: Register): (n: nat)
    ensures n < |Registers| && Registers[n] == r
  {
    match r
    case A => 0 case B => 1 case C => 2 case X => 3
    case Y => 4 case Z => 5 case I => 6 case J => 7
  }

  /** `name().charAt(0)`: every register name is a single letter. */
  function Letter(r: Register): char
  {
    match r
    case A => 'A' case B => 'B' case C => 'C' case X => 'X'
    case Y => 'Y' case Z => 'Z' case I => 'I' case J => 'J'
  }

  /** `Register.name(n)`: the letter of register n. Java indexes
      `values()`, so only 0 <= n < 8 is defined. */
  function RegisterName(n: int): (c: char)
    requires 0 <= n < 8
    ensures 'A' <= c <= 'Z' && c != 'O'
    ensures RegisterByLetter(c) == Some(n)
  {
    Letter(Registers[n])
  }

  /** The register number a letter names, if it names one. */
  function RegisterByLetter(c: char): (n: Option<nat>)
    ensures n.Some? ==> n.value < 8
  {
    if c == 'A' then Some(0) else if c == 'B' then Some(1)
    else if c == 'C' then Some(2) else if c == 'X' then Some(3)
    else if c == 'Y' then Some(4) else if c == 'Z' then Some(5)
    else if c == 'I' then Some(6) else if c == 'J' then Some(7)
    else None
  }

  /** Distinct register numbers have distinct letters, so a rendered
      letter identifies exactly one register. */
  lemma RegisterNamesDistinct(m: int, n: int)
    requires 0 <= m < 8 && 0 <= n < 8
    ensures RegisterName(m) == RegisterName(n) <==> m == n
  {
    assert RegisterByLetter(RegisterName(m)) == Some(m);
    assert RegisterByLetter(RegisterName(n)) == Some(n);
  }

  /** The register order of the interface: A, B, C, X, Y, Z, I, J. */
  lemma RegisterOrder()
    ensures RegisterName(0) == 'A' && RegisterName(1) == 'B' && RegisterName(2) == 'C'
    ensures RegisterName(3) == 'X' && RegisterName(4) == 'Y' && RegisterName(5) == 'Z'
    ensures RegisterName(6) == 'I' && RegisterName(7) == 'J'
  {
  }

  datatype Opcode =
    | nonbasic | SET | ADD | SUB | MUL | DIV | MOD | SHL | SHR
    | AND | BOR | XOR | IFE | IFN | IFG | IFB

  /** `Opcode.values()`: slot 0 is the non-basic class, 1..15 the basic opcodes. */
  const Opcodes: seq<Opcode> :=
    [nonbasic, SET, ADD, SUB, MUL, DIV, MOD, SHL, SHR, AND, BOR, XOR, IFE, IFN, IFG, IFB]

  /** `name()` of an opcode constant. */
  function Mnemonic(o: Opcode): string
  {
    match o
    case nonbasic => "nonbasic"
    case SET => "SET" case ADD => "ADD" case SUB => "SUB" case MUL => "MUL"
    case DIV => "DIV" case MOD => "MOD" case SHL => "SHL" case SHR => "SHR"
    case AND => "AND" case BOR => "BOR" case XOR => "XOR"
    case IFE => "IFE" case IFN => "IFN" case IFG => "IFG" case IFB => "IFB"
  }

  /** `Opcode.name(n)`: defined for every 4-bit opcode field 0 <= n < 16. */
  function OpcodeName(n: int): (s: string)
    requires 0 <= n < 16
    ensures |s| >= 3 && ' ' !in s && '[' !in s
    ensures n > 0 ==> |s| == 3
  {
    Mnemonic(Opcodes[n])
  }

  /** The opcode number a mnemonic names, if it names one. */
  function OpcodeByName(s: string): (n: Option<nat>)
    ensures n.Some? ==> n.value < 16
  {
    if s == "nonbasic" then Some(0)
    else if s == "SET" then Some(1) else if s == "ADD" then Some(2)
    else if s == "SUB" then Some(3) else if s == "MUL" then Some(4)
    else if s == "DIV" then Some(5) else if s == "MOD" then Some(6)
    else if s == "SHL" then Some(7) else if s == "SHR" then Some(8)
    else if s == "AND" then Some(9) else if s == "BOR" then Some(10)
    else if s == "XOR" then Some(11) else if s == "IFE" then Some(12)
    else if s == "IFN" then Some(13) else if s == "IFG" then Some(14)
    else if s == "IFB" then Some(15)
    else None
  }

  /** Reading a rendered opcode name back gives its number. */
  lemma OpcodeByNameInverts(n: int)
    requires 0 <= n < 16
    ensures OpcodeByName(OpcodeName(n)) == Some(n)
  {
  }

  /** Distinct opcode numbers have distinct names. */
  lemma OpcodeNamesDistinct(m: int, n: int)
    requires 0 <= m < 16 && 0 <= n < 16
    ensures OpcodeName(m) == OpcodeName(n) <==> m == n
  {
    OpcodeByNameInverts(m);
    OpcodeByNameInverts(n);
  }

  /** Slot 0 is the non-basic class; slots 1..15 are the basic opcodes in
      the order of version 1.1 of the DCPU-16 specification. */
  lemma OpcodeOrder()
    ensures OpcodeName(0) == "nonbasic"
    ensures OpcodeName(1) == "SET" && OpcodeName(2) == "ADD" && OpcodeName(3) == "SUB"
    ensures OpcodeName(4) == "MUL" && OpcodeName(5) == "DIV" && OpcodeName(6) == "MOD"
    ensures OpcodeName(7) == "SHL" && OpcodeName(8) == "SHR" && OpcodeName(9) == "AND"
    ensures OpcodeName(10) == "BOR" && OpcodeName(11) == "XOR" && OpcodeName(12) == "IFE"
    ensures OpcodeName(13) == "IFN" && OpcodeName(14) == "IFG" && OpcodeName(15) == "IFB"
  {
    assert Opcodes[0] == nonbasic && Opcodes[1] == SET && Opcodes[2] == ADD && Opcodes[3] == SUB;
    assert Opcodes[4] == MUL && Opcodes[5] == DIV && Opcodes[6] == MOD && Opcodes[7] == SHL;
    assert Opcodes[8] == SHR && Opcodes[9] == AND && Opcodes[10] == BOR && Opcodes[11] == XOR;
    assert Opcodes[12] == IFE && Opcodes[13] == IFN && Opcodes[14] == IFG && Opcodes[15] == IFB;
  }
}

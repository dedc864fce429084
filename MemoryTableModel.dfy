/** The memory viewer's table: one row per eight words of memory, with an
    address column, eight word columns and a character column. Every cell
    is text; no cell can be edited. */
module MemoryTableModel {
  import opened Words
  import opened HexText

  /** Words shown per row. */
  const Columns: nat := 8

  /** The address column, the eight word columns and the character column. */
  const ColumnCount: nat := 1 + Columns + 1

  /** The character a memory word contributes to the character column: its
      low seven bits when they are printable ASCII, '.' otherwise. */
  function Printable(w: Word): (c: char)
    ensures 0x20 <= c as int <= 0x7E
    ensures c != '.' ==> c as int == w % 128
    ensures 0x20 <= w % 128 <= 0x7E ==> c as int == w % 128
  {
    var c := w % 128;
    if c < 0x20 || c > 0x7E then '.' else c as char
  }

  /** The character column of the row starting at `address`. */
  function CharacterRow(memory: seq<Word>, address: nat): (s: string)
    requires address + Columns <= |memory|
    ensures |s| == Columns
    ensures forall i :: 0 <= i < Columns ==> s[i] == Printable(memory[address + i])
  {
    seq(Columns, i requires 0 <= i < Columns => Printable(memory[address + i]))
  }

  /** `getColumnName`: no name over the address column, the hex digit of
      the word's offset over each word column, and all eight offsets over
      the character column. */
  function ColumnName(column: nat): Option<string>
    requires column < ColumnCount
  {
    if column == 0 then None
    else if column == ColumnCount - 1 then Some(seq(Columns, i requires 0 <= i < Columns => HexDigit(i)))
    else Some(Hex(column - 1, 1))
  }

  /** The headers read "0" to "7" over the word columns and "01234567" over
      the character column, whose k-th character is the header of word
      column k + 1: each word's character sits under its word's offset. */
  lemma ColumnNames()
    ensures ColumnName(0) == None
    ensures ColumnName(ColumnCount - 1) == Some("01234567")
    ensures forall c :: 1 <= c <= Columns ==> ColumnName(c) == Some([ColumnName(ColumnCount - 1).value[c - 1]])
  {
    var header := ColumnName(ColumnCount - 1).value;
    assert header[0] == '0' && header[1] == '1' && header[2] == '2' && header[3] == '3';
    assert header[4] == '4' && header[5] == '5' && header[6] == '6' && header[7] == '7';
    assert header == "01234567";
    forall c | 1 <= c <= Columns
      ensures ColumnName(c) == Some([ColumnName(ColumnCount - 1).value[c - 1]])
    {
      assert Hex(c - 1, 1) == [HexDigit(c - 1)];
    }
  }

  /** The text of the cell at (row, column) of a memory. */
  function Cell(memory: seq<Word>, row: nat, column: nat): string
    requires column < ColumnCount && (row + 1) * Columns <= |memory|
  {
    if column == 0 then Hex(row * Columns, 4)
    else if column == ColumnCount - 1 then CharacterRow(memory, row * Columns)
    else Hex(memory[row * Columns + column - 1], 4)
  }

  /** The address column shows the row's first address as four hex digits
      (the memory has at most 0x10000 words), and reading it back gives
      that address. */
  lemma AddressCell(memory: seq<Word>, row: nat)
    requires (row + 1) * Columns <= |memory| <= MemorySize
    ensures var s := Cell(memory, row, 0);
      |s| == 4 && AllUpperHexDigits(s) && HexValue(s) == row * Columns
  {
    HexFourDigits(row * Columns);
    HexValueOfHex(row * Columns, 4);
  }

  /** A word column shows its word as four hex digits that read back as
      the word. */
  lemma WordCell(memory: seq<Word>, row: nat, column: nat)
    requires 1 <= column <= Columns && (row + 1) * Columns <= |memory|
    ensures var s := Cell(memory, row, column);
      |s| == 4 && AllUpperHexDigits(s) && HexValue(s) == memory[row * Columns + column - 1]
  {
    var w := memory[row * Columns + column - 1];
    HexFourDigits(w);
    HexValueOfHex(w, 4);
  }

  /** Every address of a full row appears exactly once: word a is shown in
      row a / 8, word column a % 8 + 1, and its character is character
      a % 8 of the row's character column. */
  lemma EveryWordShown(memory: seq<Word>, a: nat)
    requires a < |memory| / Columns * Columns
    ensures var row, column := a / Columns, a % Columns + 1;
      && (row + 1) * Columns <= |memory|
      && HexValue(Cell(memory, row, column)) == memory[a]
      && Cell(memory, row, ColumnCount - 1)[a % Columns] == Printable(memory[a])
  {
    var row, column := a / Columns, a % Columns + 1;
    assert row < |memory| / Columns;
    assert (row + 1) * Columns <= |memory| / Columns * Columns;
    assert row * Columns + column - 1 == a;
    WordCell(memory, row, column);
  }

  class MemoryTableModel {
    /** The CPU's memory, read at every query. */
    const memory: array<Word>

    constructor (memory: array<Word>)
      ensures this.memory == memory
    {
      this.memory := memory;
    }

    /** `getRowCount`: the memory size divided by eight. Every word below
        RowCount() * 8 is on a row; at most seven trailing words are not. */
    function RowCount(): (rows: nat)
      reads this
      ensures rows * Columns <= memory.Length < (rows + 1) * Columns
    {
      memory.Length / Columns
    }

    /** `getColumnName`, whose character-column header is built digit by
        digit. */
    method GetColumnName(column: nat) returns (name: Option<string>)
      requires column < ColumnCount
      ensures name == ColumnName(column)
    {
      if column == 0 {
        return None;
      } else if column == ColumnCount - 1 {
        var buf := "";
        for i := 0 to Columns
          invariant buf == seq(i, k requires 0 <= k < i => HexDigit(k))
        {
          buf := buf + Hex(i, 1);
        }
        return Some(buf);
      } else {
        return Some(Hex(column - 1, 1));
      }
    }

    /** `getValueAt` for a row and column of the table. */
    method GetValueAt(row: nat, column: nat) returns (s: string)
      requires row < RowCount() && column < ColumnCount
      ensures s == Cell(memory[..], row, column)
    {
      if column == 0 {
        return Hex(row * Columns, 4);
      } else if column == ColumnCount - 1 {
        var address := row * Columns;
        var buf := "";
        for i := 0 to Columns
          invariant |buf| == i
          invariant forall k :: 0 <= k < i ==> buf[k] == Printable(memory[address + k])
        {
          var c := memory[address + i] % 128;
          if c < 0x20 || c > 0x7E {
            buf := buf + ".";
          } else {
            buf := buf + [c as char];
          }
        }
        return buf;
      } else {
        var address := row * Columns + (column - 1);
        return Hex(memory[address], 4);
      }
    }

    /** `isCellEditable`: no cell is editable. */
    function IsCellEditable(row: int, column: int): (editable: bool)
      ensures !editable
    {
      false
    }

    /** `setValueAt` always fails with UnsupportedOperationException and
        leaves memory as it was. */
    method SetValueAt(value: string, row: int, column: int) returns (failure: Option<string>)
      ensures failure == Some("Not supported.")
    {
      return Some("Not supported.");
    }
  }
}

/** The DCPU-16 console: a keyboard whose single address pops the oldest
    buffered key, and a 16 x 32 text screen whose 512 words are redrawn as
    text after every write.

    `Rendered` is the screen text the redraw loop produces as written: its
    line breaks fall after cells 31, 62, 93, ..., one cell early on every
    row but the first. `Rows` is the intended layout, 16 lines of 32 cells;
    the console object redraws with it. */
module Console {
  import opened Words

  const BufferSize: nat := 16
  const NumRows: nat := 16
  const NumColumns: nat := 32
  const Grid: nat := NumRows * NumColumns

  // ---------------------------------------------------------------------
  // Keyboard buffer

  /** The buffer after typing `keys` one at a time into `buffer`, each key
      appended only while fewer than BufferSize keys are held. */
  function AfterTyping(buffer: seq<Word>, keys: seq<Word>): (b: seq<Word>)
    decreases |keys|
  {
    if keys == [] then buffer
    else AfterTyping(if |buffer| < BufferSize then buffer + [keys[0]] else buffer, keys[1..])
  }

  /** Typing into a buffer that is not over-full keeps the keys already
      held, appends the typed keys in order while there is room, and drops
      the rest: the buffer never holds more than BufferSize keys. */
  lemma {:induction false} TypingFillsInOrder(buffer: seq<Word>, keys: seq<Word>)
    requires |buffer| <= BufferSize
    ensures var room := BufferSize - |buffer|;
      AfterTyping(buffer, keys) == buffer + keys[..if |keys| < room then |keys| else room]
    ensures |AfterTyping(buffer, keys)| <= BufferSize
    decreases |keys|
  {
    if keys != [] {
      var room := BufferSize - |buffer|;
      if room > 0 {
        TypingFillsInOrder(buffer + [keys[0]], keys[1..]);
        var k := if |keys| - 1 < room - 1 then |keys| - 1 else room - 1;
        assert keys[1..][..k] == keys[1..k + 1];
        assert buffer + [keys[0]] + keys[1..k + 1] == buffer + keys[..k + 1];
      } else {
        TypingFillsInOrder(buffer, keys[1..]);
      }
    }
  }

  // ---------------------------------------------------------------------
  // Screen text

  /** The character shown for a screen word: a zero word is blank, any
      other word shows the character of its low seven bits (the upper nine
      bits are the unused attributes). */
  function Glyph(w: Word): char
  {
    if w != 0 then (w % 128) as char else ' '
  }

  /** Only the low seven bits of a non-zero word select its character. */
  lemma GlyphIgnoresAttributes(w1: Word, w2: Word)
    requires w1 != 0 && w2 != 0 && w1 % 128 == w2 % 128
    ensures Glyph(w1) == Glyph(w2)
  {
  }

  /** A word with a zero character and some attribute bit set is not blank:
      it shows the NUL character, where the zero word shows a space. */
  lemma AttributeOnlyWordIsNotBlank()
    ensures Glyph(0x80) == 0 as char && Glyph(0) == ' '
  {
  }

  /** The redraw loop as written breaks the line after cell i exactly when
      its column counter reaches 31, which happens at i = 31, 62, 93, ... */
  predicate BreakAfter(i: nat)
  {
    i > 0 && i % 31 == 0
  }

  /** The number of line breaks the loop as written emits before cell n. */
  function BreaksBefore(n: nat): nat
  {
    if n == 0 then 0 else (n - 1) / 31
  }

  /** The text the redraw loop builds from `cells`, as written. */
  function Rendered(cells: seq<Word>): string
    decreases |cells|
  {
    if cells == [] then ""
    else
      var i := |cells| - 1;
      Rendered(cells[..i]) + [Glyph(cells[i])] + (if BreakAfter(i) then "\n" else "")
  }

  /** The text of a screen prefix is a prefix of the text of the screen. */
  lemma {:induction false} RenderedPrefix(cells: seq<Word>, n: nat)
    requires n <= |cells|
    ensures Rendered(cells[..n]) <= Rendered(cells)
    decreases |cells| - n
  {
    if n < |cells| {
      RenderedPrefix(cells, n + 1);
      var p := cells[..n + 1];
      assert p[..n] == cells[..n];
      assert Rendered(cells[..n]) <= Rendered(p);
    } else {
      assert cells[..n] == cells;
    }
  }

  /** Each cell adds its character, and one newline wherever the loop
      breaks the line. */
  lemma {:induction false} RenderedLength(cells: seq<Word>)
    ensures |Rendered(cells)| == |cells| + BreaksBefore(|cells|)
    decreases |cells|
  {
    if cells != [] {
      var i := |cells| - 1;
      RenderedLength(cells[..i]);
      if i > 0 {
        assert (i - 1) / 31 + (if i % 31 == 0 then 1 else 0) == i / 31;
      }
    }
  }

  /** Cell i appears at position i + BreaksBefore(i), and a newline follows
      it exactly when the loop breaks the line after it. */
  lemma RenderedCell(cells: seq<Word>, i: nat)
    requires i < |cells|
    ensures var t := Rendered(cells);
      && i + BreaksBefore(i) < |t| && t[i + BreaksBefore(i)] == Glyph(cells[i])
      && (BreakAfter(i) ==> i + BreaksBefore(i) + 1 < |t| && t[i + BreaksBefore(i) + 1] == '\n')
  {
    var p := cells[..i + 1];
    assert p[..i] == cells[..i];
    RenderedLength(cells[..i]);
    RenderedPrefix(cells, i + 1);
  }

  /** A full screen renders as 512 characters and 16 newlines. */
  lemma ScreenTextLength(cells: seq<Word>)
    requires |cells| == Grid
    ensures |Rendered(cells)| == Grid + NumRows
  {
    RenderedLength(cells);
  }

  /** The intended layout breaks the line after the last cell of each row. */
  predicate RowEnd(i: nat)
  {
    i % NumColumns == NumColumns - 1
  }

  /** The intended screen text: the cells in order, a newline after every
      32nd. */
  function Rows(cells: seq<Word>): string
    decreases |cells|
  {
    if cells == [] then ""
    else
      var i := |cells| - 1;
      Rows(cells[..i]) + [Glyph(cells[i])] + (if RowEnd(i) then "\n" else "")
  }

  lemma {:induction false} RowsPrefix(cells: seq<Word>, n: nat)
    requires n <= |cells|
    ensures Rows(cells[..n]) <= Rows(cells)
    decreases |cells| - n
  {
    if n < |cells| {
      RowsPrefix(cells, n + 1);
      var p := cells[..n + 1];
      assert p[..n] == cells[..n];
      assert Rows(cells[..n]) <= Rows(p);
    } else {
      assert cells[..n] == cells;
    }
  }

  lemma {:induction false} RowsLength(cells: seq<Word>)
    ensures |Rows(cells)| == |cells| + |cells| / NumColumns
    decreases |cells|
  {
    if cells != [] {
      RowsLength(cells[..|cells| - 1]);
    }
  }

  /** In the intended layout, the cell in row r and column c sits at
      position 33r + c, and every row ends with a newline at 33r + 32: each
      line holds exactly the 32 cells of one row. */
  lemma RowsLayout(cells: seq<Word>, r: nat, c: nat)
    requires c < NumColumns && NumColumns * r + c < |cells|
    ensures var t := Rows(cells); var i := NumColumns * r + c;
      && (NumColumns + 1) * r + c < |t| && t[(NumColumns + 1) * r + c] == Glyph(cells[i])
      && (c == NumColumns - 1 ==>
            (NumColumns + 1) * r + NumColumns < |t| && t[(NumColumns + 1) * r + NumColumns] == '\n')
  {
    var i := NumColumns * r + c;
    var p := cells[..i + 1];
    assert p[..i] == cells[..i];
    RowsLength(cells[..i]);
    assert i / NumColumns == r;
    RowsPrefix(cells, i + 1);
  }

  /** Where the loop as written goes wrong: on a full screen the second
      line ends after 31 cells, so position 64 holds a newline where the
      intended layout shows cell 63, the last cell of row 1. */
  lemma SecondRowBreaksEarly(cells: seq<Word>)
    requires |cells| == Grid
    ensures |Rendered(cells)| > 64 && Rendered(cells)[64] == '\n'
    ensures |Rows(cells)| > 64 && Rows(cells)[64] == Glyph(cells[63])
  {
    RenderedCell(cells, 62);
    assert BreaksBefore(62) == 1;
    RowsLayout(cells, 1, 31);
  }

  /** So on a screen of letters the two differ at position 64. */
  lemma RenderedDiffersFromRows(cells: seq<Word>)
    requires |cells| == Grid && cells[63] == 0x41
    ensures Rendered(cells) != Rows(cells)
  {
    SecondRowBreaksEarly(cells);
  }

  // ---------------------------------------------------------------------
  // The redraw loops

  /** `updateOnSwingThread` as written: a column counter that is reset to 0
      after a newline and then incremented with i. */
  method RenderAsWritten(cells: array<Word>) returns (text: string)
    ensures text == Rendered(cells[..])
  {
    text := "";
    var i, col := 0, 0;
    while i < cells.Length
      invariant 0 <= i <= cells.Length
      invariant col == if i == 0 then 0 else (i - 1) % 31 + 1
      invariant text == Rendered(cells[..i])
    {
      var word := cells[i];
      assert cells[..i + 1][..i] == cells[..i];
      if word != 0 {
        text := text + [(word % 128) as char];
      } else {
        text := text + [' '];
      }
      if col == NumColumns - 1 {
        text := text + "\n";
        col := 0;
      }
      i, col := i + 1, col + 1;
    }
    assert cells[..i] == cells[..];
  }

  /** The redraw loop with the column counter counting the cells of the
      current row, so the newline follows the last cell of every row. */
  method RenderRows(cells: array<Word>) returns (text: string)
    ensures text == Rows(cells[..])
  {
    text := "";
    var i, col := 0, 0;
    while i < cells.Length
      invariant 0 <= i <= cells.Length
      invariant col == i % NumColumns
      invariant text == Rows(cells[..i])
    {
      var word := cells[i];
      assert cells[..i + 1][..i] == cells[..i];
      if word != 0 {
        text := text + [(word % 128) as char];
      } else {
        text := text + [' '];
      }
      if col == NumColumns - 1 {
        text := text + "\n";
        col := 0;
      } else {
        col := col + 1;
      }
      i := i + 1;
    }
    assert cells[..i] == cells[..];
  }

  // ---------------------------------------------------------------------
  // The console object

  class Console {
    /** The typed keys not yet read, oldest first. */
    var keyboardBuffer: seq<Word>
    /** The screen's word memory, 16 rows of 32 cells. */
    const textRAM: array<Word>
    /** The text the screen widget shows. */
    var screen: string

    ghost predicate Valid()
      reads this
    {
      |keyboardBuffer| <= BufferSize && textRAM.Length == Grid
    }

    constructor ()
      ensures Valid() && fresh(textRAM)
      ensures keyboardBuffer == [] && screen == ""
      ensures forall k :: 0 <= k < textRAM.Length ==> textRAM[k] == 0
    {
      keyboardBuffer := [];
      textRAM := new Word[Grid](_ => 0);
      screen := "";
    }

    /** `keyTyped`: the key is buffered only while fewer than 16 keys are
        held; otherwise it is dropped. */
    method KeyTyped(key: Word)
      requires Valid()
      modifies this
      ensures Valid() && screen == old(screen)
      ensures keyboardBuffer == AfterTyping(old(keyboardBuffer), [key])
      ensures |old(keyboardBuffer)| < BufferSize ==> keyboardBuffer == old(keyboardBuffer) + [key]
      ensures |old(keyboardBuffer)| == BufferSize ==> keyboardBuffer == old(keyboardBuffer)
    {
      if |keyboardBuffer| < BufferSize {
        keyboardBuffer := keyboardBuffer + [key];
      }
      TypingFillsInOrder(old(keyboardBuffer), [key]);
    }

    /** `keyboardRAM.get`: the address is ignored; an empty buffer reads 0
        and stays empty, otherwise the oldest key is removed and returned. */
    method ReadKey(address: int) returns (key: Word)
      requires Valid()
      modifies this
      ensures Valid() && screen == old(screen)
      ensures old(keyboardBuffer) == [] ==> key == 0 && keyboardBuffer == []
      ensures old(keyboardBuffer) != [] ==> old(keyboardBuffer) == [key] + keyboardBuffer
    {
      if keyboardBuffer == [] {
        return 0;
      }
      key := keyboardBuffer[0];
      keyboardBuffer := keyboardBuffer[1..];
    }

    /** `update`: redraws the whole screen from the text memory. */
    method Update()
      requires Valid()
      modifies this
      ensures Valid() && keyboardBuffer == old(keyboardBuffer)
      ensures screen == Rows(textRAM[..])
    {
      screen := RenderRows(textRAM);
    }

    /** `textRAM.put`: stores the word (the address taken modulo the 512
        cells) and then redraws. */
    method PutText(address: int, value: Word)
      requires Valid()
      modifies this, textRAM
      ensures Valid() && keyboardBuffer == old(keyboardBuffer)
      ensures textRAM[..] == Put(old(textRAM[..]), address, value)
      ensures screen == Rows(textRAM[..])
    {
      textRAM[address % textRAM.Length] := value;
      Update();
    }
  }
}

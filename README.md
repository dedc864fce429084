# PattyMelt DCPU-16 core, modelled in Dafny

PattyMelt is a Java emulator for the DCPU-16, version 1.1 of that CPU's
specification. This project models the parts of it that are not execution,
threads or Swing:

- **The disassembler** (`DCPU16Utilities`) turns the instruction at `pc` into text
  and the address of the next instruction. The first word splits into a 4-bit
  opcode and two 6-bit operand fields. Each operand maps through a 64-entry
  addressing-mode table, and some modes read one extra word. The model is a
  pure function `Disassemble` returning a `Listing(text, next)`. `next` is
  `None` where the Java code would index past the end of the array. The
  `StringBuilder` methods are proved to append exactly that text. A small
  independent parser (`Reassembly`) reads a listing back and is proved to
  recover the instruction's words. `RegressionProgram` checks the model
  against every listing the regression test asserts.
- **The register and opcode tables** (`DCPU16`).
- **The console** (`Console`):
  - the bounded keyboard FIFO;
  - screen memory that is stored to and then redrawn;
  - the loop that turns the 16 × 32 text grid into text.
- **The memory viewer's table model** (`MemoryTableModel`): an address column,
  eight hex word columns and a printable-character column.
- **The program loaders** (`PattyMelt`):
  - raw binary, as byte pairs with the low byte first;
  - hex text, one word per line;
  - the sniffing that chooses between them.

Words are unbounded integers restricted to 0 .. 0xFFFF (`Words.Word`). A
Java `short` is the same 16 bits, read as signed (`Words.Signed`,
`Words.ToWord`). The `Memory` type the loaders write into is not part of this
model. It is a sequence of words whose `put` wraps the address modulo the
memory's size (`Words.Put`, `Words.Store`). `String.format`'s `%X` and `%0nX`
are the functions `HexText.Hex` and `HexText.HexValue`, which reads hex back.

## Model

| member | source | states |
|---|---|---|
| Words.ToWord | src/com/stackframe/pattymelt/PattyMelt.java:102-103 | the `(short)` view of a value as a 16-bit word: a signed value is negative exactly when its word is at least 0x8000, and a value already in 0..0xFFFF is unchanged |
| Words.Signed | src/com/stackframe/pattymelt/DCPU16Utilities.java:104 | a word read as a Java `short` lies in -0x8000..0x7FFF and converts back to the same word |
| Words.StoreFromZero | src/com/stackframe/pattymelt/PattyMelt.java:78 | storing words at consecutive addresses from 0, when they fit, leaves the words followed by the untouched rest of memory |
| HexText.Hex | src/com/stackframe/pattymelt/DCPU16Utilities.java:60 | `%0wX` text is at least `w` characters (at least one) of upper-case hex digits, and pads no further: a text longer than both `w` and one character does not start with '0' |
| HexText.HexValueOfHex | src/com/stackframe/pattymelt/DCPU16Utilities.java:60-87 | reading the hex text of `n` back gives `n`, whatever the padding width |
| HexText.HexFourDigits | src/com/stackframe/pattymelt/DCPU16Utilities.java:84-87 | `%04X` of a 16-bit word is exactly four characters |
| HexText.HexWordDigits | src/com/stackframe/pattymelt/DCPU16Utilities.java:87 | `%04X` of a word is its four nibbles, most significant first |
| HexText.HexShort | src/com/stackframe/pattymelt/DCPU16Utilities.java:122 | below 0x100, `%X` is one or two digits and `%02X` exactly two |
| DCPU16.Number | src/com/stackframe/pattymelt/DCPU16.java:41 | each register's number is its position in the declaration order A, B, C, X, Y, Z, I, J |
| DCPU16.RegisterName | src/com/stackframe/pattymelt/DCPU16.java:49-51 | `name(n)` is defined for 0 ≤ n < 8; it is an upper-case letter other than O, and looking the letter up gives back `n` |
| DCPU16.RegisterNamesDistinct | src/com/stackframe/pattymelt/DCPU16.java:41-51 | two register numbers have the same letter if and only if they are equal |
| DCPU16.RegisterOrder | src/com/stackframe/pattymelt/DCPU16.java:41 | registers 0–7 are A, B, C, X, Y, Z, I, J |
| DCPU16.OpcodeName | src/com/stackframe/pattymelt/DCPU16.java:79-81 | every 4-bit opcode has a name with no space or bracket; opcodes 1–15 have three-letter names |
| DCPU16.OpcodeByNameInverts | src/com/stackframe/pattymelt/DCPU16.java:54-81 | looking up the name of opcode `n` gives back `n` |
| DCPU16.OpcodeNamesDistinct | src/com/stackframe/pattymelt/DCPU16.java:56-71 | two opcodes have the same name if and only if they are equal |
| DCPU16.OpcodeOrder | src/com/stackframe/pattymelt/DCPU16.java:56-71 | opcode 0 is `nonbasic` and 1–15 are SET, ADD, SUB, MUL, DIV, MOD, SHL, SHR, AND, BOR, XOR, IFE, IFN, IFG, IFB |
| DCPU16Utilities.FieldSplit | src/com/stackframe/pattymelt/DCPU16Utilities.java:104-107 | op is bits 0–3, a bits 4–9 and b bits 10–15, and together they rebuild the word |
| DCPU16Utilities.OperandText | src/com/stackframe/pattymelt/DCPU16Utilities.java:55-89 | operand text is non-empty and has no space or comma; it depends on the extra word only for the modes that read one |
| DCPU16Utilities.DisassembleOperand | src/com/stackframe/pattymelt/DCPU16Utilities.java:54-93 | the operand fails only when it needs a word past the end of memory; otherwise it advances the cursor by one word exactly for the modes that read one (0x10–0x17, 0x1E, 0x1F) and by none for the others, and on failure nothing is appended |
| DCPU16Utilities.InstructionLength | src/com/stackframe/pattymelt/DCPU16Utilities.java:103-125 | every instruction is one to three words long |
| DCPU16Utilities.Disassemble | src/com/stackframe/pattymelt/DCPU16Utilities.java:103-125 | succeeds exactly when the whole instruction lies in memory, and the next address is then `pc` plus the instruction's length |
| DCPU16Utilities.DisassembleText | src/com/stackframe/pattymelt/DCPU16Utilities.java:103-125 | basic opcodes read "NAME a, b" with a's extra word first; opcode 0 reads "JSR b" when a = 1 and "UNK[aa] b" otherwise, with a never read as an operand; the instruction's words are the first word and the operands' extra words in order |
| DCPU16Utilities.DisassembleReadsOnlyInstruction | src/com/stackframe/pattymelt/DCPU16Utilities.java:54-125 | the result depends only on the words `pc` .. next − 1 |
| DCPU16Utilities.DisassembleOperandInto | src/com/stackframe/pattymelt/DCPU16Utilities.java:54-93 | the buffer method appends exactly the operand's text and returns its next address |
| DCPU16Utilities.DisassembleInto | src/com/stackframe/pattymelt/DCPU16Utilities.java:103-125 | the buffer method appends exactly the instruction's text and returns its next address |
| DCPU16Utilities.DisassembleToString | src/com/stackframe/pattymelt/DCPU16Utilities.java:134-138 | the `String` overload returns the listing's text when the instruction fits, and fails otherwise |
| Reassembly.ParseOperandText | src/com/stackframe/pattymelt/DCPU16Utilities.java:55-89 | every operand text parses back to its operand value and its extra word |
| Reassembly.ParseRegisterText | src/com/stackframe/pattymelt/DCPU16Utilities.java:55-58 | "R" and "[R]" parse back to modes 0x00–0x0F |
| Reassembly.ParseIndexedText | src/com/stackframe/pattymelt/DCPU16Utilities.java:59-60 | "[0xWWWW+R]" parses back to its mode and the word W |
| Reassembly.ParseShortLiteralText | src/com/stackframe/pattymelt/DCPU16Utilities.java:61-62 | "0x" and the unpadded hex of v − 0x20 parse back to v |
| Reassembly.ParseAddressText | src/com/stackframe/pattymelt/DCPU16Utilities.java:83-85 | "[0xWWWW]" parses back to mode 0x1E and W |
| Reassembly.ParseNextWordText | src/com/stackframe/pattymelt/DCPU16Utilities.java:86-88 | "0xWWWW" parses back to mode 0x1F and W |
| Reassembly.AssembleBasic | src/com/stackframe/pattymelt/DCPU16Utilities.java:108-113 | "NAME a, b" assembles to op + 16a + 1024b followed by a's and b's extra words |
| Reassembly.AssembleJump | src/com/stackframe/pattymelt/DCPU16Utilities.java:116-119 | "JSR b" assembles to 0x10 + 1024b and b's extra word |
| Reassembly.AssembleUnknown | src/com/stackframe/pattymelt/DCPU16Utilities.java:122-124 | "UNK[aa] b" assembles to 16a + 1024b and b's extra word |
| Reassembly.AssembleDisassembleBasic | src/com/stackframe/pattymelt/DCPU16Utilities.java:108-113 | a basic instruction's listing assembles back to exactly its words |
| Reassembly.AssembleDisassembleNonBasic | src/com/stackframe/pattymelt/DCPU16Utilities.java:116-124 | a non-basic instruction's listing assembles back to exactly its words |
| Reassembly.AssembleDisassemble | src/com/stackframe/pattymelt/DCPU16Utilities.java:103-125 | every listing assembles back to the words `pc` .. next − 1 |
| Reassembly.ListingDeterminesInstruction | src/com/stackframe/pattymelt/DCPU16Utilities.java:103-125 | two instructions with the same listing have the same words |
| RegressionProgram.ProgramListing | test/com/stackframe/pattymelt/DCPU16Test.java:127-233 | with the test program loaded at 0, the listing and next address at each of the 17 instructions the test disassembles are those it asserts |
| Console.TypingFillsInOrder | src/com/stackframe/pattymelt/Console.java:108-112 | typed keys are appended in order while fewer than 16 are buffered and dropped after that; the buffer never exceeds 16 |
| Console.GlyphIgnoresAttributes | src/com/stackframe/pattymelt/Console.java:142-151 | two non-zero words with the same low 7 bits render as the same character |
| Console.AttributeOnlyWordIsNotBlank | src/com/stackframe/pattymelt/Console.java:144-150 | a zero word renders as a space, but a non-zero word whose low 7 bits are 0 renders as NUL |
| Console.RenderedPrefix | src/com/stackframe/pattymelt/Console.java:142-157 | the text rendered so far is a prefix of the final text |
| Console.RenderedLength | src/com/stackframe/pattymelt/Console.java:142-157 | rendering n cells gives n characters plus one newline after cell 31 and after every 31st cell from there |
| Console.RenderedCell | src/com/stackframe/pattymelt/Console.java:142-157 | cell i sits at offset i + newlines before it, followed by a newline exactly after cells 31, 62, 93, … |
| Console.ScreenTextLength | src/com/stackframe/pattymelt/Console.java:57 | the 512-cell screen renders to 528 characters |
| Console.SecondRowBreaksEarly | src/com/stackframe/pattymelt/Console.java:153-156 | as written, character 64 of the screen text is a newline where row-by-row layout puts cell 63 |
| Console.RenderedDiffersFromRows | src/com/stackframe/pattymelt/Console.java:153-156 | a screen whose cell 63 holds 'A' renders differently from the row-by-row layout |
| Console.RowsPrefix | src/com/stackframe/pattymelt/Console.java:142-157 | in the row layout, the text so far is a prefix of the final text |
| Console.RowsLength | src/com/stackframe/pattymelt/Console.java:142-157 | the row layout of n cells has n characters plus one newline per full row |
| Console.RowsLayout | src/com/stackframe/pattymelt/Console.java:153-156 | in the row layout, cell (r, c) is at offset 33r + c and each row ends with a newline at 33r + 32 |
| Console.RenderAsWritten | src/com/stackframe/pattymelt/Console.java:139-160 | the loop as written, with `col` reset to 0 and then incremented, produces `Rendered` of the grid |
| Console.RenderRows | src/com/stackframe/pattymelt/Console.java:139-160 | the loop with the column counter kept in step with the cell produces the row layout of the grid |
| Console.Console.constructor | src/com/stackframe/pattymelt/Console.java:47-48 | a new console has an empty keyboard buffer and a zeroed 512-word screen |
| Console.Console.KeyTyped | src/com/stackframe/pattymelt/Console.java:108-112 | a key is appended when fewer than 16 are buffered; otherwise the buffer is unchanged |
| Console.Console.ReadKey | src/com/stackframe/pattymelt/Console.java:73-78 | with an empty buffer the read returns 0 and changes nothing; otherwise it returns and removes the oldest key; the address is ignored |
| Console.Console.Update | src/com/stackframe/pattymelt/Console.java:121-160 | redraws the screen from the text memory in the corrected row-by-row layout (see Findings) and leaves the keyboard alone |
| Console.Console.PutText | src/com/stackframe/pattymelt/Console.java:51-53 | a screen write stores the value at its address and then the screen shows the new text memory, in the corrected row-by-row layout |
| MemoryTableModel.Printable | src/com/stackframe/pattymelt/MemoryTableModel.java:111-115 | the character shown is printable ASCII: the word's low 7 bits when they are in 0x20..0x7E, '.' otherwise |
| MemoryTableModel.ColumnNames | src/com/stackframe/pattymelt/MemoryTableModel.java:83-96 | no name over column 0; "01234567" over the character column; and word column c is named by the hex digit of c − 1, the same character that heads its word in the character column |
| MemoryTableModel.AddressCell | src/com/stackframe/pattymelt/MemoryTableModel.java:105-106 | column 0 of row r is four upper-case hex digits that read as r·8 |
| MemoryTableModel.WordCell | src/com/stackframe/pattymelt/MemoryTableModel.java:121-125 | word column c of row r is four upper-case hex digits that read as the word at r·8 + c − 1 |
| MemoryTableModel.EveryWordShown | src/com/stackframe/pattymelt/MemoryTableModel.java:104-127 | every word on a full row appears in row a / 8, word column a % 8 + 1, and as character a % 8 of that row's character column |
| MemoryTableModel.MemoryTableModel.RowCount | src/com/stackframe/pattymelt/MemoryTableModel.java:99-101 | the row count is the memory size divided by eight: rows cover all but at most seven trailing words |
| MemoryTableModel.MemoryTableModel.GetColumnName | src/com/stackframe/pattymelt/MemoryTableModel.java:83-96 | the header-building loop gives the column's name |
| MemoryTableModel.MemoryTableModel.GetValueAt | src/com/stackframe/pattymelt/MemoryTableModel.java:104-127 | each cell's text is that cell of the current memory, the character column built character by character |
| MemoryTableModel.MemoryTableModel.IsCellEditable | src/com/stackframe/pattymelt/MemoryTableModel.java:130-132 | no cell is editable |
| MemoryTableModel.MemoryTableModel.SetValueAt | src/com/stackframe/pattymelt/MemoryTableModel.java:140-142 | setting a value always fails with "Not supported." |
| PattyMelt.PairWord | src/com/stackframe/pattymelt/PattyMelt.java:77 | the first byte read is the word's low half and the second its high half |
| PattyMelt.BinaryWords | src/com/stackframe/pattymelt/PattyMelt.java:77 | n bytes give ⌊n/2⌋ words |
| PattyMelt.BinaryRoundTrip | src/com/stackframe/pattymelt/PattyMelt.java:72-77 | each word is the second byte times 256 plus the first byte: the low-byte-first image of any words loads back as those words, and a trailing odd byte adds nothing |
| PattyMelt.LoadBinary | src/com/stackframe/pattymelt/PattyMelt.java:62-84 | the byte-pair loop stores word k at address k, from 0, for every complete pair and stops at end of input |
| PattyMelt.LoadBinaryWrites | src/com/stackframe/pattymelt/PattyMelt.java:63-78 | when the image fits, exactly addresses 0 .. ⌊n/2⌋ − 1 are written and the rest of memory is unchanged |
| PattyMelt.ParseShort16 | src/com/stackframe/pattymelt/PattyMelt.java:102 | `Short.parseShort(s, 16)` succeeds only with a value in −0x8000..0x7FFF |
| PattyMelt.WordLine | src/com/stackframe/pattymelt/PattyMelt.java:102 | the corrected line parser accepts only hex digits and returns their value |
| PattyMelt.FirstFailure | src/com/stackframe/pattymelt/PattyMelt.java:96-102 | the index of the first line that does not parse: every earlier line parses and that line does not |
| PattyMelt.LoadedWords | src/com/stackframe/pattymelt/PattyMelt.java:96-103 | the words stored are those of the lines before the first failure, word k from line k |
| PattyMelt.LoadOutcome | src/com/stackframe/pattymelt/PattyMelt.java:94-105 | a load completes if and only if every line parses; otherwise it fails at a line that does not parse |
| PattyMelt.LoadHex | src/com/stackframe/pattymelt/PattyMelt.java:94-105 | the loop as written stores each line's `short` at addresses 0, 1, … and stops with NumberFormatException at the first bad line, with earlier lines kept |
| PattyMelt.LoadHexWords | src/com/stackframe/pattymelt/PattyMelt.java:94-105 | the same loop with unsigned words stores every line's word up to the first bad line |
| PattyMelt.ShortLineOfDump | src/com/stackframe/pattymelt/PattyMelt.java:102 | a four-digit word line loads as written if and only if the word is at most 0x7FFF, and then as that word |
| PattyMelt.SampleWordRejected | src/com/stackframe/pattymelt/PattyMelt.java:102 | "c00d" is rejected as written and read as 0xC00D by the corrected parser |
| PattyMelt.DumpFailsAtUpperHalf | src/com/stackframe/pattymelt/PattyMelt.java:94-105 | as written, a word dump loads in full if and only if no word exceeds 0x7FFF |
| PattyMelt.DumpRoundTrip | src/com/stackframe/pattymelt/PattyMelt.java:94-105 | with the corrected parser, every dump of `%04X` lines loads back as exactly its words |
| PattyMelt.LineEnd | src/com/stackframe/pattymelt/PattyMelt.java:97 | finds the first line terminator: no terminator comes before it |
| PattyMelt.LinesUnlines | src/com/stackframe/pattymelt/PattyMelt.java:97 | lines written one per "\n" are read back by `readLine` as the same lines |
| PattyMelt.IsBinary | src/com/stackframe/pattymelt/PattyMelt.java:107-127 | the scan answers true if and only if some byte is neither a letter/digit nor whitespace; empty input is not binary |
| PattyMelt.DumpIsText | src/com/stackframe/pattymelt/PattyMelt.java:116-120 | a hex dump file is never taken for a binary image |
| PattyMelt.Launch | src/com/stackframe/pattymelt/PattyMelt.java:129-144 | a binary file is loaded as byte pairs; otherwise its lines are loaded as hex words by the corrected loader (every word 0..0xFFFF accepted), with the outcome and memory of that load |

## Left out

- Instruction execution (`DCPU16Emulator.step`) and the `DCPU16` accessor interface (`PC()`, `SP()`, `O()`, `register`, `memory`) are not part of this model.
- `Memory`, `ArrayMemory`, `Peripheral` and `install` are not part of this model. Memory is a sequence or array of words whose `put` wraps its address modulo the size.
- Swing and AWT are left out: `StateViewer`, the viewer windows and buttons, the `JTextArea`, the key listener plumbing and `invokeAndWait`, and `MemoryTableModel`'s listener list and `tableChanged` notification. `Console.Console.Update` keeps the screen text as a field instead of handing it to a text area.
- Console.Console.Update: shows the corrected 16 rows of 32 (`Console.Rows`), not the text the loop at Console.java:142-156 builds, whose rows after the first hold 31 cells; the as-written text is `Console.Rendered`, built by `Console.RenderAsWritten` (see Findings).
- Console.Console.PutText: redraws through `Console.Console.Update`, so it too shows the corrected layout rather than the as-written one.
- PattyMelt.Launch: loads text files with the corrected `PattyMelt.LoadHexWords`, which accepts words above 0x7FFF; the code as written calls `loadHex`, modelled by `PattyMelt.LoadHex`, which stops with NumberFormatException at the first such word (see Findings).
- Threads, `runCPU`, the `running` flag and `SimpleApplet` are left out, as concurrency.
- Opening and closing streams and the `IOException` paths of the loaders are left out. A file is a sequence of bytes.
- Launch: the text reader's charset is taken to be one byte per character (ISO 8859-1). `FileReader` uses the platform's default charset, which is not modelled.
- PattyMelt.IsLetterOrDigit and PattyMelt.IsWhitespace are `Character.isLetterOrDigit` and `Character.isWhitespace` written out for the characters 0..0xFF, the only ones `isBinary` can see.
- PattyMelt.ParseShort16: follows Java 7 and later, which accept a leading '+'; Java 6 rejected it.
- PattyMelt.LoadBinary: does not model the overflow of the `int` counter past 2^31 words, which needs a file over 4 GiB.
- The console's keyboard window is 1 word of `ArrayMemory`. Its `put` is inherited and has no effect on the buffer, so only `get` is modelled.
- `Console.Console.KeyTyped` takes the key as a word; the `(short)` cast of the key's `char` is the identity on 16 bits.
- `String.format` is replaced by `HexText.Hex`. Where the code formats a Java `short` with `%04X`, the model formats the unsigned word.
- `IllegalOpcodeException` only carries an opcode, and nothing in the modelled code throws it. An index past the end of the array is `next == None` in a `Listing`.
- The regression test's CPU assertions (registers, O, PC after `step`) concern execution and are not modelled. Only its disassembly strings and instruction addresses are.

## Findings

| source | as written | input that shows it | evidently intended | confidence | as-written member | corrected member |
|---|---|---|---|---|---|---|
| src/com/stackframe/pattymelt/Console.java:142-156 | `col` is reset to 0 after a newline and then incremented by the loop, so later rows get 31 cells: newlines follow cells 31, 62, 93, …, 496 | any screen whose cell 63 is 0x41: as written, offset 64 of the text is a newline; row by row it is 'A' | a newline after every 32nd cell, giving 16 rows of 32 | not executed | Console.RenderedDiffersFromRows | Console.RowsLayout |
| src/com/stackframe/pattymelt/PattyMelt.java:102 | `Short.parseShort(line, 16)` rejects every word above 0x7FFF | a hex file whose eighth line is `c00d`, word 7 of the regression program: the load stops there with NumberFormatException | every 16-bit word 0..0xFFFF loads, as `loadBinary` allows | not executed | PattyMelt.SampleWordRejected | PattyMelt.DumpRoundTrip |

For the first row, `Console.RenderAsWritten` and `Console.Rendered` model the loop as written. `Console.RenderRows` and `Console.Rows` give the corrected layout, which `Console.Console.Update` uses. For the second row, `PattyMelt.LoadHex` and `PattyMelt.DumpFailsAtUpperHalf` model the loader as written. `PattyMelt.LoadHexWords` is the corrected loader, and `PattyMelt.Launch` uses it.

/** The program loaders of the command-line driver: a raw binary image (byte
    pairs, first byte the low half), or a text file of one hexadecimal word
    per line, chosen by sniffing the file for bytes that are neither
    letters, digits nor whitespace. Memory is written from address 0 up. */
module PattyMelt {
  import opened Words
  import opened HexText

  type Byte = b: int | 0 <= b < 0x100

  // ---------------------------------------------------------------------
  // Binary images

  /** `(short) ((v2 << 8) | v1)` for two bytes read in the order v1, v2:
      the first byte is the low half. */
  function PairWord(v1: Byte, v2: Byte): (w: Word)
    ensures w % 0x100 == v1 && w / 0x100 == v2
  {
    v2 * 0x100 + v1
  }

  /** The words of the first n byte pairs. */
  function Pairs(bytes: seq<Byte>, n: nat): (words: seq<Word>)
    requires 2 * n <= |bytes|
    ensures |words| == n
  {
    seq(n, k requires 0 <= k < n => PairWord(bytes[2 * k], bytes[2 * k + 1]))
  }

  /** The words of a binary image; a trailing odd byte makes no word. */
  function BinaryWords(bytes: seq<Byte>): (words: seq<Word>)
    ensures |words| == |bytes| / 2
  {
    Pairs(bytes, |bytes| / 2)
  }

  /** The image of a sequence of words: each word as its low byte, then its
      high byte. */
  function WordBytes(words: seq<Word>): (bytes: seq<Byte>)
    ensures |bytes| == 2 * |words|
  {
    if words == [] then [] else [words[0] % 0x100, words[0] / 0x100] + WordBytes(words[1..])
  }

  lemma {:induction false} WordBytesAt(words: seq<Word>, k: nat)
    requires k < |words|
    ensures WordBytes(words)[2 * k] == words[k] % 0x100
    ensures WordBytes(words)[2 * k + 1] == words[k] / 0x100
    decreases k
  {
    if k > 0 {
      WordBytesAt(words[1..], k - 1);
    }
  }

  /** Loading the image of any words gives back those words, and a trailing
      odd byte changes nothing. */
  lemma BinaryRoundTrip(words: seq<Word>, extra: seq<Byte>)
    requires |extra| <= 1
    ensures BinaryWords(WordBytes(words) + extra) == words
  {
    var bytes := WordBytes(words) + extra;
    forall k | 0 <= k < |words|
      ensures BinaryWords(bytes)[k] == words[k]
    {
      WordBytesAt(words, k);
    }
  }

  /** Storing one more byte pair's word extends the stored image by that
      word. */
  lemma PairStoreStep(memory: seq<Word>, input: seq<Byte>, n: nat)
    requires |memory| > 0 && 2 * n + 2 <= |input|
    ensures Store(memory, 0, Pairs(input, n + 1))
            == Put(Store(memory, 0, Pairs(input, n)), n, PairWord(input[2 * n], input[2 * n + 1]))
  {
    PairsSnoc(input, n);
    StoreSnoc(memory, 0, Pairs(input, n), PairWord(input[2 * n], input[2 * n + 1]));
  }

  lemma PairsSnoc(input: seq<Byte>, n: nat)
    requires 2 * n + 2 <= |input|
    ensures Pairs(input, n + 1) == Pairs(input, n) + [PairWord(input[2 * n], input[2 * n + 1])]
  {
  }

  /** `loadBinary`: reads byte pairs until the input runs out and puts
      each word at the next address (modulo the memory's size). */
  method LoadBinary(memory: array<Word>, input: seq<Byte>)
    requires memory.Length > 0
    modifies memory
    ensures memory[..] == Store(old(memory[..]), 0, BinaryWords(input))
  {
    var i, pos := 0, 0;
    while true
      invariant 0 <= pos == 2 * i <= |input|
      invariant memory[..] == Store(old(memory[..]), 0, Pairs(input, i))
      decreases |input| - pos
    {
      if pos == |input| {
        return;
      }
      var v1 := input[pos];
      if pos + 1 == |input| {
        return;
      }
      var v2 := input[pos + 1];
      var value := PairWord(v1, v2);
      PairStoreStep(old(memory[..]), input, i);
      memory[i % memory.Length] := value;
      i, pos := i + 1, pos + 2;
    }
  }

  /** A binary image that fits in memory writes exactly addresses
      0 .. ⌊n/2⌋ - 1, in order, and leaves the rest alone. */
  lemma LoadBinaryWrites(memory: seq<Word>, input: seq<Byte>)
    requires 0 < |memory| && |input| / 2 <= |memory|
    ensures Store(memory, 0, BinaryWords(input)) == BinaryWords(input) + memory[|input| / 2..]
  {
    StoreFromZero(memory, BinaryWords(input));
  }

  // ---------------------------------------------------------------------
  // Hexadecimal text

  /** `Short.parseShort(s, 16)`: an optional sign and at least one hex
      digit, whose value must lie in the signed 16-bit range. */
  function ParseShort16(s: string): (r: Option<int>)
    ensures r.Some? ==> -0x8000 <= r.value <= 0x7FFF
  {
    if s == [] then None
    else
      var digits := if s[0] == '-' || s[0] == '+' then s[1..] else s;
      if digits == [] || !AllHexDigits(digits) then None
      else
        var v: int := if s[0] == '-' then -(HexValue(digits) as int) else HexValue(digits);
        if -0x8000 <= v <= 0x7FFF then Some(v) else None
  }

  /** A line as `loadHex` stores it: the parsed `short` as a 16-bit word. */
  function ShortLine(s: string): Option<Word>
  {
    match ParseShort16(s)
    case None => None
    case Some(v) => Some(ToWord(v))
  }

  /** A line as a word dump is evidently meant to be read: one to four hex
      digits, any value 0 .. 0xFFFF. */
  function WordLine(s: string): (r: Option<Word>)
    ensures r.Some? ==> AllHexDigits(s) && HexValue(s) == r.value
  {
    if s != [] && AllHexDigits(s) && HexValue(s) < 0x1_0000 then Some(HexValue(s)) else None
  }

  /** The outcome of loading a text file: every line stored, or a
      NumberFormatException at the given line. */
  datatype LoadResult = Loaded | NumberFormatError(line: nat)

  /** The index of the first line that does not parse, or the number of
      lines when all parse. */
  function FirstFailure(lines: seq<string>, parse: string -> Option<Word>): (k: nat)
    ensures k <= |lines|
    ensures forall j :: 0 <= j < k ==> parse(lines[j]).Some?
    ensures k < |lines| ==> parse(lines[k]).None?
  {
    if lines == [] then 0
    else if parse(lines[0]).None? then 0
    else 1 + FirstFailure(lines[1..], parse)
  }

  /** The words of the first n lines, all of which parse. */
  function Parsed(lines: seq<string>, parse: string -> Option<Word>, n: nat): (words: seq<Word>)
    requires n <= |lines| && forall j :: 0 <= j < n ==> parse(lines[j]).Some?
    ensures |words| == n
    ensures forall j :: 0 <= j < n ==> parse(lines[j]) == Some(words[j])
  {
    seq(n, j requires 0 <= j < n => parse(lines[j]).value)
  }

  /** Storing the word of one more line extends the stored words by it. */
  lemma ParsedStoreStep(memory: seq<Word>, lines: seq<string>, parse: string -> Option<Word>, n: nat)
    requires |memory| > 0
    requires n < |lines| && forall j :: 0 <= j <= n ==> parse(lines[j]).Some?
    ensures Store(memory, 0, Parsed(lines, parse, n + 1))
            == Put(Store(memory, 0, Parsed(lines, parse, n)), n, parse(lines[n]).value)
  {
    var before, after := Parsed(lines, parse, n), Parsed(lines, parse, n + 1);
    assert after == before + [parse(lines[n]).value];
    StoreSnoc(memory, 0, before, parse(lines[n]).value);
  }

  /** The words stored from `lines`: those of the lines before the first
      failure, in order. */
  function LoadedWords(lines: seq<string>, parse: string -> Option<Word>): (words: seq<Word>)
    ensures |words| == FirstFailure(lines, parse)
    ensures forall j :: 0 <= j < |words| ==> parse(lines[j]) == Some(words[j])
  {
    Parsed(lines, parse, FirstFailure(lines, parse))
  }

  /** The first failure is the one a scan from the start stops at. */
  lemma {:induction false} FirstFailureAt(lines: seq<string>, parse: string -> Option<Word>, n: nat)
    requires n <= |lines| && forall j :: 0 <= j < n ==> parse(lines[j]).Some?
    requires n < |lines| ==> parse(lines[n]).None?
    ensures FirstFailure(lines, parse) == n
    decreases n
  {
    if n > 0 {
      FirstFailureAt(lines[1..], parse, n - 1);
    }
  }

  /** What loading `lines` reports. */
  function LoadOutcome(lines: seq<string>, parse: string -> Option<Word>): (r: LoadResult)
    ensures r.Loaded? <==> forall j :: 0 <= j < |lines| ==> parse(lines[j]).Some?
    ensures r.NumberFormatError? ==> r.line < |lines| && parse(lines[r.line]).None?
  {
    var k := FirstFailure(lines, parse);
    if k == |lines| then Loaded else NumberFormatError(k)
  }

  /** `loadHex` as written: line k is parsed with `Short.parseShort(line,
      16)` and stored at address k; the first line that does not parse
      ends the load with NumberFormatException, the earlier lines staying
      stored. */
  method LoadHex(memory: array<Word>, lines: seq<string>) returns (result: LoadResult)
    requires memory.Length > 0
    modifies memory
    ensures memory[..] == Store(old(memory[..]), 0, LoadedWords(lines, ShortLine))
    ensures result == LoadOutcome(lines, ShortLine)
  {
    var i := 0;
    while true
      invariant 0 <= i <= |lines|
      invariant forall j :: 0 <= j < i ==> ShortLine(lines[j]).Some?
      invariant memory[..] == Store(old(memory[..]), 0, Parsed(lines, ShortLine, i))
      decreases |lines| - i
    {
      if i == |lines| {
        FirstFailureAt(lines, ShortLine, i);
        return Loaded;
      }
      var value := ParseShort16(lines[i]);
      if value.None? {
        FirstFailureAt(lines, ShortLine, i);
        return NumberFormatError(i);
      }
      ParsedStoreStep(old(memory[..]), lines, ShortLine, i);
      memory[i % memory.Length] := ToWord(value.value);
      i := i + 1;
    }
  }

  /** The loader with each line read as an unsigned word. */
  method LoadHexWords(memory: array<Word>, lines: seq<string>) returns (result: LoadResult)
    requires memory.Length > 0
    modifies memory
    ensures memory[..] == Store(old(memory[..]), 0, LoadedWords(lines, WordLine))
    ensures result == LoadOutcome(lines, WordLine)
  {
    var i := 0;
    while true
      invariant 0 <= i <= |lines|
      invariant forall j :: 0 <= j < i ==> WordLine(lines[j]).Some?
      invariant memory[..] == Store(old(memory[..]), 0, Parsed(lines, WordLine, i))
      decreases |lines| - i
    {
      if i == |lines| {
        FirstFailureAt(lines, WordLine, i);
        return Loaded;
      }
      var value := WordLine(lines[i]);
      if value.None? {
        FirstFailureAt(lines, WordLine, i);
        return NumberFormatError(i);
      }
      ParsedStoreStep(old(memory[..]), lines, WordLine, i);
      memory[i % memory.Length] := value.value;
      i := i + 1;
    }
  }

  /** The dump of a sequence of words, one `%04X` line per word. */
  function HexDump(words: seq<Word>): (lines: seq<string>)
    ensures |lines| == |words|
  {
    seq(|words|, k requires 0 <= k < |words| => Hex(words[k], 4))
  }

  /** As written, a dumped word loads exactly when it is at most 0x7FFF:
      `parseShort` rejects the upper half of the word range. */
  lemma ShortLineOfDump(w: Word)
    ensures ShortLine(Hex(w, 4)).Some? <==> w <= 0x7FFF
    ensures w <= 0x7FFF ==> ShortLine(Hex(w, 4)) == Some(w)
  {
    var s := Hex(w, 4);
    HexFourDigits(w);
    HexValueOfHex(w, 4);
    assert s[0] != '-' && s[0] != '+';
  }

  /** The word 0xC00D of the specification's sample program ("IFN A,
      0x10"), as its listing writes it, does not load. */
  lemma SampleWordRejected()
    ensures ShortLine("c00d") == None
    ensures WordLine("c00d") == Some(0xC00D)
  {
    assert HexValue("c00d") == 0xC00D by {
      assert "c00d"[..3] == "c00" && "c00"[..2] == "c0" && "c0"[..1] == "c";
    }
  }

  /** So a dump stops loading at its first word above 0x7FFF. */
  lemma {:induction false} DumpFailsAtUpperHalf(words: seq<Word>)
    ensures FirstFailure(HexDump(words), ShortLine) == |words|
            <==> forall k :: 0 <= k < |words| ==> words[k] <= 0x7FFF
  {
    forall k | 0 <= k < |words|
      ensures ShortLine(HexDump(words)[k]).Some? <==> words[k] <= 0x7FFF
    {
      ShortLineOfDump(words[k]);
    }
  }

  /** Read as unsigned words, every dump loads back in full. */
  lemma DumpRoundTrip(words: seq<Word>)
    ensures LoadOutcome(HexDump(words), WordLine) == Loaded
    ensures LoadedWords(HexDump(words), WordLine) == words
  {
    forall k | 0 <= k < |words|
      ensures WordLine(HexDump(words)[k]) == Some(words[k])
    {
      HexFourDigits(words[k]);
      HexValueOfHex(words[k], 4);
    }
  }

  // ---------------------------------------------------------------------
  // Text lines

  /** The first line terminator in s. */
  function LineEnd(s: string): (k: Option<nat>)
    ensures k.Some? ==> k.value < |s| && (s[k.value] == '\n' || s[k.value] == '\r')
    ensures k.Some? ==> forall j :: 0 <= j < k.value ==> s[j] != '\n' && s[j] != '\r'
    ensures k.None? ==> forall j :: 0 <= j < |s| ==> s[j] != '\n' && s[j] != '\r'
  {
    if s == [] then None
    else if s[0] == '\n' || s[0] == '\r' then Some(0)
    else match LineEnd(s[1..])
      case None => None
      case Some(j) => Some(j + 1)
  }

  /** The lines `BufferedReader.readLine` returns before it returns null:
      each ended by "\n", "\r" or "\r\n", and a last unterminated line
      when the text does not end with a terminator. */
  function Lines(s: string): (lines: seq<string>)
    decreases |s|
  {
    if s == [] then []
    else match LineEnd(s)
      case None => [s]
      case Some(k) =>
        var skip := if s[k] == '\r' && k + 1 < |s| && s[k + 1] == '\n' then 2 else 1;
        [s[..k]] + Lines(s[k + skip..])
  }

  predicate NoTerminator(line: string)
  {
    forall j :: 0 <= j < |line| ==> line[j] != '\n' && line[j] != '\r'
  }

  /** Lines written out each followed by "\n". */
  function Unlines(lines: seq<string>): string
  {
    if lines == [] then "" else lines[0] + "\n" + Unlines(lines[1..])
  }

  /** Reading back lines written one per "\n" gives the same lines. */
  lemma {:induction false} LinesUnlines(lines: seq<string>)
    requires forall k :: 0 <= k < |lines| ==> NoTerminator(lines[k])
    ensures Lines(Unlines(lines)) == lines
    decreases |lines|
  {
    if lines != [] {
      assert Unlines(lines) == lines[0] + "\n" + Unlines(lines[1..]);
      LinesCons(lines[0], Unlines(lines[1..]));
      LinesUnlines(lines[1..]);
    }
  }

  /** A line without terminators, then "\n", is read as that line. */
  lemma LinesCons(l: string, rest: string)
    requires NoTerminator(l)
    ensures Lines(l + "\n" + rest) == [l] + Lines(rest)
  {
    var s := l + "\n" + rest;
    LineEndAt(l, "\n" + rest);
    assert s == l + ("\n" + rest);
    assert s[|l|] == '\n';
    assert s[..|l|] == l;
    assert s[|l| + 1..] == rest;
  }

  lemma {:induction false} LineEndAt(l: string, t: string)
    requires NoTerminator(l) && t != [] && (t[0] == '\n' || t[0] == '\r')
    ensures LineEnd(l + t) == Some(|l|)
    decreases |l|
  {
    if l != [] {
      assert (l + t)[0] == l[0];
      assert (l + t)[1..] == l[1..] + t;
      LineEndAt(l[1..], t);
    }
  }

  /** The text of a file read with a one-byte-per-character decoding. */
  function Latin1(bytes: seq<Byte>): (s: string)
    ensures |s| == |bytes|
  {
    seq(|bytes|, k requires 0 <= k < |bytes| => bytes[k] as char)
  }

  // ---------------------------------------------------------------------
  // Sniffing and launch

  /** `Character.isLetterOrDigit` on a character 0 .. 0xFF: the ASCII
      letters and digits and the Latin-1 letters ª, µ, º, À-Ö, Ø-ö, ø-ÿ. */
  predicate IsLetterOrDigit(b: Byte)
  {
    || '0' as int <= b <= '9' as int || 'A' as int <= b <= 'Z' as int || 'a' as int <= b <= 'z' as int
    || b == 0xAA || b == 0xB5 || b == 0xBA
    || 0xC0 <= b <= 0xD6 || 0xD8 <= b <= 0xF6 || 0xF8 <= b <= 0xFF
  }

  /** `Character.isWhitespace` on a character 0 .. 0xFF: tab, line feed,
      vertical tab, form feed, carriage return, the four separators
      0x1C-0x1F and space (not the no-break space 0xA0). */
  predicate IsWhitespace(b: Byte)
  {
    0x09 <= b <= 0x0D || 0x1C <= b <= 0x20
  }

  /** A byte that would not appear in a hex text file. */
  predicate IsBinaryByte(b: Byte)
  {
    !(IsLetterOrDigit(b) || IsWhitespace(b))
  }

  /** `isBinary`: scans until a byte is neither a letter/digit nor
      whitespace (binary) or the input ends (not binary). */
  method IsBinary(input: seq<Byte>) returns (binary: bool)
    ensures binary <==> exists k :: 0 <= k < |input| && IsBinaryByte(input[k])
  {
    var pos := 0;
    while true
      invariant 0 <= pos <= |input|
      invariant forall k :: 0 <= k < pos ==> !IsBinaryByte(input[k])
      decreases |input| - pos
    {
      if pos == |input| {
        return false;
      }
      var value := input[pos];
      var isLetterOrDigit := IsLetterOrDigit(value);
      var isWhitespace := IsWhitespace(value);
      if !(isLetterOrDigit || isWhitespace) {
        return true;
      }
      pos := pos + 1;
    }
  }

  /** Every hex dump, as a file, is sniffed as text. */
  lemma DumpIsText(words: seq<Word>)
    ensures forall k :: 0 <= k < |Unlines(HexDump(words))| ==> Unlines(HexDump(words))[k] as int < 0x100
    ensures var s := Unlines(HexDump(words));
      forall k :: 0 <= k < |s| ==> !IsBinaryByte(s[k] as int)
  {
    DumpCharacters(HexDump(words));
  }

  lemma {:induction false} DumpCharacters(lines: seq<string>)
    requires forall k :: 0 <= k < |lines| ==> forall c :: c in lines[k] ==> IsUpperHexDigit(c)
    ensures var s := Unlines(lines);
      forall k :: 0 <= k < |s| ==> IsUpperHexDigit(s[k]) || s[k] == '\n'
    decreases |lines|
  {
    if lines != [] {
      DumpCharacters(lines[1..]);
      var s := Unlines(lines);
      assert s == lines[0] + "\n" + Unlines(lines[1..]);
      forall k | 0 <= k < |s|
        ensures IsUpperHexDigit(s[k]) || s[k] == '\n'
      {
        if k < |lines[0]| {
          assert s[k] == lines[0][k];
          assert s[k] in lines[0];
        }
      }
    }
  }

  /** `launch`: a binary image when the file holds a byte that is neither
      a letter/digit nor whitespace, a hex text file otherwise. */
  method Launch(memory: array<Word>, file: seq<Byte>) returns (result: LoadResult)
    requires memory.Length > 0
    modifies memory
    ensures (exists k :: 0 <= k < |file| && IsBinaryByte(file[k])) ==>
              result == Loaded && memory[..] == Store(old(memory[..]), 0, BinaryWords(file))
    ensures (forall k :: 0 <= k < |file| ==> !IsBinaryByte(file[k])) ==>
              var lines := Lines(Latin1(file));
              result == LoadOutcome(lines, WordLine)
              && memory[..] == Store(old(memory[..]), 0, LoadedWords(lines, WordLine))
  {
    var binary := IsBinary(file);
    if binary {
      LoadBinary(memory, file);
      result := Loaded;
    } else {
      result := LoadHexWords(memory, Lines(Latin1(file)));
    }
  }
}

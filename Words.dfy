/** Shared vocabulary: 16-bit words, an Option type, and the word memory
    that the loaders, the console and the memory viewer write into. */
module Words {

  /** A DCPU-16 word. Java stores it in a `short`; `%04X` prints the
      unsigned 16-bit pattern, so the model keeps the unsigned value. */
  type Word = x: int | 0 <= x < 0x1_0000

  /** The address space of the DCPU-16 in words. */
  const MemorySize: nat := 0x1_0000

  datatype Option<+T> = None | Some(value: T)

  /** The 16-bit pattern of a Java `short` (or of an `int` cast to `short`). */
  function ToWord(v: int): (w: Word)
    ensures -0x8000 <= v < 0x8000 ==> (w < 0x8000 <==> v >= 0)
    ensures 0 <= v < 0x1_0000 ==> w == v
  {
    v % 0x1_0000
  }

  /** The signed value Java sees when a word is held in a `short`. */
  function Signed(w: Word): (v: int)
    ensures -0x8000 <= v < 0x8000
    ensures ToWord(v) == w
  {
    if w < 0x8000 then w else w - 0x1_0000
  }

  /** `memory.put(address, value)` on a word memory of fixed capacity:
      the address is taken modulo the capacity. */
  function Put(memory: seq<Word>, address: int, value: Word): (m: seq<Word>)
    requires |memory| > 0
    ensures |m| == |memory|
  {
    memory[address % |memory| := value]
  }

  /** The memory after `put(start + k, words[k])` for k = 0, 1, ... in order. */
  function Store(memory: seq<Word>, start: int, words: seq<Word>): (m: seq<Word>)
    requires |memory| > 0
    ensures |m| == |memory|
    decreases |words|
  {
    if words == [] then memory
    else
      var n := |words| - 1;
      Put(Store(memory, start, words[..n]), start + n, words[n])
  }

  /** Storing one more word after a run of stores is one more `put`. */
  lemma StoreSnoc(memory: seq<Word>, start: int, words: seq<Word>, w: Word)
    requires |memory| > 0
    ensures Store(memory, start, words + [w]) == Put(Store(memory, start, words), start + |words|, w)
  {
    assert (words + [w])[..|words|] == words;
  }

  lemma SmallModulus(n: nat, m: nat)
    requires n < m
    ensures n % m == n
  {
  }

  /** A run of stores from address 0 that fits in the memory writes exactly
      the addresses 0 .. |words| - 1 and leaves every other word alone. */
  lemma {:induction false} StoreFromZero(memory: seq<Word>, words: seq<Word>)
    requires 0 < |memory| && |words| <= |memory|
    ensures Store(memory, 0, words) == words + memory[|words|..]
    decreases |words|
  {
    if words != [] {
      var n := |words| - 1;
      var init, w := words[..n], words[n];
      assert words == init + [w];
      StoreFromZero(memory, init);
      StoreSnoc(memory, 0, init, w);
      var before := init + memory[n..];
      assert Store(memory, 0, words) == Put(before, n, w);
      SmallModulus(n, |memory|);
      var after := before[n := w];
      assert Put(before, n, w) == after;
      forall k | 0 <= k < |memory|
        ensures after[k] == (words + memory[|words|..])[k]
      {
        if k < n {
          assert after[k] == before[k] == init[k] == words[k];
        } else if k > n {
          assert after[k] == before[k] == memory[k];
        }
      }
      assert after == words + memory[|words|..];
    }
  }
}

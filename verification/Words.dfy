/** Fixed-width words and the 128-byte data headers made of them. */
module Words {

  /** Significands are 32 bits wide and their sums wrap around. */
  const MODULUS: int := 0x1_0000_0000

  type Word = x: nat | x < 0x1_0000_0000

  /** Exponents are unsigned and 8 bits wide. */
  type Byte = x: nat | x < 256

  /** A data header holds 32 significands; the d0 and d1 headers of a packet are two of them. */
  type Slice = s: seq<Word> | |s| == 32 witness seq(32, _ => 0)

  function ZeroSlice(): Slice {
    seq(32, _ => 0)
  }

  /** The stateful ALU's addition on a `bit<32>` register. */
  function Add(x: Word, y: Word): Word {
    (x + y) % MODULUS
  }

  function AddSlices(a: Slice, b: Slice): Slice {
    seq<Word>(32, i requires 0 <= i < 32 => Add(a[i], b[i]))
  }

  function Max(x: nat, y: nat): nat {
    if x < y then y else x
  }

  lemma ModAdd(a: nat, b: nat)
    ensures (a % MODULUS + b) % MODULUS == (a + b) % MODULUS
  {
  }
}

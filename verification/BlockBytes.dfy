/** The two ways the file system reads a disk block: as little-endian 32-bit words
    (an indirect block) and as single bits (the free map). */
module BlockBytes {

  const BSIZE: nat := 1024
  const BPB: nat := 8192
  const NINDIRECT: nat := 256

  type Byte = x: int | 0 <= x < 256
  type Uint = x: int | 0 <= x < 0x1_0000_0000

  function Zeros(): (z: seq<Byte>)
    ensures |z| == BSIZE && forall k | 0 <= k < BSIZE :: z[k] == 0
  {
    seq(BSIZE, k => 0)
  }

  // ---- Words ----

  function Word(block: seq<Byte>, j: nat): Uint
    requires |block| == BSIZE && j < NINDIRECT
  {
    var b0: int, b1: int, b2: int, b3: int := block[4 * j], block[4 * j + 1], block[4 * j + 2], block[4 * j + 3];
    b0 + 0x100 * b1 + 0x1_0000 * b2 + 0x100_0000 * b3
  }

  function WithWord(block: seq<Byte>, j: nat, v: Uint): seq<Byte>
    requires |block| == BSIZE && j < NINDIRECT
  {
    block[4 * j := v % 0x100][4 * j + 1 := v / 0x100 % 0x100]
         [4 * j + 2 := v / 0x1_0000 % 0x100][4 * j + 3 := v / 0x100_0000 % 0x100]
  }

  /** Storing a word stores that word and changes no other. */
  lemma WordStored(block: seq<Byte>, j: nat, v: Uint, k: nat)
    requires |block| == BSIZE && j < NINDIRECT && k < NINDIRECT
    ensures Word(WithWord(block, j, v), k) == if k == j then v else Word(block, k)
  {
    WordBytes(v);
  }

  lemma WordBytes(v: Uint)
    ensures v == v % 0x100 + 0x100 * (v / 0x100 % 0x100) + 0x1_0000 * (v / 0x1_0000 % 0x100)
                 + 0x100_0000 * (v / 0x100_0000 % 0x100)
  {
  }

  lemma ZeroWord(j: nat)
    requires j < NINDIRECT
    ensures Word(Zeros(), j) == 0
  {
  }

  // ---- Bits ----

  /** (x & (1 << k)) != 0 */
  predicate Bit(x: nat, k: nat) {
    if k == 0 then x % 2 == 1 else Bit(x / 2, k - 1)
  }

  /** x | (1 << k) if v, otherwise x & ~(1 << k) */
  function Flipped(x: nat, k: nat, v: bool): nat {
    if k == 0 then x / 2 * 2 + (if v then 1 else 0) else 2 * Flipped(x / 2, k - 1, v) + x % 2
  }

  /** Setting or clearing a bit changes that bit only. */
  lemma {:induction false} BitStored(x: nat, k: nat, v: bool, i: nat)
    ensures Bit(Flipped(x, k, v), i) == if i == k then v else Bit(x, i)
  {
    if k > 0 && i > 0 {
      BitStored(x / 2, k - 1, v, i - 1);
    }
  }

  function Power(n: nat): nat {
    if n == 0 then 1 else 2 * Power(n - 1)
  }

  lemma HalfAndBack(x: nat, half: nat, y: nat, b: nat)
    requires x < 2 * half && b < 2
    ensures x / 2 < half && (y < half ==> 2 * y + b < 2 * half)
  {
  }

  lemma {:induction false} FlippedBound(x: nat, k: nat, v: bool, n: nat)
    requires k < n && x < Power(n)
    ensures Flipped(x, k, v) < Power(n)
  {
    var half := Power(n - 1);
    assert Power(n) == 2 * half;
    hide Power;
    if k == 0 {
      HalfAndBack(x, half, x / 2, if v then 1 else 0);
    } else {
      HalfAndBack(x, half, 0, 0);
      FlippedBound(x / 2, k - 1, v, n - 1);
      HalfAndBack(x, half, Flipped(x / 2, k - 1, v), x % 2);
    }
  }

  function WithBit(x: Byte, k: nat, v: bool): Byte
    requires k < 8
  {
    assert Power(8) == 256 by { assert Power(4) == 16; }
    FlippedBound(x, k, v, 8);
    Flipped(x, k, v)
  }
}

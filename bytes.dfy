/** Byte-level encodings shared by the instruction decoder and the file reader:
 *  little-endian unsigned integers, two's complement reinterpretation, and
 *  `bitfield_struct` layouts (the first declared field occupies the least
 *  significant bits). */
module Bytes {
  type byte = b: int | 0 <= b < 256

  function Pow2(n: nat): (r: nat)
    ensures r >= 1
  {
    if n == 0 then 1 else 2 * Pow2(n - 1)
  }

  function Pow256(n: nat): (r: nat)
    ensures r >= 1
  {
    if n == 0 then 1 else 256 * Pow256(n - 1)
  }

  /** Value of a little-endian byte string: the first byte is the least significant. */
  function LeValue(bs: seq<byte>): (v: nat)
    ensures v < Pow256(|bs|)
  {
    if bs == [] then 0 else bs[0] + 256 * LeValue(bs[1..])
  }

  /** The `n` little-endian bytes of `v` (truncating `v` modulo 256^n). */
  function LeBytes(v: nat, n: nat): (bs: seq<byte>)
    ensures |bs| == n
  {
    if n == 0 then [] else [v % 256] + LeBytes(v / 256, n - 1)
  }

  lemma {:induction false} LeValueOfLeBytes(v: nat, n: nat)
    requires v < Pow256(n)
    ensures LeValue(LeBytes(v, n)) == v
  {
    if n > 0 {
      LeValueOfLeBytes(v / 256, n - 1);
      var bs := LeBytes(v, n);
      assert bs[1..] == LeBytes(v / 256, n - 1);
    }
  }

  lemma {:induction false} LeBytesOfLeValue(bs: seq<byte>)
    ensures LeBytes(LeValue(bs), |bs|) == bs
  {
    if bs != [] {
      var v := LeValue(bs);
      assert v % 256 == bs[0] && v / 256 == LeValue(bs[1..]);
      LeBytesOfLeValue(bs[1..]);
    }
  }

  /** The powers of 256 the readers use: 1, 2, 4, 8 and 16-byte integers. */
  lemma Pow256Values()
    ensures Pow256(1) == 0x100 && Pow256(2) == 0x1_0000 && Pow256(4) == 0x1_0000_0000
    ensures Pow256(8) == 0x1_0000_0000_0000_0000
    ensures Pow256(16) == 0x1_0000_0000_0000_0000_0000_0000_0000_0000
  {
    assert Pow256(3) == 0x100_0000;
    assert Pow256(4) == 0x1_0000_0000;
    assert Pow256(5) == 0x100_0000_0000;
    assert Pow256(6) == 0x1_0000_0000_0000;
    assert Pow256(7) == 0x100_0000_0000_0000;
    assert Pow256(8) == 0x1_0000_0000_0000_0000;
    assert Pow256(12) == 0x1_0000_0000_0000_0000_0000_0000 by {
      assert Pow256(9) == 0x100 * Pow256(8);
      assert Pow256(10) == 0x100 * Pow256(9);
      assert Pow256(11) == 0x100 * Pow256(10);
    }
    assert Pow256(13) == 0x100 * Pow256(12);
    assert Pow256(14) == 0x100 * Pow256(13);
    assert Pow256(15) == 0x100 * Pow256(14);
  }

  /** The field in the low `w` bits of a bitfield word: `x & ((1 << w) - 1)`. */
  function Low(x: nat, w: nat): (r: nat)
    ensures r < Pow2(w)
  {
    DivModBounds(x, Pow2(w));
    x % Pow2(w)
  }

  /** The word with its low `w` bits shifted out: `x >> w`. */
  function High(x: nat, w: nat): nat
  {
    DivModBounds(x, Pow2(w));
    x / Pow2(w)
  }

  /** The word holding `lo` in its low `w` bits and `hi` above them: `lo | hi << w`. */
  function Join(lo: nat, w: nat, hi: nat): nat
  {
    lo + Pow2(w) * hi
  }

  lemma DivModBounds(x: nat, m: nat)
    requires m >= 1
    ensures x / m >= 0 && 0 <= x % m < m && x == m * (x / m) + x % m
  {
  }

  lemma {:induction false} Pow2Add(a: nat, b: nat)
    ensures Pow2(a + b) == Pow2(a) * Pow2(b)
  {
    if a > 0 {
      Pow2Add(a - 1, b);
    }
  }

  lemma MulZero(m: int, d: int)
    requires m > 0 && -m < m * d < m
    ensures d == 0
  {
  }

  /** Euclidean division is unique: `lo + m * hi` splits back into `lo` and `hi`. */
  lemma DivMod(lo: nat, hi: nat, m: nat)
    requires lo < m
    ensures (lo + m * hi) % m == lo && (lo + m * hi) / m == hi
  {
    var x := lo + m * hi;
    DivModBounds(x, m);
    var q, r := x / m, x % m;
    assert m * (hi - q) == r - lo by {
      assert m * (hi - q) == m * hi - m * q;
    }
    MulZero(m, hi - q);
  }

  lemma MulMono(m: nat, a: nat, b: nat)
    requires a <= b
    ensures m * a <= m * b
  {
    assert m * b == m * a + m * (b - a);
  }

  /** Splitting a word at bit `w` and joining the halves gives the word back. */
  lemma SplitJoin(x: nat, w: nat)
    ensures Join(Low(x, w), w, High(x, w)) == x
  {
    DivModBounds(x, Pow2(w));
  }

  /** Joining a `w`-bit field below any word and splitting at `w` gives both back. */
  lemma JoinSplit(lo: nat, w: nat, hi: nat)
    requires lo < Pow2(w)
    ensures Low(Join(lo, w, hi), w) == lo && High(Join(lo, w, hi), w) == hi
  {
    DivMod(lo, hi, Pow2(w));
  }

  /** A field already narrower than `w` bits is its own low part. */
  lemma LowSmall(x: nat, w: nat)
    requires x < Pow2(w)
    ensures Low(x, w) == x && High(x, w) == 0
  {
    DivMod(x, 0, Pow2(w));
  }

  /** Shifting an `a + b`-bit word right by `a` leaves a `b`-bit word. */
  lemma HighBound(x: nat, a: nat, b: nat)
    requires x < Pow2(a + b)
    ensures High(x, a) < Pow2(b)
  {
    Pow2Add(a, b);
    DivModBounds(x, Pow2(a));
    if High(x, a) >= Pow2(b) {
      MulMono(Pow2(a), Pow2(b), High(x, a));
    }
  }

  /** A `w`-bit field joined below a `b`-bit word is an `w + b`-bit word. */
  lemma JoinBound(lo: nat, w: nat, hi: nat, b: nat)
    requires lo < Pow2(w) && hi < Pow2(b)
    ensures Join(lo, w, hi) < Pow2(w + b)
  {
    Pow2Add(w, b);
    MulMono(Pow2(w), hi + 1, Pow2(b));
  }

  /** `x | y` on the low `n` bits, one bit at a time from the least significant. */
  function OrBits(x: nat, y: nat, n: nat): (r: nat)
    ensures r < Pow2(n)
  {
    if n == 0 then 0
    else (if x % 2 == 1 || y % 2 == 1 then 1 else 0) + 2 * OrBits(x / 2, y / 2, n - 1)
  }

  /** One bit of `OrBits`: the lowest bit, then the rest shifted down. */
  lemma OrBitsStep(x: nat, y: nat, n: nat)
    requires n > 0
    ensures OrBits(x, y, n) == (if x % 2 == 1 || y % 2 == 1 then 1 else 0) + 2 * OrBits(x / 2, y / 2, n - 1)
  {
  }

  lemma HalveBelow(m: nat, y: nat, q: nat)
    requires 2 * m + y < 2 * q
    ensures m + y / 2 < q
  {
  }

  lemma MulDouble(c: nat, p: nat)
    ensures c * (2 * p) == 2 * (c * p)
  {
  }

  /** Words with no bit in common: `y` below bit `k` and `c << k` from bit `k` up.
   *  Their `|` is their sum. */
  lemma {:induction false} OrDisjoint(c: nat, k: nat, y: nat, n: nat)
    requires y < Pow2(k) && c * Pow2(k) + y < Pow2(n)
    ensures OrBits(c * Pow2(k), y, n) == c * Pow2(k) + y
    decreases n
  {
    if n > 0 {
      var q := Pow2(n - 1);
      OrBitsStep(c * Pow2(k), y, n);
      if k > 0 {
        var p := Pow2(k - 1);
        MulDouble(c, p);
        var m := c * p;
        HalveBelow(m, y, q);
        OrDisjoint(c, k - 1, y / 2, n - 1);
      } else {
        assert y == 0;
        var c1 := c * Pow2(k);
        assert c1 == c;
        HalveBelow(c / 2, c % 2, q);
        assert c / 2 * Pow2(0) == c / 2;
        OrDisjoint(c / 2, 0, 0, n - 1);
      }
    }
  }

  lemma Pow2Values()
    ensures Pow2(8) == 0x100 && Pow2(16) == 0x1_0000 && Pow2(32) == 0x1_0000_0000
  {
    assert Pow2(4) == 16;
    assert Pow2(8) == 0x100;
    assert Pow2(16) == 0x1_0000 by {
      Pow2Add(8, 8);
    }
    Pow2Add(16, 16);
  }
}

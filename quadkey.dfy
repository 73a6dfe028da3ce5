/**
 * The quadkey encoder of the Bing tile layer (`toQuadKey`): a tile column `x`,
 * row `y` and zoom `z` become Bing's base-4 quadtree address, one digit per
 * zoom level, most significant level first. Digit value 1 comes from the
 * column bit and 2 from the row bit of that level.
 */
module QuadKey {
  import opened Wrappers

  /** 2 to the power `k`. */
  function Pow2(k: nat): (p: nat)
    ensures p >= 1
  {
    if k == 0 then 1 else 2 * Pow2(k - 1)
  }

  /** Bit `k` of `n` (bit 0 is the least significant), found by halving `n` `k` times. */
  function Bit(n: nat, k: nat): (b: nat)
    ensures b < 2
  {
    if k == 0 then n % 2 else Bit(n / 2, k - 1)
  }

  /** `n` halved `k` times: the column (or row) of the ancestor tile `k` levels up. */
  function Shift(n: nat, k: nat): nat
  {
    if k == 0 then n else Shift(n / 2, k - 1)
  }

  /**
   * JavaScript's test `(n & (1 << i)) !== 0`. The shift takes its count
   * modulo 32, and `&` works on the 32-bit pattern of `n`, that is on `n`
   * modulo 2^32.
   */
  predicate MaskedBitSet(n: nat, i: nat)
  {
    Bit(n % TwoTo32, i % 32) == 1
  }

  /** The number of 32-bit patterns. */
  const TwoTo32: nat := 0x1_0000_0000

  /** The digit character `b.toString()` gives for a digit value 0..3. */
  function DigitChar(d: nat): (c: char)
    requires d < 4
    ensures '0' <= c <= '3'
    ensures c as int - '0' as int == d
  {
    (('0' as int) + d) as char
  }

  /** The value of a quadkey digit character, or None for any other character. */
  function DigitValue(c: char): (d: Option<nat>)
    ensures d.Some? <==> '0' <= c <= '3'
    ensures d.Some? ==> d.value < 4 && DigitChar(d.value) == c
  {
    if '0' <= c <= '3' then Some(c as int - '0' as int) else None
  }

  /** Every character of `s` is a quadkey digit. */
  predicate IsQuadKey(s: string)
  {
    forall i :: 0 <= i < |s| ==> '0' <= s[i] <= '3'
  }

  /** The quadrant digit of level bit `k`: 1 if the column bit is set, plus 2 if the row bit is set. */
  function QuadDigit(x: nat, y: nat, k: nat): (d: nat)
    ensures d < 4
  {
    Bit(x, k) + 2 * Bit(y, k)
  }

  /**
   * The quadtree address of tile (x, y) at zoom z, defined level by level:
   * the key of the parent tile (x / 2, y / 2) at zoom z - 1, followed by the
   * digit of the quadrant the tile occupies inside its parent.
   */
  function QuadKeyOf(x: nat, y: nat, z: nat): (s: string)
    ensures |s| == z
    ensures IsQuadKey(s)
  {
    if z == 0 then "" else QuadKeyOf(x / 2, y / 2, z - 1) + [DigitChar(x % 2 + 2 * (y % 2))]
  }

  /** The digit the loop of `toQuadKey` appends when its counter is `i + 1`. */
  function MaskedDigit(x: nat, y: nat, i: nat): (d: nat)
    ensures d < 4
  {
    (if MaskedBitSet(x, i) then 1 else 0) + (if MaskedBitSet(y, i) then 2 else 0)
  }

  /**
   * The string the loop of `toQuadKey` builds for zoom `z`: the digit of
   * counter value `z` first, then the string for `z - 1`.
   */
  function Interleaved(x: nat, y: nat, z: nat): (s: string)
    ensures |s| == z
  {
    if z == 0 then "" else [DigitChar(MaskedDigit(x, y, z - 1))] + Interleaved(x, y, z - 1)
  }

  /** `toQuadKey(x, y, z)`: the bit-interleaving loop, counting `i` down from `z` to 1. */
  method ToQuadKey(x: nat, y: nat, z: nat) returns (index: string)
    ensures index == Interleaved(x, y, z)
    ensures z <= 32 ==> index == QuadKeyOf(x, y, z)
  {
    index := "";
    var i := z;
    while i > 0
      invariant 0 <= i <= z
      invariant index + Interleaved(x, y, i) == Interleaved(x, y, z)
    {
      var b := LevelDigit(x, y, i - 1);
      InterleavedStep(x, y, i, index, Interleaved(x, y, z));
      index := index + [DigitChar(b)];
      i := i - 1;
    }
    if z <= 32 {
      InterleavedIsQuadKeyOf(x, y, z);
    }
  }

  /**
   * The body of the loop of `toQuadKey` for counter `i + 1`: `b` starts at 0,
   * gains 1 when the column has the mask bit and 2 when the row has it.
   */
  method LevelDigit(x: nat, y: nat, i: nat) returns (b: nat)
    ensures b == MaskedDigit(x, y, i)
  {
    b := 0;
    if MaskedBitSet(x, i) {
      b := b + 1;
    }
    if MaskedBitSet(y, i) {
      b := b + 2;
    }
  }

  /** One turn of the loop of `ToQuadKey`: appending the digit of counter `i` keeps its invariant. */
  lemma InterleavedStep(x: nat, y: nat, i: nat, index: string, whole: string)
    requires i > 0 && index + Interleaved(x, y, i) == whole
    ensures (index + [DigitChar(MaskedDigit(x, y, i - 1))]) + Interleaved(x, y, i - 1) == whole
  {
    var c := [DigitChar(MaskedDigit(x, y, i - 1))];
    assert (index + c) + Interleaved(x, y, i - 1) == index + (c + Interleaved(x, y, i - 1));
  }

  // ---------------------------------------------------------------------------
  // Arithmetic on bits

  /** Euclidean division is unique: a quotient and remainder in range are `/` and `%`. */
  lemma DivModUnique(n: int, a: int, q: int, r: int)
    requires a > 0 && 0 <= r < a && n == a * q + r
    ensures n / a == q && n % a == r
  {
    var q0, r0 := n / a, n % a;
    assert n == a * q0 + r0 && 0 <= r0 < a;
    assert a * (q - q0) == r0 - r;
    if q - q0 >= 1 {
      MulAtLeast(a, q - q0);
      assert false;
    } else if q0 - q >= 1 {
      MulAtLeast(a, q0 - q);
      assert false;
    }
  }

  /** A positive multiple of `a` is at least `a`. */
  lemma MulAtLeast(a: int, t: int)
    requires a > 0 && t >= 1
    ensures a * t >= a
  {
    assert a * t == a + a * (t - 1);
  }

  /** Halving, then dividing by p: the same as dividing by 2p, and the remainder modulo 2p halves to the remainder modulo p. */
  lemma HalveThenDivideBy(n: nat, p: nat)
    requires p >= 1
    ensures (n / 2) / p == n / (2 * p)
    ensures (n / 2) % p == (n % (2 * p)) / 2
    ensures (n % (2 * p)) % 2 == n % 2
  {
    var q := n / (2 * p);
    var r := n % (2 * p);
    assert n == (2 * p) * q + r && 0 <= r < 2 * p;
    assert r == 2 * (r / 2) + r % 2;
    assert n == 2 * (p * q + r / 2) + r % 2;
    DivModUnique(n, 2, p * q + r / 2, r % 2);
    assert 0 <= r / 2 < p;
    DivModUnique(n / 2, p, q, r / 2);
  }

  /** Halving then dividing by 2^k is dividing by 2^(k+1). */
  lemma HalveThenDivide(n: nat, k: nat)
    ensures (n / 2) / Pow2(k) == n / Pow2(k + 1)
  {
    HalveThenDivideBy(n, Pow2(k));
  }

  /** Halving `k` times is dividing by 2^k. */
  lemma {:induction false} ShiftIsDiv(n: nat, k: nat)
    ensures Shift(n, k) == n / Pow2(k)
  {
    if k > 0 {
      ShiftIsDiv(n / 2, k - 1);
      HalveThenDivide(n, k - 1);
    }
  }

  /** `Bit` is the textbook `(n / 2^k) % 2`. */
  lemma {:induction false} BitIsDivMod(n: nat, k: nat)
    ensures Bit(n, k) == (n / Pow2(k)) % 2
  {
    ShiftIsDiv(n, k);
    BitIsShift(n, k);
  }

  /** Bit `k` is the lowest bit of `n` halved `k` times. */
  lemma {:induction false} BitIsShift(n: nat, k: nat)
    ensures Bit(n, k) == Shift(n, k) % 2
  {
    if k > 0 {
      BitIsShift(n / 2, k - 1);
    }
  }

  /** The bits below position `m` of `n` are those of `n` modulo 2^m. */
  lemma {:induction false} LowBits(n: nat, m: nat, j: nat)
    requires j < m
    ensures Bit(n % Pow2(m), j) == Bit(n, j)
  {
    HalveThenDivideBy(n, Pow2(m - 1));
    if j > 0 {
      LowBits(n / 2, m - 1, j - 1);
    }
  }

  /** The 32-bit JavaScript test reads bit `i mod 32` of `n`. */
  lemma MaskedBitSetIsBit(n: nat, i: nat)
    ensures MaskedBitSet(n, i) <==> Bit(n, i % 32) == 1
  {
    Pow2Of32();
    LowBits(n, 32, i % 32);
  }

  /** 2^32 is the number of 32-bit patterns. */
  lemma Pow2Of32()
    ensures Pow2(32) == TwoTo32
  {
    assert Pow2(2) == 4;
    Pow2Add(2, 2);
    Pow2Add(4, 4);
    Pow2Add(8, 8);
    Pow2Add(16, 16);
  }

  /** 2^(a+b) = 2^a * 2^b. */
  lemma {:induction false} Pow2Add(a: nat, b: nat)
    ensures Pow2(a + b) == Pow2(a) * Pow2(b)
  {
    if a > 0 {
      Pow2Add(a - 1, b);
      assert Pow2(a + b) == 2 * Pow2(a - 1 + b);
    }
  }

  /** The digit the loop appends is the quadrant digit of bit `i mod 32`. */
  lemma MaskedDigitIsQuadDigit(x: nat, y: nat, i: nat)
    ensures MaskedDigit(x, y, i) == QuadDigit(x, y, i % 32)
  {
    MaskedBitSetIsBit(x, i);
    MaskedBitSetIsBit(y, i);
  }

  // ---------------------------------------------------------------------------
  // Properties of the quadkey

  /** Character `k` of the key is the quadrant digit of bit z - 1 - k of the column and the row. */
  lemma {:induction false} QuadKeyOfAt(x: nat, y: nat, z: nat, k: nat)
    requires k < z
    ensures QuadKeyOf(x, y, z)[k] == DigitChar(QuadDigit(x, y, z - 1 - k))
  {
    if k < z - 1 {
      QuadKeyOfAt(x / 2, y / 2, z - 1, k);
      assert QuadDigit(x / 2, y / 2, z - 2 - k) == QuadDigit(x, y, z - 1 - k);
    }
  }

  /**
   * Character `k` of the loop's string interleaves bit (z - 1 - k) mod 32 of
   * the column (value 1) and of the row (value 2).
   */
  lemma {:induction false} InterleavedDigit(x: nat, y: nat, z: nat, k: nat)
    requires k < z
    ensures Interleaved(x, y, z)[k] == DigitChar(QuadDigit(x, y, (z - 1 - k) % 32))
  {
    if k == 0 {
      MaskedDigitIsQuadDigit(x, y, z - 1);
    } else {
      InterleavedDigit(x, y, z - 1, k - 1);
    }
  }

  /** Up to zoom 32 the loop of `toQuadKey` computes the quadtree address. */
  lemma InterleavedIsQuadKeyOf(x: nat, y: nat, z: nat)
    requires z <= 32
    ensures Interleaved(x, y, z) == QuadKeyOf(x, y, z)
  {
    forall k | 0 <= k < z
      ensures Interleaved(x, y, z)[k] == QuadKeyOf(x, y, z)[k]
    {
      InterleavedAt(x, y, z, k);
    }
  }

  /** One character of `InterleavedIsQuadKeyOf`. */
  lemma InterleavedAt(x: nat, y: nat, z: nat, k: nat)
    requires z <= 32 && k < z
    ensures Interleaved(x, y, z)[k] == QuadKeyOf(x, y, z)[k]
  {
    var j := z - 1 - k;
    assert j % 32 == j;
    InterleavedDigit(x, y, z, k);
    QuadKeyOfAt(x, y, z, k);
  }

  /** Zoom 0 is the whole world and has the empty key. */
  lemma QuadKeyOfZoomZero(x: nat, y: nat)
    ensures QuadKeyOf(x, y, 0) == ""
  {
  }

  /** The worked example: column 3, row 5, zoom 3 is "213". */
  lemma QuadKeyExample()
    ensures QuadKeyOf(3, 5, 3) == "213"
  {
    ChildExtendsParent(0, 0, 0, 0, 1);
    ChildExtendsParent(0, 1, 1, 1, 0);
    ChildExtendsParent(1, 2, 2, 1, 1);
    assert [DigitChar(2)] + [DigitChar(1)] + [DigitChar(3)] == "213";
  }

  /** The four children of a tile extend its key by their quadrant digit. */
  lemma ChildExtendsParent(x: nat, y: nat, z: nat, dx: nat, dy: nat)
    requires dx < 2 && dy < 2
    ensures QuadKeyOf(2 * x + dx, 2 * y + dy, z + 1) == QuadKeyOf(x, y, z) + [DigitChar(dx + 2 * dy)]
  {
    assert (2 * x + dx) / 2 == x && (2 * x + dx) % 2 == dx;
    assert (2 * y + dy) / 2 == y && (2 * y + dy) % 2 == dy;
  }

  /**
   * The key of a tile at zoom z + k starts with the key of its ancestor
   * k levels up, (x / 2^k, y / 2^k) at zoom z, and goes on with the key of
   * the tile within that ancestor.
   */
  lemma {:induction false} AncestorPrefix(x: nat, y: nat, z: nat, k: nat)
    ensures QuadKeyOf(x, y, z + k) == QuadKeyOf(Shift(x, k), Shift(y, k), z) + QuadKeyOf(x, y, k)
  {
    if k > 0 {
      AncestorPrefix(x / 2, y / 2, z, k - 1);
      var ancestor := QuadKeyOf(Shift(x, k), Shift(y, k), z);
      var below := QuadKeyOf(x / 2, y / 2, k - 1);
      var c := [DigitChar(x % 2 + 2 * (y % 2))];
      assert (ancestor + below) + c == ancestor + (below + c);
    }
  }

  // ---------------------------------------------------------------------------
  // Decoding

  /** The tile whose parent is `parent` and whose quadrant digit is `d`. */
  function ChildOf(parent: (nat, nat), d: nat): (nat, nat)
  {
    (2 * parent.0 + d % 2, 2 * parent.1 + d / 2)
  }

  /**
   * Reads a quadkey back into a tile column and row: bit 0 of each digit is
   * a column bit and bit 1 a row bit, most significant level first. None when
   * a character is not a quadkey digit.
   */
  function Decode(s: string): (r: Option<(nat, nat)>)
    ensures r.Some? <==> IsQuadKey(s)
    ensures r.Some? ==> r.value.0 < Pow2(|s|) && r.value.1 < Pow2(|s|)
  {
    if s == [] then Some((0, 0))
    else
      var parent := Decode(s[..|s| - 1]);
      var digit := DigitValue(s[|s| - 1]);
      assert IsQuadKey(s) <==> IsQuadKey(s[..|s| - 1]) && '0' <= s[|s| - 1] <= '3' by {
        if IsQuadKey(s[..|s| - 1]) && '0' <= s[|s| - 1] <= '3' {
          forall i | 0 <= i < |s| ensures '0' <= s[i] <= '3' {
            if i < |s| - 1 { assert s[i] == s[..|s| - 1][i]; }
          }
        }
      }
      if parent.Some? && digit.Some? then Some(ChildOf(parent.value, digit.value)) else None
  }

  /** Decoding a key extended by one character. */
  lemma DecodeSnoc(p: string, c: char)
    ensures Decode(p + [c]) ==
      if Decode(p).Some? && DigitValue(c).Some? then Some(ChildOf(Decode(p).value, DigitValue(c).value)) else None
  {
    assert (p + [c])[..|p|] == p;
  }

  /** A tile is the child of its parent in its own quadrant. */
  lemma ChildOfParent(x: nat, y: nat)
    ensures ChildOf((x / 2, y / 2), x % 2 + 2 * (y % 2)) == (x, y)
  {
    var d := x % 2 + 2 * (y % 2);
    if x % 2 == 0 && y % 2 == 0 {
      assert d == 0;
    } else if x % 2 == 1 && y % 2 == 0 {
      assert d == 1;
    } else if x % 2 == 0 {
      assert d == 2;
    } else {
      assert d == 3;
    }
  }

  /** The child in quadrant `d` has `parent` as parent and `d` as quadrant digit. */
  lemma ParentOfChild(parent: (nat, nat), d: nat)
    requires d < 4
    ensures ChildOf(parent, d).0 / 2 == parent.0 && ChildOf(parent, d).1 / 2 == parent.1
    ensures ChildOf(parent, d).0 % 2 + 2 * (ChildOf(parent, d).1 % 2) == d
  {
  }

  /** Decoding the key of a tile inside the 2^z by 2^z grid gives back its column and row. */
  lemma {:induction false} DecodeQuadKeyOf(x: nat, y: nat, z: nat)
    requires x < Pow2(z) && y < Pow2(z)
    ensures Decode(QuadKeyOf(x, y, z)) == Some((x, y))
  {
    if z > 0 {
      var d := x % 2 + 2 * (y % 2);
      DecodeQuadKeyOf(x / 2, y / 2, z - 1);
      DecodeSnoc(QuadKeyOf(x / 2, y / 2, z - 1), DigitChar(d));
      assert DigitValue(DigitChar(d)) == Some(d);
      ChildOfParent(x, y);
    }
  }

  /** Every string of quadkey digits is the key of the tile it decodes to. */
  lemma {:induction false} QuadKeyOfDecode(s: string)
    requires IsQuadKey(s)
    ensures Decode(s).Some? && QuadKeyOf(Decode(s).value.0, Decode(s).value.1, |s|) == s
  {
    if s != [] {
      var p, c := s[..|s| - 1], s[|s| - 1];
      assert s == p + [c];
      assert IsQuadKey(p) by {
        forall i | 0 <= i < |p| ensures '0' <= p[i] <= '3' { assert p[i] == s[i]; }
      }
      QuadKeyOfDecode(p);
      DecodeSnoc(p, c);
      var parent := Decode(p).value;
      var d := DigitValue(c).value;
      var child := ChildOf(parent, d);
      assert Decode(s) == Some(child);
      ParentOfChild(parent, d);
      assert QuadKeyOf(child.0, child.1, |s|)
          == QuadKeyOf(parent.0, parent.1, |p|) + [DigitChar(d)];
    }
  }

  /** Within the 2^z by 2^z grid distinct tiles have distinct keys. */
  lemma QuadKeyInjective(x1: nat, y1: nat, x2: nat, y2: nat, z: nat)
    requires x1 < Pow2(z) && y1 < Pow2(z) && x2 < Pow2(z) && y2 < Pow2(z)
    requires QuadKeyOf(x1, y1, z) == QuadKeyOf(x2, y2, z)
    ensures x1 == x2 && y1 == y2
  {
    DecodeQuadKeyOf(x1, y1, z);
    DecodeQuadKeyOf(x2, y2, z);
  }
}

/** The sprite blit of the monochrome framebuffer, as a function of the grid
    before it: the reference definition that the loop methods in ScreenTest,
    Display and PygameDisplay are proved against, and the properties of it
    that the drawing code promises or exhibits. */
module Sprite {
  import opened Common

  /** The logical screen size used by the two display classes. */
  const WIDTH := 64
  const HEIGHT := 32

  /** A screen array: rows of cells, each cell normally 0 or 1. */
  type Grid = seq<seq<int>>

  function Pow2(n: nat): (r: nat)
    ensures r >= 1
  {
    if n == 0 then 1 else 2 * Pow2(n - 1)
  }

  /** Python's `b >> i` on an int: `i` halvings, each rounding down, which
      is division by 2^i rounded down (for negative `b` too). */
  function Shr(b: int, i: nat): (r: int)
    ensures r == b / Pow2(i)
  {
    if i == 0 then b
    else
      HalveQuotient(b, Pow2(i - 1));
      Shr(b, i - 1) / 2
  }

  /** Halving the quotient by p is dividing by 2p. */
  lemma HalveQuotient(b: int, p: int)
    requires p >= 1
    ensures (b / p) / 2 == b / (2 * p)
  {
    var q, r := b / p, b % p;
    var q2, r2 := q / 2, q % 2;
    assert b == p * q + r && 0 <= r < p;
    assert q == 2 * q2 + r2 && 0 <= r2 < 2;
    assert b == (2 * p) * q2 + (p * r2 + r) by {
      assert p * q == p * (2 * q2 + r2) == (2 * p) * q2 + p * r2;
    }
    assert 0 <= p * r2 + r < 2 * p;
    DivUnique(b, 2 * p, q2, p * r2 + r);
  }

  /** The quotient is the only q with b = d q + r and 0 <= r < d. */
  lemma DivUnique(b: int, d: int, q: int, r: int)
    requires d >= 1 && b == d * q + r && 0 <= r < d
    ensures b / d == q
  {
    var q0, r0 := b / d, b % d;
    assert d * (q - q0) == r0 - r;
    MulSign(d, q - q0);
  }

  /** A non-zero multiple of d is at least d away from 0. */
  lemma {:induction false} MulSign(d: int, k: int)
    requires d >= 0
    ensures k >= 1 ==> d * k >= d
    ensures k <= -1 ==> d * k <= -d
    decreases if k < 0 then -k else k
  {
    if k > 1 {
      MulSign(d, k - 1);
      assert d * k == d * (k - 1) + d;
    } else if k < -1 {
      MulSign(d, k + 1);
      assert d * k == d * (k + 1) - d;
    }
  }

  /** Python's `(b >> i) & 1`: bit `i` of `b`, counted from the least
      significant end. */
  function Bit(b: int, i: nat): (r: int)
    ensures r == 0 || r == 1
  {
    Shr(b, i) % 2
  }

  /** The number whose binary digits, most significant first, are `bits`. */
  function FromBits(bits: seq<int>): int {
    if bits == [] then 0 else 2 * FromBits(bits[..|bits| - 1]) + bits[|bits| - 1]
  }

  lemma {:induction false} ShrBelow(b: int, i: nat, n: nat)
    requires 0 <= b < Pow2(i + n)
    ensures 0 <= Shr(b, i) < Pow2(n)
  {
    if i > 0 {
      ShrBelow(b, i - 1, n + 1);
    }
  }

  /** The first `m` bits of a byte, most significant first, spell the byte
      shifted right by `8 - m`. */
  lemma {:induction false} FromBitsPrefix(b: int, bits: seq<int>, m: nat)
    requires 0 <= b < 256 && |bits| == 8 && m <= 8
    requires forall k :: 0 <= k < 8 ==> bits[k] == Bit(b, 7 - k)
    ensures FromBits(bits[..m]) == Shr(b, 8 - m)
  {
    if m == 0 {
      ShrBelow(b, 8, 0);
    } else {
      FromBitsPrefix(b, bits, m - 1);
      assert bits[..m][..m - 1] == bits[..m - 1];
    }
  }

  /** Eight bits taken most significant first reassemble to the byte. */
  lemma BitsRoundTrip(b: int, bits: seq<int>)
    requires 0 <= b < 256 && |bits| == 8
    requires forall k :: 0 <= k < 8 ==> bits[k] == Bit(b, 7 - k)
    ensures FromBits(bits) == b
  {
    FromBitsPrefix(b, bits, 8);
    assert bits[..8] == bits;
  }

  /** Whether the sprite row `b`, drawn from column `x`, has a set bit over
      column `j`: bit 7 lands on column x, bit 0 on column x + 7. */
  predicate Covers(b: int, x: nat, j: int) {
    x <= j < x + 8 && Bit(b, 7 - (j - x)) == 1
  }

  /** Whether the sprite drawn at (x, y), row r at screen row y + r, has a set
      bit over cell (i, j). */
  predicate Hit(sprite: seq<int>, x: nat, y: nat, i: int, j: int) {
    y <= i < y + |sprite| && Covers(sprite[i - y], x, j)
  }

  /** What a set sprite bit does to a cell: 1 becomes 0, anything else 1. */
  function Toggle(c: int): (r: int)
    ensures r == 0 || r == 1
    ensures (c == 0 || c == 1) ==> r + c == 1
  {
    if c == 1 then 0 else 1
  }

  /** The grid after drawing `sprite` at (x, y): every existing cell under a
      set sprite bit is toggled and every other cell is kept. A bit that
      would land outside the grid is dropped, never wrapped around. */
  function Blit(g: Grid, x: nat, y: nat, sprite: seq<int>): (h: Grid)
    ensures |h| == |g| && forall i :: 0 <= i < |g| ==> |h[i]| == |g[i]|
  {
    seq(|g|, i requires 0 <= i < |g| =>
      seq(|g[i]|, j requires 0 <= j < |g[i]| =>
        if Hit(sprite, x, y, i, j) then Toggle(g[i][j]) else g[i][j]))
  }

  /** Whether drawing the row byte `b` from column `x` over `row` lands a
      set bit on a cell holding 1. */
  predicate RowCollides(row: seq<int>, x: nat, b: int)
    ensures RowCollides(row, x, b) ==> x < |row|
    ensures (forall j :: 0 <= j < |row| ==> row[j] != 1) ==> !RowCollides(row, x, b)
  {
    exists j :: 0 <= j < |row| && Covers(b, x, j) && row[j] == 1
  }

  /** The flag `update_screen` returns: the collision flag of the LAST row it
      draws, and false when it draws no row. */
  predicate BlitFlag(g: Grid, x: nat, y: nat, sprite: seq<int>)
    ensures BlitFlag(g, x, y, sprite) ==> y < |g| && 0 < |sprite|
  {
    var last := Min(y + |sprite|, |g|) - 1;
    y <= last && RowCollides(g[last], x, sprite[last - y])
  }

  /** What the comment above `update_screen` promises instead: some drawn
      row erased a lit cell. */
  predicate AnyCollision(g: Grid, x: nat, y: nat, sprite: seq<int>) {
    exists i :: y <= i < y + |sprite| && i < |g| && RowCollides(g[i], x, sprite[i - y])
  }

  /** A screen of `h` rows of `w` cells, all 0. */
  function Blank(h: nat, w: nat): (g: Grid)
    ensures |g| == h && forall i :: 0 <= i < h ==> |g[i]| == w && forall j :: 0 <= j < w ==> g[i][j] == 0
  {
    seq(h, _ => seq(w, _ => 0))
  }

  ghost predicate Binary(g: Grid) {
    forall i, j :: 0 <= i < |g| && 0 <= j < |g[i]| ==> g[i][j] == 0 || g[i][j] == 1
  }

  /** Two grids of the same shape with the same cells are equal. */
  lemma GridExt(g: Grid, h: Grid)
    requires |g| == |h| && forall i :: 0 <= i < |g| ==> |g[i]| == |h[i]|
    requires forall i, j :: 0 <= i < |g| && 0 <= j < |g[i]| ==> g[i][j] == h[i][j]
    ensures g == h
  {
    forall i | 0 <= i < |g| ensures g[i] == h[i] {
    }
  }

  /** Only cells under a set bit of the sprite change; in particular nothing
      left of x, right of x + 7, above y or below the sprite's last row. */
  lemma BlitFootprint(g: Grid, x: nat, y: nat, sprite: seq<int>, i: nat, j: nat)
    requires i < |g| && j < |g[i]|
    ensures Blit(g, x, y, sprite)[i][j] != g[i][j] ==>
              y <= i < y + |sprite| && x <= j < x + 8 && Bit(sprite[i - y], 7 - (j - x)) == 1
  {
  }

  /** Drawing keeps a grid of 0s and 1s a grid of 0s and 1s. */
  lemma BlitKeepsBinary(g: Grid, x: nat, y: nat, sprite: seq<int>)
    requires Binary(g)
    ensures Binary(Blit(g, x, y, sprite))
  {
  }

  /** Drawing the same sprite at the same place twice restores a grid of 0s
      and 1s. */
  lemma BlitTwice(g: Grid, x: nat, y: nat, sprite: seq<int>)
    requires Binary(g)
    ensures Blit(Blit(g, x, y, sprite), x, y, sprite) == g
  {
    var h := Blit(Blit(g, x, y, sprite), x, y, sprite);
    forall i, j | 0 <= i < |g| && 0 <= j < |g[i]| ensures h[i][j] == g[i][j] {
    }
    GridExt(h, g);
  }

  /** A start row below the last row, or a start column right of every row,
      draws nothing and reports no collision: coordinates are not wrapped. */
  lemma BlitOffScreen(g: Grid, x: nat, y: nat, sprite: seq<int>)
    requires y >= |g| || forall i :: 0 <= i < |g| ==> x >= |g[i]|
    ensures Blit(g, x, y, sprite) == g && !BlitFlag(g, x, y, sprite)
  {
    GridExt(Blit(g, x, y, sprite), g);
  }

  /** The returned flag does imply that some drawn row erased a lit cell. */
  lemma FlagImpliesCollision(g: Grid, x: nat, y: nat, sprite: seq<int>)
    ensures BlitFlag(g, x, y, sprite) ==> AnyCollision(g, x, y, sprite)
  {
    if BlitFlag(g, x, y, sprite) {
      var last := Min(y + |sprite|, |g|) - 1;
      assert y <= last < y + |sprite| && last < |g| && RowCollides(g[last], x, sprite[last - y]);
    }
  }

  lemma Bit128()
    ensures Bit(128, 7) == 1 && forall i :: 0 <= i < 7 ==> Bit(128, i) == 0
  {
    forall i | 0 <= i < 7 ensures Bit(128, i) == 0 {
      if i == 0 {} else if i == 1 {} else if i == 2 {} else if i == 3 {}
      else if i == 4 {} else if i == 5 {} else {}
    }
  }

  /** The converse fails: a collision in the first of two rows is not
      reported when the second row collides with nothing. */
  lemma CollisionFlagIsLastRowOnly()
    ensures var g := [[1, 0], [0, 0]];
            AnyCollision(g, 0, 0, [0x80, 0x00]) && !BlitFlag(g, 0, 0, [0x80, 0x00])
  {
    var g := [[1, 0], [0, 0]];
    Bit128();
    assert Covers(0x80, 0, 0);
    assert RowCollides(g[0], 0, 0x80);
  }
}

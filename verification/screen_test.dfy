/** The free drawing functions of screen_test.py, which work on a screen array
    the caller passes in, of whatever size it has. The two display classes use
    the same three operations on their own 32 x 64 array. */
module ScreenTest {
  import opened Common
  import opened Sprite

  /** The cells of a screen array, row by row. */
  function Cells(a: array2<int>): (g: Grid)
    reads a
    ensures |g| == a.Length0 && forall i :: 0 <= i < a.Length0 ==> |g[i]| == a.Length1
    ensures forall i, j :: 0 <= i < a.Length0 && 0 <= j < a.Length1 ==> g[i][j] == a[i, j]
  {
    seq(a.Length0, i reads a requires 0 <= i < a.Length0 =>
      seq(a.Length1, j reads a requires 0 <= j < a.Length1 => a[i, j]))
  }

  /** `_int_to_bits_bitwise`: the eight low bits of `b`, most significant
      first. */
  method IntToBitsBitwise(b: int) returns (bits: seq<int>)
    ensures |bits| == 8 && forall k :: 0 <= k < 8 ==> bits[k] == Bit(b, 7 - k)
  {
    bits := [];
    var i := 7;
    while i >= 0
      invariant -1 <= i <= 7 && |bits| == 7 - i
      invariant forall k :: 0 <= k < |bits| ==> bits[k] == Bit(b, 7 - k)
    {
      var bit := Bit(b, i);
      bits := bits + [bit];
      i := i - 1;
    }
  }

  /** `_update_screen_row`: draws one sprite byte on row `y` from column `x`
      and reports whether it erased a lit cell; a row past the last raises
      ValueError and draws nothing. */
  method UpdateScreenRow(a: array2<int>, x: nat, y: nat, spriteRow: int) returns (r: Result<bool>)
    modifies a
    ensures y >= a.Length0 ==> r == Err(ValueError) && Cells(a) == old(Cells(a))
    ensures y < a.Length0 ==> r == Ok(RowCollides(old(Cells(a))[y], x, spriteRow))
    ensures y < a.Length0 ==> Cells(a) == Blit(old(Cells(a)), x, y, [spriteRow])
  {
    if y >= a.Length0 {
      return Err(ValueError);
    }
    ghost var g := Cells(a);
    var vf := false;
    var bits := IntToBitsBitwise(spriteRow);
    var col := x;
    var k := 0;
    while k < |bits|
      invariant 0 <= k <= 8 && col == x + k
      invariant forall i, j :: 0 <= i < a.Length0 && 0 <= j < a.Length1 ==>
                  a[i, j] == if i == y && j < col && Covers(spriteRow, x, j) then Toggle(g[i][j]) else g[i][j]
      invariant vf <==> exists j :: 0 <= j < a.Length1 && j < col && Covers(spriteRow, x, j) && g[y][j] == 1
    {
      if col >= a.Length1 {
        break;
      }
      if bits[k] == 1 {
        if a[y, col] == 1 {
          a[y, col] := 0;
          vf := true;
        } else {
          a[y, col] := 1;
        }
      }
      col := col + 1;
      k := k + 1;
    }
    assert forall j :: 0 <= j < a.Length1 && Covers(spriteRow, x, j) ==> j < col;
    GridExt(Cells(a), Blit(g, x, y, [spriteRow]));
    r := Ok(vf);
  }

  /** `update_screen`: draws the sprite bytes on successive rows from row
      `y`, stops at the last row, and returns the flag of the last row drawn. */
  method UpdateScreen(a: array2<int>, x: nat, y: nat, sprite: seq<int>) returns (vf: bool)
    modifies a
    ensures Cells(a) == Blit(old(Cells(a)), x, y, sprite)
    ensures vf == BlitFlag(old(Cells(a)), x, y, sprite)
  {
    ghost var g := Cells(a);
    vf := false;
    var row := y;
    var t := 0;
    BlitNothing(g, x, y, sprite[..0]);
    while t < |sprite|
      invariant 0 <= t <= |sprite| && row == y + t
      invariant Cells(a) == Blit(g, x, y, sprite[..t])
      invariant vf == BlitFlag(g, x, y, sprite[..t])
    {
      if row >= a.Length0 {
        break;
      }
      ghost var before := Cells(a);
      var r := UpdateScreenRow(a, x, row, sprite[t]);
      RowStep(g, before, Cells(a), x, y, sprite, t, r.value);
      vf := r.value;
      row := row + 1;
      t := t + 1;
    }
    BlitStops(g, x, y, sprite, t);
  }

  /** Drawing row t of the sprite on top of rows 0 .. t-1 is drawing rows
      0 .. t; the row it lands on was not touched before. */
  lemma BlitAddRow(g: Grid, x: nat, y: nat, sprite: seq<int>, t: nat)
    requires t < |sprite| && y + t < |g|
    ensures Blit(Blit(g, x, y, sprite[..t]), x, y + t, [sprite[t]]) == Blit(g, x, y, sprite[..t + 1])
    ensures Blit(g, x, y, sprite[..t])[y + t] == g[y + t]
    ensures BlitFlag(g, x, y, sprite[..t + 1]) == RowCollides(g[y + t], x, sprite[t])
  {
    var h := Blit(Blit(g, x, y, sprite[..t]), x, y + t, [sprite[t]]);
    var h' := Blit(g, x, y, sprite[..t + 1]);
    forall i, j | 0 <= i < |g| && 0 <= j < |g[i]| ensures h[i][j] == h'[i][j] {
      if y <= i < y + t {
        assert sprite[..t][i - y] == sprite[..t + 1][i - y];
      }
    }
    GridExt(h, h');
    assert Blit(g, x, y, sprite[..t])[y + t] == g[y + t];
  }

  /** An empty sprite changes nothing and reports no collision. */
  lemma BlitNothing(g: Grid, x: nat, y: nat, sprite: seq<int>)
    requires sprite == []
    ensures Blit(g, x, y, sprite) == g && !BlitFlag(g, x, y, sprite)
  {
    GridExt(Blit(g, x, y, sprite), g);
  }

  /** One turn of `update_screen`'s loop: drawing row t of the sprite, with
      its flag, on top of rows 0 .. t-1 gives rows 0 .. t and their flag. */
  lemma RowStep(g: Grid, before: Grid, after: Grid, x: nat, y: nat, sprite: seq<int>, t: nat, v: bool)
    requires t < |sprite| && y + t < |g| && before == Blit(g, x, y, sprite[..t])
    requires after == Blit(before, x, y + t, [sprite[t]])
    requires v == RowCollides(before[y + t], x, sprite[t])
    ensures after == Blit(g, x, y, sprite[..t + 1])
    ensures v == BlitFlag(g, x, y, sprite[..t + 1])
  {
    BlitAddRow(g, x, y, sprite, t);
  }

  /** Once the next row is past the last row of the grid, the rest of the
      sprite changes nothing, and the flag is that of the rows drawn. */
  lemma BlitStops(g: Grid, x: nat, y: nat, sprite: seq<int>, t: nat)
    requires t <= |sprite| && (t == |sprite| || y + t >= |g|)
    ensures Blit(g, x, y, sprite[..t]) == Blit(g, x, y, sprite)
    ensures BlitFlag(g, x, y, sprite[..t]) == BlitFlag(g, x, y, sprite)
  {
    if t == |sprite| {
      assert sprite[..t] == sprite;
    } else {
      var h := Blit(g, x, y, sprite[..t]);
      var h' := Blit(g, x, y, sprite);
      forall i, j | 0 <= i < |g| && 0 <= j < |g[i]| ensures h[i][j] == h'[i][j] {
        if y <= i < y + t {
          assert sprite[..t][i - y] == sprite[i - y];
        }
      }
      GridExt(h, h');
    }
  }

  /** The demonstration in `main`: `ff 00 ff 00` drawn at (0, 0) on a blank
      32 x 64 screen lights cells 0..7 of rows 0 and 2, leaves every other
      cell 0, and reports no collision. */
  lemma DemoSprite()
    ensures var h := Blit(Blank(HEIGHT, WIDTH), 0, 0, [0xff, 0x00, 0xff, 0x00]);
            forall i, j :: 0 <= i < HEIGHT && 0 <= j < WIDTH ==>
              h[i][j] == if (i == 0 || i == 2) && j < 8 then 1 else 0
    ensures !BlitFlag(Blank(HEIGHT, WIDTH), 0, 0, [0xff, 0x00, 0xff, 0x00])
  {
    BitsOfFullAndEmpty();
    var g := Blank(HEIGHT, WIDTH);
    var s := [0xff, 0x00, 0xff, 0x00];
    assert !RowCollides(g[3], 0, s[3]);
  }

  /** A full row drawn from column 60 of a blank 64-column screen lights
      only columns 60..63: nothing wraps round to column 0. */
  lemma ClipAtRightEdge()
    ensures var h := Blit(Blank(HEIGHT, WIDTH), 60, 0, [0xff]);
            forall i, j :: 0 <= i < HEIGHT && 0 <= j < WIDTH ==>
              h[i][j] == if i == 0 && 60 <= j then 1 else 0
  {
    BitsOfFullAndEmpty();
  }

  lemma BitsOfFullAndEmpty()
    ensures forall i :: 0 <= i < 8 ==> Bit(0xff, i) == 1 && Bit(0, i) == 0
  {
    assert Bit(0xff, 0) == 1 && Bit(0xff, 1) == 1 && Bit(0xff, 2) == 1 && Bit(0xff, 3) == 1;
    assert Bit(0xff, 4) == 1 && Bit(0xff, 5) == 1 && Bit(0xff, 6) == 1 && Bit(0xff, 7) == 1;
    assert Bit(0, 0) == 0 && Bit(0, 1) == 0 && Bit(0, 2) == 0 && Bit(0, 3) == 0;
    assert Bit(0, 4) == 0 && Bit(0, 5) == 0 && Bit(0, 6) == 0 && Bit(0, 7) == 0;
  }
}

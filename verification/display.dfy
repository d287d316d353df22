/** The screen memory of Display.py: `mm_screen`, a 32 x 64 grid of 0/1
    cells that the interpreter draws sprites on and clears. The window, the
    renderer and `render_screen` are not part of this model. */
module Display {
  import opened Common
  import opened Sprite
  import ScreenTest

  class Display {
    var mmScreen: array2<int>

    ghost predicate Valid()
      reads this
    {
      mmScreen.Length0 == HEIGHT && mmScreen.Length1 == WIDTH
    }

    /** The screen memory as a grid value. */
    function Cells(): Grid
      reads this, mmScreen
    {
      ScreenTest.Cells(mmScreen)
    }

    /** The screen-memory part of `__init__`: a blank 32 x 64 grid. */
    constructor ()
      ensures Valid() && fresh(mmScreen)
      ensures Cells() == Blank(HEIGHT, WIDTH)
    {
      var grid := new int[HEIGHT, WIDTH]((i, j) => 0);
      GridExt(ScreenTest.Cells(grid), Blank(HEIGHT, WIDTH));
      mmScreen := grid;
    }

    /** `_int_to_bits_bitwise`, the same loop as in screen_test.py. */
    method IntToBitsBitwise(b: int) returns (bits: seq<int>)
      ensures |bits| == 8 && forall k :: 0 <= k < 8 ==> bits[k] == Bit(b, 7 - k)
    {
      bits := ScreenTest.IntToBitsBitwise(b);
    }

    /** `_update_screen_row` on the screen memory: a row past 31 raises
        ValueError. */
    method UpdateScreenRow(x: nat, y: nat, spriteRow: int) returns (r: Result<bool>)
      requires Valid()
      modifies mmScreen
      ensures Valid()
      ensures y >= HEIGHT ==> r == Err(ValueError) && Cells() == old(Cells())
      ensures y < HEIGHT ==> r == Ok(RowCollides(old(Cells())[y], x, spriteRow))
      ensures y < HEIGHT ==> Cells() == Blit(old(Cells()), x, y, [spriteRow])
    {
      r := ScreenTest.UpdateScreenRow(mmScreen, x, y, spriteRow);
    }

    /** `update_screen` on the screen memory. */
    method UpdateScreen(x: nat, y: nat, sprite: seq<int>) returns (vf: bool)
      requires Valid()
      modifies mmScreen
      ensures Valid()
      ensures Cells() == Blit(old(Cells()), x, y, sprite)
      ensures vf == BlitFlag(old(Cells()), x, y, sprite)
    {
      vf := ScreenTest.UpdateScreen(mmScreen, x, y, sprite);
    }

    /** The screen-memory part of `clear_screen`: a new blank grid replaces
        the old one. */
    method ClearScreen()
      modifies this
      ensures Valid() && fresh(mmScreen)
      ensures Cells() == Blank(HEIGHT, WIDTH)
    {
      mmScreen := new int[HEIGHT, WIDTH]((i, j) => 0);
      GridExt(ScreenTest.Cells(mmScreen), Blank(HEIGHT, WIDTH));
    }
  }
}

/** Screen geometry of the game and its rectangle-in-playfield test (`check_bound`).
    Coordinates are screen pixels with y growing downwards. */
module Bounds {

  /** Window size in pixels (`WIDTH`, `HEIGHT`). */
  const Width: int := 800
  const Height: int := 600
  /** Height of the black ground band drawn along the bottom of the window; the
      playfield is the part of the screen above it. */
  const GroundBand: int := 200

  /** The integer part of a pygame `Rect`: position and size, with `right` and
      `bottom` derived from them. */
  datatype Rect = Rect(left: int, top: int, width: int, height: int) {

    function Right(): int { left + width }

    function Bottom(): int { top + height }

    /** `move_ip(dx, dy)`: the same rectangle translated by (dx, dy). */
    function Move(dx: int, dy: int): Rect {
      Rect(left + dx, top + dy, width, height)
    }

    /** Column x lies under the rectangle. */
    predicate SpansColumn(x: int) { left <= x < Right() }

    /** Row y lies under the rectangle. */
    predicate SpansRow(y: int) { top <= y < Bottom() }
  }

  /** Column x is on the screen. */
  predicate ScreenColumn(x: int) { 0 <= x < Width }

  /** Row y is above the ground band. */
  predicate PlayfieldRow(y: int) { 0 <= y < Height - GroundBand }

  /** `check_bound`: the pair (horizontal, vertical) of "inside" verdicts. The
      first is false exactly when the rectangle sticks out to the left or right
      of the window, the second exactly when it sticks out above the window or
      into the ground band. */
  function CheckBound(obj: Rect): (r: (bool, bool))
    ensures !r.0 <==> obj.left < 0 || obj.Right() > Width
    ensures !r.1 <==> obj.top < 0 || obj.Bottom() > Height - GroundBand
  {
    var yoko := if obj.left < 0 || Width < obj.Right() then false else true;
    var tate := if obj.top < 0 || Height - GroundBand < obj.Bottom() then false else true;
    (yoko, tate)
  }

  /** Both verdicts of `check_bound` say "inside". */
  predicate InBounds(obj: Rect) { CheckBound(obj) == (true, true) }

  /** For a rectangle of positive size, each verdict of `check_bound` says
      exactly that every pixel column (row) the rectangle covers lies on the
      screen (above the ground band). */
  lemma CheckBoundIsContainment(obj: Rect)
    requires obj.width > 0 && obj.height > 0
    ensures CheckBound(obj).0 <==> forall x :: obj.SpansColumn(x) ==> ScreenColumn(x)
    ensures CheckBound(obj).1 <==> forall y :: obj.SpansRow(y) ==> PlayfieldRow(y)
  {
    if !CheckBound(obj).0 {
      var x := if obj.left < 0 then obj.left else obj.Right() - 1;
      assert obj.SpansColumn(x) && !ScreenColumn(x);
    }
    if !CheckBound(obj).1 {
      var y := if obj.top < 0 then obj.top else obj.Bottom() - 1;
      assert obj.SpansRow(y) && !PlayfieldRow(y);
    }
  }
}

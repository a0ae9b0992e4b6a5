/**
 * The placement arithmetic of the associator's `CentreWindow`: centre a
 * window on its parent (or on the screen when it has none), then pull it
 * back onto the screen.  The window system calls become parameters: the
 * screen size, the window's rectangle and the parent's rectangle if there
 * is a parent; the result is what is handed to `MoveWindow`.
 */
module Associator {
  import opened Wrappers

  /** A RECT: left, top, right and bottom edges. */
  datatype Rect = Rect(left: int, top: int, right: int, bottom: int)

  /** The arguments of the `MoveWindow` call. */
  datatype Placement = Placement(x: int, y: int, width: int, height: int)

  /** C's `n / 2`, which truncates toward zero (Dafny's `/` rounds toward negative infinity). */
  function Div2(n: int): (h: int)
    ensures 0 <= n ==> 0 <= n - 2 * h <= 1
    ensures n < 0 ==> -1 <= n - 2 * h <= 0
  {
    if n >= 0 then n / 2 else -((-n) / 2)
  }

  /** `((hi - lo) - size) / 2 + lo`: the start that centres `size` units between `lo` and `hi`. */
  function CentreStart(lo: int, hi: int, size: int): int {
    Div2((hi - lo) - size) + lo
  }

  /** The two clamps on one axis: not before 0, then not past the end of the screen. */
  function Clamp(start: int, size: int, screen: int): int {
    var s := if start < 0 then 0 else start;
    if s + size > screen then screen - size else s
  }

  /** Where `CentreWindow` moves the window. */
  function Centred(screenWidth: int, screenHeight: int, window: Rect, parent: Option<Rect>): (p: Placement)
    ensures p.width == window.right - window.left && p.height == window.bottom - window.top
  {
    var reference := parent.GetOr(Rect(0, 0, screenWidth, screenHeight));
    var width := window.right - window.left;
    var height := window.bottom - window.top;
    Placement(Clamp(CentreStart(reference.left, reference.right, width), width, screenWidth),
              Clamp(CentreStart(reference.top, reference.bottom, height), height, screenHeight),
              width, height)
  }

  /**
   * The centred start leaves margins on the two sides that differ by at
   * most one unit; the right-hand one is the larger when the slack is odd
   * and positive, the left-hand one when it is odd and negative.
   */
  lemma CentreStartBalancesMargins(lo: int, hi: int, size: int)
    ensures var s := CentreStart(lo, hi, size);
      var before, after := s - lo, hi - (s + size);
      (hi - lo - size >= 0 ==> 0 <= after - before <= 1) &&
      (hi - lo - size < 0 ==> -1 <= after - before <= 0)
  {
  }

  /** After the clamps the window never reaches past the end of the screen. */
  lemma ClampFitsScreen(start: int, size: int, screen: int)
    ensures Clamp(start, size, screen) + size <= screen
  {
  }

  /** The start is never negative when the window is no larger than the screen. */
  lemma ClampNotNegative(start: int, size: int, screen: int)
    requires size <= screen
    ensures Clamp(start, size, screen) >= 0
  {
  }

  /** A start that already keeps the window on the screen is left as it is. */
  lemma ClampKeepsFittingStart(start: int, size: int, screen: int)
    requires 0 <= start <= screen - size
    ensures Clamp(start, size, screen) == start
  {
  }

  /** A window larger than the screen is put at `screen - size`, left of or above the origin. */
  lemma ClampOversized(start: int, size: int, screen: int)
    requires size > screen
    ensures Clamp(start, size, screen) == screen - size < 0
  {
  }

  /** Without a parent the window is centred on the screen, as if the screen were its parent. */
  lemma NoParentCentresOnScreen(screenWidth: int, screenHeight: int, window: Rect)
    ensures Centred(screenWidth, screenHeight, window, None) ==
            Centred(screenWidth, screenHeight, window, Some(Rect(0, 0, screenWidth, screenHeight)))
  {
  }

  /**
   * `CentreWindow`: the size of the window, the centred position, the two
   * clamps on each axis, and TRUE.
   */
  method CentreWindow(screenWidth: int, screenHeight: int, window: Rect, parent: Option<Rect>)
    returns (moved: Placement, result: bool)
    ensures moved == Centred(screenWidth, screenHeight, window, parent)
    ensures moved.width == window.right - window.left && moved.height == window.bottom - window.top
    ensures moved.x + moved.width <= screenWidth && moved.y + moved.height <= screenHeight
    ensures moved.width <= screenWidth ==> moved.x >= 0
    ensures moved.height <= screenHeight ==> moved.y >= 0
    ensures result
  {
    var rectP: Rect;
    if parent.Some? {
      rectP := parent.value;
    } else {
      rectP := Rect(0, 0, screenWidth, screenHeight);
    }
    var width := window.right - window.left;
    var height := window.bottom - window.top;
    var x := Div2((rectP.right - rectP.left) - width) + rectP.left;
    var y := Div2((rectP.bottom - rectP.top) - height) + rectP.top;
    if x < 0 {
      x := 0;
    }
    if y < 0 {
      y := 0;
    }
    if x + width > screenWidth {
      x := screenWidth - width;
    }
    if y + height > screenHeight {
      y := screenHeight - height;
    }
    moved := Placement(x, y, width, height);
    result := true;
  }
}

/** The window's locked aspect ratio: 16 to 9, in whole pixels, never below a minimum size. */
module WindowPolicy {
  datatype Size = Size(width: int, height: int)

  const MINIMUM := Size(640, 360)

  function Max(a: int, b: int): int {
    if a < b then b else a
  }

  function Abs(x: int): nat {
    if x < 0 then -x else x
  }

  // ---------------------------------------------------------------------------------------------
  // The specification

  function Clamped(s: Size): (r: Size)
    ensures r.width >= MINIMUM.width && (s.width >= MINIMUM.width ==> r.width == s.width)
    ensures r.height >= MINIMUM.height && (s.height >= MINIMUM.height ==> r.height == s.height)
    ensures (s.width < MINIMUM.width ==> r.width == MINIMUM.width)
    ensures (s.height < MINIMUM.height ==> r.height == MINIMUM.height)
  {
    Size(Max(s.width, MINIMUM.width), Max(s.height, MINIMUM.height))
  }

  /** A non-negative quotient rounded to the nearest integer, halves up. */
  function Rounded(n: nat, d: nat): (r: nat)
    requires d > 0
    ensures 2 * n - d < 2 * d * r <= 2 * n + d
  {
    var r := (2 * n + d) / (2 * d);
    assert 2 * d * r == 2 * n + d - (2 * n + d) % (2 * d);
    r
  }

  function WidthFromHeight(height: int): int
    requires height >= MINIMUM.height
  {
    Max(MINIMUM.width, Rounded(height * 16, 9))
  }

  function HeightFromWidth(width: int): int
    requires width >= MINIMUM.width
  {
    Max(MINIMUM.height, Rounded(width * 9, 16))
  }

  /** The dimension that decides: the one that changed more, or on a tie the one that disturbs the other less. */
  predicate WidthDecides(requested: Size, previous: Size)
    requires requested == Clamped(requested)
  {
    var dw, dh := Abs(requested.width - previous.width), Abs(requested.height - previous.height);
    dw > dh
    || (dw == dh
        && Abs(HeightFromWidth(requested.width) - requested.height)
           <= Abs(WidthFromHeight(requested.height) - requested.width))
  }

  function Lock(requested: Size, previous: Size): Size {
    var r, p := Clamped(requested), Clamped(previous);
    if WidthDecides(r, p) then r.(height := HeightFromWidth(r.width)) else r.(width := WidthFromHeight(r.height))
  }

  // ---------------------------------------------------------------------------------------------
  // The laws

  /** Rounding never falls below the minimum, so the clamps inside the derivations do not bend the ratio. */
  lemma DerivedExact(s: Size)
    requires s == Clamped(s)
    ensures HeightFromWidth(s.width) == Rounded(s.width * 9, 16)
    ensures WidthFromHeight(s.height) == Rounded(s.height * 16, 9)
  {
  }

  /**
   For any sizes the result is at least the minimum, keeps the deciding dimension of the request, and the other
   one is the nearest whole number to the exact ratio.
   */
  lemma LockIsOnRatio(requested: Size, previous: Size)
    ensures var r := Lock(requested, previous);
      r.width >= MINIMUM.width && r.height >= MINIMUM.height
      && if WidthDecides(Clamped(requested), Clamped(previous))
         then r.width == Clamped(requested).width && -16 <= 2 * (16 * r.height - 9 * r.width) <= 16
         else r.height == Clamped(requested).height && -9 <= 2 * (9 * r.width - 16 * r.height) <= 9
  {
    DerivedExact(Clamped(requested));
  }

  /** The width alone, or the height alone, of `r` kept, and the other dimension the nearest to the exact ratio. */
  function ByWidth(r: Size): Size
    requires r.width >= 0
  {
    Size(r.width, Rounded(r.width * 9, 16))
  }

  function ByHeight(r: Size): Size
    requires r.height >= 0
  {
    Size(Rounded(r.height * 16, 9), r.height)
  }

  function Change(x: int, y: int): int {
    if x < y then y - x else x - y
  }

  /**
   Which dimension decides, on the clamped sizes: the one that changed more, as when one edge is dragged, keeps what was
   requested; on a tie the one whose derived change to the other is no larger, the width when both are equal.
   */
  lemma LockKeepsDragged(requested: Size, previous: Size)
    ensures var r, p := Clamped(requested), Clamped(previous);
      var wider, higher := Change(r.width, p.width), Change(r.height, p.height);
      Lock(requested, previous)
      == if wider > higher then ByWidth(r)
         else if higher > wider then ByHeight(r)
         else if Change(ByWidth(r).height, r.height) <= Change(ByHeight(r).width, r.width) then ByWidth(r)
         else ByHeight(r)
  {
    hide Rounded;
    DerivedExact(Clamped(requested));
  }

  /** A width derived from a height derives that height back. */
  lemma HeightReturns(height: int)
    requires height >= MINIMUM.height
    ensures HeightFromWidth(WidthFromHeight(height)) == height
  {
    var w := WidthFromHeight(height);
    DerivedExact(Size(w, height));
  }

  /** Locking again changes nothing. */
  lemma LockIdempotent(requested: Size, previous: Size)
    ensures var r := Lock(requested, previous); Lock(r, r) == r
  {
    hide Rounded;
    var r := Lock(requested, previous);
    LockIsOnRatio(requested, previous);
    assert Clamped(r) == r;
    if !WidthDecides(Clamped(requested), Clamped(previous)) {
      HeightReturns(r.height);
    }
  }

  // ---------------------------------------------------------------------------------------------
  // The code

  /** The window as the platform reports it, and the size the policy remembers. */
  class Display {
    var window: Size
    var ready: bool
    var minimized: bool
    var lastWindowSize: Size
    var resizes: nat

    constructor (window: Size, ready: bool, minimized: bool)
      ensures this.window == window && this.ready == ready && this.minimized == minimized
      ensures lastWindowSize == Size(0, 0) && resizes == 0
    {
      this.window, this.ready, this.minimized := window, ready, minimized;
      lastWindowSize, resizes := Size(0, 0), 0;
    }

    method CacheWindowSize(size: Size)
      modifies this`lastWindowSize
      ensures lastWindowSize == Clamped(size)
    {
      lastWindowSize := Clamped(size);
    }

    method LockAspectRatio(requested: Size, previous: Size) returns (size: Size)
      ensures size == Lock(requested, previous)
    {
      hide Rounded;
      size := Clamped(requested);
      var before := Clamped(previous);
      var widthDelta, heightDelta := Abs(size.width - before.width), Abs(size.height - before.height);
      var widthFromHeight, heightFromWidth := WidthFromHeight(size.height), HeightFromWidth(size.width);
      if widthDelta > heightDelta {
        size := size.(height := heightFromWidth);
      } else if heightDelta > widthDelta {
        size := size.(width := widthFromHeight);
      } else {
        var widthDriven, heightDriven := Abs(heightFromWidth - size.height), Abs(widthFromHeight - size.width);
        if widthDriven <= heightDriven {
          size := size.(height := heightFromWidth);
        } else {
          size := size.(width := widthFromHeight);
        }
      }
      size := Clamped(size);
    }

    /** One pass of the policy, over a window that is shown; `resizes` counts the calls that resize the window. */
    method UpdateWindowPolicy()
      modifies this`window, this`lastWindowSize, this`resizes
      ensures if ready && !minimized then window == Policy(old(window), old(lastWindowSize)) && lastWindowSize == window
              else window == old(window) && lastWindowSize == old(lastWindowSize)
      ensures resizes == old(resizes) + if window == old(window) then 0 else 1
    {
      hide Lock;
      if !ready || minimized {
        return;
      }
      var actualSize := window;
      if lastWindowSize.width <= 0 || lastWindowSize.height <= 0 {
        CacheWindowSize(actualSize);
      }
      var adjusted := LockAspectRatio(actualSize, lastWindowSize);
      if adjusted != actualSize {
        window := adjusted;
        resizes := resizes + 1;
        actualSize := adjusted;
      }
      LockIsOnRatio(old(window), Remembered(old(window), old(lastWindowSize)));
      CacheWindowSize(actualSize);
    }
  }

  function Remembered(window: Size, last: Size): Size {
    if last.width <= 0 || last.height <= 0 then Clamped(window) else last
  }

  /** The window after one pass. */
  function Policy(window: Size, last: Size): Size {
    Lock(window, Remembered(window, last))
  }

  /**
   One pass measures a change against the remembered size; with none remembered it changes nothing in the dimension that
   disturbs the other less.
   */
  lemma PolicyKeepsDragged(window: Size, last: Size)
    ensures last.width > 0 && last.height > 0 ==> Policy(window, last) == Lock(window, last)
    ensures last.width <= 0 || last.height <= 0 ==>
              Policy(window, last)
              == if Change(ByWidth(Clamped(window)).height, Clamped(window).height)
                    <= Change(ByHeight(Clamped(window)).width, Clamped(window).width)
                 then ByWidth(Clamped(window)) else ByHeight(Clamped(window))
  {
    hide Rounded, Lock;
    LockKeepsDragged(window, Remembered(window, last));
  }

  /** One pass locks the window; the next passes over an untouched window leave it alone. */
  lemma PolicySettles(window: Size, last: Size)
    ensures var w := Policy(window, last); Policy(w, w) == w == Clamped(w)
  {
    hide Lock;
    LockIsOnRatio(window, Remembered(window, last));
    LockIdempotent(window, Remembered(window, last));
  }
}

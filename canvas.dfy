/**
 * The canvas-resize helpers: each computes a target size from client sizes and
 * a multiplier, assigns it to the canvas when it differs, and reports whether
 * it did.
 */
module Canvases {
  import opened Wrappers

  const TwoTo31: int := 0x8000_0000
  const TwoTo32: int := 0x1_0000_0000

  /** A real truncated toward zero. */
  function Truncate(r: real): (n: int)
    ensures r >= 0.0 ==> n as real <= r < n as real + 1.0
    ensures r < 0.0 ==> n as real - 1.0 < r <= n as real
  {
    if r >= 0.0 then r.Floor else -((-r).Floor)
  }

  /** An integer wrapped into the signed 32-bit range. */
  function ToInt32(n: int): (m: int)
    ensures -TwoTo31 <= m < TwoTo31
    ensures (m - n) % TwoTo32 == 0
    ensures -TwoTo31 <= n < TwoTo31 ==> m == n
  {
    var low := n % TwoTo32;
    if low >= TwoTo31 then low - TwoTo32 else low
  }

  /** The value of `r | 0`: truncation toward zero, then wrap-around to 32 bits. */
  function OrZero(r: real): (n: int)
    ensures -TwoTo31 <= n < TwoTo31
    ensures (n - Truncate(r)) % TwoTo32 == 0
  {
    ToInt32(Truncate(r))
  }

  /** Sizes the multiplied client size reaches are kept exactly, up to truncation. */
  lemma OrZeroInRange(r: real)
    requires 0.0 <= r < TwoTo31 as real
    ensures OrZero(r) == r.Floor
  {
  }

  /** Past 2^31 pixels the size wraps around to a negative number. */
  lemma OrZeroWraps()
    ensures OrZero(2147483648.5) == -2147483648
  {
    assert Truncate(2147483648.5) == 2147483648;
  }

  datatype Size = Size(width: int, height: int)

  /** The sizes a canvas has before any is assigned, and stores for a value it cannot keep. */
  const DefaultWidth: nat := 300
  const DefaultHeight: nat := 150

  /**
   * The value a canvas's `width` or `height` holds after assigning `v`: the
   * attribute is an unsigned 32-bit integer, so `v` is first taken modulo
   * 2^32, and a value above 2^31 - 1 is replaced by the attribute's default.
   */
  function Stored(v: int, default: nat): (n: nat)
    ensures 0 <= v < TwoTo31 ==> n == v
    ensures -TwoTo31 <= v < 0 ==> n == default
    ensures n < TwoTo31 || n == default
  {
    var u := v % TwoTo32;
    if u < TwoTo31 then u else default
  }

  /** Assigning a size and reading it back gives the size exactly when it is not negative (for 32-bit sizes). */
  lemma StoredRoundTrip(v: int, default: nat)
    requires -TwoTo31 <= v < TwoTo31 && default < TwoTo31
    ensures Stored(v, default) == v <==> v >= 0
  {
  }

  /** The size a resize helper assigns: each client dimension times the multiplier, through `| 0`. */
  function Target(clientWidth: int, clientHeight: int, multiplier: real): (s: Size)
    ensures -TwoTo31 <= s.width < TwoTo31 && -TwoTo31 <= s.height < TwoTo31
    ensures multiplier == 1.0 && 0 <= clientWidth < TwoTo31 && 0 <= clientHeight < TwoTo31 ==>
              s == Size(clientWidth, clientHeight)
    ensures 0.0 <= clientWidth as real * multiplier < TwoTo31 as real ==>
              s.width == (clientWidth as real * multiplier).Floor
    ensures 0.0 <= clientHeight as real * multiplier < TwoTo31 as real ==>
              s.height == (clientHeight as real * multiplier).Floor
  {
    var s := Size(OrZero(clientWidth as real * multiplier), OrZero(clientHeight as real * multiplier));
    OrZeroTarget(clientWidth, multiplier);
    OrZeroTarget(clientHeight, multiplier);
    s
  }

  lemma OrZeroTarget(client: int, multiplier: real)
    ensures 0.0 <= client as real * multiplier < TwoTo31 as real ==>
              OrZero(client as real * multiplier) == (client as real * multiplier).Floor
  {
    if 0.0 <= client as real * multiplier < TwoTo31 as real {
      OrZeroInRange(client as real * multiplier);
    }
  }

  /** An element with a laid-out client size. */
  class Element {
    var clientWidth: int
    var clientHeight: int

    constructor(clientWidth: int, clientHeight: int)
      ensures this.clientWidth == clientWidth && this.clientHeight == clientHeight
    {
      this.clientWidth := clientWidth;
      this.clientHeight := clientHeight;
    }
  }

  /** A canvas: its drawing-buffer size, its client size, and its parent element if it has one. */
  class Canvas {
    var width: nat
    var height: nat
    var clientWidth: int
    var clientHeight: int
    var parentElement: Element?

    /** A canvas whose size has not been assigned. */
    constructor(clientWidth: int, clientHeight: int, parentElement: Element?)
      ensures width == DefaultWidth && height == DefaultHeight
      ensures this.clientWidth == clientWidth && this.clientHeight == clientHeight
      ensures this.parentElement == parentElement
    {
      width := DefaultWidth;
      height := DefaultHeight;
      this.clientWidth := clientWidth;
      this.clientHeight := clientHeight;
      this.parentElement := parentElement;
    }
  }

  /**
   * Assigns `target` to the canvas when it differs from the canvas's size, and
   * says whether it did; a negative target stores the default size instead.
   */
  method ApplySize(canvas: Canvas, target: Size) returns (changed: bool)
    modifies canvas`width, canvas`height
    ensures changed <==> old(canvas.width) != target.width || old(canvas.height) != target.height
    ensures changed ==> canvas.width == Stored(target.width, DefaultWidth) && canvas.height == Stored(target.height, DefaultHeight)
    ensures !changed ==> canvas.width == old(canvas.width) == target.width && canvas.height == old(canvas.height) == target.height
  {
    if canvas.width != target.width || canvas.height != target.height {
      canvas.width := Stored(target.width, DefaultWidth);
      canvas.height := Stored(target.height, DefaultHeight);
      return true;
    }
    return false;
  }

  /**
   * Resizes the canvas's drawing buffer to its own client size times
   * `multiplier`. A target that is not negative is then the canvas's size; a
   * negative one leaves the default size.
   */
  method ResizeCanvasToDisplaySize(canvas: Canvas, multiplier: real := 1.0) returns (changed: bool)
    modifies canvas`width, canvas`height
    ensures var t := Target(canvas.clientWidth, canvas.clientHeight, multiplier);
      && (changed <==> old(canvas.width) != t.width || old(canvas.height) != t.height)
      && canvas.width == Stored(t.width, DefaultWidth) && canvas.height == Stored(t.height, DefaultHeight)
      && (t.width >= 0 && t.height >= 0 ==> canvas.width == t.width && canvas.height == t.height)
  {
    var width := OrZero(canvas.clientWidth as real * multiplier);
    var height := OrZero(canvas.clientHeight as real * multiplier);
    assert Size(width, height) == Target(canvas.clientWidth, canvas.clientHeight, multiplier);
    changed := ApplySize(canvas, Size(width, height));
  }

  /**
   * Resizes the canvas's drawing buffer to its parent element's client size
   * times `multiplier`; a canvas without a parent fails, as reading the
   * parent's size throws, and is left as it was.
   */
  method ResizeCanvasToFitElement(canvas: Canvas, multiplier: real := 1.0) returns (r: Result<bool>)
    modifies canvas`width, canvas`height
    ensures canvas.parentElement == null <==> r.Failure?
    ensures canvas.parentElement == null ==> canvas.width == old(canvas.width) && canvas.height == old(canvas.height)
    ensures canvas.parentElement != null ==>
      var t := Target(canvas.parentElement.clientWidth, canvas.parentElement.clientHeight, multiplier);
      && (r.value <==> old(canvas.width) != t.width || old(canvas.height) != t.height)
      && canvas.width == Stored(t.width, DefaultWidth) && canvas.height == Stored(t.height, DefaultHeight)
      && (t.width >= 0 && t.height >= 0 ==> canvas.width == t.width && canvas.height == t.height)
  {
    var parent := canvas.parentElement;
    if parent == null {
      return Failure("TypeError: the canvas has no parent element");
    }
    var width := OrZero(parent.clientWidth as real * multiplier);
    var height := OrZero(parent.clientHeight as real * multiplier);
    assert Size(width, height) == Target(parent.clientWidth, parent.clientHeight, multiplier);
    var changed := ApplySize(canvas, Size(width, height));
    return Success(changed);
  }

  /**
   * A second display-size resize right after the first, with the client size
   * unchanged, reports a change exactly when the target is negative, as the
   * canvas then holds its default size instead.
   */
  method ResizeToDisplayTwice(canvas: Canvas, multiplier: real) returns (first: bool, second: bool)
    modifies canvas`width, canvas`height
    ensures var t := Target(canvas.clientWidth, canvas.clientHeight, multiplier);
      && (second <==> t.width < 0 || t.height < 0)
      && canvas.width == Stored(t.width, DefaultWidth) && canvas.height == Stored(t.height, DefaultHeight)
  {
    first := ResizeCanvasToDisplaySize(canvas, multiplier);
    var t := Target(canvas.clientWidth, canvas.clientHeight, multiplier);
    StoredRoundTrip(t.width, DefaultWidth);
    StoredRoundTrip(t.height, DefaultHeight);
    second := ResizeCanvasToDisplaySize(canvas, multiplier);
  }

  /** The same for two fit-to-parent resizes with the parent's size unchanged. */
  method ResizeToFitTwice(canvas: Canvas, multiplier: real) returns (first: Result<bool>, second: Result<bool>)
    modifies canvas`width, canvas`height
    ensures canvas.parentElement == null ==> first.Failure? && second.Failure?
    ensures canvas.parentElement != null ==>
      var t := Target(canvas.parentElement.clientWidth, canvas.parentElement.clientHeight, multiplier);
      && second.Success? && (second.value <==> t.width < 0 || t.height < 0)
  {
    first := ResizeCanvasToFitElement(canvas, multiplier);
    if canvas.parentElement != null {
      var t := Target(canvas.parentElement.clientWidth, canvas.parentElement.clientHeight, multiplier);
      StoredRoundTrip(t.width, DefaultWidth);
      StoredRoundTrip(t.height, DefaultHeight);
    }
    second := ResizeCanvasToFitElement(canvas, multiplier);
  }
}

/** Integer geometry of one density bucket: converting a reference dimension
    from the reference DPI to a bucket DPI, fitting cropped content into a box
    by its long axis, and centring the fitted content on a canvas.

    The program computes these with `float` arithmetic followed by `int()`.
    Here they are exact integer arithmetic: on non-negative operands `int()`
    truncation is floor division, and where an operand may be negative
    (the centring offset) truncation toward zero is written out. */
module Geometry {

  /** A width and a height in pixels. */
  datatype Size = Size(w: nat, h: nat)

  /** A paste position on a canvas. Signed: it is half of a difference of sizes. */
  datatype Offset = Offset(dx: int, dy: int)

  /** `int((float(ref) / refDpi) * dpi)`: a reference dimension converted from
      `refDpi` to `dpi`, rounded down. */
  function Scale(ref: nat, refDpi: nat, dpi: nat): (r: nat)
    requires refDpi > 0
    ensures r * refDpi <= ref * dpi < (r + 1) * refDpi
  {
    ref * dpi / refDpi
  }

  lemma MulMonotone(a: nat, b: nat, k: nat)
    requires a <= b
    ensures a * k <= b * k
  {
  }

  lemma CancelLess(x: int, y: int, k: nat)
    requires k > 0 && x * k < y * k
    ensures x < y
  {
  }

  /** A larger reference dimension never scales to a smaller one. */
  lemma ScaleMonotone(a: nat, b: nat, refDpi: nat, dpi: nat)
    requires refDpi > 0 && a <= b
    ensures Scale(a, refDpi, dpi) <= Scale(b, refDpi, dpi)
  {
    var p, q := Scale(a, refDpi, dpi), Scale(b, refDpi, dpi);
    MulMonotone(a, b, dpi);
    assert p * refDpi < (q + 1) * refDpi;
    CancelLess(p, q + 1, refDpi);
  }

  /** Converting to a DPI no higher than the reference never enlarges. */
  lemma ScaleShrinks(ref: nat, refDpi: nat, dpi: nat)
    requires 0 < refDpi && dpi <= refDpi
    ensures Scale(ref, refDpi, dpi) <= ref
  {
    var p := Scale(ref, refDpi, dpi);
    MulMonotone(dpi, refDpi, ref);
    assert p * refDpi < (ref + 1) * refDpi;
    CancelLess(p, ref + 1, refDpi);
  }

  /** At the reference DPI itself the reference dimension comes back unchanged. */
  lemma ScaleAtReference(ref: nat, refDpi: nat)
    requires refDpi > 0
    ensures Scale(ref, refDpi, refDpi) == ref
  {
    var p := Scale(ref, refDpi, refDpi);
    assert p * refDpi < (ref + 1) * refDpi;
    CancelLess(p, ref + 1, refDpi);
    assert ref * refDpi < (p + 1) * refDpi;
    CancelLess(ref, p + 1, refDpi);
  }

  /** The fitted size of `content` in `box`: the content's long axis takes the
      box's length on that axis, and the other axis keeps the content's aspect
      ratio, rounded down. A square content counts as wide. */
  function Fit(box: Size, content: Size): (r: Size)
    requires content.w > 0 && content.h > 0
    ensures content.w >= content.h ==>
      r.w == box.w && r.h * content.w <= box.h * content.h < (r.h + 1) * content.w
    ensures content.w < content.h ==>
      r.h == box.h && r.w * content.h <= box.w * content.w < (r.w + 1) * content.h
    ensures r.w <= box.w && r.h <= box.h
  {
    if content.w >= content.h then
      ScaleShrinks(box.h, content.w, content.h);
      Size(box.w, Scale(box.h, content.w, content.h))
    else
      ScaleShrinks(box.w, content.h, content.w);
      Size(Scale(box.w, content.h, content.w), box.h)
  }

  /** Square content fills the whole box. */
  lemma FitSquare(box: Size, n: nat)
    requires n > 0
    ensures Fit(box, Size(n, n)) == box
  {
    ScaleAtReference(box.h, n);
  }

  /** `int(float(d) / 2)`: half of `d`, truncated toward zero (not floored). */
  function HalfTowardZero(d: int): (r: int)
    ensures 0 <= d ==> 0 <= r && 2 * r <= d <= 2 * r + 1
    ensures d < 0 ==> r <= 0 && 2 * r - 1 <= d <= 2 * r
  {
    if d >= 0 then d / 2 else -((-d) / 2)
  }

  /** The position that centres `inner` on `canvas`. When `inner` fits, the
      offset is non-negative, the content ends inside the canvas, and the
      margin after it is the margin before it or one pixel more. */
  function CenterOffset(canvas: Size, inner: Size): (r: Offset)
    ensures inner.w <= canvas.w ==>
      0 <= r.dx && r.dx + inner.w <= canvas.w && r.dx <= canvas.w - inner.w - r.dx <= r.dx + 1
    ensures inner.h <= canvas.h ==>
      0 <= r.dy && r.dy + inner.h <= canvas.h && r.dy <= canvas.h - inner.h - r.dy <= r.dy + 1
    ensures inner.w > canvas.w ==> r.dx <= 0 && canvas.w - inner.w - r.dx <= r.dx <= canvas.w - inner.w - r.dx + 1
    ensures inner.h > canvas.h ==> r.dy <= 0 && canvas.h - inner.h - r.dy <= r.dy <= canvas.h - inner.h - r.dy + 1
  {
    Offset(HalfTowardZero(canvas.w - inner.w), HalfTowardZero(canvas.h - inner.h))
  }

  /** The aspect policy on a wide and on a tall bounding box in a 90×90 box. */
  lemma FitExamples()
    ensures Fit(Size(90, 90), Size(100, 50)) == Size(90, 45)
    ensures Fit(Size(90, 90), Size(50, 100)) == Size(45, 90)
  {
  }
}

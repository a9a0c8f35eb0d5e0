/** The two image-space conventions of the calibration scripts: pixel
    coordinates have y growing downwards from the top row, calibration
    coordinates have y growing upwards from the bottom row. */
module PixelFrame {
  import opened Wrappers

  /** A point (x, y) in either frame. */
  type Point = (real, real)

  /** The calibration-frame points of `pxl` in an image `height` rows tall:
      the reflection itself, defined on every list of points. */
  function ToCal(pxl: seq<Point>, height: real): (cal: seq<Point>)
    ensures |cal| == |pxl|
  {
    seq(|pxl|, i requires 0 <= i < |pxl| => (pxl[i].0, height - pxl[i].1))
  }

  /** The pixel-frame points of `cal` in an image `height` rows tall. */
  function ToPxl(cal: seq<Point>, height: real): (pxl: seq<Point>)
    ensures |pxl| == |cal|
  {
    seq(|cal|, i requires 0 <= i < |cal| => (cal[i].0, -(cal[i].1 - height)))
  }

  /** `pxl_to_cal`: on a copy, `y *= -1`, then `y += img_height`. An empty
      list converts to an array of shape `(0,)`, which has no second axis, so
      `pxl[:, 1]` raises IndexError. */
  method PxlToCal(pxl: seq<Point>, height: real) returns (cal: Result<seq<Point>, string>)
    ensures cal.Failure? <==> |pxl| == 0
    ensures cal.Failure? ==> cal.error == "IndexError"
    ensures cal.Success? ==> cal.value == ToCal(pxl, height)
  {
    if |pxl| == 0 {
      return Failure("IndexError");
    }
    var y := new real[|pxl|](i requires 0 <= i < |pxl| => pxl[i].1);
    for i := 0 to y.Length
      invariant forall k :: 0 <= k < i ==> y[k] == pxl[k].1 * -1.0
      invariant forall k :: i <= k < y.Length ==> y[k] == pxl[k].1
    {
      y[i] := y[i] * -1.0;
    }
    for i := 0 to y.Length
      invariant forall k :: 0 <= k < i ==> y[k] == pxl[k].1 * -1.0 + height
      invariant forall k :: i <= k < y.Length ==> y[k] == pxl[k].1 * -1.0
    {
      y[i] := y[i] + height;
    }
    cal := Success(seq(|pxl|, i requires 0 <= i < |pxl| reads y => (pxl[i].0, y[i])));
  }

  /** `cal_to_pxl`: on a copy, `y -= img_height`, then `y *= -1`. */
  method CalToPxl(cal: seq<Point>, height: real) returns (pxl: seq<Point>)
    ensures pxl == ToPxl(cal, height)
  {
    var y := new real[|cal|](i requires 0 <= i < |cal| => cal[i].1);
    for i := 0 to y.Length
      invariant forall k :: 0 <= k < i ==> y[k] == cal[k].1 - height
      invariant forall k :: i <= k < y.Length ==> y[k] == cal[k].1
    {
      y[i] := y[i] - height;
    }
    for i := 0 to y.Length
      invariant forall k :: 0 <= k < i ==> y[k] == (cal[k].1 - height) * -1.0
      invariant forall k :: i <= k < y.Length ==> y[k] == cal[k].1 - height
    {
      y[i] := y[i] * -1.0;
    }
    pxl := seq(|cal|, i requires 0 <= i < |cal| reads y => (cal[i].0, y[i]));
  }

  /** Converting to the calibration frame and back gives the pixels back. */
  lemma {:induction false} PxlCalRoundTrip(pxl: seq<Point>, height: real)
    ensures ToPxl(ToCal(pxl, height), height) == pxl
  {
  }

  /** Converting to the pixel frame and back gives the points back. */
  lemma {:induction false} CalPxlRoundTrip(cal: seq<Point>, height: real)
    ensures ToCal(ToPxl(cal, height), height) == cal
  {
  }

  /** Both conversions are the same reflection about the line y = height / 2:
      x is kept, y is mirrored. */
  lemma {:induction false} SameReflection(pts: seq<Point>, height: real)
    ensures ToCal(pts, height) == ToPxl(pts, height)
    ensures forall i :: 0 <= i < |pts| ==>
              ToCal(pts, height)[i].0 == pts[i].0 &&
              ToCal(pts, height)[i].1 - height / 2.0 == height / 2.0 - pts[i].1
  {
  }
}

/** One pass over a depth image with a per-pixel mask, computing the number of masked pixels and
    the smallest masked depth: the reduction both detectors perform with numpy
    (`np.count_nonzero(mask)` and `np.min(depths[mask])`). */
module Grid {
  import opened Wrappers

  /** Rows of raw unsigned depth samples; pixel (px, py) is `image[py][px]`. */
  type DepthImage = seq<seq<nat>>

  /** A per-pixel mask over (px, py, raw depth). */
  type Mask = (nat, nat, nat) -> bool

  /** Principal point and focal lengths of the depth stream. */
  datatype Intrinsics = Intrinsics(ppx: real, ppy: real, fx: real, fy: real)

  /** One captured frame: the raw depth image and its intrinsics (the colour image is not modelled). */
  datatype Frame = Frame(depth: DepthImage, intrinsics: Intrinsics)

  /** Zero focal lengths make deprojection undefined. */
  predicate WellFormed(intr: Intrinsics)
  {
    intr.fx != 0.0 && intr.fy != 0.0
  }

  /** Pinhole deprojection of pixel (px, py) at depth `d`: X = (px - ppx) d / fx, Y = (py - ppy) d / fy. */
  function Deproject(intr: Intrinsics, px: nat, py: nat, d: real): (real, real)
    requires WellFormed(intr)
  {
    ((px as real - intr.ppx) * d / intr.fx, (py as real - intr.ppy) * d / intr.fy)
  }

  /** `depth_image.astype(float) / 1000.0`: raw units to meters. */
  function Meters(raw: nat): real
  {
    raw as real / 1000.0
  }

  predicate InImage(image: DepthImage, px: nat, py: nat)
  {
    py < |image| && px < |image[py]|
  }

  /** Pixel (px, py) comes before (x, y) in row-major order. */
  predicate Before(px: nat, py: nat, x: nat, y: nat)
  {
    py < y || (py == y && px < x)
  }

  /** Masked pixels among the first `x` of row `y`. */
  function RowCount(image: DepthImage, mask: Mask, y: nat, x: nat): nat
    requires y < |image| && x <= |image[y]|
  {
    if x == 0 then 0 else RowCount(image, mask, y, x - 1) + (if mask(x - 1, y, image[y][x - 1]) then 1 else 0)
  }

  /** Masked pixels in the first `y` rows. */
  function RowsCount(image: DepthImage, mask: Mask, y: nat): nat
    requires y <= |image|
  {
    if y == 0 then 0 else RowsCount(image, mask, y - 1) + RowCount(image, mask, y - 1, |image[y - 1]|)
  }

  /** Number of masked pixels in the whole image. */
  function CountMasked(image: DepthImage, mask: Mask): nat
  {
    RowsCount(image, mask, |image|)
  }

  /** `least` is the smallest depth in meters among the masked pixels before (x, y), or None
      exactly when there is no such pixel. */
  ghost predicate LeastBefore(image: DepthImage, mask: Mask, x: nat, y: nat, least: Option<real>)
  {
    && (least.None? <==>
          forall py: nat, px: nat :: InImage(image, px, py) && Before(px, py, x, y) ==> !mask(px, py, image[py][px]))
    && (least.Some? ==>
          forall py: nat, px: nat :: InImage(image, px, py) && Before(px, py, x, y) && mask(px, py, image[py][px]) ==>
            least.value <= Meters(image[py][px]))
    && (least.Some? ==>
          exists py: nat, px: nat :: InImage(image, px, py) && Before(px, py, x, y) && mask(px, py, image[py][px]) &&
            least.value == Meters(image[py][px]))
  }

  /** Folding one pixel into the running minimum. */
  function Step(least: Option<real>, accepted: bool, d: real): Option<real>
  {
    if !accepted then least
    else if least.None? || d < least.value then Some(d)
    else least
  }

  lemma StepKeepsLeast(image: DepthImage, mask: Mask, x: nat, y: nat, least: Option<real>)
    requires InImage(image, x, y) && LeastBefore(image, mask, x, y, least)
    ensures LeastBefore(image, mask, x + 1, y, Step(least, mask(x, y, image[y][x]), Meters(image[y][x])))
  {
    var least' := Step(least, mask(x, y, image[y][x]), Meters(image[y][x]));
    if mask(x, y, image[y][x]) && least'.Some? && least'.value == Meters(image[y][x]) {
      assert InImage(image, x, y) && Before(x, y, x + 1, y) && mask(x, y, image[y][x]) &&
             least'.value == Meters(image[y][x]);
    }
  }

  lemma RowDone(image: DepthImage, mask: Mask, y: nat, least: Option<real>)
    requires y < |image| && LeastBefore(image, mask, |image[y]|, y, least)
    ensures LeastBefore(image, mask, 0, y + 1, least)
  {
    forall py: nat, px: nat | InImage(image, px, py)
      ensures Before(px, py, 0, y + 1) <==> Before(px, py, |image[y]|, y)
    {
    }
  }

  /** The whole-image reduction: how many pixels the mask accepts and the smallest accepted depth. */
  method Scan(image: DepthImage, mask: Mask) returns (count: nat, least: Option<real>)
    ensures count == CountMasked(image, mask)
    ensures LeastBefore(image, mask, 0, |image|, least)
    ensures least.None? <==> count == 0
  {
    count := 0;
    least := None;
    var y := 0;
    while y < |image|
      invariant y <= |image|
      invariant count == RowsCount(image, mask, y)
      invariant LeastBefore(image, mask, 0, y, least)
      invariant least.None? <==> count == 0
    {
      var x := 0;
      while x < |image[y]|
        invariant x <= |image[y]|
        invariant count == RowsCount(image, mask, y) + RowCount(image, mask, y, x)
        invariant LeastBefore(image, mask, x, y, least)
        invariant least.None? <==> count == 0
      {
        var raw := image[y][x];
        StepKeepsLeast(image, mask, x, y, least);
        if mask(x, y, raw) {
          count := count + 1;
        }
        least := Step(least, mask(x, y, raw), Meters(raw));
        x := x + 1;
      }
      RowDone(image, mask, y, least);
      y := y + 1;
    }
  }
}

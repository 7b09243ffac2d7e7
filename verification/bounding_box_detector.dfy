/** Bounding-box detection: deprojects every depth pixel with the pinhole model and keeps the
    pixels with a positive depth whose (X, Y, Z) lies in a closed box; reports how many were kept
    and the nearest kept depth, or 4.0 m when none was. Projecting and drawing the box outline is
    not modelled. */
module BoundingBoxDetector {
  import opened Wrappers
  import opened Grid

  /** Module-level `MAX_RANGE_M`: the distance reported when the box is empty. */
  const MaxRangeM: real := 4.0

  /** `bounds`: ((x_min, y_min, z_min), (x_max, y_max, z_max)) in meters. */
  datatype Box = Box(xMin: real, yMin: real, zMin: real, xMax: real, yMax: real, zMax: real)

  /** `BoxDetection`. */
  datatype BoxDetection = BoxDetection(numValidPoints: nat, minDistance: real, boxName: string)

  /** The box mask at pixel (px, py) with depth `d` meters. */
  predicate InBox(box: Box, intr: Intrinsics, px: nat, py: nat, d: real)
    requires WellFormed(intr)
  {
    var (x, y) := Deproject(intr, px, py, d);
    && d > 0.0
    && box.xMin <= x <= box.xMax
    && box.yMin <= y <= box.yMax
    && box.zMin <= d <= box.zMax
  }

  /** `valid_mask` as a mask over (px, py, raw depth). */
  function BoxMask(box: Box, intr: Intrinsics): Mask
    requires WellFormed(intr)
  {
    (px: nat, py: nat, raw: nat) => InBox(box, intr, px, py, Meters(raw))
  }

  /** `get_bounding_box_detections`: the count of pixels in the box, the smallest of their depths
      (which lies in [z_min, z_max]) or 4.0 when there are none, and the given name. */
  method GetBoundingBoxDetections(f: Frame, box: Box, name: string) returns (r: BoxDetection)
    requires WellFormed(f.intrinsics)
    ensures r.boxName == name
    ensures r.numValidPoints == CountMasked(f.depth, BoxMask(box, f.intrinsics))
    ensures r.numValidPoints == 0 <==>
              forall py: nat, px: nat :: InImage(f.depth, px, py) ==> !InBox(box, f.intrinsics, px, py, Meters(f.depth[py][px]))
    ensures r.numValidPoints == 0 ==> r.minDistance == MaxRangeM
    ensures r.numValidPoints > 0 ==>
              forall py: nat, px: nat :: InImage(f.depth, px, py) && InBox(box, f.intrinsics, px, py, Meters(f.depth[py][px])) ==>
                r.minDistance <= Meters(f.depth[py][px])
    ensures r.numValidPoints > 0 ==>
              exists py: nat, px: nat :: InImage(f.depth, px, py) && InBox(box, f.intrinsics, px, py, Meters(f.depth[py][px])) &&
                r.minDistance == Meters(f.depth[py][px])
    ensures r.numValidPoints > 0 ==> box.zMin <= r.minDistance <= box.zMax
  {
    var mask := BoxMask(box, f.intrinsics);
    var count, least := Scan(f.depth, mask);
    forall py: nat, px: nat | InImage(f.depth, px, py)
      ensures Before(px, py, 0, |f.depth|)
    {
    }
    var minDistance := if least.Some? then least.value else MaxRangeM;
    r := BoxDetection(count, minDistance, name);
  }

  /** A pixel with no depth return (raw 0) is never in any box. */
  lemma ZeroDepthNeverInBox(box: Box, intr: Intrinsics, px: nat, py: nat)
    requires WellFormed(intr)
    ensures !BoxMask(box, intr)(px, py, 0)
  {
  }
}

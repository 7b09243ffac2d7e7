/** Angular sector detection: deprojects every depth pixel with the pinhole model, keeps the
    pixels whose range lies strictly inside the sector's range and whose azimuth and elevation lie
    in the sector's closed windows, and reports the nearest kept depth and how many were kept.
    `atan2` in degrees is the parameter `angle`; overlay drawing is not modelled. */
module AngularDetector {
  import opened Wrappers
  import opened Grid

  /** Module-level `MAX_RANGE_M`. */
  const MaxRangeM: real := 3.5

  /** A sector's angular windows (degrees) and range window (meters). */
  datatype AngularBounds = AngularBounds(
    azimuthCenter: real, azimuthSpan: real,
    elevationCenter: real, elevationSpan: real,
    minRange: real, maxRange: real)

  /** `AngularBounds(azimuth_center, azimuth_span)` with the dataclass defaults for the other fields. */
  function DefaultBounds(azimuthCenter: real, azimuthSpan: real): AngularBounds
  {
    AngularBounds(azimuthCenter, azimuthSpan, -10.0, 10.0, 0.5, MaxRangeM)
  }

  /** `SectorDetection` without the mask array: nearest depth, number of kept pixels, azimuth. */
  datatype SectorDetection = SectorDetection(minDistance: real, numValidPoints: nat, azimuthDeg: real)

  /** A sector of the virtual piano; the overlay colour is omitted. */
  datatype Sector = Sector(name: string, bounds: AngularBounds)

  /** The sector mask at pixel (px, py) with depth `d` meters: with (x, y) deprojected and z = d,
      azimuth = angle(x, z) and elevation = angle(y, z). */
  predicate InSector(b: AngularBounds, intr: Intrinsics, angle: (real, real) -> real, px: nat, py: nat, d: real)
    requires WellFormed(intr)
  {
    var (x, y) := Deproject(intr, px, py, d);
    var azimuth := angle(x, d);
    var elevation := angle(y, d);
    && b.minRange < d < b.maxRange
    && b.azimuthCenter - b.azimuthSpan / 2.0 <= azimuth <= b.azimuthCenter + b.azimuthSpan / 2.0
    && b.elevationCenter - b.elevationSpan / 2.0 <= elevation <= b.elevationCenter + b.elevationSpan / 2.0
  }

  /** `valid_mask` as a mask over (px, py, raw depth). */
  function SectorMask(b: AngularBounds, intr: Intrinsics, angle: (real, real) -> real): Mask
    requires WellFormed(intr)
  {
    (px: nat, py: nat, raw: nat) => InSector(b, intr, angle, px, py, Meters(raw))
  }

  /** The detection a frame determines: None exactly when no pixel is in the sector; otherwise the
      count of such pixels, their smallest depth, and the sector's nominal azimuth. */
  ghost predicate IsDetection(f: Frame, b: AngularBounds, angle: (real, real) -> real, r: Option<SectorDetection>)
    requires WellFormed(f.intrinsics)
  {
    var mask := SectorMask(b, f.intrinsics, angle);
    && (r.None? <==> forall py: nat, px: nat :: InImage(f.depth, px, py) ==> !mask(px, py, f.depth[py][px]))
    && (r.Some? ==>
          && r.value.numValidPoints == CountMasked(f.depth, mask)
          && r.value.azimuthDeg == b.azimuthCenter
          && (forall py: nat, px: nat :: InImage(f.depth, px, py) && mask(px, py, f.depth[py][px]) ==>
                r.value.minDistance <= Meters(f.depth[py][px]))
          && (exists py: nat, px: nat :: InImage(f.depth, px, py) && mask(px, py, f.depth[py][px]) &&
                r.value.minDistance == Meters(f.depth[py][px])))
  }

  /** `get_angular_detection`. */
  method GetAngularDetection(f: Frame, b: AngularBounds, angle: (real, real) -> real) returns (r: Option<SectorDetection>)
    requires WellFormed(f.intrinsics)
    ensures IsDetection(f, b, angle, r)
    ensures r.Some? ==> r.value.numValidPoints >= 1
    ensures r.Some? ==> b.minRange < r.value.minDistance < b.maxRange
  {
    var mask := SectorMask(b, f.intrinsics, angle);
    var count, least := Scan(f.depth, mask);
    if least.None? {
      return None;
    }
    r := Some(SectorDetection(least.value, count, b.azimuthCenter));
    forall py: nat, px: nat | InImage(f.depth, px, py)
      ensures Before(px, py, 0, |f.depth|)
    {
    }
  }

  /** `Sector.detect`: the angular detection for the sector's own bounds. */
  method Detect(s: Sector, f: Frame, angle: (real, real) -> real) returns (r: Option<SectorDetection>)
    requires WellFormed(f.intrinsics)
    ensures IsDetection(f, s.bounds, angle, r)
  {
    r := GetAngularDetection(f, s.bounds, angle);
  }

  /** The detection is determined by the frame: two results meeting the description are equal. */
  lemma DetectionUnique(f: Frame, b: AngularBounds, angle: (real, real) -> real, r1: Option<SectorDetection>, r2: Option<SectorDetection>)
    requires WellFormed(f.intrinsics)
    requires IsDetection(f, b, angle, r1) && IsDetection(f, b, angle, r2)
    ensures r1 == r2
  {
    if r1.Some? && r2.Some? {
      var mask := SectorMask(b, f.intrinsics, angle);
      var py1: nat, px1: nat :| InImage(f.depth, px1, py1) && mask(px1, py1, f.depth[py1][px1]) &&
                                r1.value.minDistance == Meters(f.depth[py1][px1]);
      var py2: nat, px2: nat :| InImage(f.depth, px2, py2) && mask(px2, py2, f.depth[py2][px2]) &&
                                r2.value.minDistance == Meters(f.depth[py2][px2]);
      assert r2.value.minDistance <= r1.value.minDistance;
      assert r1.value.minDistance <= r2.value.minDistance;
    }
  }

  /** With the dataclass defaults a sector keeps only depths strictly between 0.5 m and
      `MAX_RANGE_M`, and only elevations from 15 to 5 degrees below the horizon. */
  lemma DefaultSectorWindow(azimuthCenter: real, azimuthSpan: real, intr: Intrinsics, angle: (real, real) -> real, px: nat, py: nat, d: real)
    requires WellFormed(intr)
    ensures InSector(DefaultBounds(azimuthCenter, azimuthSpan), intr, angle, px, py, d) ==>
              && 0.5 < d < MaxRangeM
              && -15.0 <= angle(Deproject(intr, px, py, d).1, d) <= -5.0
  {
  }

  /** A pixel with no depth return (raw 0) is never in a sector whose minimum range is not negative. */
  lemma ZeroDepthNeverInSector(b: AngularBounds, intr: Intrinsics, angle: (real, real) -> real, px: nat, py: nat)
    requires WellFormed(intr) && b.minRange >= 0.0
    ensures !SectorMask(b, intr, angle)(px, py, 0)
  {
  }
}

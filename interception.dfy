/** The interception calculation of one script run: the vertical band the
    camera sees for a given pitch, whether the target's bearing falls inside
    it, the straight-line distance to the target, and the number of pixels the
    target spans on the sensor, with the two classifications shown to the
    pilot. Angles are in degrees, "up" positive; pitch is nose-down.

    The trigonometry is not part of this model: the vertical field of view and
    the target's bearing arrive as inputs, and the slant distance is any value
    satisfying the defining equation of the square root. */
module Interception {

  import PresetStore

  /** Footprints strictly above this many pixels are labelled "Visible". */
  const DetectThreshold: real := 15.0

  function Abs(x: real): real {
    if x < 0.0 then -x else x
  }

  /** `root` is the non-negative square root of `x`, which is what the
      square-root library call returns. */
  predicate IsSqrt(root: real, x: real) {
    root >= 0.0 && root * root == x
  }

  /** The band of elevations the camera sees: its upper edge ("techo") and
      lower edge ("suelo"). */
  datatype Band = Band(ceiling: real, floor: real)

  /** The band for a camera pitched nose-down by `pitch` with vertical field of
      view `vfov`: exactly `vfov` wide and centred on the optical axis, which
      points `pitch` degrees below the horizontal. */
  function ViewBand(pitch: real, vfov: real): (b: Band)
    ensures b.ceiling - b.floor == vfov
    ensures b.ceiling + b.floor == -2.0 * pitch
    ensures vfov >= 0.0 ==> b.floor <= b.ceiling
  {
    Band(-pitch + vfov / 2.0, -pitch - vfov / 2.0)
  }

  /** Pitching down by a further `delta` lowers both edges by exactly `delta`. */
  lemma PitchShiftsBand(pitch: real, delta: real, vfov: real)
    ensures ViewBand(pitch + delta, vfov).ceiling == ViewBand(pitch, vfov).ceiling - delta
    ensures ViewBand(pitch + delta, vfov).floor == ViewBand(pitch, vfov).floor - delta
  {
  }

  /** Whether a target at bearing `target` is inside the band, both edges
      included: equivalently, no more than half the field of view away from
      the optical axis. */
  function IsVisible(pitch: real, vfov: real, target: real): (v: bool)
    ensures v <==> -vfov / 2.0 <= target + pitch <= vfov / 2.0
  {
    var b := ViewBand(pitch, vfov);
    b.floor <= target <= b.ceiling
  }

  /** Both edges of a non-empty band count as visible. */
  lemma VisibleAtEdges(pitch: real, vfov: real)
    requires vfov >= 0.0
    ensures IsVisible(pitch, vfov, ViewBand(pitch, vfov).ceiling)
    ensures IsVisible(pitch, vfov, ViewBand(pitch, vfov).floor)
  {
  }

  /** The alert shown under the figures: the target is in view, out of view,
      or out of view above the band by `excess` degrees (the caption). */
  datatype Alert = Found | Lost | LostAbove(excess: real)

  function Report(pitch: real, vfov: real, target: real): (a: Alert)
    ensures a.Found? <==> IsVisible(pitch, vfov, target)
    ensures a.LostAbove? <==> !IsVisible(pitch, vfov, target) && target > ViewBand(pitch, vfov).ceiling
    ensures a.LostAbove? ==> a.excess > 0.0 && target == ViewBand(pitch, vfov).ceiling + a.excess
    ensures a.Lost? ==> target < ViewBand(pitch, vfov).floor
  {
    var b := ViewBand(pitch, vfov);
    if IsVisible(pitch, vfov, target) then Found
    else if target > b.ceiling then LostAbove(target - b.ceiling)
    else Lost
  }

  /** The target's linear footprint in pixels: `res` pixels span the sensor
      width `sensorW`, and a target of size `size` at distance `slant` images to
      `size * focal / slant` millimetres on the sensor. The source divides
      without a guard, so a zero width or distance is excluded. */
  function Pixels(res: int, size: real, focal: real, sensorW: real, slant: real): (px: real)
    requires sensorW != 0.0 && slant != 0.0
    ensures px * (sensorW * slant) == res as real * size * focal
  {
    (res as real * size * focal) / (sensorW * slant)
  }

  lemma PixelsPositive(res: int, size: real, focal: real, sensorW: real, slant: real)
    requires res > 0 && size > 0.0 && focal > 0.0 && sensorW > 0.0 && slant > 0.0
    ensures Pixels(res, size, focal, sensorW, slant) > 0.0
  {
    var k := res as real * size * focal;
    assert k > 0.0 by {
      assert res as real * size > 0.0;
    }
    assert sensorW * slant > 0.0;
  }

  /** The farther the target, the fewer pixels it covers. */
  lemma PixelsDecreaseWithDistance(res: int, size: real, focal: real, sensorW: real, near: real, far: real)
    requires res > 0 && size > 0.0 && focal > 0.0 && sensorW > 0.0
    requires 0.0 < near < far
    ensures Pixels(res, size, focal, sensorW, near) > Pixels(res, size, focal, sensorW, far)
  {
    var k := res as real * size * focal;
    var pNear := Pixels(res, size, focal, sensorW, near);
    var pFar := Pixels(res, size, focal, sensorW, far);
    PixelsPositive(res, size, focal, sensorW, far);
    assert sensorW * near < sensorW * far;
    assert pFar * (sensorW * far) > pFar * (sensorW * near);
    assert pNear * (sensorW * near) > pFar * (sensorW * near);
  }

  /** Squaring is strictly increasing on the non-negative reals. */
  lemma SquareStrictlyIncreasing(x: real, y: real)
    requires 0.0 <= x < y
    ensures x * x < y * y
  {
    calc {
      x * x;
    <= { MultiplyBothSides(x, y, x); }
      x * y;
    < { MultiplyBothSides(x, y, y); }
      y * y;
    }
  }

  /** Multiplying both sides of `a < b` by a non-negative factor `c`. */
  lemma MultiplyBothSides(a: real, b: real, c: real)
    requires a < b && c >= 0.0
    ensures c * a <= c * b
    ensures c > 0.0 ==> a * c < b * c
  {
  }

  /** Non-negative reals compare as their squares do. */
  lemma SquaresCompare(x: real, y: real)
    requires x >= 0.0 && y >= 0.0
    ensures x < y <==> x * x < y * y
    ensures x == y <==> x * x == y * y
  {
    if x < y {
      SquareStrictlyIncreasing(x, y);
    } else if y < x {
      SquareStrictlyIncreasing(y, x);
    }
  }

  /** The slant distance is never shorter than the horizontal distance, and
      equals it exactly when the target is level with the drone. */
  lemma SlantAtLeastDistance(dist: real, height: real, slant: real)
    requires IsSqrt(slant, dist * dist + height * height)
    ensures slant >= Abs(dist)
    ensures slant == Abs(dist) <==> height == 0.0
  {
    var d := Abs(dist);
    assert d * d == dist * dist;
    SquaresCompare(slant, d);
    assert height * height == 0.0 <==> height == 0.0 by {
      if height != 0.0 {
        SquaresCompare(0.0, Abs(height));
        assert Abs(height) * Abs(height) == height * height;
      }
    }
  }

  /** Hence the pixel estimate at the slant distance never exceeds the one at
      the horizontal distance alone, with equality exactly for a level target. */
  lemma PixelsAtMostLevelEstimate(res: int, size: real, focal: real, sensorW: real,
                                  dist: real, height: real, slant: real)
    requires res > 0 && size > 0.0 && focal > 0.0 && sensorW > 0.0 && dist > 0.0
    requires IsSqrt(slant, dist * dist + height * height)
    ensures slant > 0.0
    ensures Pixels(res, size, focal, sensorW, slant) <= Pixels(res, size, focal, sensorW, dist)
    ensures Pixels(res, size, focal, sensorW, slant) == Pixels(res, size, focal, sensorW, dist) <==> height == 0.0
  {
    SlantAtLeastDistance(dist, height, slant);
    if height != 0.0 {
      PixelsDecreaseWithDistance(res, size, focal, sensorW, dist, slant);
    }
  }

  /** The delta shown under the pixel figure: its label and its colour. */
  datatype Delta = Delta(text: string, color: string)

  /** Strictly more than `DetectThreshold` pixels is "Visible" in the normal
      colour; anything else, the threshold itself included, is "Borroso" in the
      inverse colour. */
  function PixelDelta(px: real): (d: Delta)
    ensures d.text == "Visible" <==> px > DetectThreshold
    ensures d.text != "Visible" ==> d.text == "Borroso"
    ensures d.color == (if d.text == "Visible" then "normal" else "inverse")
  {
    Delta(if px > DetectThreshold then "Visible" else "Borroso",
          if px > DetectThreshold then "normal" else "inverse")
  }

  /** A target labelled "Visible" at some distance stays so when it is nearer. */
  lemma DetectableWhenNearer(res: int, size: real, focal: real, sensorW: real, near: real, far: real)
    requires res > 0 && size > 0.0 && focal > 0.0 && sensorW > 0.0
    requires 0.0 < near <= far
    requires PixelDelta(Pixels(res, size, focal, sensorW, far)).text == "Visible"
    ensures PixelDelta(Pixels(res, size, focal, sensorW, near)).text == "Visible"
  {
    if near < far {
      PixelsDecreaseWithDistance(res, size, focal, sensorW, near, far);
    }
  }

  /** Everything the script derives from one set of inputs. */
  datatype Analysis = Analysis(band: Band, visible: bool, slant: real, pixels: real,
                               delta: Delta, alert: Alert)

  /** One run of the calculation block and of the two classifications. `vfov`
      and `target` stand for the vertical field of view and the bearing
      computed with arc tangents; `slant` for the square root of the squared
      distances. The field of view divides by `focal`, and the pixel estimate
      by `sensorW` and `slant`, all without a guard. */
  function Analyse(pitch: real, vfov: real, target: real, dist: real, height: real, slant: real,
                   res: int, size: real, focal: real, sensorW: real): (a: Analysis)
    requires focal != 0.0 && sensorW != 0.0
    requires IsSqrt(slant, dist * dist + height * height) && slant != 0.0
    ensures a.band.ceiling - a.band.floor == vfov
    ensures a.band.ceiling + a.band.floor == -2.0 * pitch
    ensures a.visible <==> a.band.floor <= target <= a.band.ceiling
    ensures a.slant == slant
    ensures a.slant >= Abs(dist) && (a.slant == Abs(dist) <==> height == 0.0)
    ensures a.pixels * (sensorW * a.slant) == res as real * size * focal
    ensures res > 0 && size > 0.0 && focal > 0.0 && sensorW > 0.0 ==> a.pixels > 0.0
    ensures a.delta.text == "Visible" <==> a.pixels > DetectThreshold
    ensures a.delta.text != "Visible" ==> a.delta.text == "Borroso"
    ensures a.delta.color == (if a.delta.text == "Visible" then "normal" else "inverse")
    ensures a.alert.Found? <==> a.visible
    ensures a.alert.LostAbove? <==> !a.visible && target > a.band.ceiling
    ensures a.alert.LostAbove? ==> a.alert.excess > 0.0 && target == a.band.ceiling + a.alert.excess
    ensures a.alert.Lost? ==> target < a.band.floor
  {
    SlantAtLeastDistance(dist, height, slant);
    var px := Pixels(res, size, focal, sensorW, slant);
    assert res > 0 && size > 0.0 && focal > 0.0 && sensorW > 0.0 ==> px > 0.0 by {
      if res > 0 && size > 0.0 && focal > 0.0 && sensorW > 0.0 {
        PixelsPositive(res, size, focal, sensorW, slant);
      }
    }
    Analysis(ViewBand(pitch, vfov), IsVisible(pitch, vfov, target), slant, px,
             PixelDelta(px), Report(pitch, vfov, target))
  }

  /** A worked scenario: the Arducam IMX519 preset (sensor 5.6 by 4.2 mm,
      focal length 4.28 mm, 4656 px; its vertical field of view
      2·atan(4.2 / 8.56) is about 52.27 degrees), pitch 30, a level target
      50 m away of size 0.3 m. The target is out of view about 3.9 degrees
      above the band, yet its 21.35 pixels are labelled "Visible": visibility
      and detectability are independent. */
  lemma LevelTargetExample()
    ensures var a := Analyse(30.0, 52.27, 0.0, 50.0, 0.0, 50.0, 4656, 0.3, 4.28, 5.6);
      && a.band.ceiling == -3.865
      && !a.visible
      && a.alert == LostAbove(3.865)
      && 21.35 < a.pixels < 21.36
      && a.delta == Delta("Visible", "normal")
  {
  }

  /** Every built-in preset meets the divisor preconditions of the
      calculation, and for any positive target size and distance it gives a
      positive footprint. */
  lemma SeededPresetsGivePositivePixels(name: string, pitch: real, vfov: real, target: real,
                                        dist: real, height: real, slant: real, size: real)
    requires name in PresetStore.SeedPresets()
    requires dist > 0.0 && size > 0.0
    requires IsSqrt(slant, dist * dist + height * height)
    ensures var p := PresetStore.SeedPresets()[name];
      p.f != 0.0 && p.w != 0.0 && slant != 0.0 &&
      Analyse(pitch, vfov, target, dist, height, slant, p.r, size, p.f, p.w).pixels > 0.0
  {
    SlantAtLeastDistance(dist, height, slant);
  }
}

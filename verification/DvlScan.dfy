/** The beam scan of the DVL sensor (DopplerVelocityLog): how beam footprints become
    patches of the depth image, and how each frame is searched for targets. */
module DvlScan {
  import opened Wrappers

  // ----- Patches -----

  /** AxisAlignedPatch2d, by the coordinates of its corners. */
  datatype Patch = Patch(xMax: real, yMax: real, xMin: real, yMin: real)

  /** AxisAlignedPatch2i */
  datatype ScanPatch = ScanPatch(xMax: int, yMax: int, xMin: int, yMin: int)

  function MaxOf(a: real, b: real): real { if a < b then b else a }

  function MinOf(a: real, b: real): real { if b < a then b else a }

  function Merge(p: Patch, q: Patch): Patch {
    Patch(MaxOf(p.xMax, q.xMax), MaxOf(p.yMax, q.yMax), MinOf(p.xMin, q.xMin), MinOf(p.yMin, q.yMin))
  }

  function Flip(p: Patch): Patch { Patch(-p.xMin, -p.yMin, -p.xMax, -p.yMax) }

  predicate Contains(p: Patch, q: Patch) {
    p.xMin <= q.xMin && q.xMax <= p.xMax && p.yMin <= q.yMin && q.yMax <= p.yMax
  }

  /** The field of view: a patch of no size at the main axis, every footprint, and the
      mirror image of it all. */
  function Merged(footprints: seq<Patch>, n: nat): Patch
    requires n <= |footprints|
  {
    if n == 0 then Patch(0.0, 0.0, 0.0, 0.0) else Merge(Merged(footprints, n - 1), footprints[n - 1])
  }

  function FieldOfView(footprints: seq<Patch>): Patch {
    var m := Merged(footprints, |footprints|);
    Merge(m, Flip(m))
  }

  lemma {:induction false} MergedContains(footprints: seq<Patch>, n: nat, i: nat)
    requires i < n <= |footprints|
    ensures Contains(Merged(footprints, n), footprints[i])
  {
    if i < n - 1 { MergedContains(footprints, n - 1, i); }
  }

  /** It contains every beam and is its own mirror image ... */
  lemma FieldOfViewFits(footprints: seq<Patch>, i: nat)
    requires i < |footprints|
    ensures Contains(FieldOfView(footprints), footprints[i])
    ensures Flip(FieldOfView(footprints)) == FieldOfView(footprints)
  {
    MergedContains(footprints, |footprints|, i);
  }

  lemma FieldOfViewIsSymmetric(footprints: seq<Patch>)
    ensures var fov := FieldOfView(footprints); fov.xMin == -fov.xMax && fov.yMin == -fov.yMax
  {
    hide Merged;
  }

  lemma {:induction false} MergedIsLeast(footprints: seq<Patch>, n: nat, p: Patch)
    requires n <= |footprints| && p.xMin <= 0.0 <= p.xMax && p.yMin <= 0.0 <= p.yMax
    requires forall i :: 0 <= i < |footprints| ==> Contains(p, footprints[i])
    ensures Contains(p, Merged(footprints, n))
  {
    if n > 0 { MergedIsLeast(footprints, n - 1, p); }
  }

  /** ... and it is the smallest such patch. */
  lemma FieldOfViewIsLeast(footprints: seq<Patch>, p: Patch)
    requires Flip(p) == p && p.xMin <= p.xMax && p.yMin <= p.yMax
    requires forall i :: 0 <= i < |footprints| ==> Contains(p, footprints[i])
    ensures Contains(p, FieldOfView(footprints))
  {
    assert p.xMin == -p.xMax && p.yMin == -p.yMax;
    MergedIsLeast(footprints, |footprints|, p);
  }

  // ----- Rays along one axis -----

  function Ceil(x: real): int { -((-x).Floor) }

  /** static_cast<int> */
  function Truncated(x: real): int { if x >= 0.0 then x.Floor else -((-x).Floor) }

  /** The fraction is dropped towards zero. */
  lemma TruncatedDropsFraction(x: real)
    ensures x >= 0.0 ==> Truncated(x) as real <= x < Truncated(x) as real + 1.0
    ensures x <= 0.0 ==> Truncated(x) as real - 1.0 < x <= Truncated(x) as real
  {
  }

  function RayCount(size: real, resolution: real): int
    requires resolution > 0.0
  {
    var n := Ceil(size / resolution);
    if n % 2 == 0 then n + 1 else n
  }

  /** Rays from `offset` on; the step of a single ray is infinite. */
  datatype Axis = Axis(count: int, offset: real, step: Option<real>)

  function AxisOver(min: real, max: real, resolution: real): Axis
    requires resolution > 0.0
  {
    var n := RayCount(max - min, resolution);
    Axis(n, min, if n == 1 then None else Some((max - min) / ((n - 1) as real)))
  }

  /** The integer coordinate of a footprint's edge; a finite number over infinity is 0. */
  function Index(a: Axis, x: real): int
    requires a.step.Some? ==> a.step.value > 0.0
  {
    match a.step
    case Some(step) => Truncated((x - a.offset) / step)
    case None => 0
  }

  function Angle(a: Axis, u: int): real
    requires a.step.Some?
  {
    (u as real) * a.step.value + a.offset
  }

  lemma QuotientOrder(x: real, y: real, d: real)
    requires d > 0.0
    ensures x <= y <==> x / d <= y / d
    ensures x < y <==> x / d < y / d
    ensures d / d == 1.0
  {
    assert (y - x) / d == y / d - x / d;
  }

  lemma ProductQuotient(x: real, d: real)
    requires d > 0.0
    ensures (x / d) * d == x && (x * d) / d == x
  {
  }

  /** The number of rays is the least odd number of resolutions that is not below the size. */
  lemma RayCountIsLeast(size: real, resolution: real)
    requires size > 0.0 && resolution > 0.0
    ensures var n := RayCount(size, resolution);
      && n % 2 == 1 && size <= (n as real) * resolution
      && (n > 1 ==> ((n - 2) as real) * resolution < size)
  {
    var n, q := RayCount(size, resolution), size / resolution;
    RayCountIsOdd(size, resolution);
    ProductQuotient(size, resolution);
    CeilBound(q);
    assert q <= n as real && (n > 1 ==> ((n - 2) as real) < q);
    hide RayCount;
    QuotientAgainst(size, resolution, q, n as real);
    QuotientAgainst(size, resolution, q, (n - 2) as real);
  }

  lemma QuotientAgainst(size: real, resolution: real, q: real, x: real)
    requires resolution > 0.0 && q * resolution == size
    ensures q <= x <==> size <= x * resolution
    ensures x < q <==> x * resolution < size
  {
    Scaling(q, x, resolution);
    Scaling(x, q, resolution);
  }

  /** The number of rays is odd, and more than one exactly when the field of view is
      wider than the resolution. */
  lemma RayCountIsOdd(size: real, resolution: real)
    requires size > 0.0 && resolution > 0.0
    ensures RayCount(size, resolution) % 2 == 1 && RayCount(size, resolution) >= 1
    ensures RayCount(size, resolution) >= 3 <==> size > resolution
  {
    QuotientOrder(0.0, size, resolution);
    QuotientOrder(resolution, size, resolution);
    assert 0.0 / resolution == 0.0;
  }

  lemma AxisIsProper(min: real, max: real, resolution: real)
    requires min < max && resolution > 0.0
    ensures var a := AxisOver(min, max, resolution);
      && (a.step.Some? <==> a.count >= 3) && (a.step.Some? <==> max - min > resolution)
      && (a.step.Some? ==> a.step.value > 0.0 && a.step.value * ((a.count - 1) as real) == max - min)
      && (a.step.None? ==> a.count == 1)
  {
    RayCountIsOdd(max - min, resolution);
    var n := RayCount(max - min, resolution);
    if n >= 3 {
      ProductQuotient(max - min, (n - 1) as real);
      QuotientOrder(0.0, max - min, (n - 1) as real);
      assert 0.0 / ((n - 1) as real) == 0.0;
    }
  }

  /** The rays are as close as the configured resolution exactly when the number of
      resolution steps, rounded up, is even: the rays are one more than the steps between
      them, and an odd number is not made larger. */
  lemma StepKeepsResolutionIffEven(min: real, max: real, resolution: real)
    requires resolution > 0.0 && max - min > resolution
    ensures var a := AxisOver(min, max, resolution);
      && a.step.Some?
      && (a.step.value <= resolution <==> Ceil((max - min) / resolution) % 2 == 0)
  {
    assert AxisOver(min, max, resolution).count == RayCount(max - min, resolution);
    AxisIsProper(min, max, resolution);
    var size, m := max - min, (RayCount(max - min, resolution) - 1) as real;
    ProductQuotient(size, resolution);
    ProductQuotient(size, m);
    StepBound(size, resolution, m, size / resolution, size / m);
    hide AxisOver;
    CeilBound(size / resolution);
  }

  /** Three resolution steps make three rays, and so two steps one and a half times as wide. */
  lemma ThreeStepsAreTooWide(resolution: real)
    requires resolution > 0.0
    ensures AxisOver(0.0, 3.0 * resolution, resolution) == Axis(3, 0.0, Some(1.5 * resolution))
  {
    ProductQuotient(3.0, resolution);
    assert (3.0 * resolution - 0.0) / resolution == 3.0;
    assert 3.0 * resolution / 2.0 == 1.5 * resolution;
  }

  lemma StepBound(size: real, resolution: real, m: real, q: real, step: real)
    requires m > 0.0 && resolution > 0.0 && q * resolution == size && step * m == size
    ensures step <= resolution <==> q <= m
  {
    Scaling(step, resolution, m);
    Scaling(q, m, resolution);
    assert resolution * m == m * resolution;
  }

  lemma CeilBound(q: real)
    ensures (Ceil(q) - 1) as real < q <= Ceil(q) as real
  {
  }

  lemma Scaling(x: real, y: real, d: real)
    requires d > 0.0
    ensures x <= y <==> x * d <= y * d
    ensures x < y <==> x * d < y * d
  {
    assert (y - x) * d == y * d - x * d;
    if x <= y { assert (y - x) * d >= 0.0; }
    if y < x { assert (x - y) * d > 0.0; }
  }

  lemma MiddleOfAxis(max: real, resolution: real)
    requires resolution > 0.0 && max > 0.0 && 2.0 * max > resolution
    ensures var a := AxisOver(-max, max, resolution);
      a.step.Some? && a.count % 2 == 1 && Angle(a, (a.count - 1) / 2) == 0.0
  {
    var a := AxisOver(-max, max, resolution);
    AxisIsProper(-max, max, resolution);
    RayCountIsOdd(2.0 * max, resolution);
    var h := (a.count - 1) / 2;
    assert (a.count - 1) as real == 2.0 * (h as real);
    Half(h as real, (a.count - 1) as real, a.step.value, 2.0 * max);
  }

  /** Wherever the beams point, the field of view has a ray along the main axis: the middle
      one of an odd number, both ways. */
  lemma MiddleRayIsAtZero(footprints: seq<Patch>, resolution: real)
    requires resolution > 0.0
    ensures var fov := FieldOfView(footprints);
      var h, v := AxisOver(fov.xMin, fov.xMax, resolution), AxisOver(fov.yMin, fov.yMax, resolution);
      && (fov.xMax - fov.xMin > resolution ==>
            h.step.Some? && h.count % 2 == 1 && Angle(h, (h.count - 1) / 2) == 0.0)
      && (fov.yMax - fov.yMin > resolution ==>
            v.step.Some? && v.count % 2 == 1 && Angle(v, (v.count - 1) / 2) == 0.0)
  {
    hide AxisOver, Angle, FieldOfView;
    var fov := FieldOfView(footprints);
    FieldOfViewIsSymmetric(footprints);
    if fov.xMax - fov.xMin > resolution { MiddleOfAxis(fov.xMax, resolution); }
    if fov.yMax - fov.yMin > resolution { MiddleOfAxis(fov.yMax, resolution); }
  }

  lemma Half(h: real, m: real, step: real, size: real)
    requires m == 2.0 * h && step * m == size
    ensures h * step == size / 2.0
  {
    assert step * (2.0 * h) == 2.0 * (h * step);
  }

  lemma Whole(n: real, step: real, size: real)
    requires step > 0.0 && step * n == size
    ensures size / step == n
  {
    ProductQuotient(n, step);
  }

  /** A footprint within the axis has both its edges on the rays, the last ray excepted as
      a ray to scan. */
  lemma IndexIsInRange(min: real, max: real, resolution: real, x: real)
    requires resolution > 0.0 && min < max && min <= x <= max
    ensures var a := AxisOver(min, max, resolution);
      (a.step.Some? ==> a.step.value > 0.0) && 0 <= Index(a, x) <= a.count - 1
  {
    AxisIsProper(min, max, resolution);
    var a := AxisOver(min, max, resolution);
    if a.step.Some? {
      var step, n := a.step.value, (a.count - 1) as real;
      QuotientOrder(0.0, x - min, step);
      assert 0.0 / step == 0.0;
      QuotientOrder(x - min, max - min, step);
      Whole(n, step, max - min);
      hide RayCount;
    }
  }

  /** Ray u lies above the edge lo less a step, and a whole step or more below the edge hi. */
  predicate Scans(a: Axis, lo: real, hi: real, u: int)
    requires a.step.Some?
  {
    lo - a.step.value < Angle(a, u) <= hi - a.step.value
  }

  /** Which rays are scanned between two edges: those from just before the lower one up to
      a whole step before the upper one.  So the last rays of a footprint never are. */
  lemma ScannedIffAngle(min: real, max: real, resolution: real, lo: real, hi: real, u: int)
    requires resolution > 0.0 && max - min > resolution && min <= lo <= hi <= max
    ensures var a := AxisOver(min, max, resolution);
      && a.step.Some? && a.step.value > 0.0
      && (Index(a, lo) <= u < Index(a, hi) <==> Scans(a, lo, hi, u))
  {
    AxisIsProper(min, max, resolution);
    var a := AxisOver(min, max, resolution);
    assert a.offset == min;
    hide AxisOver, Index, Angle;
    IndexBelow(a, lo, u + 1);
    IndexBelow(a, hi, u + 1);
    NextRay(a, u);
  }

  /** The last ray lies on the upper edge of any footprint that reaches as far as the field
      of view, and is not scanned for it. */
  lemma LastRayIsNotScanned(min: real, max: real, resolution: real, lo: real)
    requires resolution > 0.0 && max - min > resolution && min <= lo < max
    ensures var a := AxisOver(min, max, resolution);
      var u := a.count - 1;
      && a.step.Some? && a.step.value > 0.0 && lo < Angle(a, u) == max
      && !(Index(a, lo) <= u < Index(a, max))
  {
    AxisIsProper(min, max, resolution);
    ScannedIffAngle(min, max, resolution, lo, max, AxisOver(min, max, resolution).count - 1);
  }

  lemma NextRay(a: Axis, u: int)
    requires a.step.Some?
    ensures Angle(a, u + 1) == Angle(a, u) + a.step.value
  {
    assert ((u + 1) as real) * a.step.value == (u as real) * a.step.value + a.step.value;
  }

  /** An index is below u exactly when its coordinate is below ray u. */
  lemma IndexBelow(a: Axis, x: real, u: int)
    requires a.step.Some? && a.step.value > 0.0 && a.offset <= x
    ensures Index(a, x) < u <==> x < Angle(a, u)
  {
    var step := a.step.value;
    var q := (x - a.offset) / step;
    QuotientOrder(0.0, x - a.offset, step);
    assert 0.0 / step == 0.0;
    ProductQuotient(x - a.offset, step);
    Scaling(q, u as real, step);
    assert Index(a, x) == q.Floor;
  }

  /** The scan patch of a footprint. */
  function PatchOn(h: Axis, v: Axis, p: Patch): ScanPatch
    requires (h.step.Some? ==> h.step.value > 0.0) && (v.step.Some? ==> v.step.value > 0.0)
  {
    ScanPatch(Index(h, p.xMax), Index(v, p.yMax), Index(h, p.xMin), Index(v, p.yMin))
  }

  /** Every pixel of the patch is in the image. */
  predicate InImage(p: ScanPatch, width: int, height: int) {
    0 <= p.xMin && p.xMax <= width && 0 <= p.yMin && p.yMax <= height
  }

  // ----- One frame -----

  /** A depth sample after noise. */
  datatype Sample = Finite(range: real) | NotFinite

  /** The nearest point found in a beam, by the pixel it was found at; its distance is the
      absolute value of the range. */
  datatype Target = Target(u: int, v: int, range: real)

  function Length(range: real): real { if range < 0.0 then -range else range }

  predicate InPatch(p: ScanPatch, u: int, v: int) { p.xMin <= u < p.xMax && p.yMin <= v < p.yMax }

  /** Pixel (u, v) is scanned before pixel (x, y). */
  predicate Before(u: int, v: int, x: int, y: int) { v < y || (v == y && u < x) }

  /** What one beam sees at the pixels of its patch: samples and the in-aperture test. */
  datatype View = View(sample: (int, int) -> Sample, inAperture: (int, int, real) -> bool)

  predicate Candidate(w: View, u: int, v: int) {
    w.sample(u, v).Finite? && w.inAperture(u, v, w.sample(u, v).range)
  }

  /** Target t is right for the pixels of the patch scanned before (x, y): it is the
      nearest candidate there, the first of the nearest, or none if there is none. */
  ghost predicate RightSoFar(w: View, p: ScanPatch, t: Option<Target>, x: int, y: int) {
    match t
    case None => forall u, v :: InPatch(p, u, v) && Before(u, v, x, y) ==> !Candidate(w, u, v)
    case Some(h) =>
      && InPatch(p, h.u, h.v) && Before(h.u, h.v, x, y)
      && Candidate(w, h.u, h.v) && w.sample(h.u, h.v) == Finite(h.range)
      && forall u, v :: InPatch(p, u, v) && Before(u, v, x, y) && Candidate(w, u, v) ==> NoBetter(w, h, u, v)
  }

  predicate NoBetter(w: View, h: Target, u: int, v: int)
    requires Candidate(w, u, v)
  {
    var r := w.sample(u, v).range;
    && (if h.range < 0.0 then -h.range else h.range) <= (if r < 0.0 then -r else r)
    && (h.range == r || h.range == -r ==> !Before(u, v, h.u, h.v))
  }

  /** Right for the whole patch. */
  ghost predicate Right(w: View, p: ScanPatch, t: Option<Target>) {
    match t
    case None => forall u, v :: InPatch(p, u, v) ==> !Candidate(w, u, v)
    case Some(h) =>
      && InPatch(p, h.u, h.v) && Candidate(w, h.u, h.v) && w.sample(h.u, h.v) == Finite(h.range)
      && forall u, v :: InPatch(p, u, v) && Candidate(w, u, v) ==> NoBetter(w, h, u, v)
  }

  /** There is only one right target. */
  lemma RightIsUnique(w: View, p: ScanPatch, t: Option<Target>, s: Option<Target>)
    requires Right(w, p, t) && Right(w, p, s)
    ensures t == s
  {
    if t.Some? && s.Some? {
      assert NoBetter(w, t.value, s.value.u, s.value.v) && NoBetter(w, s.value, t.value.u, t.value.v);
    }
  }

  lemma NonNegative(a: int, c: int)
    requires a >= 0 && c >= 0
    ensures a * c >= 0
  {
  }

  lemma Multiples(a: int, n: int, c: int)
    requires 0 <= a < n && c > 0
    ensures 0 <= a * c && a * c + c <= n * c
  {
    NonNegative(a, c);
    NonNegative(n - 1 - a, c);
    assert (n - 1 - a) * c == n * c - c - a * c;
  }

  lemma SampleIndex(u: int, v: int, width: int, height: int, channels: int)
    requires 0 <= u < width && 0 <= v < height && channels > 0
    ensures 0 <= (u + v * width) * channels < width * height * channels
  {
    Multiples(v, height, width);
    Multiples(u + v * width, width * height, channels);
  }

  /** The image as one beam sees it: noise is applied anew for each beam. */
  function Seen(scan: seq<Sample>, width: int, channels: int, noise: (int, int, Sample) -> Sample,
                inAperture: (int, int, real) -> bool): View
  {
    View((u, v) => var k := (u + v * width) * channels; if 0 <= k < |scan| then noise(u, v, scan[k]) else NotFinite,
         inAperture)
  }

  class DopplerVelocityLog {
    var beamScanPatches: seq<ScanPatch>
    var beamTargets: seq<Option<Target>>
    var horizontal: Axis
    var vertical: Axis

    constructor ()
      ensures beamScanPatches == [] && beamTargets == []
    {
      beamScanPatches, beamTargets := [], [];
      horizontal, vertical := Axis(1, 0.0, None), Axis(1, 0.0, None);
    }

    /** The part of CreateRenderingSensors that lays out the rays and the scan patches. */
    method LayOutRays(footprints: seq<Patch>, resolution: real)
      requires resolution > 0.0 && footprints != []
      requires forall i :: 0 <= i < |footprints| ==>
        footprints[i].xMin < footprints[i].xMax && footprints[i].yMin < footprints[i].yMax
      modifies this
      ensures var fov := FieldOfView(footprints);
        && horizontal == AxisOver(fov.xMin, fov.xMax, resolution)
        && vertical == AxisOver(fov.yMin, fov.yMax, resolution)
      ensures horizontal.step.Some? ==> horizontal.step.value > 0.0
      ensures vertical.step.Some? ==> vertical.step.value > 0.0
      ensures |beamTargets| == |beamScanPatches| == |footprints|
      ensures forall i :: 0 <= i < |footprints| ==>
        && beamScanPatches[i] == PatchOn(horizontal, vertical, footprints[i])
        && InImage(beamScanPatches[i], horizontal.count - 1, vertical.count - 1)
      ensures forall i :: 0 <= i < |beamTargets| ==> beamTargets[i] == None
    {
      hide InImage, AxisOver, Flip;
      beamTargets := seq(|footprints|, i => None);
      var footprint := Patch(0.0, 0.0, 0.0, 0.0);
      for i := 0 to |footprints|
        invariant footprint == Merged(footprints, i)
        invariant |beamTargets| == |footprints| && forall j :: 0 <= j < |beamTargets| ==> beamTargets[j] == None
      {
        footprint := Merge(footprint, footprints[i]);
      }
      footprint := Merge(footprint, Flip(footprint));
      FieldOfViewIsWide(footprints);
      horizontal := AxisOver(footprint.xMin, footprint.xMax, resolution);
      vertical := AxisOver(footprint.yMin, footprint.yMax, resolution);
      AxisIsProper(footprint.xMin, footprint.xMax, resolution);
      AxisIsProper(footprint.yMin, footprint.yMax, resolution);
      ghost var targets, h, v := beamTargets, horizontal, vertical;
      beamScanPatches := [];
      for i := 0 to |footprints|
        invariant |beamScanPatches| == i && beamTargets == targets && horizontal == h && vertical == v
        invariant forall j :: 0 <= j < i ==> beamScanPatches[j] == PatchOn(h, v, footprints[j])
      {
        var p := footprints[i];
        beamScanPatches := beamScanPatches + [ScanPatch(
          Index(horizontal, p.xMax), Index(vertical, p.yMax), Index(horizontal, p.xMin), Index(vertical, p.yMin))];
      }
      forall i | 0 <= i < |footprints|
        ensures InImage(beamScanPatches[i], horizontal.count - 1, vertical.count - 1)
      {
        PatchIsInImage(footprints, i, resolution);
      }
    }

    method OnNewFrame(scan: seq<Sample>, width: int, height: int, channels: int,
                      noise: nat -> (int, int, Sample) -> Sample, inAperture: nat -> (int, int, real) -> bool)
      requires channels > 0 && |scan| == width * height * channels
      requires |beamTargets| == |beamScanPatches|
      requires forall i :: 0 <= i < |beamScanPatches| ==> InImage(beamScanPatches[i], width, height)
      modifies this`beamTargets
      ensures |beamTargets| == |beamScanPatches|
      ensures forall i :: 0 <= i < |beamTargets| ==>
        Right(Seen(scan, width, channels, noise(i), inAperture(i)), beamScanPatches[i], beamTargets[i])
    {
      for i := 0 to |beamScanPatches|
        invariant |beamTargets| == |beamScanPatches|
        invariant forall j :: 0 <= j < i ==>
          Right(Seen(scan, width, channels, noise(j), inAperture(j)), beamScanPatches[j], beamTargets[j])
      {
        var target := ScanBeam(scan, width, height, channels, noise(i), inAperture(i), beamScanPatches[i]);
        beamTargets := beamTargets[i := target];
      }
    }
  }

  lemma FieldOfViewIsWide(footprints: seq<Patch>)
    requires footprints != [] && footprints[0].xMin < footprints[0].xMax && footprints[0].yMin < footprints[0].yMax
    ensures var fov := FieldOfView(footprints); fov.xMin < fov.xMax && fov.yMin < fov.yMax
  {
    FieldOfViewFits(footprints, 0);
  }

  lemma PatchIsInImage(footprints: seq<Patch>, i: nat, resolution: real)
    requires resolution > 0.0 && i < |footprints|
    requires forall j :: 0 <= j < |footprints| ==>
      footprints[j].xMin < footprints[j].xMax && footprints[j].yMin < footprints[j].yMax
    ensures var fov := FieldOfView(footprints);
      var h, v := AxisOver(fov.xMin, fov.xMax, resolution), AxisOver(fov.yMin, fov.yMax, resolution);
      && (h.step.Some? ==> h.step.value > 0.0) && (v.step.Some? ==> v.step.value > 0.0)
      && InImage(PatchOn(h, v, footprints[i]), h.count - 1, v.count - 1)
  {
    var fov, p := FieldOfView(footprints), footprints[i];
    FieldOfViewFits(footprints, i);
    hide FieldOfView, AxisOver, Index;
    IndexIsInRange(fov.xMin, fov.xMax, resolution, p.xMin);
    IndexIsInRange(fov.xMin, fov.xMax, resolution, p.xMax);
    IndexIsInRange(fov.yMin, fov.yMax, resolution, p.yMin);
    IndexIsInRange(fov.yMin, fov.yMax, resolution, p.yMax);
  }

  /** From footprint to pixels: in a field of view wider than the resolution, a pixel is in
      the scan patch of a footprint exactly when its ray is scanned on both axes. */
  lemma PatchScansFootprint(footprints: seq<Patch>, i: nat, resolution: real, u: int, v: int)
    requires resolution > 0.0 && i < |footprints|
    requires footprints[i].xMin <= footprints[i].xMax && footprints[i].yMin <= footprints[i].yMax
    requires var fov := FieldOfView(footprints);
      fov.xMax - fov.xMin > resolution && fov.yMax - fov.yMin > resolution
    ensures var fov, p := FieldOfView(footprints), footprints[i];
      var h, w := AxisOver(fov.xMin, fov.xMax, resolution), AxisOver(fov.yMin, fov.yMax, resolution);
      && h.step.Some? && w.step.Some? && h.step.value > 0.0 && w.step.value > 0.0
      && (InPatch(PatchOn(h, w, p), u, v) <==> Scans(h, p.xMin, p.xMax, u) && Scans(w, p.yMin, p.yMax, v))
  {
    var fov, p := FieldOfView(footprints), footprints[i];
    FieldOfViewFits(footprints, i);
    hide FieldOfView, AxisOver, Index, Scans;
    ScannedIffAngle(fov.xMin, fov.xMax, resolution, p.xMin, p.xMax, u);
    ScannedIffAngle(fov.yMin, fov.yMax, resolution, p.yMin, p.yMax, v);
  }

  /** The loops of OnNewFrame over the pixels of one beam. */
  method ScanBeam(scan: seq<Sample>, width: int, height: int, channels: int,
                  noise: (int, int, Sample) -> Sample, inAperture: (int, int, real) -> bool, p: ScanPatch)
    returns (target: Option<Target>)
    requires channels > 0 && |scan| == width * height * channels && InImage(p, width, height)
    ensures Right(Seen(scan, width, channels, noise, inAperture), p, target)
  {
    hide NoBetter, RightSoFar, Right, Seen;
    ghost var w := Seen(scan, width, channels, noise, inAperture);
    target := None;
    NothingYet(w, p);
    var v := p.yMin;
    while v < p.yMax
      invariant v == p.yMin || p.yMin <= v <= p.yMax
      invariant RightSoFar(w, p, target, p.xMin, v)
    {
      var u := p.xMin;
      while u < p.xMax
        invariant u == p.xMin || p.xMin <= u <= p.xMax
        invariant RightSoFar(w, p, target, u, v)
      {
        SampleIndex(u, v, width, height, channels);
        var sample := noise(u, v, scan[(u + v * width) * channels]);
        SeenThere(scan, width, height, channels, noise, inAperture, u, v);
        ghost var before := target;
        if sample.Finite? && inAperture(u, v, sample.range) {
          if target.None? || Length(target.value.range) > Length(sample.range) {
            target := Some(Target(u, v, sample.range));
          }
        }
        OnePixel(w, p, before, target, u, v);
        u := u + 1;
      }
      OneRow(w, p, target, u, v);
      v := v + 1;
    }
    AllRows(w, p, target, v);
  }

  lemma SeenThere(scan: seq<Sample>, width: int, height: int, channels: int,
                  noise: (int, int, Sample) -> Sample, inAperture: (int, int, real) -> bool, u: int, v: int)
    requires 0 <= (u + v * width) * channels < |scan|
    ensures var w := Seen(scan, width, channels, noise, inAperture);
      && w.sample(u, v) == noise(u, v, scan[(u + v * width) * channels])
      && (Candidate(w, u, v) <==> w.sample(u, v).Finite? && inAperture(u, v, w.sample(u, v).range))
  {
  }

  lemma NothingYet(w: View, p: ScanPatch)
    ensures RightSoFar(w, p, None, p.xMin, p.yMin)
  {
  }

  /** What looking at pixel (u, v) must do to the target. */
  lemma OnePixel(w: View, p: ScanPatch, t: Option<Target>, t': Option<Target>, u: int, v: int)
    requires RightSoFar(w, p, t, u, v) && InPatch(p, u, v)
    requires t' ==
      if Candidate(w, u, v) && (t.None? || Length(t.value.range) > Length(w.sample(u, v).range))
      then Some(Target(u, v, w.sample(u, v).range)) else t
    ensures RightSoFar(w, p, t', u + 1, v)
  {
    forall x, y | InPatch(p, x, y) && Before(x, y, u + 1, v) && Candidate(w, x, y)
      ensures t'.Some? && NoBetter(w, t'.value, x, y)
    {
      if x != u || y != v {
        assert Before(x, y, u, v);
        assert t.Some? && NoBetter(w, t.value, x, y);
      }
    }
  }

  lemma OneRow(w: View, p: ScanPatch, t: Option<Target>, u: int, v: int)
    requires RightSoFar(w, p, t, u, v) && u >= p.xMax && u >= p.xMin
    ensures RightSoFar(w, p, t, p.xMin, v + 1)
  {
    hide Candidate;
    assert forall x, y :: InPatch(p, x, y) && Before(x, y, p.xMin, v + 1) ==> Before(x, y, u, v);
  }

  lemma AllRows(w: View, p: ScanPatch, t: Option<Target>, v: int)
    requires RightSoFar(w, p, t, p.xMin, v) && v >= p.yMax
    ensures Right(w, p, t)
  {
    hide Candidate;
    assert forall x, y :: InPatch(p, x, y) ==> Before(x, y, p.xMin, v);
  }
}

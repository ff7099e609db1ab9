/** The image processor's particle extraction: the connected regions found by
    segmentation (an input here: their pixel measurements as the labelling library
    reports them) are filtered by pixel area and converted to micrometres. */
module Regions {
  import opened Wrappers
  import opened Config
  import opened Numbers

  /** One labelled region's measurements, in pixels. */
  datatype Region = Region(
    labelId: int,
    area: int,
    perimeter: real,
    centroid: (real, real),
    bbox: (int, int, int, int),
    majorAxisLength: real,
    minorAxisLength: real,
    eccentricity: real,
    solidity: real,
    orientation: real,
    equivalentDiameter: real
  )

  /** The dictionary built for a kept region. */
  datatype Particle = Particle(
    labelId: int,
    areaPixels: int,
    areaUm2: real,
    perimeterPixels: real,
    perimeterUm: real,
    centroid: (real, real),
    bbox: (int, int, int, int),
    majorAxis: real,
    minorAxis: real,
    eccentricity: real,
    solidity: real,
    orientation: real,
    aspectRatio: real,
    equivalentDiameterUm: real
  )

  /** The area window `extract_particles` applies: a missing or zero bound takes the
      configured default. */
  function AreaWindow(minArea: Option<int>, maxArea: Option<int>): (w: (int, int))
    ensures minArea.None? || minArea == Some(0) ==> w.0 == 10
    ensures maxArea.None? || maxArea == Some(0) ==> w.1 == 50000
    ensures minArea.Some? && minArea.value != 0 ==> w.0 == minArea.value
    ensures maxArea.Some? && maxArea.value != 0 ==> w.1 == maxArea.value
  {
    (Or(minArea, 0, DefaultImageParams.minParticleArea), Or(maxArea, 0, DefaultImageParams.maxParticleArea))
  }

  /** Both ends of the window are inclusive. */
  predicate InWindow(r: Region, minArea: int, maxArea: int) {
    minArea <= r.area <= maxArea
  }

  /** The regions that pass the area filter, in their original order. */
  function Kept(regions: seq<Region>, minArea: int, maxArea: int): seq<Region>
  {
    if |regions| == 0 then []
    else
      var rest := Kept(regions[..|regions| - 1], minArea, maxArea);
      var r := regions[|regions| - 1];
      if InWindow(r, minArea, maxArea) then rest + [r] else rest
  }

  /** A kept region in micrometres: the area scales by `s²`, the lengths by `s`;
      the aspect ratio is taken on pixel lengths, 0 for a region without a
      positive minor axis; the shape descriptors pass through. */
  function Measure(r: Region, s: real): Particle {
    Particle(
      labelId := r.labelId,
      areaPixels := r.area,
      areaUm2 := r.area as real * Square(s),
      perimeterPixels := r.perimeter,
      perimeterUm := r.perimeter * s,
      centroid := r.centroid,
      bbox := r.bbox,
      majorAxis := r.majorAxisLength * s,
      minorAxis := r.minorAxisLength * s,
      eccentricity := r.eccentricity,
      solidity := r.solidity,
      orientation := r.orientation,
      aspectRatio := if r.minorAxisLength > 0.0 then r.majorAxisLength / r.minorAxisLength else 0.0,
      equivalentDiameterUm := r.equivalentDiameter * s
    )
  }

  class ImageProcessor {
    var pixelsToUm: real

    /** A missing or zero calibration falls back to the configured one. */
    constructor (pixelsToUm: Option<real>)
      ensures this.pixelsToUm == Or(pixelsToUm, 0.0, DefaultImageParams.pixelsToUm)
      ensures pixelsToUm.None? || pixelsToUm == Some(0.0) ==> this.pixelsToUm == 1.0
    {
      this.pixelsToUm := Or(pixelsToUm, 0.0, DefaultImageParams.pixelsToUm);
    }

    /** `extract_particles`: one particle per region inside the area window, in
        region order, measured at this processor's calibration. */
    method ExtractParticles(regions: seq<Region>, minArea: Option<int>, maxArea: Option<int>)
      returns (particles: seq<Particle>)
      ensures var (lo, hi) := AreaWindow(minArea, maxArea);
        |particles| == |Kept(regions, lo, hi)| &&
        forall i :: 0 <= i < |particles| ==> particles[i] == Measure(Kept(regions, lo, hi)[i], pixelsToUm)
    {
      var window := AreaWindow(minArea, maxArea);
      var lo, hi := window.0, window.1;
      particles := [];
      for i := 0 to |regions|
        invariant |particles| == |Kept(regions[..i], lo, hi)|
        invariant forall j :: 0 <= j < |particles| ==> particles[j] == Measure(Kept(regions[..i], lo, hi)[j], pixelsToUm)
      {
        assert regions[..i + 1][..i] == regions[..i];
        var region := regions[i];
        if lo <= region.area <= hi {
          particles := particles + [Measure(region, pixelsToUm)];
        }
      }
      assert regions[..|regions|] == regions;
    }
  }

  /** Every kept region lies in the window, and every region in the window is
      kept. */
  lemma {:induction false} KeptMembers(regions: seq<Region>, lo: int, hi: int)
    ensures forall r :: r in Kept(regions, lo, hi) <==> r in regions && InWindow(r, lo, hi)
    ensures |Kept(regions, lo, hi)| <= |regions|
  {
    if |regions| > 0 {
      KeptMembers(regions[..|regions| - 1], lo, hi);
      assert regions == regions[..|regions| - 1] + [regions[|regions| - 1]];
    }
  }

  /** Filtering a concatenation filters each part: the kept regions keep their
      relative order. */
  lemma {:induction false} KeptAppend(a: seq<Region>, b: seq<Region>, lo: int, hi: int)
    ensures Kept(a + b, lo, hi) == Kept(a, lo, hi) + Kept(b, lo, hi)
    decreases |b|
  {
    if |b| > 0 {
      var b' := b[..|b| - 1];
      assert (a + b)[..|a + b| - 1] == a + b';
      KeptAppend(a, b', lo, hi);
    } else {
      assert a + b == a;
    }
  }

  /** When every region is inside the window, nothing is dropped. */
  lemma {:induction false} KeptAll(regions: seq<Region>, lo: int, hi: int)
    requires forall i :: 0 <= i < |regions| ==> InWindow(regions[i], lo, hi)
    ensures Kept(regions, lo, hi) == regions
  {
    if |regions| > 0 {
      KeptAll(regions[..|regions| - 1], lo, hi);
      assert regions == regions[..|regions| - 1] + [regions[|regions| - 1]];
    }
  }

  /** The area in micrometres is the pixel area times the squared calibration,
      and the aspect ratio is major over minor axis, with the 0 sentinel. */
  lemma MeasureProperties(r: Region, s: real)
    ensures Measure(r, s).minorAxis > 0.0 && s > 0.0 ==>
      Measure(r, s).aspectRatio == Measure(r, s).majorAxis / Measure(r, s).minorAxis
    ensures r.minorAxisLength <= 0.0 ==> Measure(r, s).aspectRatio == 0.0
    ensures r.minorAxisLength > 0.0 ==> Measure(r, s).aspectRatio * r.minorAxisLength == r.majorAxisLength
  {
    if r.minorAxisLength > 0.0 && s > 0.0 {
      ScaledRatio(r.majorAxisLength, r.minorAxisLength, s);
    }
  }

  lemma ScaledRatio(a: real, b: real, s: real)
    requires b > 0.0 && s > 0.0
    ensures (a * s) / (b * s) == a / b
  {
    assert b * s > 0.0;
    assert (a / b) * (b * s) == a * s;
  }

  /** Scaling the calibration by `k` multiplies every length by `k` and the area by
      `k²`, and changes nothing else: in particular, doubling it doubles the
      lengths, quadruples the area and keeps the aspect ratio. */
  lemma CalibrationScaling(r: Region, s: real, k: real)
    ensures var m := Measure(r, s); var n := Measure(r, k * s);
      n.perimeterUm == k * m.perimeterUm && n.majorAxis == k * m.majorAxis &&
      n.minorAxis == k * m.minorAxis && n.equivalentDiameterUm == k * m.equivalentDiameterUm
    ensures var m := Measure(r, s); var n := Measure(r, k * s);
      n.areaUm2 == Square(k) * m.areaUm2
    ensures var m := Measure(r, s); var n := Measure(r, k * s);
      n.aspectRatio == m.aspectRatio && n.labelId == m.labelId && n.areaPixels == m.areaPixels &&
      n.perimeterPixels == m.perimeterPixels && n.centroid == m.centroid && n.bbox == m.bbox &&
      n.eccentricity == m.eccentricity && n.solidity == m.solidity && n.orientation == m.orientation
  {
    LengthsScale(r, s, k);
    AreaScales(r, s, k);
  }

  lemma LengthsScale(r: Region, s: real, k: real)
    ensures var m := Measure(r, s); var n := Measure(r, k * s);
      n.perimeterUm == k * m.perimeterUm && n.majorAxis == k * m.majorAxis &&
      n.minorAxis == k * m.minorAxis && n.equivalentDiameterUm == k * m.equivalentDiameterUm
  {
    MeasureFields(r, s);
    MeasureFields(r, k * s);
    ScaledLengths(Measure(r, s), Measure(r, k * s), r, s, k);
  }

  lemma AreaScales(r: Region, s: real, k: real)
    ensures var m := Measure(r, s); var n := Measure(r, k * s);
      n.areaUm2 == Square(k) * m.areaUm2
  {
    MeasureFields(r, s);
    MeasureFields(r, k * s);
    ScaledAreas(Measure(r, s), Measure(r, k * s), r, s, k);
  }

  /** The micrometre fields of a measured region, each as its pixel measure times
      the calibration (the area times its square). */
  lemma MeasureFields(r: Region, s: real)
    ensures var m := Measure(r, s);
      m.areaUm2 == r.area as real * Square(s) && m.perimeterUm == r.perimeter * s &&
      m.majorAxis == r.majorAxisLength * s && m.minorAxis == r.minorAxisLength * s &&
      m.equivalentDiameterUm == r.equivalentDiameter * s
  {
  }

  /** Lengths laid out as `Measure` lays them out at `s` and at `k·s` scale by `k`. */
  lemma ScaledLengths(m: Particle, n: Particle, r: Region, s: real, k: real)
    requires m.perimeterUm == r.perimeter * s && n.perimeterUm == r.perimeter * (k * s)
    requires m.majorAxis == r.majorAxisLength * s && n.majorAxis == r.majorAxisLength * (k * s)
    requires m.minorAxis == r.minorAxisLength * s && n.minorAxis == r.minorAxisLength * (k * s)
    requires m.equivalentDiameterUm == r.equivalentDiameter * s
    requires n.equivalentDiameterUm == r.equivalentDiameter * (k * s)
    ensures n.perimeterUm == k * m.perimeterUm && n.majorAxis == k * m.majorAxis &&
      n.minorAxis == k * m.minorAxis && n.equivalentDiameterUm == k * m.equivalentDiameterUm
  {
    ScaledLength(r.perimeter, s, k, m.perimeterUm, n.perimeterUm);
    ScaledLength(r.majorAxisLength, s, k, m.majorAxis, n.majorAxis);
    ScaledLength(r.minorAxisLength, s, k, m.minorAxis, n.minorAxis);
    ScaledLength(r.equivalentDiameter, s, k, m.equivalentDiameterUm, n.equivalentDiameterUm);
  }

  /** Areas laid out as `Measure` lays them out at `s` and at `k·s` scale by `k²`. */
  lemma ScaledAreas(m: Particle, n: Particle, r: Region, s: real, k: real)
    requires m.areaUm2 == r.area as real * Square(s) && n.areaUm2 == r.area as real * Square(k * s)
    ensures n.areaUm2 == Square(k) * m.areaUm2
  {
    SquareOfProduct(k, s);
    calc {
      n.areaUm2;
      r.area as real * Square(k * s);
      r.area as real * (Square(k) * Square(s));
      Square(k) * (r.area as real * Square(s));
    }
  }

  /** A length measured at calibration `k·s` is `k` times the one measured at `s`. */
  lemma ScaledLength(x: real, s: real, k: real, atS: real, atKS: real)
    requires atS == x * s && atKS == x * (k * s)
    ensures atKS == k * atS
  {
  }

}

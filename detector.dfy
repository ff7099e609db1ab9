/** The YOLO detector's own arithmetic: the morphology it derives from a
    bounding box, the class name it gives a class id, the numbering of the
    detections of one image, and the summary of a list of detections. The
    network's predictions are an input (one raw box per detection, in the order
    the model returns them). */
module Detector {
  import opened Wrappers
  import opened Config
  import opened Numbers
  import opened Text
  import opened Descriptive
  import opened Foreign
  import Tally

  /** A predicted box `(x1, y1, x2, y2)` in pixels, as floats. */
  datatype Box = Box(x1: real, y1: real, x2: real, y2: real)

  /** What `_calculate_morphology` returns, without its final rounding. */
  datatype BoxMorphology = BoxMorphology(
    areaUm2: real,
    perimeterUm: real,
    widthUm: real,
    heightUm: real,
    aspectRatio: real,
    circularity: real,
    elongation: real,
    equivalentDiameterUm: real,
    centroidX: real,
    centroidY: real
  )

  function Width(b: Box): real { b.x2 - b.x1 }
  function Height(b: Box): real { b.y2 - b.y1 }
  /** `area_px`: width times height. */
  function Area(b: Box): real { Width(b) * Height(b) }
  /** `perimeter_px`: the box's perimeter. */
  function Perimeter(b: Box): real { 2.0 * (Width(b) + Height(b)) }

  function Max(a: real, b: real): real { if a >= b then a else b }
  function Min(a: real, b: real): real { if a <= b then a else b }

  /** `4π·area/perimeter²`, or 0 for a perimeter that is not positive. */
  function Circularity(area: real, perimeter: real): real {
    if perimeter > 0.0 then
      SquarePositive(perimeter);
      (4.0 * Pi * area) / Square(perimeter)
    else 0.0
  }

  /** The morphology of a box at `s` micrometres per pixel. Lengths scale by `s`
      and the area by `s²`; each ratio has a fixed value for the degenerate box
      that would divide by zero. */
  function Morphology(b: Box, s: real, lib: Library): (m: BoxMorphology)
    ensures m.centroidX == (b.x1 + b.x2) / 2.0 && m.centroidY == (b.y1 + b.y2) / 2.0
  {
    var w := Width(b);
    var h := Height(b);
    BoxMorphology(
      areaUm2 := Area(b) * Square(s),
      perimeterUm := Perimeter(b) * s,
      widthUm := w * s,
      heightUm := h * s,
      aspectRatio := if h > 0.0 then w / h else 1.0,
      circularity := Circularity(Area(b), Perimeter(b)),
      elongation := if Min(w, h) > 0.0 then Max(w, h) / Min(w, h) else 1.0,
      equivalentDiameterUm := lib.sqrt(4.0 * Area(b) / Pi) * s,
      centroidX := (b.x1 + b.x2) / 2.0,
      centroidY := (b.y1 + b.y2) / 2.0
    )
  }

  // Arithmetic helpers. Each keeps one non-linear step away from the lemmas
  // about boxes.

  lemma SquarePositive(x: real)
    requires x > 0.0
    ensures Square(x) > 0.0
  {
    calc {
      Square(x);
      x * x;
    > { assert x * x > 0.0; }
      0.0;
    }
  }

  lemma QuotientAtMost(x: real, y: real, k: real)
    requires y > 0.0 && x <= k * y
    ensures x / y <= k
  {
  }

  lemma QuotientAtLeast(x: real, y: real, k: real)
    requires y > 0.0 && k * y <= x
    ensures k <= x / y
  {
  }

  lemma QuotientAtLeastOne(a: real, b: real)
    requires 0.0 < b <= a
    ensures a / b >= 1.0
  {
  }

  lemma QuotientBelowOne(a: real, b: real)
    requires 0.0 <= a < b
    ensures a / b < 1.0
  {
    assert a / b * b == a;
  }

  /** The micrometre fields describe one rectangle: its area is width times
      height and its perimeter twice their sum. */
  lemma {:induction false} RectangleInMicrometres(b: Box, s: real, lib: Library)
    ensures var m := Morphology(b, s, lib);
      m.areaUm2 == m.widthUm * m.heightUm &&
      m.perimeterUm == 2.0 * (m.widthUm + m.heightUm)
  {
    AreaInMicrometres(b, s, lib);
    PerimeterInMicrometres(b, s, lib);
  }

  lemma AreaInMicrometres(b: Box, s: real, lib: Library)
    ensures var m := Morphology(b, s, lib); m.areaUm2 == m.widthUm * m.heightUm
  {
    MorphologyLengths(b, s, lib);
    AreaOfFields(Morphology(b, s, lib), b, s, lib);
  }

  /** Fields laid out as `Morphology` lays them out describe one rectangle's area. */
  lemma AreaOfFields(m: BoxMorphology, b: Box, s: real, lib: Library)
    requires LaidOut(m, b, s, lib)
    ensures m.areaUm2 == m.widthUm * m.heightUm
  {
    ScaledRectangle(Width(b), Height(b), Area(b), s, m.areaUm2, m.widthUm, m.heightUm);
  }

  /** `m`'s micrometre fields as `Morphology` computes them for box `b` at
      calibration `s`: each pixel measure times `s`, the area times `s²`. */
  predicate LaidOut(m: BoxMorphology, b: Box, s: real, lib: Library) {
    m.areaUm2 == Area(b) * Square(s) && m.perimeterUm == Perimeter(b) * s &&
    m.widthUm == Width(b) * s && m.heightUm == Height(b) * s &&
    m.equivalentDiameterUm == lib.sqrt(4.0 * Area(b) / Pi) * s
  }

  lemma MorphologyLengths(b: Box, s: real, lib: Library)
    ensures LaidOut(Morphology(b, s, lib), b, s, lib)
  {
  }

  /** A rectangle's area, scaled by `s²`, is the product of its sides scaled by `s`. */
  lemma ScaledRectangle(w: real, h: real, area: real, s: real, a: real, ws: real, hs: real)
    requires area == w * h && a == area * Square(s) && ws == w * s && hs == h * s
    ensures a == ws * hs
  {
    ScaledProduct(w, h, s);
  }

  lemma PerimeterInMicrometres(b: Box, s: real, lib: Library)
    ensures var m := Morphology(b, s, lib); m.perimeterUm == 2.0 * (m.widthUm + m.heightUm)
  {
    MorphologyLengths(b, s, lib);
    PerimeterOfFields(Morphology(b, s, lib), b, s, lib);
  }

  /** Fields laid out as `Morphology` lays them out describe one rectangle's
      perimeter. */
  lemma PerimeterOfFields(m: BoxMorphology, b: Box, s: real, lib: Library)
    requires LaidOut(m, b, s, lib)
    ensures m.perimeterUm == 2.0 * (m.widthUm + m.heightUm)
  {
    ScaledPerimeter(Width(b), Height(b), Perimeter(b), s, m.perimeterUm, m.widthUm, m.heightUm);
  }

  /** A rectangle's perimeter, scaled by `s`, is twice the sum of its sides scaled
      by `s`. */
  lemma ScaledPerimeter(w: real, h: real, perimeter: real, s: real, p: real, ws: real, hs: real)
    requires perimeter == 2.0 * (w + h) && p == perimeter * s && ws == w * s && hs == h * s
    ensures p == 2.0 * (ws + hs)
  {
    ScaledSum(w, h, s);
  }

  lemma ScaledSum(w: real, h: real, s: real)
    ensures (2.0 * (w + h)) * s == 2.0 * (w * s + h * s)
  {
  }

  lemma ScaledProduct(w: real, h: real, s: real)
    ensures (w * h) * Square(s) == (w * s) * (h * s)
  {
    calc {
      (w * h) * Square(s);
      (w * h) * (s * s);
      (w * s) * (h * s);
    }
  }

  /** Changing the calibration by a factor `k` multiplies every length by `k` and
      the area by `k²`; the ratios and the pixel centroid stay as they are. */
  lemma {:induction false} CalibrationScaling(b: Box, s: real, k: real, lib: Library)
    ensures var m := Morphology(b, s, lib); var n := Morphology(b, k * s, lib);
      n.widthUm == k * m.widthUm && n.heightUm == k * m.heightUm &&
      n.perimeterUm == k * m.perimeterUm &&
      n.equivalentDiameterUm == k * m.equivalentDiameterUm
    ensures Morphology(b, k * s, lib).areaUm2 == Square(k) * Morphology(b, s, lib).areaUm2
    ensures var m := Morphology(b, s, lib); var n := Morphology(b, k * s, lib);
      n.aspectRatio == m.aspectRatio && n.circularity == m.circularity &&
      n.elongation == m.elongation &&
      n.centroidX == m.centroidX && n.centroidY == m.centroidY
  {
    LengthsScale(b, s, k, lib);
    AreaScales(b, s, k, lib);
    RatiosUnchanged(b, s, k, lib);
  }

  lemma LengthsScale(b: Box, s: real, k: real, lib: Library)
    ensures var m := Morphology(b, s, lib); var n := Morphology(b, k * s, lib);
      n.widthUm == k * m.widthUm && n.heightUm == k * m.heightUm &&
      n.perimeterUm == k * m.perimeterUm &&
      n.equivalentDiameterUm == k * m.equivalentDiameterUm
  {
    SidesScale(b, s, k, lib);
    DiameterScales(b, s, k, lib);
  }

  lemma SidesScale(b: Box, s: real, k: real, lib: Library)
    ensures var m := Morphology(b, s, lib); var n := Morphology(b, k * s, lib);
      n.widthUm == k * m.widthUm && n.heightUm == k * m.heightUm &&
      n.perimeterUm == k * m.perimeterUm
  {
    MorphologyLengths(b, s, lib);
    MorphologyLengths(b, k * s, lib);
    SidesOfFields(Morphology(b, s, lib), Morphology(b, k * s, lib), b, s, k, lib);
  }

  lemma DiameterScales(b: Box, s: real, k: real, lib: Library)
    ensures Morphology(b, k * s, lib).equivalentDiameterUm == k * Morphology(b, s, lib).equivalentDiameterUm
  {
    MorphologyLengths(b, s, lib);
    MorphologyLengths(b, k * s, lib);
    DiameterScaledFields(Morphology(b, s, lib), Morphology(b, k * s, lib), b, s, k, lib);
  }

  /** Sides and perimeters laid out as `Morphology` lays them out, at calibrations
      `s` and `k·s`, differ by the factor `k`. */
  lemma SidesOfFields(m: BoxMorphology, n: BoxMorphology, b: Box, s: real, k: real, lib: Library)
    requires LaidOut(m, b, s, lib) && LaidOut(n, b, k * s, lib)
    ensures n.widthUm == k * m.widthUm && n.heightUm == k * m.heightUm &&
      n.perimeterUm == k * m.perimeterUm
  {
  }

  /** So do equivalent diameters. */
  lemma DiameterScaledFields(m: BoxMorphology, n: BoxMorphology, b: Box, s: real, k: real, lib: Library)
    requires LaidOut(m, b, s, lib) && LaidOut(n, b, k * s, lib)
    ensures n.equivalentDiameterUm == k * m.equivalentDiameterUm
  {
  }

  lemma AreaScales(b: Box, s: real, k: real, lib: Library)
    ensures Morphology(b, k * s, lib).areaUm2 == Square(k) * Morphology(b, s, lib).areaUm2
  {
    MorphologyLengths(b, s, lib);
    MorphologyLengths(b, k * s, lib);
    AreaScaledFields(Morphology(b, s, lib), Morphology(b, k * s, lib), b, s, k, lib);
  }

  /** An area laid out as `Morphology` lays it out, at calibrations `s` and `k·s`,
      differs by the factor `k²`. */
  lemma AreaScaledFields(m: BoxMorphology, n: BoxMorphology, b: Box, s: real, k: real, lib: Library)
    requires LaidOut(m, b, s, lib) && LaidOut(n, b, k * s, lib)
    ensures n.areaUm2 == Square(k) * m.areaUm2
  {
    SquareOfProduct(k, s);
    calc {
      n.areaUm2;
      Area(b) * Square(k * s);
      Area(b) * (Square(k) * Square(s));
      Square(k) * (Area(b) * Square(s));
    }
  }

  lemma RatiosUnchanged(b: Box, s: real, k: real, lib: Library)
    ensures var m := Morphology(b, s, lib); var n := Morphology(b, k * s, lib);
      n.aspectRatio == m.aspectRatio && n.circularity == m.circularity &&
      n.elongation == m.elongation &&
      n.centroidX == m.centroidX && n.centroidY == m.centroidY
  {
  }

  /** Elongation is never below 1, and a square (or a degenerate box) has
      elongation exactly 1. */
  lemma {:induction false} ElongationAtLeastOne(b: Box, s: real, lib: Library)
    ensures Morphology(b, s, lib).elongation >= 1.0
    ensures Width(b) == Height(b) ==> Morphology(b, s, lib).elongation == 1.0
  {
    var w, h := Width(b), Height(b);
    if Min(w, h) > 0.0 {
      QuotientAtLeastOne(Max(w, h), Min(w, h));
    }
  }

  /** `16·area ≤ perimeter²` for every box, with equality for a square: the
      difference is `4(w − h)²`. */
  lemma {:induction false} AreaPerimeter(b: Box)
    ensures 16.0 * Area(b) <= Square(Perimeter(b))
    ensures Width(b) == Height(b) ==> 16.0 * Area(b) == Square(Perimeter(b))
  {
    var w, h := Width(b), Height(b);
    calc {
      Square(Perimeter(b)) - 16.0 * Area(b);
      (2.0 * (w + h)) * (2.0 * (w + h)) - 16.0 * (w * h);
      4.0 * ((w - h) * (w - h));
    }
    assert (w - h) * (w - h) >= 0.0;
  }

  /** The circularity formula stays at or below π/4 whenever
      `16·area ≤ perimeter²`, reaching it at equality. */
  lemma CircularityAtMost(area: real, perimeter: real)
    requires 16.0 * area <= Square(perimeter)
    ensures Circularity(area, perimeter) <= Pi / 4.0
    ensures area >= 0.0 ==> Circularity(area, perimeter) >= 0.0
    ensures perimeter > 0.0 && 16.0 * area == Square(perimeter) ==> Circularity(area, perimeter) == Pi / 4.0
  {
    if perimeter > 0.0 {
      var q := Square(perimeter);
      SquarePositive(perimeter);
      var x := 4.0 * Pi * area;
      assert x <= (Pi / 4.0) * q;
      QuotientAtMost(x, q, Pi / 4.0);
      if area >= 0.0 {
        QuotientAtLeast(x, q, 0.0);
      }
      if 16.0 * area == q {
        assert x == (Pi / 4.0) * q;
        QuotientAtLeast(x, q, Pi / 4.0);
      }
    }
  }

  /** A box's circularity is at most π/4, the value of a square; it is never
      negative when the box is not inverted. */
  lemma {:induction false} CircularityBound(b: Box, s: real, lib: Library)
    ensures Morphology(b, s, lib).circularity <= Pi / 4.0
    ensures Width(b) >= 0.0 && Height(b) >= 0.0 ==> Morphology(b, s, lib).circularity >= 0.0
    ensures Width(b) == Height(b) > 0.0 ==> Morphology(b, s, lib).circularity == Pi / 4.0
  {
    AreaPerimeter(b);
    if Width(b) >= 0.0 && Height(b) >= 0.0 {
      assert Area(b) >= 0.0;
    }
    CircularityAtMost(Area(b), Perimeter(b));
  }

  /** The aspect ratio is width over height, not oriented: it is below 1 for a
      box taller than wide, and 1 when the height is not positive. */
  lemma {:induction false} AspectRatioOfBox(b: Box, s: real, lib: Library)
    ensures Height(b) > 0.0 ==> Morphology(b, s, lib).aspectRatio * Height(b) == Width(b)
    ensures 0.0 <= Width(b) < Height(b) ==> Morphology(b, s, lib).aspectRatio < 1.0
    ensures Height(b) <= 0.0 ==> Morphology(b, s, lib).aspectRatio == 1.0
  {
    var w, h := Width(b), Height(b);
    if 0.0 <= w < h {
      QuotientBelowOne(w, h);
    }
  }

  /** The equivalent diameter is that of the circle with the box's area: when the
      square root is exact, its square is `4·area/π`, in micrometres too. */
  lemma {:induction false} EquivalentDiameter(b: Box, s: real, lib: Library)
    requires RootAt(lib, 4.0 * Area(b) / Pi)
    ensures Square(Morphology(b, s, lib).equivalentDiameterUm) == 4.0 * Morphology(b, s, lib).areaUm2 / Pi
    ensures s >= 0.0 ==> Morphology(b, s, lib).equivalentDiameterUm >= 0.0
  {
    DiameterSquared(b, s, lib);
    DiameterNonNegative(b, s, lib);
  }

  lemma DiameterSquared(b: Box, s: real, lib: Library)
    requires RootAt(lib, 4.0 * Area(b) / Pi)
    ensures Square(Morphology(b, s, lib).equivalentDiameterUm) == 4.0 * Morphology(b, s, lib).areaUm2 / Pi
  {
    MorphologyLengths(b, s, lib);
    DiameterOfFields(Morphology(b, s, lib), b, s, lib);
  }

  lemma DiameterNonNegative(b: Box, s: real, lib: Library)
    requires RootAt(lib, 4.0 * Area(b) / Pi)
    ensures s >= 0.0 ==> Morphology(b, s, lib).equivalentDiameterUm >= 0.0
  {
    MorphologyLengths(b, s, lib);
    DiameterOfFields(Morphology(b, s, lib), b, s, lib);
  }

  /** A diameter and an area laid out as `Morphology` lays them out, from an exact
      root of `4·area/π`. */
  lemma DiameterOfFields(m: BoxMorphology, b: Box, s: real, lib: Library)
    requires RootAt(lib, 4.0 * Area(b) / Pi)
    requires LaidOut(m, b, s, lib)
    ensures Square(m.equivalentDiameterUm) == 4.0 * m.areaUm2 / Pi
    ensures s >= 0.0 ==> m.equivalentDiameterUm >= 0.0
  {
    ScaledDiameter(Area(b), lib.sqrt(4.0 * Area(b) / Pi), s);
  }

  /** The arithmetic of the equivalent diameter: a root `d` of `4·a/π` scaled by
      `s` is a root of `4·a·s²/π`, and not negative for a non-negative `s`. */
  lemma ScaledDiameter(a: real, d: real, s: real)
    requires d >= 0.0 && d * d == 4.0 * a / Pi
    ensures Square(d * s) == 4.0 * (a * Square(s)) / Pi
    ensures s >= 0.0 ==> d * s >= 0.0
  {
    SquareOfProduct(d, s);
    calc {
      Square(d * s);
      Square(d) * Square(s);
      (4.0 * a / Pi) * Square(s);
      { QuarterScaled(a, Square(s)); }
      4.0 * (a * Square(s)) / Pi;
    }
    if s >= 0.0 {
      ScaleBelow(0.0, d, s);
    }
  }

  lemma QuarterScaled(a: real, t: real)
    ensures 4.0 * a / Pi * t == 4.0 * (a * t) / Pi
  {
  }

  /** `_get_class_name`: the model's own name for the id wins; otherwise the
      fixed class list for ids 0 to 5; otherwise `clase_<id>`. */
  function ClassName(modelNames: Option<map<int, string>>, classId: int): string {
    if modelNames.Some? && classId in modelNames.value then modelNames.value[classId]
    else if 0 <= classId < |ClassNames| then ClassNames[classId]
    else "clase_" + IntToString(classId)
  }

  /** Without names from the model, different class ids get different names: the
      fixed names are distinct, and none of them starts with `clase_`. */
  lemma ClassNameInjective(a: int, b: int)
    requires ClassName(None, a) == ClassName(None, b)
    ensures a == b
  {
    if (0 <= a < 6) != (0 <= b < 6) {
      FallbackInitial(a);
      FallbackInitial(b);
      assert false;
    } else if !(0 <= a < 6) {
      var na, nb := ClassName(None, a), ClassName(None, b);
      assert IntToString(a) == na[6..] == nb[6..] == IntToString(b);
      IntToStringInjective(a, b);
    }
  }

  /** Only the `clase_<id>` fallback names begin with `c`. */
  lemma FallbackInitial(id: int)
    ensures |ClassName(None, id)| > 0
    ensures ClassName(None, id)[0] == 'c' <==> !(0 <= id < 6)
  {
    DefaultsConsistent();
    if 0 <= id < 6 {
      assert ClassName(None, id) == ClassNames[id];
      assert ClassNames[id][0] != 'c' by {
        assert ClassNames[0][0] == 'f' && ClassNames[1][0] == 'f' && ClassNames[2][0] == 'p';
        assert ClassNames[3][0] == 'e' && ClassNames[4][0] == 'm' && ClassNames[5][0] == 'a';
      }
    }
  }

  /** One detection as the model reports it: a float box, a confidence and a
      float class index. */
  datatype RawDetection = RawDetection(xyxy: Box, confidence: real, cls: real)

  /** One detected particle: the box morphology and the detection metadata. */
  datatype Detection = Detection(
    morphology: BoxMorphology,
    particleId: int,
    classId: int,
    className: string,
    confidence: real,
    bbox: (int, int, int, int),
    detectionMethod: string
  )

  /** The particle for the detection at position `index`: the morphology uses the
      float box, the reported `bbox` the box truncated to integers. */
  function DetectionAt(raw: RawDetection, index: nat, s: real, modelNames: Option<map<int, string>>, lib: Library): Detection {
    var b := raw.xyxy;
    var id := Trunc(raw.cls);
    Detection(Morphology(b, s, lib), index + 1, id, ClassName(modelNames, id), raw.confidence,
      (Trunc(b.x1), Trunc(b.y1), Trunc(b.x2), Trunc(b.y2)), "YOLOv8")
  }

  /** `get_detection_summary`; the minimum and maximum area are absent from the
      summary of an empty list. */
  datatype Summary = Summary(
    totalParticles: nat,
    byClass: Tally.Tally,
    avgConfidence: real,
    avgAreaUm2: real,
    minAreaUm2: Option<real>,
    maxAreaUm2: Option<real>
  )

  function ClassNamesOf(ps: seq<Detection>): (names: seq<string>)
    ensures |names| == |ps| && forall i :: 0 <= i < |ps| ==> names[i] == ps[i].className
  {
    seq(|ps|, i requires 0 <= i < |ps| => ps[i].className)
  }

  function ConfidencesOf(ps: seq<Detection>): (cs: seq<real>)
    ensures |cs| == |ps| && forall i :: 0 <= i < |ps| ==> cs[i] == ps[i].confidence
  {
    seq(|ps|, i requires 0 <= i < |ps| => ps[i].confidence)
  }

  function AreasOf(ps: seq<Detection>): (areas: seq<real>)
    ensures |areas| == |ps| && forall i :: 0 <= i < |ps| ==> areas[i] == ps[i].morphology.areaUm2
  {
    seq(|ps|, i requires 0 <= i < |ps| => ps[i].morphology.areaUm2)
  }

  class YoloDetector {
    var pixelsToUm: real
    var confidenceThreshold: real
    var iouThreshold: real
    /** The loaded model's `names` table, when it has one. */
    var modelNames: Option<map<int, string>>

    /** A missing or zero calibration falls back to the configured one. */
    constructor (pixelsToUm: Option<real>, confidenceThreshold: real, iouThreshold: real,
                 modelNames: Option<map<int, string>>)
      ensures this.pixelsToUm == Or(pixelsToUm, 0.0, DefaultImageParams.pixelsToUm)
      ensures pixelsToUm.None? || pixelsToUm == Some(0.0) ==> this.pixelsToUm == 1.0
      ensures this.confidenceThreshold == confidenceThreshold && this.iouThreshold == iouThreshold
      ensures this.modelNames == modelNames
    {
      this.pixelsToUm := Or(pixelsToUm, 0.0, DefaultImageParams.pixelsToUm);
      this.confidenceThreshold := confidenceThreshold;
      this.iouThreshold := iouThreshold;
      this.modelNames := modelNames;
    }

    /** `detect_particles` on the model's detections: one particle per detection,
        in order, numbered from 1. */
    method DetectParticles(boxes: seq<RawDetection>, lib: Library) returns (particles: seq<Detection>)
      ensures |particles| == |boxes|
      ensures forall i :: 0 <= i < |boxes| ==>
        particles[i] == DetectionAt(boxes[i], i, pixelsToUm, modelNames, lib)
      ensures forall i :: 0 <= i < |particles| ==> particles[i].particleId == i + 1
    {
      particles := [];
      for idx := 0 to |boxes|
        invariant |particles| == idx
        invariant forall i :: 0 <= i < idx ==>
          particles[i] == DetectionAt(boxes[i], i, pixelsToUm, modelNames, lib)
      {
        particles := particles + [DetectionAt(boxes[idx], idx, pixelsToUm, modelNames, lib)];
      }
    }

    /** `get_detection_summary`: per-class counts in first-seen order, mean
        confidence and mean, smallest and largest area. */
    method GetDetectionSummary(particles: seq<Detection>) returns (summary: Summary)
      ensures |particles| == 0 ==> summary == Summary(0, [], 0.0, 0.0, None, None)
      ensures summary.totalParticles == |particles|
      ensures |particles| > 0 ==> summary.byClass == Tally.TallyOf(ClassNamesOf(particles))
      ensures Tally.Total(summary.byClass) == summary.totalParticles
      ensures forall k :: Tally.Get(summary.byClass, k) == Tally.Occurrences(ClassNamesOf(particles), k)
      ensures |particles| > 0 ==>
        summary.avgConfidence == Mean(ConfidencesOf(particles)) &&
        summary.avgAreaUm2 == Mean(AreasOf(particles))
      ensures |particles| > 0 ==>
        summary.minAreaUm2 == Some(MinOf(AreasOf(particles))) &&
        summary.maxAreaUm2 == Some(MaxOf(AreasOf(particles)))
      ensures |particles| > 0 ==>
        summary.minAreaUm2.Some? && summary.maxAreaUm2.Some? &&
        summary.minAreaUm2.value <= summary.avgAreaUm2 <= summary.maxAreaUm2.value
    {
      if |particles| == 0 {
        Tally.TallyOfProperties([]);
        return Summary(0, [], 0.0, 0.0, None, None);
      }
      ghost var names := ClassNamesOf(particles);
      var classCounts: Tally.Tally := [];
      var confidences: seq<real> := [];
      var areas: seq<real> := [];
      for i := 0 to |particles|
        invariant classCounts == Tally.TallyOf(names[..i])
        invariant confidences == ConfidencesOf(particles)[..i]
        invariant areas == AreasOf(particles)[..i]
      {
        assert names[..i + 1][..i] == names[..i];
        classCounts := Tally.Bump(classCounts, particles[i].className);
        confidences := confidences + [particles[i].confidence];
        areas := areas + [particles[i].morphology.areaUm2];
      }
      assert names[..|particles|] == names;
      assert areas == AreasOf(particles);
      assert confidences == ConfidencesOf(particles);
      Tally.TallyOfProperties(names);
      MeanBetweenExtremes(areas);
      summary := Summary(|particles|, classCounts, Mean(confidences), Mean(areas),
        Some(MinOf(areas)), Some(MaxOf(areas)));
    }
  }
}

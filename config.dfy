/** The configuration constants the analyser, detector and trainer read: the
    category tables that classify particles, the image-processing defaults, and the
    six particle classes shared by the detector, the trainer and the annotation
    tool. */
module Config {

  /** The upper end of a category range: a number, or `float('inf')`. */
  datatype Bound = Finite(value: real) | Infinity

  /** A half-open range `[lo, hi)`. */
  datatype Range = Range(lo: real, hi: Bound)

  predicate InRange(r: Range, v: real) {
    r.lo <= v && (r.hi.Infinity? || v < r.hi.value)
  }

  /** An ordered category table: category name and range, in insertion order. */
  type CategoryTable = seq<(string, Range)>

  /** Size categories over the equivalent diameter in micrometres. */
  const SizeCategories: CategoryTable := [
    ("pequeño", Range(0.0, Finite(50.0))),
    ("mediano", Range(50.0, Finite(200.0))),
    ("grande", Range(200.0, Infinity))
  ]

  /** Shape categories over the aspect ratio. */
  const AspectRatioCategories: CategoryTable := [
    ("esférico", Range(0.8, Finite(1.2))),
    ("alargado", Range(1.2, Finite(3.0))),
    ("fibra", Range(3.0, Infinity))
  ]

  datatype ImageParams = ImageParams(
    pixelsToUm: real,       // micrometres per pixel, uncalibrated default
    threshold: int,         // segmentation threshold, 0..255
    minParticleArea: int,   // smallest region kept, in pixels
    maxParticleArea: int    // largest region kept, in pixels
  )

  const DefaultImageParams: ImageParams := ImageParams(1.0, 127, 10, 50000)

  /** The particle classes, in the order that fixes their YOLO class ids. */
  const ClassNames: seq<string> :=
    ["fibra", "fragmento", "pelicula", "esfera", "microplastico_irregular", "aglomerado"]

  /** Consecutive ranges of a table meet: each one's upper end is the next one's
      lower end. */
  predicate Adjacent(t: CategoryTable) {
    forall i :: 0 <= i < |t| - 1 ==> t[i].1.hi == Finite(t[i + 1].1.lo)
  }

  /** The value falls in exactly one range of the table. */
  predicate InExactlyOne(t: CategoryTable, v: real) {
    exists i :: 0 <= i < |t| && InRange(t[i].1, v) &&
      forall j :: 0 <= j < |t| && j != i ==> !InRange(t[j].1, v)
  }

  /** The size table's ranges are adjacent, start at 0 and end at infinity, so every
      non-negative diameter lies in exactly one of them and a negative one in none. */
  lemma SizeTablePartitions(d: real)
    ensures Adjacent(SizeCategories)
    ensures SizeCategories[0].1.lo == 0.0 && SizeCategories[|SizeCategories| - 1].1.hi == Infinity
    ensures d >= 0.0 ==> InExactlyOne(SizeCategories, d)
    ensures d < 0.0 ==> forall i :: 0 <= i < |SizeCategories| ==> !InRange(SizeCategories[i].1, d)
  {
    var r0, r1, r2 := Range(0.0, Finite(50.0)), Range(50.0, Finite(200.0)), Range(200.0, Infinity);
    assert SizeCategories[0].1 == r0 && SizeCategories[1].1 == r1 && SizeCategories[2].1 == r2;
    if d >= 0.0 {
      var i := if d < 50.0 then 0 else if d < 200.0 then 1 else 2;
      assert InRange(SizeCategories[i].1, d);
      assert forall j :: 0 <= j < 3 && j != i ==> !InRange(SizeCategories[j].1, d);
    }
  }

  /** The aspect-ratio table's ranges are adjacent from 0.8 upwards: a ratio of at
      least 0.8 lies in exactly one of them, a smaller one in none. */
  lemma AspectTablePartitions(a: real)
    ensures Adjacent(AspectRatioCategories)
    ensures a >= 0.8 ==> InExactlyOne(AspectRatioCategories, a)
    ensures a < 0.8 ==> forall i :: 0 <= i < |AspectRatioCategories| ==> !InRange(AspectRatioCategories[i].1, a)
  {
    var r0, r1, r2 := Range(0.8, Finite(1.2)), Range(1.2, Finite(3.0)), Range(3.0, Infinity);
    assert AspectRatioCategories[0].1 == r0 && AspectRatioCategories[1].1 == r1 && AspectRatioCategories[2].1 == r2;
    if a >= 0.8 {
      var i := if a < 1.2 then 0 else if a < 3.0 then 1 else 2;
      assert InRange(AspectRatioCategories[i].1, a);
      assert forall j :: 0 <= j < 3 && j != i ==> !InRange(AspectRatioCategories[j].1, a);
    }
  }

  /** The default area window is non-empty and the default calibration is one
      micrometre per pixel. */
  lemma DefaultsConsistent()
    ensures 0 < DefaultImageParams.minParticleArea <= DefaultImageParams.maxParticleArea
    ensures DefaultImageParams.pixelsToUm == 1.0
    ensures |ClassNames| == 6
    ensures forall i, j :: 0 <= i < j < |ClassNames| ==> ClassNames[i] != ClassNames[j]
  {
  }

  /** Lower-case letters and underscores only. */
  predicate SnakeCase(s: string) {
    forall i :: 0 <= i < |s| ==> 'a' <= s[i] <= 'z' || s[i] == '_'
  }

  lemma SnakeCaseConcat(a: string, b: string)
    requires SnakeCase(a) && SnakeCase(b)
    ensures SnakeCase(a + b)
  {
  }

  /** Every class name is in snake case. */
  lemma ClassNamesSnakeCase()
    ensures forall k :: 0 <= k < |ClassNames| ==> SnakeCase(ClassNames[k])
  {
    var names := ["fibra", "fragmento", "pelicula", "esfera", "microplastico", "_irregular", "aglomerado"];
    forall j | 0 <= j < |names| ensures SnakeCase(names[j]) {
      var s := names[j];
      forall i | 0 <= i < |s| ensures 'a' <= s[i] <= 'z' || s[i] == '_' {
      }
    }
    SnakeCaseConcat(names[4], names[5]);
    assert names[4] + names[5] == ClassNames[4];
    forall k | 0 <= k < |ClassNames| ensures SnakeCase(ClassNames[k]) {
      if k < 4 {
        assert ClassNames[k] == names[k];
      } else if k == 5 {
        assert ClassNames[k] == names[6];
      }
    }
  }
}

/** The particle classifier of the statistical analyser: a value is given the name
    of the first category, in table order, whose half-open range holds it. */
module Classifier {
  import opened Config

  /** The name given to a value no range holds. */
  const Undefined: string := "indefinido"

  /** The loop over the table with an early return. */
  function Classify(table: CategoryTable, v: real): (name: string)
  {
    if |table| == 0 then Undefined
    else if InRange(table[0].1, v) then table[0].0
    else Classify(table[1..], v)
  }

  /** `i` is the first range of the table that holds `v`. */
  predicate FirstMatch(table: CategoryTable, v: real, i: int) {
    0 <= i < |table| && InRange(table[i].1, v) &&
    forall j :: 0 <= j < i ==> !InRange(table[j].1, v)
  }

  predicate NoMatch(table: CategoryTable, v: real) {
    forall i :: 0 <= i < |table| ==> !InRange(table[i].1, v)
  }

  /** Classification returns the first matching category's name, and the undefined
      name when no range matches; ranges later in the table never override an
      earlier match, even when misconfigured ranges overlap. */
  lemma {:induction false} ClassifyIsFirstMatch(table: CategoryTable, v: real)
    ensures NoMatch(table, v) ==> Classify(table, v) == Undefined
    ensures forall i :: FirstMatch(table, v, i) ==> Classify(table, v) == table[i].0
  {
    if |table| > 0 && !InRange(table[0].1, v) {
      ClassifyIsFirstMatch(table[1..], v);
      forall i | FirstMatch(table, v, i) ensures Classify(table, v) == table[i].0 {
        assert FirstMatch(table[1..], v, i - 1);
      }
    }
  }

  /** Every value either has a first matching range or matches none. */
  lemma {:induction false} MatchOrNot(table: CategoryTable, v: real)
    ensures NoMatch(table, v) || exists i :: FirstMatch(table, v, i)
  {
    if |table| > 0 {
      if InRange(table[0].1, v) {
        assert FirstMatch(table, v, 0);
      } else {
        MatchOrNot(table[1..], v);
        if !NoMatch(table[1..], v) {
          var i :| FirstMatch(table[1..], v, i);
          assert FirstMatch(table, v, i + 1);
        }
      }
    }
  }

  /** `_classify_by_size`. */
  function ClassifyBySize(diameter: real): string {
    Classify(SizeCategories, diameter)
  }

  /** `_classify_by_aspect_ratio`. */
  function ClassifyByAspectRatio(aspectRatio: real): string {
    Classify(AspectRatioCategories, aspectRatio)
  }

  /** With the default size table, every non-negative diameter gets a size category
      and a negative one is undefined; lower ends are inclusive and upper ends
      exclusive, so 50 is medium and 200 large. */
  lemma SizeClassification(d: real)
    ensures d >= 0.0 <==> ClassifyBySize(d) != Undefined
    ensures 0.0 <= d < 50.0 ==> ClassifyBySize(d) == "pequeño"
    ensures 50.0 <= d < 200.0 ==> ClassifyBySize(d) == "mediano"
    ensures 200.0 <= d ==> ClassifyBySize(d) == "grande"
  {
    var t := SizeCategories;
    assert t[0].1 == Range(0.0, Finite(50.0));
    assert t[1].1 == Range(50.0, Finite(200.0));
    assert t[2].1 == Range(200.0, Infinity);
    ClassifyIsFirstMatch(t, d);
    if d < 0.0 {
      assert NoMatch(t, d);
    } else if d < 50.0 {
      assert FirstMatch(t, d, 0);
      assert "pequeño"[0] != Undefined[0];
    } else if d < 200.0 {
      assert FirstMatch(t, d, 1);
      assert "mediano"[0] != Undefined[0];
    } else {
      assert FirstMatch(t, d, 2);
      assert "grande"[0] != Undefined[0];
    }
  }

  /** With the default aspect table, a ratio below 0.8 (the region sentinel 0 and
      narrow boxes whose width is under 0.8 of their height among them) is undefined,
      and every larger ratio gets a shape category. */
  lemma AspectClassification(a: real)
    ensures a >= 0.8 <==> ClassifyByAspectRatio(a) != Undefined
    ensures 0.8 <= a < 1.2 ==> ClassifyByAspectRatio(a) == "esférico"
    ensures 1.2 <= a < 3.0 ==> ClassifyByAspectRatio(a) == "alargado"
    ensures 3.0 <= a ==> ClassifyByAspectRatio(a) == "fibra"
  {
    var t := AspectRatioCategories;
    assert t[0].1 == Range(0.8, Finite(1.2));
    assert t[1].1 == Range(1.2, Finite(3.0));
    assert t[2].1 == Range(3.0, Infinity);
    ClassifyIsFirstMatch(t, a);
    if a < 0.8 {
      assert NoMatch(t, a);
    } else if a < 1.2 {
      assert FirstMatch(t, a, 0);
      assert "esférico"[0] != Undefined[0];
    } else if a < 3.0 {
      assert FirstMatch(t, a, 1);
      assert "alargado"[0] != Undefined[0];
    } else {
      assert FirstMatch(t, a, 2);
      assert "fibra"[0] != Undefined[0];
    }
  }

  /** The boundary examples: 50.0 is medium, not small; 200.0 is large. */
  lemma BoundaryExamples()
    ensures ClassifyBySize(50.0) == "mediano"
    ensures ClassifyBySize(200.0) == "grande"
    ensures ClassifyByAspectRatio(0.0) == Undefined
  {
    SizeClassification(50.0);
    SizeClassification(200.0);
    AspectClassification(0.0);
  }
}

/** What the system takes from numerical libraries it does not define itself:
    square roots, scipy's hypothesis tests and Python's fixed-point number
    formatting. Each is a parameter of the model, so every property proved holds
    whatever those libraries compute. */
module Foreign {
  import opened Wrappers
  import opened Text

  /** A test's `(statistic, p_value)`, or `None` when the library raises. */
  type TestOutcome = Option<(real, real)>

  datatype Library = Library(
    sqrt: real -> real,                                 // numpy / pandas square root
    shapiro: seq<real> -> TestOutcome,                  // scipy.stats.shapiro
    ttest: (seq<real>, seq<real>) -> TestOutcome,       // scipy.stats.ttest_ind
    mannWhitney: (seq<real>, seq<real>) -> TestOutcome, // scipy.stats.mannwhitneyu, two-sided
    anova: seq<seq<real>> -> TestOutcome,               // scipy.stats.f_oneway
    kruskal: seq<seq<real>> -> TestOutcome,             // scipy.stats.kruskal
    fixed: (real, nat) -> string                        // f"{x:.Nf}"
  )

  /** `lib.sqrt` is a true square root at `x`. */
  predicate RootAt(lib: Library, x: real) {
    lib.sqrt(x) >= 0.0 && lib.sqrt(x) * lib.sqrt(x) == x
  }

  /** Pi as numpy gives it. */
  const Pi: real := 3.141592653589793

  /** Formatting that never produces a line break. */
  ghost predicate SingleLineFormat(lib: Library) {
    forall x, places :: NoNewline(lib.fixed(x, places))
  }

  /** One formatted number under `SingleLineFormat`. */
  lemma FixedSingle(lib: Library, x: real, places: nat)
    requires SingleLineFormat(lib)
    ensures NoNewline(lib.fixed(x, places))
  {
  }
}

/** `generate_summary_report`: the fixed-layout text summary of one sample. */
module Report {
  import opened Wrappers
  import opened Text
  import opened Frames
  import opened Descriptive
  import opened Foreign
  import opened Analyzer
  import Tally

  const Rule := Repeat('=', 60)
  const Dashes := Repeat('-', 40)
  const Title := "REPORTE DE ANÁLISIS DE MICROPLÁSTICOS"

  /** `f"{x:.2f}"` through the library's fixed-point formatting; NaN prints `nan`. */
  function Fixed2(x: Option<real>, lib: Library): string {
    if x.None? then "nan" else lib.fixed(x.value, 2)
  }

  /** `f"  {category.capitalize()}: {count} partículas ({percentage:.1f}%)"`, the
      count looked up in the distribution by category. */
  function CategoryLine(category: string, percentage: real, counts: Tally.Tally, lib: Library): string {
    "  " + Capitalize(category) + ": " + NatToString(Tally.Get(counts, category)) +
    " partículas (" + lib.fixed(percentage, 1) + "%)"
  }

  /** One line per entry of `category_percentages`, in its order. */
  function CategoryLines(d: Distribution, lib: Library): (lines: seq<string>)
    ensures |lines| == |d.percentages|
    ensures forall i :: 0 <= i < |lines| ==>
      lines[i] == CategoryLine(d.percentages[i].0, d.percentages[i].1, d.counts, lib)
  {
    seq(|d.percentages|, i requires 0 <= i < |d.percentages| =>
      CategoryLine(d.percentages[i].0, d.percentages[i].1, d.counts, lib))
  }

  /** The title block: a rule, the title, the sample line when an id is given, a
      rule and a blank line. */
  function Header(sampleId: string): seq<string> {
    [Rule, Title] + (if sampleId != "" then ["Muestra: " + sampleId] else []) + [Rule, ""]
  }

  /** The area block: heading, dashes, then mean, median, standard deviation,
      minimum and maximum to two decimals. */
  function AreaLines(area: Stats, lib: Library): seq<string> {
    ["ESTADÍSTICOS DE ÁREA (μm²):", Dashes,
     "  Media: " + Fixed2(area.mean, lib),
     "  Mediana: " + Fixed2(area.median, lib),
     "  Desviación estándar: " + Fixed2(area.std, lib),
     "  Mínimo: " + Fixed2(area.min, lib),
     "  Máximo: " + Fixed2(area.max, lib)]
  }

  /** The report's lines for a table of `rows` particles. */
  function ReportLines(rows: nat, sampleId: string, size: Distribution, shape: Distribution, lib: Library): seq<string>
    requires |size.stats| > 0
  {
    Opening(rows, sampleId) + Distributions(size, shape, lib)
  }

  /** Everything after the opening: the size categories, the area block, the shape
      categories and the closing rule. */
  function Distributions(size: Distribution, shape: Distribution, lib: Library): seq<string>
    requires |size.stats| > 0
  {
    CategoryLines(size, lib) + [""] + AreaLines(size.stats[0].1, lib) + [""] + ["DISTRIBUCIÓN DE FORMAS:"] + [Dashes] +
    CategoryLines(shape, lib) + [""] + [Rule]
  }

  /** The title block, the particle count and the heading of the size distribution. */
  function Opening(rows: nat, sampleId: string): seq<string> {
    Header(sampleId) +
    ["Número total de partículas detectadas: " + NatToString(rows), "", "DISTRIBUCIÓN DE TAMAÑOS:", Dashes]
  }

  /** `generate_summary_report`: the report lines joined with newlines. The size
      analysis runs before the shape analysis, so its error is the one raised when
      both fail; the area statistics are those of the size analysis. */
  method GenerateSummaryReport(df: Frame, sampleId: string, lib: Library) returns (r: Result<string, Error>)
    ensures AnalyzeSizeDistribution(df, lib).Err? ==> r == Err(AnalyzeSizeDistribution(df, lib).error)
    ensures AnalyzeSizeDistribution(df, lib).Ok? && AnalyzeShapeDistribution(df, lib).Err? ==>
      r == Err(AnalyzeShapeDistribution(df, lib).error)
    ensures r.Ok? ==> AnalyzeSizeDistribution(df, lib).Ok? && AnalyzeShapeDistribution(df, lib).Ok?
    ensures r.Ok? ==>
      var size := AnalyzeSizeDistribution(df, lib).value;
      |size.stats| == 3 && size.stats[0].0 == "area" &&
      r.value == Join(ReportLines(|df.rows|, sampleId, size, AnalyzeShapeDistribution(df, lib).value, lib), '\n')
  {
    var report: seq<string> := [];
    report := report + [Rule];
    report := report + [Title];
    if sampleId != "" {
      report := report + ["Muestra: " + sampleId];
    }
    report := report + [Rule];
    report := report + [""];
    assert report == Header(sampleId);

    report := report + ["Número total de partículas detectadas: " + NatToString(|df.rows|)];
    report := report + [""];
    ghost var total := ["Número total de partículas detectadas: " + NatToString(|df.rows|), ""];
    assert report == Header(sampleId) + total;

    report := report + ["DISTRIBUCIÓN DE TAMAÑOS:"];
    report := report + [Dashes];
    assert report == Opening(|df.rows|, sampleId);
    ghost var opening := report;
    var sizeAnalysis := AnalyzeSizeDistribution(df, lib);
    if sizeAnalysis.Err? {
      return Err(sizeAnalysis.error);
    }
    var size := sizeAnalysis.value;
    // From here on `report == opening + rest`, with `rest` growing as the report does.
    report := AppendCategoryLines(report, size, lib);
    ghost var rest := CategoryLines(size, lib);
    report, rest := report + [""], rest + [""];
    AppendAfterPrefix(opening, CategoryLines(size, lib), [""]);

    var area := size.stats[0].1;
    report := AppendAreaLines(report, area, lib);
    AppendAfterPrefix(opening, rest, AreaLines(area, lib));
    rest := rest + AreaLines(area, lib);
    report := report + [""];
    AppendAfterPrefix(opening, rest, [""]);
    rest := rest + [""];

    report := report + ["DISTRIBUCIÓN DE FORMAS:"];
    AppendAfterPrefix(opening, rest, ["DISTRIBUCIÓN DE FORMAS:"]);
    rest := rest + ["DISTRIBUCIÓN DE FORMAS:"];
    report := report + [Dashes];
    AppendAfterPrefix(opening, rest, [Dashes]);
    rest := rest + [Dashes];
    var shapeAnalysis := AnalyzeShapeDistribution(df, lib);
    if shapeAnalysis.Err? {
      return Err(shapeAnalysis.error);
    }
    var shape := shapeAnalysis.value;
    report := AppendCategoryLines(report, shape, lib);
    AppendAfterPrefix(opening, rest, CategoryLines(shape, lib));
    rest := rest + CategoryLines(shape, lib);
    report := report + [""];
    AppendAfterPrefix(opening, rest, [""]);
    rest := rest + [""];

    report := report + [Rule];
    AppendAfterPrefix(opening, rest, [Rule]);
    rest := rest + [Rule];
    assert rest == Distributions(size, shape, lib);
    return Ok(Join(report, '\n'));
  }

  /** The area statistics block of the report, appended line by line. */
  method AppendAreaLines(report: seq<string>, area: Stats, lib: Library) returns (out: seq<string>)
    ensures out == report + AreaLines(area, lib)
  {
    out := report + ["ESTADÍSTICOS DE ÁREA (μm²):"];
    out := out + [Dashes];
    out := out + ["  Media: " + Fixed2(area.mean, lib)];
    out := out + ["  Mediana: " + Fixed2(area.median, lib)];
    out := out + ["  Desviación estándar: " + Fixed2(area.std, lib)];
    out := out + ["  Mínimo: " + Fixed2(area.min, lib)];
    out := out + ["  Máximo: " + Fixed2(area.max, lib)];
    assert out[|report|..] == AreaLines(area, lib);
  }

  /** The `for category, percentage in ...items()` loop of the report. */
  method AppendCategoryLines(report: seq<string>, d: Distribution, lib: Library) returns (out: seq<string>)
    ensures out == report + CategoryLines(d, lib)
  {
    ghost var lines := CategoryLines(d, lib);
    out := report;
    var i := 0;
    while i < |d.percentages|
      invariant 0 <= i <= |d.percentages|
      invariant out == report + lines[..i]
    {
      assert lines[..i + 1] == lines[..i] + [lines[i]];
      out := out + [CategoryLine(d.percentages[i].0, d.percentages[i].1, d.counts, lib)];
      i := i + 1;
    }
    assert lines[..i] == lines;
  }

  // ---------------------------------------------------------------------------
  // Layout

  /** A report has 21 lines plus one per category of each distribution, plus the
      sample line when an id is given; it opens with the rule and the title and
      closes with the rule. */
  lemma {:induction false} ReportLayout(rows: nat, sampleId: string, size: Distribution, shape: Distribution, lib: Library)
    requires |size.stats| > 0
    ensures var lines := ReportLines(rows, sampleId, size, shape, lib);
      var h := if sampleId != "" then 1 else 0;
      |lines| == 21 + h + |size.percentages| + |shape.percentages| &&
      lines[0] == Rule && lines[1] == Title &&
      (sampleId != "" ==> lines[2] == "Muestra: " + sampleId) &&
      lines[2 + h] == Rule && lines[3 + h] == "" &&
      lines[4 + h] == "Número total de partículas detectadas: " + NatToString(rows) &&
      lines[6 + h] == "DISTRIBUCIÓN DE TAMAÑOS:" && lines[7 + h] == Dashes &&
      (forall k :: 0 <= k < |size.percentages| ==>
        lines[8 + h + k] == CategoryLine(size.percentages[k].0, size.percentages[k].1, size.counts, lib)) &&
      lines[9 + h + |size.percentages|] == "ESTADÍSTICOS DE ÁREA (μm²):" &&
      lines[|lines| - 1] == Rule
  {
    OpeningLayout(rows, sampleId);
    DistributionsLayout(size, shape, lib);
  }

  lemma OpeningLayout(rows: nat, sampleId: string)
    ensures var o := Opening(rows, sampleId);
      var h := if sampleId != "" then 1 else 0;
      |o| == 8 + h &&
      o[0] == Rule && o[1] == Title &&
      (sampleId != "" ==> o[2] == "Muestra: " + sampleId) &&
      o[2 + h] == Rule && o[3 + h] == "" &&
      o[4 + h] == "Número total de partículas detectadas: " + NatToString(rows) &&
      o[6 + h] == "DISTRIBUCIÓN DE TAMAÑOS:" && o[7 + h] == Dashes
  {
  }

  lemma DistributionsLayout(size: Distribution, shape: Distribution, lib: Library)
    requires |size.stats| > 0
    ensures var d := Distributions(size, shape, lib);
      |d| == 13 + |size.percentages| + |shape.percentages| &&
      (forall k :: 0 <= k < |size.percentages| ==>
        d[k] == CategoryLine(size.percentages[k].0, size.percentages[k].1, size.counts, lib)) &&
      d[1 + |size.percentages|] == "ESTADÍSTICOS DE ÁREA (μm²):" &&
      d[|d| - 1] == Rule
  {
  }

  lemma {:induction false} CaseMappingKeepsLines(s: string)
    requires NoNewline(s)
    ensures NoNewline(Capitalize(s))
  {
    var c := Capitalize(s);
    forall i | 0 <= i < |c| ensures c[i] != '\n' {
      if i == 0 {
        assert c[0] == UpperChar(s[0]);
      } else {
        assert c[i] == c[1..][i - 1] == Lower(s[1..])[i - 1] == LowerChar(s[i]);
      }
    }
  }


  /** The category lines are single lines when the category names are. */
  lemma {:induction false} CategoryLinesSingle(d: Distribution, lib: Library)
    requires forall i :: 0 <= i < |d.percentages| ==> NoNewline(d.percentages[i].0)
    requires SingleLineFormat(lib)
    ensures forall l :: l in CategoryLines(d, lib) ==> NoNewline(l)
  {
    var lines := CategoryLines(d, lib);
    forall i | 0 <= i < |lines|
      ensures NoNewline(lines[i])
    {
      CaseMappingKeepsLines(d.percentages[i].0);
      var n := NatToString(Tally.Get(d.counts, d.percentages[i].0));
      assert forall j :: 0 <= j < |n| ==> IsDigit(n[j]);
    }
  }

  lemma SingleLineLiterals()
    ensures NoNewline(Rule) && NoNewline(Dashes) && NoNewline(Title) && NoNewline("")
    ensures NoNewline("Número total de partículas detectadas: ")
    ensures NoNewline("DISTRIBUCIÓN DE TAMAÑOS:") && NoNewline("DISTRIBUCIÓN DE FORMAS:")
  {
    RulesSingle();
    HeadingsSingle();
  }

  lemma RulesSingle()
    ensures NoNewline(Rule) && NoNewline(Dashes) && NoNewline(Title) && NoNewline("")
  {
  }

  lemma HeadingsSingle()
    ensures NoNewline("Número total de partículas detectadas: ")
    ensures NoNewline("DISTRIBUCIÓN DE TAMAÑOS:") && NoNewline("DISTRIBUCIÓN DE FORMAS:")
  {
  }

  lemma HeaderSingle(sampleId: string)
    requires NoNewline(sampleId)
    ensures forall l :: l in Header(sampleId) ==> NoNewline(l)
  {
    SingleLineLiterals();
    assert NoNewline("Muestra: ");
  }

  lemma AreaLinesSingle(area: Stats, lib: Library)
    requires SingleLineFormat(lib)
    ensures forall l :: l in AreaLines(area, lib) ==> NoNewline(l)
  {
    var lines := AreaLines(area, lib);
    SingleLineLiterals();
    assert NoNewline(lines[0]);
    Fixed2Single(area.mean, lib);
    Fixed2Single(area.median, lib);
    Fixed2Single(area.std, lib);
    Fixed2Single(area.min, lib);
    Fixed2Single(area.max, lib);
    PrefixedSingle("  Media: ", Fixed2(area.mean, lib));
    PrefixedSingle("  Mediana: ", Fixed2(area.median, lib));
    PrefixedSingle("  Desviación estándar: ", Fixed2(area.std, lib));
    PrefixedSingle("  Mínimo: ", Fixed2(area.min, lib));
    PrefixedSingle("  Máximo: ", Fixed2(area.max, lib));
  }

  lemma Fixed2Single(x: Option<real>, lib: Library)
    requires SingleLineFormat(lib)
    ensures NoNewline(Fixed2(x, lib))
  {
    if x.None? {
      var nan := "nan";
      assert nan == ['n', 'a', 'n'];
      assert Fixed2(x, lib) == nan;
    } else {
      FixedSingle(lib, x.value, 2);
    }
  }

  lemma PrefixedSingle(prefix: string, s: string)
    requires '\n' !in prefix
    requires NoNewline(s)
    ensures NoNewline(prefix + s)
  {
  }

  /** When the sample id, the category names and the number formatting contain no
      line break, splitting the report text at newlines gives back exactly its
      lines. */
  lemma {:induction false} ReportLinesRecoverable(rows: nat, sampleId: string, size: Distribution, shape: Distribution, lib: Library)
    requires |size.stats| > 0
    requires NoNewline(sampleId)
    requires forall i :: 0 <= i < |size.percentages| ==> NoNewline(size.percentages[i].0)
    requires forall i :: 0 <= i < |shape.percentages| ==> NoNewline(shape.percentages[i].0)
    requires SingleLineFormat(lib)
    ensures var lines := ReportLines(rows, sampleId, size, shape, lib);
      Split(Join(lines, '\n'), '\n') == lines
  {
    var lines := ReportLines(rows, sampleId, size, shape, lib);
    CategoryLinesSingle(size, lib);
    CategoryLinesSingle(shape, lib);
    HeaderSingle(sampleId);
    AreaLinesSingle(size.stats[0].1, lib);
    var n := NatToString(rows);
    assert forall j :: 0 <= j < |n| ==> IsDigit(n[j]);
    SingleLineLiterals();
    assert forall l :: l in lines ==> NoNewline(l);
    assert forall j :: 0 <= j < |lines| ==> '\n' !in lines[j] by {
      forall j | 0 <= j < |lines| ensures '\n' !in lines[j] {
        assert lines[j] in lines;
      }
    }
    SplitJoin(lines, '\n');
  }
}

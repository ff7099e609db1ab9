/** `StatisticalAnalyzer`: particle tables with size and shape categories,
    descriptive statistics per column, category counts and percentages, the
    dispatch of significance tests between samples, and concentrations. */
module Analyzer {
  import opened Wrappers
  import opened Frames
  import opened Config
  import opened Classifier
  import Tally
  import opened Sorting
  import opened Descriptive
  import opened Foreign

  const DiameterColumn := "equivalent_diameter_um"
  const AspectColumn := "aspect_ratio"
  const AreaColumn := "area_um2"
  const SampleColumn := "sample_id"
  const SizeColumn := "size_category"
  const ShapeColumn := "shape_category"

  /** `row.get(k)`: the cell, or `None` for pandas' missing value. */
  function Lookup(r: Record, k: string): (c: Option<Cell>)
    ensures c.Some? <==> k in r
  {
    if k in r then Some(r[k]) else None
  }

  // ---------------------------------------------------------------------------
  // particles_to_dataframe

  /** A cell the classifiers can compare with the table bounds: a number, or the
      missing value, which every comparison rejects. A text cell makes `<=` raise. */
  predicate Comparable(c: Option<Cell>) {
    c.None? || c.value.Num?
  }

  /** The category `_classify_by_*` gives a comparable cell: a missing value
      satisfies no range, so it is undefined. */
  function CategoryOf(table: CategoryTable, c: Option<Cell>): (name: string)
    requires Comparable(c)
    ensures c.None? ==> name == Undefined
    ensures c.Some? ==> name == Classify(table, c.value.x)
  {
    if c.None? then Undefined else Classify(table, c.value.x)
  }

  /** `column.apply(_classify_by_*)`: one category per cell, or `TypeError` at a
      text cell. */
  function ClassifyCells(table: CategoryTable, cells: seq<Option<Cell>>): (r: Result<seq<Cell>, Error>)
    ensures r.Ok? <==> forall i :: 0 <= i < |cells| ==> Comparable(cells[i])
    ensures r.Err? ==> r.error == TypeError
    ensures r.Ok? ==> |r.value| == |cells|
    ensures r.Ok? ==> forall i :: 0 <= i < |cells| ==> r.value[i] == Text(CategoryOf(table, cells[i]))
  {
    if |cells| == 0 then Ok([])
    else if !Comparable(cells[0]) then Err(TypeError)
    else
      match ClassifyCells(table, cells[1..])
      case Err(e) => Err(e)
      case Ok(rest) => Ok([Text(CategoryOf(table, cells[0]))] + rest)
  }

  /** The particles the analyser can tabulate: some particle has a diameter and some
      particle has an aspect ratio (otherwise the column does not exist), and no
      particle holds text in either. */
  predicate Classifiable(particles: seq<Record>) {
    DiameterColumn in KeysOf(particles) && AspectColumn in KeysOf(particles) &&
    forall i :: 0 <= i < |particles| ==>
      Comparable(Lookup(particles[i], DiameterColumn)) && Comparable(Lookup(particles[i], AspectColumn))
  }

  /** `row` is particle `p` with its categories added, the sample id set when one is
      given, and every other key as in `p`. */
  ghost predicate ClassifiedRow(p: Record, sampleId: string, row: Record) {
    Comparable(Lookup(p, DiameterColumn)) && Comparable(Lookup(p, AspectColumn)) &&
    Lookup(row, SizeColumn) == Some(Text(CategoryOf(SizeCategories, Lookup(p, DiameterColumn)))) &&
    Lookup(row, ShapeColumn) == Some(Text(CategoryOf(AspectRatioCategories, Lookup(p, AspectColumn)))) &&
    (sampleId != "" ==> Lookup(row, SampleColumn) == Some(Text(sampleId))) &&
    forall k :: k != SizeColumn && k != ShapeColumn && (sampleId == "" || k != SampleColumn) ==>
      Lookup(row, k) == Lookup(p, k)
  }

  /** A particle with the sample id set, when one is given. */
  function Tagged(p: Record, sampleId: string): Record {
    if sampleId != "" then p[SampleColumn := Text(sampleId)] else p
  }

  /** Adding both categories to a tagged particle gives its classified row. */
  lemma ClassifiedRowOf(p: Record, sampleId: string)
    requires Comparable(Lookup(p, DiameterColumn)) && Comparable(Lookup(p, AspectColumn))
    ensures ClassifiedRow(p, sampleId, Tagged(p, sampleId)
      [SizeColumn := Text(CategoryOf(SizeCategories, Lookup(p, DiameterColumn)))]
      [ShapeColumn := Text(CategoryOf(AspectRatioCategories, Lookup(p, AspectColumn)))])
  {
  }

  /** `out` is `df` with a `target` column holding the category of each row's
      `source` value. */
  ghost predicate CategoryAdded(df: Frame, source: string, target: string, table: CategoryTable, out: Frame) {
    WellFormed(out) && out.columns == df.columns + {target} && |out.rows| == |df.rows| &&
    forall i :: 0 <= i < |df.rows| ==>
      Comparable(Lookup(df.rows[i], source)) &&
      out.rows[i] == df.rows[i][target := Text(CategoryOf(table, Lookup(df.rows[i], source)))]
  }

  /** `df[target] = df[source].apply(classify)`: the category of every row's
      `source` value in a new or replaced `target` column. An unknown `source`
      raises `KeyError`; a text value raises `TypeError`. */
  method AddCategory(df: Frame, source: string, target: string, table: CategoryTable) returns (r: Result<Frame, Error>)
    requires WellFormed(df)
    ensures source !in df.columns ==> r == Err(KeyError(source))
    ensures source in df.columns ==>
      (r.Ok? <==> forall i :: 0 <= i < |df.rows| ==> Comparable(Lookup(df.rows[i], source)))
    ensures r.Ok? ==> CategoryAdded(df, source, target, table, r.value)
  {
    var cells := Column(df, source);
    if cells.Err? {
      return Err(cells.error);
    }
    assert forall i :: 0 <= i < |df.rows| ==> cells.value[i] == Lookup(df.rows[i], source);
    var categories := ClassifyCells(table, cells.value);
    if categories.Err? {
      return Err(categories.error);
    }
    return Ok(WithColumn(df, target, categories.value));
  }

  /** `df` is the particle list as a table with the sample id set when one is given. */
  ghost predicate TaggedTable(particles: seq<Record>, sampleId: string, df: Frame) {
    WellFormed(df) && |df.rows| == |particles| &&
    df.columns == KeysOf(particles) + (if sampleId != "" then {SampleColumn} else {}) &&
    forall i :: 0 <= i < |particles| ==> df.rows[i] == Tagged(particles[i], sampleId)
  }

  /** The constant column `df['sample_id'] = sample_id` assigns. */
  function SampleIds(n: nat, sampleId: string): (cells: seq<Cell>)
    ensures |cells| == n && forall i :: 0 <= i < n ==> cells[i] == Text(sampleId)
  {
    seq(n, _ => Text(sampleId))
  }

  /** `pd.DataFrame(particles)` with the sample id column set when the id is not
      empty is the tagged table of the particles. */
  lemma {:induction false} TaggedTableBuilt(particles: seq<Record>, sampleId: string, df: Frame)
    requires df == if sampleId != "" then WithColumn(FromRecords(particles), SampleColumn, SampleIds(|particles|, sampleId))
      else FromRecords(particles)
    ensures TaggedTable(particles, sampleId, df)
  {
  }

  /** A tagged table fails to classify exactly when the particles are not
      classifiable. */
  lemma {:induction false} TaggedClassifiable(particles: seq<Record>, sampleId: string, df: Frame)
    requires TaggedTable(particles, sampleId, df)
    ensures DiameterColumn in df.columns <==> DiameterColumn in KeysOf(particles)
    ensures forall i :: 0 <= i < |particles| ==>
      Lookup(df.rows[i], DiameterColumn) == Lookup(particles[i], DiameterColumn) &&
      Lookup(df.rows[i], AspectColumn) == Lookup(particles[i], AspectColumn)
    ensures (forall i :: 0 <= i < |df.rows| ==> Comparable(Lookup(df.rows[i], DiameterColumn))) <==>
      (forall i :: 0 <= i < |particles| ==> Comparable(Lookup(particles[i], DiameterColumn)))
  {
    forall i | 0 <= i < |particles|
      ensures Lookup(df.rows[i], DiameterColumn) == Lookup(particles[i], DiameterColumn)
      ensures Lookup(df.rows[i], AspectColumn) == Lookup(particles[i], AspectColumn)
    {
      assert df.rows[i] == Tagged(particles[i], sampleId);
    }
    assert DiameterColumn in df.columns <==> DiameterColumn in KeysOf(particles);
  }

  /** Classifying the sizes keeps the aspect-ratio column as the particles have it. */
  lemma {:induction false} SizedClassifiable(particles: seq<Record>, sampleId: string, df: Frame, sized: Frame)
    requires TaggedTable(particles, sampleId, df)
    requires CategoryAdded(df, DiameterColumn, SizeColumn, SizeCategories, sized)
    ensures AspectColumn in sized.columns <==> AspectColumn in KeysOf(particles)
    ensures forall i :: 0 <= i < |particles| ==>
      Lookup(sized.rows[i], AspectColumn) == Lookup(particles[i], AspectColumn)
    ensures (forall i :: 0 <= i < |sized.rows| ==> Comparable(Lookup(sized.rows[i], AspectColumn))) <==>
      (forall i :: 0 <= i < |particles| ==> Comparable(Lookup(particles[i], AspectColumn)))
  {
    forall i | 0 <= i < |particles|
      ensures Lookup(sized.rows[i], AspectColumn) == Lookup(particles[i], AspectColumn)
    {
      var cell := Text(CategoryOf(SizeCategories, Lookup(df.rows[i], DiameterColumn)));
      assert sized.rows[i] == df.rows[i][SizeColumn := cell];
      assert df.rows[i] == Tagged(particles[i], sampleId);
    }
    assert AspectColumn in sized.columns <==> AspectColumn in df.columns;
  }

  /** The table after both categories are added has the promised rows and columns. */
  lemma {:induction false} BothCategoriesAdded(particles: seq<Record>, sampleId: string, df: Frame, sized: Frame, shaped: Frame)
    requires TaggedTable(particles, sampleId, df)
    requires CategoryAdded(df, DiameterColumn, SizeColumn, SizeCategories, sized)
    requires CategoryAdded(sized, AspectColumn, ShapeColumn, AspectRatioCategories, shaped)
    requires DiameterColumn in df.columns && AspectColumn in sized.columns
    ensures Classifiable(particles)
    ensures WellFormed(shaped) && |shaped.rows| == |particles|
    ensures shaped.columns ==
      KeysOf(particles) + (if sampleId != "" then {SampleColumn} else {}) + {SizeColumn} + {ShapeColumn}
    ensures forall i :: 0 <= i < |particles| ==> ClassifiedRow(particles[i], sampleId, shaped.rows[i])
  {
    SizedClassifiable(particles, sampleId, df, sized);
    TaggedClassifiable(particles, sampleId, df);
    forall i | 0 <= i < |particles|
      ensures ClassifiedRow(particles[i], sampleId, shaped.rows[i])
    {
      var p := particles[i];
      assert sized.rows[i] == Tagged(p, sampleId)[SizeColumn := Text(CategoryOf(SizeCategories, Lookup(p, DiameterColumn)))];
      ClassifiedRowOf(p, sampleId);
    }
  }

  /** `particles_to_dataframe`: one row per particle, in order, with `size_category`
      and `shape_category` added and `sample_id` added when the id is not empty. An
      empty list has no diameter column, so the lookup raises `KeyError`. */
  method ParticlesToDataFrame(particles: seq<Record>, sampleId: string) returns (r: Result<Frame, Error>)
    ensures r.Ok? <==> Classifiable(particles)
    ensures |particles| == 0 ==> r == Err(KeyError(DiameterColumn))
    ensures r.Ok? ==> WellFormed(r.value) && |r.value.rows| == |particles|
    ensures r.Ok? ==> (r.value.columns ==
      KeysOf(particles) + (if sampleId != "" then {SampleColumn} else {}) + {SizeColumn} + {ShapeColumn})
    ensures r.Ok? ==> forall i :: 0 <= i < |particles| ==> ClassifiedRow(particles[i], sampleId, r.value.rows[i])
  {
    var df := FromRecords(particles);
    if sampleId != "" {
      df := WithColumn(df, SampleColumn, SampleIds(|df.rows|, sampleId));
    }
    TaggedTableBuilt(particles, sampleId, df);
    TaggedClassifiable(particles, sampleId, df);

    var sized := AddCategory(df, DiameterColumn, SizeColumn, SizeCategories);
    if sized.Err? {
      return Err(sized.error);
    }
    SizedClassifiable(particles, sampleId, df, sized.value);
    var shaped := AddCategory(sized.value, AspectColumn, ShapeColumn, AspectRatioCategories);
    if shaped.Err? {
      return Err(shaped.error);
    }
    BothCategoriesAdded(particles, sampleId, df, sized.value, shaped.value);
    return shaped;
  }

  // ---------------------------------------------------------------------------
  // calculate_descriptive_stats

  /** `calculate_descriptive_stats(df, column)`: the statistics of the column's
      values after `dropna()`; an unknown column raises `KeyError`. */
  function DescribeColumn(f: Frame, column: string, lib: Library): (r: Result<Stats, Error>)
    ensures column !in f.columns ==> r == Err(KeyError(column))
    ensures r.Ok? ==> Column(f, column).Ok? && r.value.count == Present(Column(f, column).value)
    ensures r.Ok? ==> r.value.count <= |f.rows|
  {
    match Values(f, column)
    case Err(e) => Err(e)
    case Ok(data) => Ok(Describe(data, lib))
  }

  /** The statistics of several columns, each under its own name, in order. */
  function DescribeColumns(f: Frame, columns: seq<(string, string)>, lib: Library): (r: Result<seq<(string, Stats)>, Error>)
    ensures r.Ok? ==> |r.value| == |columns|
    ensures r.Ok? ==> forall i :: 0 <= i < |columns| ==>
      r.value[i].0 == columns[i].0 && DescribeColumn(f, columns[i].1, lib) == Ok(r.value[i].1)
    ensures (exists i :: 0 <= i < |columns| && columns[i].1 !in f.columns) ==> r.Err?
  {
    if |columns| == 0 then Ok([])
    else
      match DescribeColumn(f, columns[0].1, lib)
      case Err(e) => Err(e)
      case Ok(st) =>
        match DescribeColumns(f, columns[1..], lib)
        case Err(e) => Err(e)
        case Ok(rest) => Ok([(columns[0].0, st)] + rest)
  }

  // ---------------------------------------------------------------------------
  // value_counts and percentages

  /** The labels of a category column with missing cells dropped, in row order. */
  function Labels(cells: seq<Option<Cell>>): (r: Result<seq<string>, Error>)
    ensures r.Ok? ==> |r.value| == Present(cells)
  {
    if |cells| == 0 then Ok([])
    else
      match Labels(cells[1..])
      case Err(e) => Err(e)
      case Ok(rest) =>
        match cells[0]
        case None => Ok(rest)
        case Some(Text(s)) => Ok([s] + rest)
        case Some(Num(_)) => Err(TypeError)
  }

  /** The sort key of `value_counts()`: larger counts first. */
  function NegCount(e: (string, nat)): real {
    -(e.1 as real)
  }

  /** `df[column].value_counts().to_dict()`: each label with its number of rows,
      largest count first, ties in order of first appearance (`ValueCountsTies`). */
  function ValueCounts(f: Frame, column: string): (r: Result<Tally.Tally, Error>)
    ensures column !in f.columns ==> r == Err(KeyError(column))
    ensures r.Ok? ==> Column(f, column).Ok? && Labels(Column(f, column).value).Ok?
    ensures r.Ok? ==>
      var labels := Labels(Column(f, column).value).value;
      multiset(r.value) == multiset(Tally.TallyOf(labels)) &&
      SortedBy(r.value, NegCount) &&
      Tally.Total(r.value) == |labels| &&
      |r.value| <= |labels| <= |f.rows|
  {
    match Column(f, column)
    case Err(e) => Err(e)
    case Ok(cells) =>
      match Labels(cells)
      case Err(e) => Err(e)
      case Ok(labels) =>
        var counts := Tally.TallyOf(labels);
        Tally.TallyOfProperties(labels);
        SortByProperties(counts, NegCount);
        SortedTotal(counts);
        Ok(SortBy(counts, NegCount))
  }

  /** Labels with equal counts keep the order of the counting dictionary, which is
      the order of first appearance (`Tally.TallyOfProperties`). */
  lemma ValueCountsTies(f: Frame, column: string, v: real)
    requires ValueCounts(f, column).Ok?
    ensures var labels := Labels(Column(f, column).value).value;
      WithKey(ValueCounts(f, column).value, NegCount, v) == WithKey(Tally.TallyOf(labels), NegCount, v)
  {
    SortByStable(Tally.TallyOf(Labels(Column(f, column).value).value), NegCount, v);
  }

  lemma {:induction false} InsertTotal(x: (string, nat), s: Tally.Tally)
    ensures Tally.Total(Insert(x, s, NegCount)) == x.1 + Tally.Total(s)
  {
    if |s| > 0 && NegCount(x) > NegCount(s[0]) {
      InsertTotal(x, s[1..]);
      assert Insert(x, s, NegCount)[1..] == Insert(x, s[1..], NegCount);
    }
  }

  /** Sorting the counts does not change their total. */
  lemma {:induction false} SortedTotal(t: Tally.Tally)
    ensures Tally.Total(SortBy(t, NegCount)) == Tally.Total(t)
  {
    if |t| > 0 {
      SortedTotal(t[1..]);
      InsertTotal(t[0], SortBy(t[1..], NegCount));
    }
  }

  function Percent(count: nat, total: nat): real
    requires total > 0
  {
    count as real / total as real * 100.0
  }

  lemma PercentTimesTotal(count: nat, total: nat)
    requires total > 0
    ensures Percent(count, total) * total as real == count as real * 100.0
  {
    var t := total as real;
    assert count as real / t * t == count as real;
  }

  /** `{cat: count / total * 100 for cat, count in counts.items()}`, in the counts'
      order: each percentage times the total is its count times 100. With no counts
      there is no division. */
  function Percentages(counts: Tally.Tally, total: nat): (r: seq<(string, real)>)
    requires total > 0 || |counts| == 0
    ensures |r| == |counts|
    ensures forall i :: 0 <= i < |counts| ==> r[i] == (counts[i].0, Percent(counts[i].1, total))
    ensures forall i :: 0 <= i < |counts| ==>
      r[i].0 == counts[i].0 && r[i].1 * total as real == counts[i].1 as real * 100.0
  {
    if |counts| == 0 then []
    else
      var rest := Percentages(counts[1..], total);
      PercentagesStep(counts, total, rest);
      var r := [(counts[0].0, Percent(counts[0].1, total))] + rest;
      PercentagesTimesTotal(counts, total, r);
      r
  }

  /** Prepending the first count's entry to the entries of the others gives an
      entry for every count. */
  lemma PercentagesStep(counts: Tally.Tally, total: nat, rest: seq<(string, real)>)
    requires total > 0 && |counts| > 0
    requires |rest| == |counts[1..]|
    requires forall i :: 0 <= i < |counts[1..]| ==> rest[i] == (counts[1..][i].0, Percent(counts[1..][i].1, total))
    ensures var r := [(counts[0].0, Percent(counts[0].1, total))] + rest;
      |r| == |counts| && forall i :: 0 <= i < |counts| ==> r[i] == (counts[i].0, Percent(counts[i].1, total))
  {
    var r := [(counts[0].0, Percent(counts[0].1, total))] + rest;
    assert forall i :: 1 <= i < |r| ==> r[i] == rest[i - 1] && counts[i] == counts[1..][i - 1];
  }

  /** Entries computed by `Percent` are counts times 100 once multiplied back by
      the total. */
  lemma PercentagesTimesTotal(counts: Tally.Tally, total: nat, r: seq<(string, real)>)
    requires total > 0 && |r| == |counts|
    requires forall i :: 0 <= i < |counts| ==> r[i] == (counts[i].0, Percent(counts[i].1, total))
    ensures forall i :: 0 <= i < |counts| ==>
      r[i].0 == counts[i].0 && r[i].1 * total as real == counts[i].1 as real * 100.0
  {
    forall i | 0 <= i < |counts|
      ensures r[i].1 * total as real == counts[i].1 as real * 100.0
    {
      PercentTimesTotal(counts[i].1, total);
    }
  }

  function SumOfPercentages(ps: seq<(string, real)>): real {
    if |ps| == 0 then 0.0 else ps[0].1 + SumOfPercentages(ps[1..])
  }

  lemma PercentAdd(a: nat, b: nat, total: nat)
    requires total > 0
    ensures Percent(a, total) + Percent(b, total) == Percent(a + b, total)
  {
    var t := total as real;
    assert a as real / t + b as real / t == (a + b) as real / t;
  }

  /** The percentages add up to the counts' share of the total. */
  lemma {:induction false} PercentagesSum(counts: Tally.Tally, total: nat)
    requires total > 0
    ensures SumOfPercentages(Percentages(counts, total)) == Percent(Tally.Total(counts), total)
  {
    if |counts| > 0 {
      PercentagesSum(counts[1..], total);
      assert Percentages(counts, total)[1..] == Percentages(counts[1..], total);
      PercentAdd(counts[0].1, Tally.Total(counts[1..]), total);
    } else {
      assert Percent(0, total) == 0.0;
    }
  }

  /** Statistics of some columns plus the counts and percentages of a category. */
  datatype Distribution = Distribution(
    stats: seq<(string, Stats)>,
    counts: Tally.Tally,
    percentages: seq<(string, real)>)

  /** The shared body of `analyze_size_distribution` and `analyze_shape_distribution`:
      the statistics first, then `value_counts`, then percentages of `len(df)`. */
  function AnalyzeDistribution(f: Frame, statColumns: seq<(string, string)>, category: string, lib: Library): (r: Result<Distribution, Error>)
    ensures r.Ok? <==> DescribeColumns(f, statColumns, lib).Ok? && ValueCounts(f, category).Ok?
    ensures r.Ok? ==> r.value.stats == DescribeColumns(f, statColumns, lib).value
    ensures r.Ok? ==> r.value.counts == ValueCounts(f, category).value
    ensures r.Ok? ==> r.value.percentages == Percentages(r.value.counts, |f.rows|)
  {
    match DescribeColumns(f, statColumns, lib)
    case Err(e) => Err(e)
    case Ok(stats) =>
      match ValueCounts(f, category)
      case Err(e) => Err(e)
      case Ok(counts) => Ok(Distribution(stats, counts, Percentages(counts, |f.rows|)))
  }

  const SizeStatColumns := [("area", AreaColumn), ("perimeter", "perimeter_um"), ("diameter", DiameterColumn)]
  const ShapeStatColumns := [("aspect_ratio", AspectColumn), ("eccentricity", "eccentricity"), ("solidity", "solidity")]

  /** `analyze_size_distribution`: area, perimeter and diameter statistics and the
      `size_category` distribution. */
  function AnalyzeSizeDistribution(f: Frame, lib: Library): (r: Result<Distribution, Error>)
    ensures r == AnalyzeDistribution(f, SizeStatColumns, SizeColumn, lib)
    ensures AreaColumn !in f.columns ==> r == Err(KeyError(AreaColumn))
    ensures r.Ok? ==> (|r.value.stats| == 3 && r.value.stats[0].0 == "area" &&
      r.value.stats[1].0 == "perimeter" && r.value.stats[2].0 == "diameter")
    ensures r.Ok? ==> r.value.stats[0].1.count == Present(Column(f, AreaColumn).value)
    ensures r.Ok? ==> |r.value.percentages| == |r.value.counts|
  {
    AnalyzeDistribution(f, SizeStatColumns, SizeColumn, lib)
  }

  /** `analyze_shape_distribution`: aspect ratio, eccentricity and solidity statistics
      and the `shape_category` distribution. */
  function AnalyzeShapeDistribution(f: Frame, lib: Library): (r: Result<Distribution, Error>)
    ensures r == AnalyzeDistribution(f, ShapeStatColumns, ShapeColumn, lib)
    ensures AspectColumn !in f.columns ==> r == Err(KeyError(AspectColumn))
    ensures r.Ok? ==> (|r.value.stats| == 3 && r.value.stats[0].0 == "aspect_ratio" &&
      r.value.stats[1].0 == "eccentricity" && r.value.stats[2].0 == "solidity")
    ensures r.Ok? ==> |r.value.percentages| == |r.value.counts|
  {
    AnalyzeDistribution(f, ShapeStatColumns, ShapeColumn, lib)
  }

  /** Every row carries a text label in `column`, as `particles_to_dataframe`
      leaves both category columns. */
  predicate Labelled(f: Frame, column: string) {
    column in f.columns &&
    forall i :: 0 <= i < |f.rows| ==> column in f.rows[i] && f.rows[i][column].Text?
  }

  /** On a labelled category column the counts sum to the number of rows, and for
      a non-empty table the percentages sum to 100. */
  lemma {:induction false} DistributionTotals(f: Frame, statColumns: seq<(string, string)>, category: string, lib: Library)
    requires Labelled(f, category)
    requires AnalyzeDistribution(f, statColumns, category, lib).Ok?
    ensures var d := AnalyzeDistribution(f, statColumns, category, lib).value;
      Tally.Total(d.counts) == |f.rows| &&
      (|f.rows| > 0 ==> SumOfPercentages(d.percentages) == 100.0)
  {
    var d := AnalyzeDistribution(f, statColumns, category, lib).value;
    CountsCoverRows(f, category);
    if |f.rows| > 0 {
      WholePercentages(d.counts, |f.rows|);
    }
  }

  /** Counts that cover the whole total have percentages summing to 100. */
  lemma WholePercentages(counts: Tally.Tally, total: nat)
    requires total > 0 && Tally.Total(counts) == total
    ensures SumOfPercentages(Percentages(counts, total)) == 100.0
  {
    PercentagesSum(counts, total);
    PercentOfWhole(total);
  }

  lemma PercentOfWhole(total: nat)
    requires total > 0
    ensures Percent(total, total) == 100.0
  {
    assert total as real / total as real == 1.0;
  }

  /** On a labelled column every row is counted once. */
  lemma {:induction false} CountsCoverRows(f: Frame, category: string)
    requires Labelled(f, category)
    ensures ValueCounts(f, category).Ok?
    ensures Tally.Total(ValueCounts(f, category).value) == |f.rows|
  {
    var cells := Column(f, category).value;
    assert forall i :: 0 <= i < |cells| ==> cells[i] == Some(f.rows[i][category]);
    LabelsOfText(cells);
  }

  lemma {:induction false} LabelsOfText(cells: seq<Option<Cell>>)
    requires forall i :: 0 <= i < |cells| ==> cells[i].Some? && cells[i].value.Text?
    ensures Labels(cells).Ok? && |Labels(cells).value| == |cells|
  {
    if |cells| > 0 {
      LabelsOfText(cells[1..]);
    }
  }


  /** The tables `particles_to_dataframe` builds are labelled in both category
      columns. */
  lemma {:induction false} ClassifiedRowsLabelled(particles: seq<Record>, sampleId: string, f: Frame)
    requires |f.rows| == |particles|
    requires SizeColumn in f.columns && ShapeColumn in f.columns
    requires forall i :: 0 <= i < |particles| ==> ClassifiedRow(particles[i], sampleId, f.rows[i])
    ensures Labelled(f, SizeColumn) && Labelled(f, ShapeColumn)
  {
    forall i | 0 <= i < |f.rows|
      ensures SizeColumn in f.rows[i] && f.rows[i][SizeColumn].Text?
      ensures ShapeColumn in f.rows[i] && f.rows[i][ShapeColumn].Text?
    {
      assert ClassifiedRow(particles[i], sampleId, f.rows[i]);
    }
  }

  // ---------------------------------------------------------------------------
  // compare_samples

  /** A test's statistic and p-value with its verdict: `is_normal` for
      Shapiro–Wilk, `significant` for the comparisons. */
  datatype TestResult = TestResult(statistic: real, pValue: real, verdict: bool)

  function Normality(o: (real, real)): (t: TestResult)
    ensures t.verdict <==> t.pValue > 0.05
  {
    TestResult(o.0, o.1, o.1 > 0.05)
  }

  function Significance(o: (real, real)): (t: TestResult)
    ensures t.verdict <==> t.pValue < 0.05
  {
    TestResult(o.0, o.1, o.1 < 0.05)
  }

  datatype Comparison = Comparison(samples: seq<(string, Stats)>, tests: seq<(string, TestResult)>)

  /** A dictionary's keys are distinct. */
  predicate DistinctIds(dfs: seq<(string, Frame)>) {
    forall i, j :: 0 <= i < j < |dfs| ==> dfs[i].0 != dfs[j].0
  }

  /** `[df[parameter].dropna() for df in dfs.values()]`, or the first error. */
  function Groups(dfs: seq<(string, Frame)>, parameter: string): (r: Result<seq<seq<real>>, Error>)
    ensures r.Ok? <==> forall i :: 0 <= i < |dfs| ==> Values(dfs[i].1, parameter).Ok?
    ensures r.Ok? ==> |r.value| == |dfs|
    ensures r.Ok? ==> forall i :: 0 <= i < |dfs| ==> r.value[i] == Values(dfs[i].1, parameter).value
  {
    if |dfs| == 0 then Ok([])
    else
      match Values(dfs[0].1, parameter)
      case Err(e) => Err(e)
      case Ok(v) =>
        match Groups(dfs[1..], parameter)
        case Err(e) => Err(e)
        case Ok(rest) => Ok([v] + rest)
  }

  /** The Shapiro–Wilk entries for the first samples, in order, one for each sample
      with at least three values; `None` once a test raises. */
  function ShapiroEntries(ids: seq<string>, groups: seq<seq<real>>, lib: Library): Option<seq<(string, TestResult)>>
    requires |ids| == |groups|
  {
    if |ids| == 0 then Some([])
    else
      var n := |ids| - 1;
      match ShapiroEntries(ids[..n], groups[..n], lib)
      case None => None
      case Some(prefix) =>
        if |groups[n]| < 3 then Some(prefix)
        else
          match lib.shapiro(groups[n])
          case None => None
          case Some(o) => Some(prefix + [(ids[n] + "_shapiro", Normality(o))])
  }

  /** The ids of the samples with at least three values, in order. */
  function ShapiroIds(ids: seq<string>, groups: seq<seq<real>>): seq<string>
    requires |ids| == |groups|
  {
    if |ids| == 0 then []
    else
      var n := |ids| - 1;
      ShapiroIds(ids[..n], groups[..n]) + (if |groups[n]| >= 3 then [ids[n]] else [])
  }

  /** The Shapiro–Wilk entries are keyed `<id>_shapiro` for exactly the samples with
      at least three values, in order, and `is_normal` holds iff p > 0.05. */
  lemma {:induction false} ShapiroEntriesProperties(ids: seq<string>, groups: seq<seq<real>>, lib: Library)
    requires |ids| == |groups|
    requires ShapiroEntries(ids, groups, lib).Some?
    ensures var e := ShapiroEntries(ids, groups, lib).value;
      var s := ShapiroIds(ids, groups);
      |e| == |s| &&
      (forall j :: 0 <= j < |e| ==> e[j].0 == s[j] + "_shapiro") &&
      (forall j :: 0 <= j < |e| ==> (e[j].1.verdict <==> e[j].1.pValue > 0.05))
  {
    if |ids| > 0 {
      var n := |ids| - 1;
      ShapiroEntriesProperties(ids[..n], groups[..n], lib);
    }
  }

  /** Once a prefix of the samples has a test that raises, the whole loop raises. */
  lemma {:induction false} ShapiroNoneExtends(ids: seq<string>, groups: seq<seq<real>>, lib: Library, k: nat)
    requires |ids| == |groups| && k <= |ids|
    requires ShapiroEntries(ids[..k], groups[..k], lib).None?
    ensures ShapiroEntries(ids, groups, lib).None?
  {
    if k < |ids| {
      var n := |ids| - 1;
      assert ids[..n][..k] == ids[..k] && groups[..n][..k] == groups[..k];
      ShapiroNoneExtends(ids[..n], groups[..n], lib, k);
    } else {
      assert ids[..k] == ids && groups[..k] == groups;
    }
  }

  /** The comparison tests after the normality tests: t-test and Mann–Whitney for
      two samples, ANOVA and Kruskal–Wallis for more, nothing for one. */
  function DispatchTests(groups: seq<seq<real>>, lib: Library): (r: Option<seq<(string, TestResult)>>)
    ensures |groups| < 2 ==> r == Some([])
    ensures r.Some? && |groups| == 2 ==> |r.value| == 2 && r.value[0].0 == "t_test" && r.value[1].0 == "mann_whitney"
    ensures r.Some? && |groups| > 2 ==> |r.value| == 2 && r.value[0].0 == "anova" && r.value[1].0 == "kruskal_wallis"
    ensures r.Some? ==> forall j :: 0 <= j < |r.value| ==> (r.value[j].1.verdict <==> r.value[j].1.pValue < 0.05)
    ensures |groups| == 2 ==> (r.Some? <==> lib.ttest(groups[0], groups[1]).Some? && lib.mannWhitney(groups[0], groups[1]).Some?)
    ensures |groups| > 2 ==> (r.Some? <==> lib.anova(groups).Some? && lib.kruskal(groups).Some?)
  {
    if |groups| == 2 then
      match (lib.ttest(groups[0], groups[1]), lib.mannWhitney(groups[0], groups[1]))
      case (Some(t), Some(u)) => Some([("t_test", Significance(t)), ("mann_whitney", Significance(u))])
      case _ => None
    else if |groups| > 2 then
      match (lib.anova(groups), lib.kruskal(groups))
      case (Some(f), Some(h)) => Some([("anova", Significance(f)), ("kruskal_wallis", Significance(h))])
      case _ => None
    else Some([])
  }

  function Ids(dfs: seq<(string, Frame)>): (ids: seq<string>)
    ensures |ids| == |dfs| && forall i :: 0 <= i < |dfs| ==> ids[i] == dfs[i].0
  {
    seq(|dfs|, i requires 0 <= i < |dfs| => dfs[i].0)
  }

  /** Each sample's id with the statistics of its values. */
  function Described(dfs: seq<(string, Frame)>, groups: seq<seq<real>>, lib: Library): (r: seq<(string, Stats)>)
    requires |dfs| == |groups|
  {
    seq(|dfs|, j requires 0 <= j < |dfs| => (dfs[j].0, Describe(groups[j], lib)))
  }

  lemma DescribedSnoc(dfs: seq<(string, Frame)>, groups: seq<seq<real>>, values: seq<real>, lib: Library, i: nat)
    requires i < |dfs| && |groups| == i
    ensures Described(dfs[..i + 1], groups + [values], lib) == Described(dfs[..i], groups, lib) + [(dfs[i].0, Describe(values, lib))]
  {
  }

  /** The first loop of `compare_samples`: the statistics of every sample, in
      order, and the values they were computed from; the first missing column
      raises. */
  method DescribeSamples(dfs: seq<(string, Frame)>, parameter: string, lib: Library)
    returns (r: Result<(seq<(string, Stats)>, seq<seq<real>>), Error>)
    ensures Groups(dfs, parameter).Err? ==> r == Err(Groups(dfs, parameter).error)
    ensures Groups(dfs, parameter).Ok? ==> r.Ok? && r.value.1 == Groups(dfs, parameter).value
    ensures r.Ok? ==> |r.value.0| == |dfs| && |r.value.1| == |dfs|
    ensures r.Ok? ==> r.value.0 == Described(dfs, r.value.1, lib)
  {
    var samples: seq<(string, Stats)> := [];
    var groups: seq<seq<real>> := [];
    var i := 0;
    while i < |dfs|
      invariant 0 <= i <= |dfs|
      invariant |samples| == i && |groups| == i
      invariant Groups(dfs[..i], parameter) == Ok(groups)
      invariant samples == Described(dfs[..i], groups, lib)
    {
      var values := Values(dfs[i].1, parameter);
      if values.Err? {
        GroupsPrefixError(dfs, parameter, i);
        return Err(values.error);
      }
      GroupsSnoc(dfs, parameter, groups, values.value, i);
      DescribedSnoc(dfs, groups, values.value, lib, i);
      samples := samples + [(dfs[i].0, Describe(values.value, lib))];
      groups := groups + [values.value];
      i := i + 1;
    }
    assert dfs[..i] == dfs;
    return Ok((samples, groups));
  }

  /** The second loop of `compare_samples`: a Shapiro–Wilk entry for every sample
      with at least three values, in order. */
  method NormalityTests(ids: seq<string>, groups: seq<seq<real>>, lib: Library)
    returns (r: Option<seq<(string, TestResult)>>)
    requires |ids| == |groups|
    ensures r == ShapiroEntries(ids, groups, lib)
  {
    var tests: seq<(string, TestResult)> := [];
    var i := 0;
    while i < |ids|
      invariant 0 <= i <= |ids|
      invariant ShapiroEntries(ids[..i], groups[..i], lib) == Some(tests)
    {
      assert ids[..i + 1][..i] == ids[..i] && groups[..i + 1][..i] == groups[..i];
      if |groups[i]| >= 3 {
        var outcome := lib.shapiro(groups[i]);
        if outcome.None? {
          ShapiroNoneExtends(ids, groups, lib, i + 1);
          return None;
        }
        tests := tests + [(ids[i] + "_shapiro", Normality(outcome.value))];
      }
      i := i + 1;
    }
    assert ids[..i] == ids && groups[..i] == groups;
    return Some(tests);
  }

  /** `compare_samples`: descriptive statistics for every sample, then a
      Shapiro–Wilk entry per sample with at least three values, then the
      comparison tests chosen by the number of samples. A missing column raises
      `KeyError` before any test runs; a raising test gives `StatsError`. */
  method CompareSamples(dfs: seq<(string, Frame)>, parameter: string, lib: Library) returns (r: Result<Comparison, Error>)
    requires DistinctIds(dfs)
    ensures Groups(dfs, parameter).Err? ==> r == Err(Groups(dfs, parameter).error)
    ensures Groups(dfs, parameter).Ok? ==>
      var groups := Groups(dfs, parameter).value;
      (r.Ok? <==> ShapiroEntries(Ids(dfs), groups, lib).Some? && DispatchTests(groups, lib).Some?) &&
      (r.Err? ==> r.error == StatsError)
    ensures r.Ok? ==> Groups(dfs, parameter).Ok?
    ensures r.Ok? ==> (
      var groups := Groups(dfs, parameter).value;
      r.value.samples == Described(dfs, groups, lib) &&
      r.value.tests == ShapiroEntries(Ids(dfs), groups, lib).value + DispatchTests(groups, lib).value)
  {
    var described := DescribeSamples(dfs, parameter, lib);
    if described.Err? {
      return Err(described.error);
    }
    var (samples, groups) := described.value;
    var normality := NormalityTests(Ids(dfs), groups, lib);
    if normality.None? {
      return Err(StatsError);
    }
    var dispatched := GroupTests(groups, lib);
    if dispatched.None? {
      return Err(StatsError);
    }
    return Ok(Comparison(samples, normality.value + dispatched.value));
  }

  /** The branch of `compare_samples` after the normality tests: a t-test and a
      Mann–Whitney test for two samples, ANOVA and Kruskal–Wallis for more, none
      for fewer; a failing test raises. */
  method GroupTests(groups: seq<seq<real>>, lib: Library) returns (r: Option<seq<(string, TestResult)>>)
    ensures r == DispatchTests(groups, lib)
    ensures r.Some? ==> |r.value| == (if |groups| >= 2 then 2 else 0)
  {
    if |groups| == 2 {
      var t := lib.ttest(groups[0], groups[1]);
      var u := lib.mannWhitney(groups[0], groups[1]);
      if t.None? || u.None? {
        return None;
      }
      return Some([("t_test", Significance(t.value)), ("mann_whitney", Significance(u.value))]);
    } else if |groups| > 2 {
      var f := lib.anova(groups);
      var h := lib.kruskal(groups);
      if f.None? || h.None? {
        return None;
      }
      return Some([("anova", Significance(f.value)), ("kruskal_wallis", Significance(h.value))]);
    }
    return Some([]);
  }

  /** `Groups` stops at the first sample whose column fails, with that error. */
  /** Reading one more sample's values extends the groups by them. */
  lemma {:induction false} GroupsSnoc(dfs: seq<(string, Frame)>, parameter: string, groups: seq<seq<real>>, values: seq<real>, i: nat)
    requires i < |dfs| && Groups(dfs[..i], parameter) == Ok(groups)
    requires Values(dfs[i].1, parameter) == Ok(values)
    ensures Groups(dfs[..i + 1], parameter) == Ok(groups + [values])
  {
    var longer := dfs[..i + 1];
    assert longer[0] == dfs[0];
    if i == 0 {
      assert dfs[..i] == [] && groups == [];
      assert longer[1..] == [] && Groups(longer[1..], parameter) == Ok([]);
      assert Values(longer[0].1, parameter) == Ok(values);
      assert Groups(longer, parameter) == Ok([values] + []);
      assert [values] + [] == groups + [values];
    } else {
      var shorter := dfs[..i];
      assert shorter[0] == dfs[0] && shorter[1..] == dfs[1..][..i - 1];
      assert Values(dfs[0].1, parameter) == Ok(groups[0]);
      assert Groups(dfs[1..][..i - 1], parameter) == Ok(groups[1..]);
      assert dfs[1..][i - 1] == dfs[i];
      GroupsSnoc(dfs[1..], parameter, groups[1..], values, i - 1);
      assert longer[1..] == dfs[1..][..i];
      assert groups + [values] == [groups[0]] + (groups[1..] + [values]);
    }
  }

  /** The first sample whose values cannot be read makes the whole reading fail. */
  lemma GroupsPrefixError(dfs: seq<(string, Frame)>, parameter: string, i: nat)
    requires i < |dfs| && Groups(dfs[..i], parameter).Ok?
    requires Values(dfs[i].1, parameter).Err?
    ensures Groups(dfs, parameter) == Err(Values(dfs[i].1, parameter).error)
  {
    assert forall j :: 0 <= j < i ==> dfs[..i][j] == dfs[j];
    GroupsFirstError(dfs, parameter, i);
  }

  lemma {:induction false} GroupsFirstError(dfs: seq<(string, Frame)>, parameter: string, k: nat)
    requires k < |dfs|
    requires forall j :: 0 <= j < k ==> Values(dfs[j].1, parameter).Ok?
    requires Values(dfs[k].1, parameter).Err?
    ensures Groups(dfs, parameter) == Err(Values(dfs[k].1, parameter).error)
  {
    if k > 0 {
      GroupsFirstError(dfs[1..], parameter, k - 1);
    }
  }

  // ---------------------------------------------------------------------------
  // calculate_concentration

  datatype Concentration = Concentration(
    particlesPerMl: real,
    totalAreaPerMl: real,
    meanAreaPerMl: Option<real>)   // NaN when no particle has an area

  /** An amount counted in the diluted sample, per millilitre of the original:
      `amount * dilution / volume`. */
  function PerMl(amount: real, dilution: real, volume: real): real
    requires volume != 0.0
  {
    (amount * dilution) / volume
  }

  /** Multiplying back by the volume gives the diluted amount. */
  lemma PerMlTimesVolume(amount: real, dilution: real, volume: real)
    requires volume != 0.0
    ensures PerMl(amount, dilution, volume) * volume == amount * dilution
  {
  }

  /** The mean area per millilitre: NaN for an empty column. */
  function MeanPerMl(areas: seq<real>, dilution: real, volume: real): (m: Option<real>)
    requires volume != 0.0
    ensures m.Some? <==> |areas| > 0
  {
    if |areas| == 0 then None else Some(PerMl(Mean(areas), dilution, volume))
  }

  /** `calculate_concentration`: particles and total area per millilitre of the
      original sample. A zero volume raises `ZeroDivisionError` on the first
      division, before the area column is looked up. */
  function CalculateConcentration(f: Frame, volume: real, dilution: real): (r: Result<Concentration, Error>)
    ensures volume == 0.0 ==> r == Err(ZeroDivisionError)
    ensures volume != 0.0 ==> (r.Ok? <==> Values(f, AreaColumn).Ok?)
    ensures volume != 0.0 && AreaColumn !in f.columns ==> r == Err(KeyError(AreaColumn))
    ensures r.Ok? ==> r.value.particlesPerMl == PerMl(|f.rows| as real, dilution, volume)
    ensures r.Ok? ==> r.value.totalAreaPerMl == PerMl(Sum(Values(f, AreaColumn).value), dilution, volume)
    ensures r.Ok? ==> r.value.meanAreaPerMl == MeanPerMl(Values(f, AreaColumn).value, dilution, volume)
  {
    if volume == 0.0 then Err(ZeroDivisionError)
    else
      match Values(f, AreaColumn)
      case Err(e) => Err(e)
      case Ok(areas) =>
        Ok(Concentration(
          PerMl(|f.rows| as real, dilution, volume),
          PerMl(Sum(areas), dilution, volume),
          MeanPerMl(areas, dilution, volume)))
  }

  /** Scaling the dilution by `k` scales the amount per millilitre by `k`. */
  lemma PerMlLinear(x: real, k: real, d: real, v: real)
    requires v != 0.0
    ensures PerMl(x, k * d, v) == k * PerMl(x, d, v)
  {
    assert x * (k * d) == k * (x * d);
  }

  /** Every concentration is linear in the dilution factor. */
  lemma {:induction false} ConcentrationLinear(f: Frame, volume: real, dilution: real, k: real)
    requires volume != 0.0
    requires CalculateConcentration(f, volume, dilution).Ok?
    ensures var a := CalculateConcentration(f, volume, dilution).value;
      var b := CalculateConcentration(f, volume, k * dilution).value;
      CalculateConcentration(f, volume, k * dilution).Ok? &&
      b.particlesPerMl == k * a.particlesPerMl &&
      b.totalAreaPerMl == k * a.totalAreaPerMl &&
      (a.meanAreaPerMl.Some? ==> b.meanAreaPerMl.Some? && b.meanAreaPerMl.value == k * a.meanAreaPerMl.value)
  {
    var areas := Values(f, AreaColumn).value;
    PerMlLinear(|f.rows| as real, k, dilution, volume);
    PerMlLinear(Sum(areas), k, dilution, volume);
    MeanPerMlLinear(areas, k, dilution, volume);
  }

  lemma MeanPerMlLinear(areas: seq<real>, k: real, dilution: real, volume: real)
    requires volume != 0.0
    ensures MeanPerMl(areas, dilution, volume).Some? ==>
      MeanPerMl(areas, k * dilution, volume).Some? &&
      MeanPerMl(areas, k * dilution, volume).value == k * MeanPerMl(areas, dilution, volume).value
  {
    if |areas| > 0 {
      PerMlLinear(Mean(areas), k, dilution, volume);
    }
  }


}

/** The part of a pandas DataFrame the analyser relies on: rows built from
    particle dictionaries, column lookup that raises for an unknown column, and
    `dropna()` on a column. */
module Frames {
  import opened Wrappers

  /** A cell: a number or a text. A key absent from a row is pandas' missing value. */
  datatype Cell = Num(x: real) | Text(s: string)

  /** A particle dictionary, or one row of a frame. */
  type Record = map<string, Cell>

  datatype Frame = Frame(columns: set<string>, rows: seq<Record>)

  /** Python exceptions the model carries as error values. */
  datatype Error =
    | KeyError(key: string)     // unknown column
    | TypeError                 // arithmetic or comparison on a text value
    | ZeroDivisionError         // float division by zero
    | FileNotFoundError         // no input files
    | StatsError                // a scipy test raised

  predicate WellFormed(f: Frame) {
    forall i :: 0 <= i < |f.rows| ==> f.rows[i].Keys <= f.columns
  }

  function KeysOf(records: seq<Record>): (ks: set<string>)
    ensures forall i :: 0 <= i < |records| ==> records[i].Keys <= ks
  {
    set i, k | 0 <= i < |records| && k in records[i] :: k
  }

  /** `pd.DataFrame(records)`: one row per dictionary, in order; the columns are the
      keys found in any dictionary, so an empty list gives no columns at all. */
  function FromRecords(records: seq<Record>): (f: Frame)
    ensures WellFormed(f)
    ensures f.rows == records
    ensures |records| == 0 ==> f.columns == {}
  {
    Frame(KeysOf(records), records)
  }

  /** `df[name]`: the column's cells, `None` where a row lacks the key. */
  function Column(f: Frame, name: string): (r: Result<seq<Option<Cell>>, Error>)
    ensures r.Err? <==> name !in f.columns
    ensures r.Ok? ==> |r.value| == |f.rows|
  {
    if name !in f.columns then Err(KeyError(name))
    else Ok(seq(|f.rows|, i requires 0 <= i < |f.rows| =>
      if name in f.rows[i] then Some(f.rows[i][name]) else None))
  }

  /** How many cells are not missing. */
  function Present(cells: seq<Option<Cell>>): (n: nat)
    ensures n <= |cells|
    ensures (forall i :: 0 <= i < |cells| ==> cells[i].Some?) ==> n == |cells|
  {
    if |cells| == 0 then 0 else (if cells[0].Some? then 1 else 0) + Present(cells[1..])
  }

  /** The numbers of a column with missing cells dropped, in row order; a text cell
      makes the arithmetic raise. */
  function Numbers(cells: seq<Option<Cell>>): (r: Result<seq<real>, Error>)
    ensures r.Err? <==> exists i :: 0 <= i < |cells| && cells[i].Some? && cells[i].value.Text?
    ensures r.Err? ==> r.error == TypeError
    ensures r.Ok? ==> |r.value| == Present(cells)
  {
    if |cells| == 0 then Ok([])
    else
      match cells[0]
      case None => Numbers(cells[1..])
      case Some(Text(_)) => Err(TypeError)
      case Some(Num(x)) =>
        match Numbers(cells[1..])
        case Ok(rest) => Ok([x] + rest)
        case Err(e) => Err(e)
  }

  /** `df[name].dropna()` as numbers: the statistics of a text column raise. */
  function Values(f: Frame, name: string): (r: Result<seq<real>, Error>)
  {
    match Column(f, name)
    case Err(e) => Err(e)
    case Ok(cells) => Numbers(cells)
  }

  /** `df[name] = cells`: sets the column in every row, adding it if it is new. */
  function WithColumn(f: Frame, name: string, cells: seq<Cell>): (g: Frame)
    requires |cells| == |f.rows|
    requires WellFormed(f)
    ensures WellFormed(g)
    ensures g.columns == f.columns + {name}
    ensures |g.rows| == |f.rows|
    ensures forall i :: 0 <= i < |g.rows| ==> g.rows[i] == f.rows[i][name := cells[i]]
  {
    Frame(f.columns + {name}, seq(|f.rows|, i requires 0 <= i < |f.rows| => f.rows[i][name := cells[i]]))
  }
}

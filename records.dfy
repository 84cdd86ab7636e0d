/** The record store: the incident log as a table of text cells, the
    normalisation `load_csv` applies to it, and the per-record text that
    every search index is built from. */
module Records {
  import opened Common

  /** A table as `pd.read_csv(path, dtype=str)` yields it: a header of
      column names and rows of cells, a missing value (an empty field or one
      of pandas' NA markers such as "NA", "N/A" or "null") being `None`. */
  datatype RawTable = RawTable(columns: seq<string>, rows: seq<seq<Option<string>>>)

  /** A table whose every cell is text. */
  datatype Table = Table(columns: seq<string>, rows: seq<seq<string>>)

  /** The column schema every normalised table carries. */
  const Expected: seq<string> :=
    ["date", "shift", "factory", "machine", "issue", "root_cause",
     "correction", "corrective_action", "reported_by"]

  /** pandas gives unique column names and rows as wide as the header. */
  predicate RawWellFormed(raw: RawTable)
  {
    && Distinct(raw.columns)
    && forall i :: 0 <= i < |raw.rows| ==> |raw.rows[i]| == |raw.columns|
  }

  predicate WellFormed(t: Table)
  {
    && Distinct(t.columns)
    && forall i :: 0 <= i < |t.rows| ==> |t.rows[i]| == |t.columns|
  }

  /** What downstream code relies on: well formed, with every expected column. */
  predicate Normalized(t: Table)
  {
    WellFormed(t) && forall c :: c in Expected ==> c in t.columns
  }

  lemma ExpectedDistinct()
    ensures Distinct(Expected)
  {
  }

  /** `fillna("")` on one cell. */
  function CellText(c: Option<string>): string
  {
    match c
    case Some(s) => s
    case None => ""
  }

  /** `fillna("")` on the whole table: blanks become empty text, nothing moves. */
  function FillNa(raw: RawTable): (t: Table)
    requires RawWellFormed(raw)
    ensures WellFormed(t) && t.columns == raw.columns && |t.rows| == |raw.rows|
    ensures forall i, j :: 0 <= i < |raw.rows| && 0 <= j < |raw.columns| ==>
              t.rows[i][j] == CellText(raw.rows[i][j])
  {
    Table(raw.columns,
          seq(|raw.rows|, i requires 0 <= i < |raw.rows| =>
            seq(|raw.rows[i]|, j requires 0 <= j < |raw.rows[i]| => CellText(raw.rows[i][j]))))
  }

  /** `df[name] = value`: a new last column holding `value` in every row. */
  function AddColumn(t: Table, name: string, value: string): (r: Table)
    ensures r.columns == t.columns + [name] && |r.rows| == |t.rows|
    ensures forall i :: 0 <= i < |t.rows| ==> r.rows[i] == t.rows[i] + [value]
  {
    Table(t.columns + [name], seq(|t.rows|, i requires 0 <= i < |t.rows| => t.rows[i] + [value]))
  }

  /** The names of `wanted`, in their order, that `present` lacks. */
  function Absent(wanted: seq<string>, present: seq<string>): (r: seq<string>)
    ensures forall c :: c in r <==> c in wanted && c !in present
    ensures Distinct(wanted) ==> Distinct(r)
    ensures forall a, b :: 0 <= a < b < |r| ==>
              exists p, q :: 0 <= p < q < |wanted| && wanted[p] == r[a] && wanted[q] == r[b]
  {
    if wanted == [] then []
    else
      var init := wanted[..|wanted| - 1];
      var last := wanted[|wanted| - 1];
      var before := Absent(init, present);
      var r := before + (if last in present then [] else [last]);
      forall a, b | 0 <= a < b < |r|
        ensures exists p, q :: 0 <= p < q < |wanted| && wanted[p] == r[a] && wanted[q] == r[b]
      {
        if b < |before| {
          var p, q :| 0 <= p < q < |init| && init[p] == before[a] && init[q] == before[b];
          assert wanted[p] == r[a] && wanted[q] == r[b];
        } else {
          assert r[a] in init;
          var p :| 0 <= p < |init| && init[p] == r[a];
          assert wanted[p] == r[a] && wanted[|wanted| - 1] == r[b];
        }
      }
      r
  }

  /** The state of `load_csv` after the loop has looked at the first `k`
      expected columns: the filled table, with the missing ones among those
      appended, each holding "" in every row. */
  predicate LoadedUpTo(raw: RawTable, t: Table, k: nat)
    requires RawWellFormed(raw) && k <= |Expected|
  {
    && t.columns == raw.columns + Absent(Expected[..k], raw.columns)
    && WellFormed(t) && |t.rows| == |raw.rows|
    && (forall i, j :: 0 <= i < |raw.rows| && 0 <= j < |raw.columns| ==>
          t.rows[i][j] == CellText(raw.rows[i][j]))
    && (forall i, j :: 0 <= i < |raw.rows| && |raw.columns| <= j < |t.columns| ==>
          t.rows[i][j] == "")
  }

  /** Each expected name is new when the loop reaches it. */
  lemma ExpectedFresh(k: nat)
    requires k < |Expected|
    ensures Expected[k] !in Expected[..k]
  {
    ExpectedDistinct();
  }

  /** Looking at one more wanted name appends it when `present` lacks it. */
  lemma AbsentStep(wanted: seq<string>, present: seq<string>, k: nat)
    requires k < |wanted|
    ensures Absent(wanted[..k + 1], present)
         == Absent(wanted[..k], present) + (if wanted[k] in present then [] else [wanted[k]])
  {
    var w := wanted[..k + 1];
    assert w[..|w| - 1] == wanted[..k];
    assert w[|w| - 1] == wanted[k];
  }

  /** Appending a new column keeps the table well formed and every old cell,
      and puts `value` in the new last cell of each row. */
  lemma AddColumnKeeps(t: Table, name: string, value: string)
    requires WellFormed(t) && name !in t.columns
    ensures var r := AddColumn(t, name, value);
            && WellFormed(r)
            && (forall i, j :: 0 <= i < |t.rows| && 0 <= j < |t.columns| ==> r.rows[i][j] == t.rows[i][j])
            && (forall i :: 0 <= i < |t.rows| ==> r.rows[i][|t.columns|] == value)
  {
    var r := AddColumn(t, name, value);
    forall i | 0 <= i < |r.rows| ensures |r.rows[i]| == |r.columns| {
      assert r.rows[i] == t.rows[i] + [value];
    }
  }

  /** The loop turn that appends a missing expected column. */
  lemma LoadStepAdd(raw: RawTable, t: Table, k: nat)
    requires RawWellFormed(raw) && k < |Expected| && LoadedUpTo(raw, t, k)
    requires Expected[k] !in t.columns
    requires Absent(Expected[..k + 1], raw.columns) == Absent(Expected[..k], raw.columns) + [Expected[k]]
    ensures LoadedUpTo(raw, AddColumn(t, Expected[k], ""), k + 1)
  {
    var col := Expected[k];
    var r := AddColumn(t, col, "");
    AddColumnKeeps(t, col, "");
    var missing := Absent(Expected[..k], raw.columns);
    assert r.columns == raw.columns + (missing + [col]) by {
      assert r.columns == raw.columns + missing + [col];
    }
    forall i, j | 0 <= i < |raw.rows| && 0 <= j < |raw.columns|
      ensures r.rows[i][j] == CellText(raw.rows[i][j])
    {
      assert r.rows[i][j] == t.rows[i][j];
    }
    forall i, j | 0 <= i < |raw.rows| && |raw.columns| <= j < |r.columns|
      ensures r.rows[i][j] == ""
    {
      if j < |t.columns| { assert r.rows[i][j] == t.rows[i][j]; }
    }
  }

  /** One turn of the loop: append the k-th expected column when absent. */
  lemma LoadStep(raw: RawTable, t: Table, k: nat)
    requires RawWellFormed(raw) && k < |Expected| && LoadedUpTo(raw, t, k)
    ensures var col := Expected[k];
            LoadedUpTo(raw, if col !in t.columns then AddColumn(t, col, "") else t, k + 1)
  {
    var col := Expected[k];
    ExpectedFresh(k);
    AbsentStep(Expected, raw.columns, k);
    assert col !in Absent(Expected[..k], raw.columns);
    assert col in t.columns <==> col in raw.columns;
    if col !in t.columns {
      LoadStepAdd(raw, t, k);
    }
  }

  /** `load_csv` on an already parsed table: fill blanks with "", then
      append each missing expected column, in schema order, filled with "". */
  method LoadCsv(raw: RawTable) returns (t: Table)
    requires RawWellFormed(raw)
    ensures Normalized(t)
    ensures t.columns == raw.columns + Absent(Expected, raw.columns)
    ensures |t.rows| == |raw.rows|
    ensures forall i, j :: 0 <= i < |raw.rows| && 0 <= j < |raw.columns| ==>
              t.rows[i][j] == CellText(raw.rows[i][j])
    ensures forall i, j :: 0 <= i < |raw.rows| && |raw.columns| <= j < |t.columns| ==>
              t.rows[i][j] == ""
  {
    t := FillNa(raw);
    assert Expected[..0] == [];
    for k := 0 to |Expected|
      invariant LoadedUpTo(raw, t, k)
    {
      LoadStep(raw, t, k);
      if Expected[k] !in t.columns {
        t := AddColumn(t, Expected[k], "");
      }
    }
    assert Expected[..|Expected|] == Expected;
  }

  /** `df.iloc[i].to_dict()`: each column name mapped to the row's cell. */
  function RowDict(t: Table, i: nat): (d: map<string, string>)
    requires WellFormed(t) && i < |t.rows|
    ensures forall c :: c in d <==> c in t.columns
    ensures forall j :: 0 <= j < |t.columns| ==> d[t.columns[j]] == t.rows[i][j]
  {
    map j | 0 <= j < |t.columns| :: t.columns[j] := t.rows[i][j]
  }

  /** The fields of a record that searches look at, in order:
      factory, machine, issue and root cause. */
  function SearchFields(t: Table, i: nat): (parts: seq<string>)
    requires Normalized(t) && i < |t.rows|
    ensures |parts| == 4
  {
    var d := RowDict(t, i);
    [d["factory"], d["machine"], d["issue"], d["root_cause"]]
  }

  /** The text a record contributes to every index: its search fields
      joined by single spaces. */
  function RecordText(t: Table, i: nat): (r: string)
    requires Normalized(t) && i < |t.rows|
    ensures var d := RowDict(t, i);
            r == d["factory"] + " " + d["machine"] + " " + d["issue"] + " " + d["root_cause"]
  {
    var d := RowDict(t, i);
    JoinFour(d["factory"], d["machine"], d["issue"], d["root_cause"]);
    JoinSpaced(SearchFields(t, i))
  }

  /** The synthesized corpus, one text per row, in row order. */
  function Corpus(t: Table): (c: seq<string>)
    requires Normalized(t)
    ensures |c| == |t.rows|
    ensures forall i :: 0 <= i < |t.rows| ==> c[i] == RecordText(t, i)
  {
    seq(|t.rows|, i requires 0 <= i < |t.rows| => RecordText(t, i))
  }

  /** A record's text carries each of its search fields verbatim. */
  lemma RecordTextCarriesFields(t: Table, i: nat)
    requires Normalized(t) && i < |t.rows|
    ensures forall k :: 0 <= k < 4 ==> Contains(RecordText(t, i), SearchFields(t, i)[k])
  {
    forall k | 0 <= k < 4 ensures Contains(RecordText(t, i), SearchFields(t, i)[k]) {
      JoinSpacedCarries(SearchFields(t, i), k);
    }
  }
}

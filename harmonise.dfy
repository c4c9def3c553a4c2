/**
 * Aligning the second heart-disease data set with the first before they are
 * combined: long column names renamed to the short ones, both targets made
 * to mean 1 = disease, the 1-based `cp` and `slope` codes shifted to 0-based,
 * the `thal` codes translated, and the rows of both data sets concatenated.
 */
module Harmonise {
  import opened Wrappers

  /** A data-frame cell: a number, a text, or a missing value (NaN). */
  datatype Cell = Num(n: real) | Text(s: string) | Missing

  /** A data frame: column labels and rows of cells. */
  datatype Table = Table(columns: seq<string>, rows: seq<seq<Cell>>)

  predicate WellFormed(t: Table) {
    forall i :: 0 <= i < |t.rows| ==> |t.rows[i]| == |t.columns|
  }

  /** New column name to old column name. */
  const ColumnMapping: map<string, string> := map[
    "Age" := "age",
    "Sex" := "sex",
    "Chest pain type" := "cp",
    "BP" := "trestbps",
    "Cholesterol" := "chol",
    "FBS over 120" := "fbs",
    "EKG results" := "restecg",
    "Max HR" := "thalach",
    "Exercise angina" := "exang",
    "ST depression" := "oldpeak",
    "Slope of ST" := "slope",
    "Number of vessels fluro" := "ca",
    "Thallium" := "thal",
    "Heart Disease" := "target"
  ]

  function RenameColumn(c: string): (r: string)
    ensures c in ColumnMapping ==> r == ColumnMapping[c]
    ensures c !in ColumnMapping ==> r == c
  {
    if c in ColumnMapping then ColumnMapping[c] else c
  }

  /** `rename(columns=column_mapping)`: labels renamed, cells untouched. */
  function Rename(t: Table): (r: Table)
    ensures |r.columns| == |t.columns| && r.rows == t.rows
    ensures forall j :: 0 <= j < |t.columns| ==> r.columns[j] == RenameColumn(t.columns[j])
  {
    Table(seq(|t.columns|, j requires 0 <= j < |t.columns| => RenameColumn(t.columns[j])), t.rows)
  }

  /** No two long names map to the same short name, so renaming never merges two columns. */
  lemma RenameInjective(a: string, b: string)
    requires a in ColumnMapping && b in ColumnMapping && a != b
    ensures RenameColumn(a) != RenameColumn(b)
  {
  }

  /** The new target: Presence is 1, Absence is 0, anything else is missing. */
  function NewTarget(c: Cell): (r: Cell)
    ensures r == Num(1.0) <==> c == Text("Presence")
    ensures r == Num(0.0) <==> c == Text("Absence")
    ensures c != Text("Presence") && c != Text("Absence") ==> r == Missing
  {
    if c == Text("Presence") then Num(1.0)
    else if c == Text("Absence") then Num(0.0)
    else Missing
  }

  /** The old target flipped: 0 becomes 1, 1 becomes 0, anything else is missing. */
  function OldTarget(c: Cell): (r: Cell)
    ensures c == Num(0.0) <==> r == Num(1.0)
    ensures c == Num(1.0) <==> r == Num(0.0)
    ensures c != Num(0.0) && c != Num(1.0) ==> r == Missing
  {
    match c
    case Num(x) => if x == 0.0 then Num(1.0) else if x == 1.0 then Num(0.0) else Missing
    case _ => Missing
  }

  /** The flip undoes itself on the two labels. */
  lemma OldTargetInvolution(c: Cell)
    requires c == Num(0.0) || c == Num(1.0)
    ensures OldTarget(OldTarget(c)) == c
  {
  }

  /** `column - 1`: numbers decrease by one, a missing value stays missing, text raises. */
  function Shift(c: Cell): (r: Option<Cell>)
    ensures r.None? <==> c.Text?
    ensures c.Num? ==> r == Some(Num(c.n - 1.0))
    ensures c.Missing? ==> r == Some(Missing)
  {
    match c
    case Num(x) => Some(Num(x - 1.0))
    case Missing => Some(Missing)
    case Text(_) => None
  }

  /** The 1-based codes 1..4 of `cp` (and 1..3 of `slope`) become 0..3 (and 0..2). */
  lemma ShiftCodes(x: real, top: real)
    requires 1.0 <= x <= top
    ensures Shift(Num(x)).Some? && Shift(Num(x)).value.Num?
    ensures 0.0 <= Shift(Num(x)).value.n <= top - 1.0
  {
  }

  /** `thal.map({6: 1, 3: 2, 7: 3}).fillna(2)`. */
  function Thal(c: Cell): (r: Cell)
    ensures c == Num(6.0) ==> r == Num(1.0)
    ensures c == Num(3.0) ==> r == Num(2.0)
    ensures c == Num(7.0) ==> r == Num(3.0)
    ensures c != Num(6.0) && c != Num(3.0) && c != Num(7.0) ==> r == Num(2.0)
  {
    match c
    case Num(x) => if x == 6.0 then Num(1.0) else if x == 3.0 then Num(2.0) else if x == 7.0 then Num(3.0) else Num(2.0)
    case _ => Num(2.0)
  }

  /** Every thal code lands in the old data set's codes 1..3. */
  lemma ThalInOldRange(c: Cell)
    ensures Thal(c).Num? && 1.0 <= Thal(c).n <= 3.0
  {
  }

  /**
   * `t[c] = f(t[c])` on every column labelled `c`: `None` when there is no
   * such column (a key error) or when `f` raises on one of its cells.
   */
  function UpdateColumn(t: Table, c: string, f: Cell -> Option<Cell>): (r: Option<Table>)
    requires WellFormed(t)
    ensures r.Some? <==>
              c in t.columns
              && forall i, j :: 0 <= i < |t.rows| && 0 <= j < |t.columns| && t.columns[j] == c ==> f(t.rows[i][j]).Some?
    ensures r.Some? ==>
              r.value.columns == t.columns && |r.value.rows| == |t.rows| && WellFormed(r.value)
              && forall i, j :: 0 <= i < |t.rows| && 0 <= j < |t.columns| ==>
                   r.value.rows[i][j] == if t.columns[j] == c then f(t.rows[i][j]).value else t.rows[i][j]
  {
    if c !in t.columns then None
    else if exists i, j :: 0 <= i < |t.rows| && 0 <= j < |t.columns| && t.columns[j] == c && f(t.rows[i][j]).None? then None
    else
      Some(Table(t.columns, seq(|t.rows|, i requires 0 <= i < |t.rows| =>
        seq(|t.columns|, j requires 0 <= j < |t.columns| =>
          if t.columns[j] == c then f(t.rows[i][j]).value else t.rows[i][j]))))
  }

  /** One cell of a single update, read through `UpdateColumn`'s contract. */
  lemma UpdateColumnAt(t: Table, c: string, f: Cell -> Option<Cell>, i: nat, j: nat)
    requires WellFormed(t) && UpdateColumn(t, c, f).Some?
    requires i < |t.rows| && j < |t.columns|
    ensures WellFormed(UpdateColumn(t, c, f).value)
    ensures UpdateColumn(t, c, f).value.columns == t.columns
    ensures |UpdateColumn(t, c, f).value.rows| == |t.rows|
    ensures UpdateColumn(t, c, f).value.rows[i][j] == if t.columns[j] == c then f(t.rows[i][j]).value else t.rows[i][j]
  {
  }

  function TargetRule(c: Cell): Option<Cell> { Some(NewTarget(c)) }
  function ThalRule(c: Cell): Option<Cell> { Some(Thal(c)) }

  /** What the new data set's pipeline does to one cell of the column (already renamed) `name`. */
  function HarmoniseCell(name: string, c: Cell): Option<Cell> {
    if name == "target" then TargetRule(c)
    else if name == "cp" || name == "slope" then Shift(c)
    else if name == "thal" then ThalRule(c)
    else Some(c)
  }

  /** Lines 30-48 on the new data set: rename, then target, cp, slope and thal in turn. */
  function HarmoniseNew(t: Table): (r: Option<Table>)
    requires WellFormed(t)
    ensures "target" !in Rename(t).columns || "thal" !in Rename(t).columns ==> r.None?
    ensures r.Some? ==> r.value.columns == Rename(t).columns && |r.value.rows| == |t.rows| && WellFormed(r.value)
  {
    var renamed := Rename(t);
    var withTarget := UpdateColumn(renamed, "target", TargetRule);
    if withTarget.None? then None
    else
      var withCp := UpdateColumn(withTarget.value, "cp", Shift);
      if withCp.None? then None
      else
        var withSlope := UpdateColumn(withCp.value, "slope", Shift);
        if withSlope.None? then None
        else UpdateColumn(withSlope.value, "thal", ThalRule)
  }

  function OldTargetRule(c: Cell): Option<Cell> { Some(OldTarget(c)) }

  /** Line 36 on the old data set: the target flipped, which fails only when there is no `target` column. */
  function HarmoniseOld(t: Table): (r: Option<Table>)
    requires WellFormed(t)
    ensures r.Some? <==> "target" in t.columns
    ensures r.Some? ==>
              r.value.columns == t.columns && |r.value.rows| == |t.rows| && WellFormed(r.value)
              && forall i, j :: 0 <= i < |t.rows| && 0 <= j < |t.columns| ==>
                   r.value.rows[i][j] == if t.columns[j] == "target" then OldTarget(t.rows[i][j]) else t.rows[i][j]
  {
    UpdateColumn(t, "target", OldTargetRule)
  }

  /** Every cell of the renamed table converts under its column's rule (no text in `cp` or `slope`). */
  ghost predicate CellsConvert(t: Table) {
    forall i, j :: 0 <= i < |t.rows| && 0 <= j < |t.columns| && |t.rows[i]| == |t.columns| ==>
      HarmoniseCell(t.columns[j], t.rows[i][j]).Some?
  }

  /**
   * The new data set's pipeline succeeds exactly when the renamed table has
   * all four columns it touches and no text in `cp` or `slope`.
   */
  lemma HarmoniseNewSucceeds(t: Table)
    requires WellFormed(t)
    ensures var cols := Rename(t).columns;
      HarmoniseNew(t).Some? <==>
        "target" in cols && "cp" in cols && "slope" in cols && "thal" in cols && CellsConvert(Rename(t))
  {
    var cols := Rename(t).columns;
    if HarmoniseNew(t).Some? {
      HarmoniseNewCells(t);
      HarmoniseNewColumns(t);
    } else if "target" in cols && "cp" in cols && "slope" in cols && "thal" in cols && CellsConvert(Rename(t)) {
      HarmoniseNewRuns(t);
    }
  }

  lemma HarmoniseNewColumns(t: Table)
    requires WellFormed(t) && HarmoniseNew(t).Some?
    ensures var cols := Rename(t).columns;
      "target" in cols && "cp" in cols && "slope" in cols && "thal" in cols
  {
    var renamed := Rename(t);
    var withTarget := UpdateColumn(renamed, "target", TargetRule).value;
    var withCp := UpdateColumn(withTarget, "cp", Shift).value;
    var withSlope := UpdateColumn(withCp, "slope", Shift).value;
    assert withSlope.columns == renamed.columns;
  }

  lemma HarmoniseNewRuns(t: Table)
    requires WellFormed(t)
    requires var cols := Rename(t).columns;
      "target" in cols && "cp" in cols && "slope" in cols && "thal" in cols && CellsConvert(Rename(t))
    ensures HarmoniseNew(t).Some?
  {
    var renamed := Rename(t);
    var cols := renamed.columns;
    var withTarget := UpdateColumn(renamed, "target", TargetRule).value;
    forall i, j | 0 <= i < |t.rows| && 0 <= j < |cols| && cols[j] == "cp"
      ensures Shift(withTarget.rows[i][j]).Some?
    {
      UpdateColumnAt(renamed, "target", TargetRule, i, j);
      assert HarmoniseCell(cols[j], renamed.rows[i][j]).Some?;
    }
    var withCp := UpdateColumn(withTarget, "cp", Shift).value;
    forall i, j | 0 <= i < |t.rows| && 0 <= j < |cols| && cols[j] == "slope"
      ensures Shift(withCp.rows[i][j]).Some?
    {
      UpdateColumnAt(renamed, "target", TargetRule, i, j);
      UpdateColumnAt(withTarget, "cp", Shift, i, j);
      assert HarmoniseCell(cols[j], renamed.rows[i][j]).Some?;
    }
    var withSlope := UpdateColumn(withCp, "slope", Shift).value;
    assert UpdateColumn(withSlope, "thal", ThalRule).Some?;
  }

  /**
   * After a successful run the labels are the renamed ones, the rows are as
   * many as before, and each cell is changed as its column's rule says.
   */
  lemma HarmoniseNewCells(t: Table)
    requires WellFormed(t) && HarmoniseNew(t).Some?
    ensures var r := HarmoniseNew(t).value;
      && r.columns == Rename(t).columns && |r.rows| == |t.rows| && WellFormed(r)
      && forall i, j :: 0 <= i < |t.rows| && 0 <= j < |t.columns| ==>
           r.rows[i][j] == HarmoniseCell(r.columns[j], t.rows[i][j]).value
  {
    var renamed := Rename(t);
    var withTarget := UpdateColumn(renamed, "target", TargetRule).value;
    var withCp := UpdateColumn(withTarget, "cp", Shift).value;
    var withSlope := UpdateColumn(withCp, "slope", Shift).value;
    var r := HarmoniseNew(t).value;
    assert r == UpdateColumn(withSlope, "thal", ThalRule).value;
    forall i, j | 0 <= i < |t.rows| && 0 <= j < |t.columns|
      ensures r.rows[i][j] == HarmoniseCell(r.columns[j], t.rows[i][j]).value
    {
      UpdateColumnAt(renamed, "target", TargetRule, i, j);
      UpdateColumnAt(withTarget, "cp", Shift, i, j);
      UpdateColumnAt(withCp, "slope", Shift, i, j);
      UpdateColumnAt(withSlope, "thal", ThalRule, i, j);
    }
  }

  /** The first index of `x` in `s`. */
  function IndexOf(s: seq<string>, x: string): (k: nat)
    requires x in s
    ensures k < |s| && s[k] == x && x !in s[..k]
  {
    if s[0] == x then 0 else 1 + IndexOf(s[1..], x)
  }

  predicate Distinct(s: seq<string>) {
    forall i, j :: 0 <= i < j < |s| ==> s[i] != s[j]
  }

  lemma {:induction false} ExtraNone(a: seq<string>, b: seq<string>)
    requires forall x :: x in b ==> x in a
    ensures Extra(a, b) == []
  {
    if b != [] {
      ExtraNone(a, b[1..]);
    }
  }

  /** The labels of `b` that `a` lacks, in `b`'s order. */
  function Extra(a: seq<string>, b: seq<string>): (e: seq<string>)
    ensures forall x :: x in e <==> x in b && x !in a
  {
    if b == [] then [] else (if b[0] in a then [] else [b[0]]) + Extra(a, b[1..])
  }

  /** The cell of row `row` (labelled by `cols`) under label `c`, missing when there is no such column. */
  function Lookup(cols: seq<string>, row: seq<Cell>, c: string): Cell
    requires |row| == |cols|
  {
    if c in cols then row[IndexOf(cols, c)] else Missing
  }

  /**
   * `pd.concat([older, new], ignore_index=True)`: the older labels followed by
   * the new data set's other labels; the old rows, then the new rows, each
   * aligned by label with missing cells where a data set lacks a column.
   */
  function Concat(older: Table, newer: Table): (r: Table)
    requires WellFormed(older) && WellFormed(newer)
    requires Distinct(older.columns) && Distinct(newer.columns)
    ensures r.columns == older.columns + Extra(older.columns, newer.columns)
    ensures |r.rows| == |older.rows| + |newer.rows| && WellFormed(r)
  {
    var cols := older.columns + Extra(older.columns, newer.columns);
    Table(cols,
      seq(|older.rows|, i requires 0 <= i < |older.rows| =>
        seq(|cols|, j requires 0 <= j < |cols| => Lookup(older.columns, older.rows[i], cols[j])))
      + seq(|newer.rows|, i requires 0 <= i < |newer.rows| =>
        seq(|cols|, j requires 0 <= j < |cols| => Lookup(newer.columns, newer.rows[i], cols[j]))))
  }

  lemma IndexOfDistinct(s: seq<string>, j: nat)
    requires Distinct(s) && j < |s|
    ensures IndexOf(s, s[j]) == j
  {
  }

  /**
   * Every old row comes first with its cells unchanged, and every new row
   * follows with each of its cells under the same label; a row is missing
   * exactly the cells under labels its own data set lacks.
   */
  lemma ConcatKeepsCells(older: Table, newer: Table)
    requires WellFormed(older) && WellFormed(newer)
    requires Distinct(older.columns) && Distinct(newer.columns)
    ensures var r := Concat(older, newer);
      && (forall i, j :: 0 <= i < |older.rows| && 0 <= j < |older.columns| ==> r.rows[i][j] == older.rows[i][j])
      && (forall i, j :: 0 <= i < |newer.rows| && 0 <= j < |newer.columns| ==>
            r.rows[|older.rows| + i][IndexOf(r.columns, newer.columns[j])] == newer.rows[i][j])
      && (forall i, j :: 0 <= i < |older.rows| && |older.columns| <= j < |r.columns| ==> r.rows[i][j] == Missing)
      && (forall k, j :: |older.rows| <= k < |r.rows| && 0 <= j < |r.columns| && r.columns[j] !in newer.columns ==>
            r.rows[k][j] == Missing)
  {
    var r := Concat(older, newer);
    forall i, j | 0 <= i < |older.rows| && 0 <= j < |older.columns|
      ensures r.rows[i][j] == older.rows[i][j]
    {
      assert r.columns[j] == older.columns[j];
      IndexOfDistinct(older.columns, j);
    }
    forall i, j | 0 <= i < |newer.rows| && 0 <= j < |newer.columns|
      ensures r.rows[|older.rows| + i][IndexOf(r.columns, newer.columns[j])] == newer.rows[i][j]
    {
      var c := newer.columns[j];
      assert c in r.columns by {
        if c !in older.columns { assert c in Extra(older.columns, newer.columns); }
      }
      var k := IndexOf(r.columns, c);
      IndexOfDistinct(newer.columns, j);
    }
    forall i, j | 0 <= i < |older.rows| && |older.columns| <= j < |r.columns|
      ensures r.rows[i][j] == Missing
    {
      assert r.columns[j] in Extra(older.columns, newer.columns);
    }
  }

  /** When both data sets carry the same labels in the same order, combining is appending the rows. */
  lemma ConcatSameColumns(older: Table, newer: Table)
    requires WellFormed(older) && WellFormed(newer)
    requires Distinct(older.columns) && older.columns == newer.columns
    ensures Concat(older, newer) == Table(older.columns, older.rows + newer.rows)
  {
    var r := Concat(older, newer);
    ExtraNone(older.columns, newer.columns);
    assert r.columns == older.columns;
    ConcatKeepsCells(older, newer);
    forall i | 0 <= i < |r.rows|
      ensures r.rows[i] == (older.rows + newer.rows)[i]
    {
      forall j | 0 <= j < |r.columns|
        ensures r.rows[i][j] == (older.rows + newer.rows)[i][j]
      {
        if i >= |older.rows| {
          IndexOfDistinct(older.columns, j);
        }
      }
    }
  }

  /**
   * Lines 35-51: both data sets aligned, then the old rows followed by the
   * new ones.  `None` when a step raises.
   */
  function Combine(older: Table, newer: Table): (r: Option<Table>)
    requires WellFormed(older) && WellFormed(newer)
    requires Distinct(older.columns) && Distinct(Rename(newer).columns)
    ensures r.Some? <==> "target" in older.columns && HarmoniseNew(newer).Some?
    ensures r.Some? ==> |r.value.rows| == |older.rows| + |newer.rows| && older.columns <= r.value.columns
  {
    var o := HarmoniseOld(older);
    var n := HarmoniseNew(newer);
    if o.None? || n.None? then None
    else
      HarmoniseNewCells(newer);
      Some(Concat(o.value, n.value))
  }

  /**
   * When the renamed new labels are the old labels in the same order, the
   * combined data set is the aligned old rows followed by the aligned new rows.
   */
  lemma CombineAppends(older: Table, newer: Table)
    requires WellFormed(older) && WellFormed(newer)
    requires Distinct(older.columns) && Rename(newer).columns == older.columns
    requires HarmoniseOld(older).Some? && HarmoniseNew(newer).Some?
    ensures Combine(older, newer)
            == Some(Table(older.columns, HarmoniseOld(older).value.rows + HarmoniseNew(newer).value.rows))
  {
    HarmoniseNewCells(newer);
    ConcatSameColumns(HarmoniseOld(older).value, HarmoniseNew(newer).value);
  }
}

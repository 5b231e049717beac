/** Tables as the pipeline's layers hold them: a dtype per column and a sequence of
    rows, each row a map from column name to cell value. A cell missing from a row
    reads as null, so every operation below is total. */
module Tables {
  import opened Wrappers
  import opened Values
  import opened Subsequences

  type Row = map<string, Value>

  datatype Table = Table(dtypes: map<string, DType>, rows: seq<Row>)

  /** The table with no columns and no rows (`pd.DataFrame()`). */
  const EmptyTable: Table := Table(map[], [])

  function Cell(r: Row, c: string): Value {
    if c in r then r[c] else Null
  }

  /** `df.empty`: no rows, or no columns. */
  predicate IsEmpty(t: Table) {
    |t.rows| == 0 || |t.dtypes| == 0
  }

  predicate IsDatetime(t: Table, c: string) {
    c in t.dtypes && t.dtypes[c] == DateTimeType
  }

  /** `df[c].isnull().any()` for a present column. */
  predicate HasNull(t: Table, c: string) {
    exists i :: 0 <= i < |t.rows| && Cell(t.rows[i], c) == Null
  }

  /** Every row has exactly the table's columns and each cell fits its column's dtype. */
  predicate WellFormed(t: Table) {
    forall i :: 0 <= i < |t.rows| ==>
      t.rows[i].Keys == t.dtypes.Keys
      && forall c :: c in t.dtypes ==> Fits(t.rows[i][c], t.dtypes[c])
  }

  /** The first of the candidate names that is a column of the table. */
  function FirstPresent(t: Table, candidates: seq<string>): (r: Option<string>)
    ensures r.Some? ==> r.value in candidates && r.value in t.dtypes
    ensures r.Some? ==> exists j :: 0 <= j < |candidates| && candidates[j] == r.value
                          && forall k :: 0 <= k < j ==> candidates[k] !in t.dtypes
    ensures r.None? ==> forall c :: c in candidates ==> c !in t.dtypes
  {
    if candidates == [] then None
    else if candidates[0] in t.dtypes then Some(candidates[0])
    else
      var r := FirstPresent(t, candidates[1..]);
      assert r.Some? ==> exists j :: 0 <= j < |candidates| && candidates[j] == r.value
                          && forall k :: 0 <= k < j ==> candidates[k] !in t.dtypes by {
        if r.Some? {
          var j :| 0 <= j < |candidates[1..]| && candidates[1..][j] == r.value
                   && forall k :: 0 <= k < j ==> candidates[1..][k] !in t.dtypes;
          assert candidates[j + 1] == r.value;
          assert forall k :: 0 <= k < j + 1 ==> candidates[k] !in t.dtypes by {
            forall k | 0 <= k < j + 1 ensures candidates[k] !in t.dtypes {
              if k > 0 { assert candidates[k] == candidates[1..][k - 1]; }
            }
          }
        }
      }
      r
  }

  /** Replaces (or adds) column `c` with dtype `dt` and the given cells, one per row. */
  function SetColumn(t: Table, c: string, dt: DType, cells: seq<Value>): (r: Table)
    requires |cells| == |t.rows|
    ensures r.dtypes == t.dtypes[c := dt] && |r.rows| == |t.rows|
    ensures forall i :: 0 <= i < |t.rows| ==> r.rows[i] == t.rows[i][c := cells[i]]
  {
    Table(t.dtypes[c := dt], seq(|t.rows|, i requires 0 <= i < |t.rows| => t.rows[i][c := cells[i]]))
  }

  /** Removes the named columns from the table and from every row. */
  function DropColumns(t: Table, cs: set<string>): (r: Table)
    ensures r.dtypes == t.dtypes - cs && |r.rows| == |t.rows|
    ensures forall i :: 0 <= i < |t.rows| ==> r.rows[i] == t.rows[i] - cs
  {
    Table(t.dtypes - cs, seq(|t.rows|, i requires 0 <= i < |t.rows| => t.rows[i] - cs))
  }

  /** `df.rename(columns={from: to})`: column `from`, if present, now named `to`. */
  function Rename(t: Table, from: string, to: string): (r: Table)
    ensures from !in t.dtypes || from == to ==> r == t
    ensures from in t.dtypes && from != to ==>
              r.dtypes == (t.dtypes - {from})[to := t.dtypes[from]] && |r.rows| == |t.rows|
              && forall i :: 0 <= i < |t.rows| ==> r.rows[i] == (t.rows[i] - {from})[to := Cell(t.rows[i], from)]
  {
    if from !in t.dtypes || from == to then t
    else
      var moved := SetColumn(t, to, t.dtypes[from], Column(t, from));
      assert forall i :: 0 <= i < |t.rows| ==> moved.rows[i] - {from} == (t.rows[i] - {from})[to := Cell(t.rows[i], from)];
      DropColumns(moved, {from})
  }

  /** The cells of column `c`, top to bottom. */
  function Column(t: Table, c: string): (cells: seq<Value>)
    ensures |cells| == |t.rows| && forall i :: 0 <= i < |t.rows| ==> cells[i] == Cell(t.rows[i], c)
  {
    seq(|t.rows|, i requires 0 <= i < |t.rows| => Cell(t.rows[i], c))
  }

  /** `dt.normalize()`: the same day at midnight; other values unchanged. */
  function Normalize(v: Value): (r: Value)
    ensures r.DateTimeV? <==> v.DateTimeV?
    ensures r.DateTimeV? ==> r.date == v.date && r.secs == 0
    ensures !v.DateTimeV? ==> r == v
  {
    if v.DateTimeV? then DateTimeV(v.date, 0) else v
  }

  /** `to_datetime(errors="coerce")` on one value: a timestamp stays, text is read as a
      timestamp, anything else (and unreadable text) becomes null. */
  function ToDatetime(v: Value): (r: Value)
    ensures r.Null? || r.DateTimeV?
    ensures v.DateTimeV? ==> r == v
    ensures v.TextV? && ParseDateTimeText(v.s).Some? ==> r == ParseDateTimeText(v.s).value
  {
    match v
    case DateTimeV(_, _) => v
    case TextV(s) => (match ParseDateTimeText(s) case Some(ts) => ts case None => Null)
    case _ => Null
  }

  // ---------------------------------------------------------------------------
  // Grouping rows by calendar day
  // ---------------------------------------------------------------------------

  /** `strftime("%Y-%m-%d")` of a cell; null for anything but a timestamp. */
  function DayString(v: Value): Option<string> {
    if v.DateTimeV? then Some(FormatDate(v.date)) else None
  }

  predicate StrictlySorted(xs: seq<string>) {
    forall i, j :: 0 <= i < j < |xs| ==> StrCmp(xs[i], xs[j]) < 0
  }

  lemma StrLtTransitive(a: string, b: string, c: string)
    requires StrCmp(a, b) < 0 && StrCmp(b, c) < 0
    ensures StrCmp(a, c) < 0
  {
    StrCmpTransitive(a, b, c);
    StrCmpEqual(a, c);
    if a == c {
      StrCmpAntisymmetric(a, b);
    }
  }

  lemma StrictlySortedDistinct(xs: seq<string>, i: nat, j: nat)
    requires StrictlySorted(xs) && i < j < |xs|
    ensures xs[i] != xs[j]
  {
    StrCmpEqual(xs[i], xs[j]);
  }

  /** Adds `x` to a strictly sorted list of strings, keeping it strictly sorted. */
  function InsertSorted(xs: seq<string>, x: string): (r: seq<string>)
    requires StrictlySorted(xs)
    ensures StrictlySorted(r)
    ensures forall y :: y in r <==> y in xs || y == x
  {
    if xs == [] then [x]
    else if StrCmp(x, xs[0]) < 0 then
      assert forall j :: 0 < j < |xs| ==> StrCmp(x, xs[j]) < 0 by {
        forall j | 0 < j < |xs| ensures StrCmp(x, xs[j]) < 0 {
          StrLtTransitive(x, xs[0], xs[j]);
        }
      }
      [x] + xs
    else if x == xs[0] then xs
    else
      var rest := InsertSorted(xs[1..], x);
      assert StrCmp(xs[0], x) < 0 by {
        StrCmpAntisymmetric(x, xs[0]);
        StrCmpEqual(x, xs[0]);
      }
      assert forall y :: y in rest ==> StrCmp(xs[0], y) < 0;
      [xs[0]] + rest
  }

  /** The distinct day strings of column `c` in the rows, ascending. */
  function DaysOf(rows: seq<Row>, c: string): (days: seq<string>)
    ensures StrictlySorted(days)
  {
    if rows == [] then []
    else
      var prior := DaysOf(rows[..|rows| - 1], c);
      var last := DayString(Cell(rows[|rows| - 1], c));
      if last.Some? then InsertSorted(prior, last.value) else prior
  }

  predicate DayOccurs(rows: seq<Row>, c: string, s: string) {
    exists i :: 0 <= i < |rows| && DayString(Cell(rows[i], c)) == Some(s)
  }

  /** The distinct days of all rows but the last, and the last row's day. */
  lemma DaysOfLast(rows: seq<Row>, c: string, s: string)
    requires rows != []
    ensures var last := DayString(Cell(rows[|rows| - 1], c));
      s in DaysOf(rows, c) <==> s in DaysOf(rows[..|rows| - 1], c) || last == Some(s)
  {
  }

  /** A day occurs in the rows iff it occurs in all rows but the last or in the last. */
  lemma DayOccursLast(rows: seq<Row>, c: string, s: string)
    requires rows != []
    ensures var last := DayString(Cell(rows[|rows| - 1], c));
      DayOccurs(rows, c, s) <==> DayOccurs(rows[..|rows| - 1], c, s) || last == Some(s)
  {
    var init := rows[..|rows| - 1];
    if DayOccurs(init, c, s) {
      var i :| 0 <= i < |init| && DayString(Cell(init[i], c)) == Some(s);
      assert rows[i] == init[i];
    }
    if DayOccurs(rows, c, s) {
      var i :| 0 <= i < |rows| && DayString(Cell(rows[i], c)) == Some(s);
      if i < |init| {
        assert init[i] == rows[i];
      }
    }
  }

  lemma {:induction false} DaysOfMembers(rows: seq<Row>, c: string, s: string)
    ensures s in DaysOf(rows, c) <==> DayOccurs(rows, c, s)
  {
    if rows != [] {
      DaysOfMembers(rows[..|rows| - 1], c, s);
      DaysOfLast(rows, c, s);
      DayOccursLast(rows, c, s);
    }
  }

  /** The groups `groupby` forms on the day text of column `c`: one per distinct day
      of a timestamp cell, in ascending text order. Rows whose cell is null form no
      group. */
  function PartitionDays(t: Table, c: string): (days: seq<string>)
    ensures StrictlySorted(days)
    ensures forall s :: s in days <==> DayOccurs(t.rows, c, s)
  {
    forall s ensures s in DaysOf(t.rows, c) <==> DayOccurs(t.rows, c, s) {
      DaysOfMembers(t.rows, c, s);
    }
    DaysOf(t.rows, c)
  }

  /** The rows of one day group, in table order, with the table's columns. */
  function RowsOfDay(rows: seq<Row>, c: string, day: string): (r: seq<Row>)
    ensures |r| <= |rows|
    ensures forall k :: 0 <= k < |r| ==> r[k] in rows && DayString(Cell(r[k], c)) == Some(day)
    ensures forall k :: 0 <= k < |rows| && DayString(Cell(rows[k], c)) == Some(day) ==> rows[k] in r
  {
    if rows == [] then []
    else
      var rest := RowsOfDay(rows[1..], c, day);
      assert forall k :: 1 <= k < |rows| ==> rows[k] == rows[1..][k - 1];
      if DayString(Cell(rows[0], c)) == Some(day) then [rows[0]] + rest else rest
  }

  /** Which rows belong to the group of `day`. */
  function DayMask(rows: seq<Row>, c: string, day: string): (m: seq<bool>)
    ensures |m| == |rows| && forall j :: 0 <= j < |rows| ==> (m[j] <==> DayString(Cell(rows[j], c)) == Some(day))
  {
    seq(|rows|, j requires 0 <= j < |rows| => DayString(Cell(rows[j], c)) == Some(day))
  }

  /** A day group is the rows of that day, in table order. */
  lemma {:induction false} RowsOfDayInOrder(rows: seq<Row>, c: string, day: string)
    ensures Selects(RowsOfDay(rows, c, day), rows, DayMask(rows, c, day))
  {
    if rows == [] {
      SelectsNothing(rows, DayMask(rows, c, day));
    } else {
      RowsOfDayInOrder(rows[1..], c, day);
      assert DayMask(rows, c, day)[1..] == DayMask(rows[1..], c, day) by {
        forall j | 0 <= j < |rows| - 1 ensures DayMask(rows, c, day)[1..][j] == DayMask(rows[1..], c, day)[j] {
          assert rows[1..][j] == rows[j + 1];
        }
      }
      SelectsStep(RowsOfDay(rows[1..], c, day), rows, DayMask(rows, c, day));
    }
  }

  function PartitionTable(t: Table, c: string, day: string): (p: Table)
    ensures p.dtypes == t.dtypes
  {
    Table(t.dtypes, RowsOfDay(t.rows, c, day))
  }

  /** A day that labels a group has at least one row in it. */
  lemma PartitionNonEmpty(t: Table, c: string, day: string)
    requires day in PartitionDays(t, c)
    ensures |PartitionTable(t, c, day).rows| > 0
  {
    assert DayOccurs(t.rows, c, day);
    var i :| 0 <= i < |t.rows| && DayString(Cell(t.rows[i], c)) == Some(day);
    assert t.rows[i] in RowsOfDay(t.rows, c, day);
  }
}

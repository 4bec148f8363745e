/** The three CSV logs each calibration trial appends to (`<model>_Metric_`,
    `<model>_Obs_` and `<model>_Sim_<suffix>.csv`). A file is opened for
    appending; when it did not exist, a header line is written first. Every
    number is written as `'%0.<d>f' % v`, which here is the value v rounded to
    d decimals, so a line is kept as its numbers rather than as text. */
module TrialLogs {
  import opened Numeric

  /** A line of a log: the header, or one row of numbers. */
  datatype Line = Header(names: seq<string>) | Row(cells: seq<real>)

  /** The row lines for the given rows, in order. */
  function RowLines(rows: seq<seq<real>>): (ls: seq<Line>)
    ensures |ls| == |rows|
    ensures forall i :: 0 <= i < |rows| ==> ls[i] == Row(rows[i])
  {
    seq(|rows|, i requires 0 <= i < |rows| => Row(rows[i]))
  }

  /** What one append writes: the header only when the file did not exist,
      then the rows. */
  function Appended(existed: bool, header: seq<string>, rows: seq<seq<real>>): seq<Line> {
    (if existed then [] else [Header(header)]) + RowLines(rows)
  }

  /** The one-column rows `'%0.2f' % v` of a sequence of values, one row per value. */
  function ColumnRows(values: seq<real>): (rows: seq<seq<real>>)
    ensures |rows| == |values|
    ensures forall i :: 0 <= i < |values| ==> rows[i] == [Round(values[i], 2)]
  {
    seq(|values|, i requires 0 <= i < |values| => [Round(values[i], 2)])
  }

  /** The rows of a log, without its header: what `np.loadtxt(..., skiprows=1)`
      reads back. */
  function Rows(lines: seq<Line>): (rows: seq<seq<real>>)
    ensures |rows| <= |lines|
  {
    if |lines| == 0 then []
    else (if lines[0].Row? then [lines[0].cells] else []) + Rows(lines[1..])
  }

  /** The values of a one-column log, read back in order. */
  function Column(rows: seq<seq<real>>): (values: seq<real>)
    ensures |values| == |rows|
  {
    if |rows| == 0 then []
    else [if |rows[0]| > 0 then rows[0][0] else 0.0] + Column(rows[1..])
  }

  /** A log whose first line is its only header. */
  predicate WellFormedLog(existing: bool, lines: seq<Line>) {
    (!existing ==> lines == []) &&
    (existing ==> |lines| > 0 && lines[0].Header?) &&
    (forall i :: 1 <= i < |lines| ==> lines[i].Row?)
  }

  /** Reading rows back distributes over appends. */
  lemma {:induction false} RowsConcat(a: seq<Line>, b: seq<Line>)
    ensures Rows(a + b) == Rows(a) + Rows(b)
  {
    if |a| == 0 {
      assert a + b == b;
    } else {
      assert (a + b)[0] == a[0];
      assert (a + b)[1..] == a[1..] + b;
      RowsConcat(a[1..], b);
    }
  }

  lemma {:induction false} RowsOfRowLines(rows: seq<seq<real>>)
    ensures Rows(RowLines(rows)) == rows
  {
    if |rows| > 0 {
      assert RowLines(rows)[1..] == RowLines(rows[1..]);
      RowsOfRowLines(rows[1..]);
      assert rows == [rows[0]] + rows[1..];
    }
  }

  /** An append adds exactly its rows to what is read back: earlier rows are
      kept, and the header, written or not, is never read as a row. */
  lemma RowsAfterAppend(lines: seq<Line>, existed: bool, header: seq<string>, rows: seq<seq<real>>)
    ensures Rows(lines + Appended(existed, header, rows)) == Rows(lines) + rows
  {
    var head := HeaderLines(existed, header);
    RowsConcat(lines, head + RowLines(rows));
    RowsConcat(head, RowLines(rows));
    RowsOfRowLines(rows);
  }

  /** The header part of an append, which holds no row. */
  function HeaderLines(existed: bool, header: seq<string>): (head: seq<Line>)
    ensures forall rows :: Appended(existed, header, rows) == head + RowLines(rows)
    ensures Rows(head) == []
  {
    if existed then [] else [Header(header)]
  }

  /** A column written with `'%0.2f'` reads back as the rounded values. */
  lemma {:induction false} ColumnRowsBack(values: seq<real>)
    ensures Column(ColumnRows(values)) == seq(|values|, i requires 0 <= i < |values| => Round(values[i], 2))
  {
    if |values| > 0 {
      assert ColumnRows(values)[1..] == ColumnRows(values[1..]);
      ColumnRowsBack(values[1..]);
    }
  }

  lemma {:induction false} ColumnConcat(a: seq<seq<real>>, b: seq<seq<real>>)
    ensures Column(a + b) == Column(a) + Column(b)
  {
    if |a| == 0 {
      assert a + b == b;
    } else {
      assert (a + b)[0] == a[0];
      assert (a + b)[1..] == a[1..] + b;
      ColumnConcat(a[1..], b);
    }
  }

  /** Appending keeps the log well formed: there is never a second header. */
  lemma AppendKeepsWellFormed(existing: bool, lines: seq<Line>, header: seq<string>, rows: seq<seq<real>>)
    requires WellFormedLog(existing, lines)
    ensures WellFormedLog(true, lines + Appended(existing, header, rows))
  {
    var added := Appended(existing, header, rows);
    var all := lines + added;
    forall i | 1 <= i < |all| ensures all[i].Row? {
      if i >= |lines| {
        if existing {
          assert all[i] == RowLines(rows)[i - |lines|];
        } else {
          assert lines == [];
          assert all[i] == RowLines(rows)[i - 1];
        }
      }
    }
  }

  /** One log file: whether it is on disk and the lines it holds. */
  class LogFile {
    var onDisk: bool
    var lines: seq<Line>

    ghost predicate Valid()
      reads this
    {
      WellFormedLog(onDisk, lines)
    }

    /** A file that is not on disk yet. */
    constructor ()
      ensures Valid() && !onDisk && lines == []
    {
      onDisk := false;
      lines := [];
    }

    /** `open(path, 'a')`: the header when the file did not exist, then one row. */
    method AppendRow(header: seq<string>, cells: seq<real>)
      requires Valid()
      modifies this
      ensures Valid() && onDisk
      ensures lines == old(lines) + Appended(old(onDisk), header, [cells])
    {
      AppendKeepsWellFormed(onDisk, lines, header, [cells]);
      if !onDisk {
        lines := lines + [Header(header)];
      }
      lines := lines + [Row(cells)];
      onDisk := true;
      assert RowLines([cells]) == [Row(cells)];
    }

    /** `open(path, 'a')`: the header when the file did not exist, then
        `for ii in range(0, len(values))` one line `'%0.2f' % values[ii]`. */
    method AppendColumn(header: seq<string>, values: seq<real>)
      requires Valid()
      modifies this
      ensures Valid() && onDisk
      ensures lines == old(lines) + Appended(old(onDisk), header, ColumnRows(values))
    {
      AppendKeepsWellFormed(onDisk, lines, header, ColumnRows(values));
      ghost var start := lines + (if onDisk then [] else [Header(header)]);
      if !onDisk {
        lines := lines + [Header(header)];
      }
      onDisk := true;
      var ii := 0;
      while ii < |values|
        invariant 0 <= ii <= |values|
        invariant onDisk
        invariant lines == start + RowLines(ColumnRows(values)[..ii])
      {
        assert RowLines(ColumnRows(values)[..ii + 1]) == RowLines(ColumnRows(values)[..ii]) + [Row([Round(values[ii], 2)])];
        lines := lines + [Row([Round(values[ii], 2)])];
        ii := ii + 1;
      }
      assert ColumnRows(values)[..ii] == ColumnRows(values);
    }
  }
}

/** The exporter of backend/repofind/ml_data_convertor.py: one database row per labelled
    commit becomes a fixed 29-column record of features followed by the status label. */
module FeatureRows {
  import opened Text
  import J = Json

  /** Only commits whose cached status is one of these become training rows. */
  const Statuses: seq<string> := ["paid_out", "too_easy"]

  const CsvColumns: seq<string> := [
    "habitate_score", "difficulty_score", "suitability_score",
    "repo_id", "file_changes", "additions", "deletions", "net_change",
    "test_additions", "non_test_additions", "is_merge",
    "has_dependency_changes", "test_coverage_score", "is_behavior_preserving_refactor",
    "commit_month", "commit_dow",
    "multi_file", "cross_directory", "many_directories", "has_core_files",
    "large_single_file", "multiple_high_additions", "directory_count",
    "test_file_count", "non_test_file_count", "single_file_200plus", "multi_file_300plus",
    "has_test_changes",
    "status"
  ]

  lemma CsvColumnsShape()
    ensures |CsvColumns| == 29 && CsvColumns[28] == "status"
    ensures "status" !in CsvColumns[..28]
  {
  }

  type Month = m: int | 1 <= m <= 12 witness 1
  type Weekday = d: int | 0 <= d <= 6 witness 0

  datatype CalendarDate = CalendarDate(month: Month, weekday: Weekday)

  /** A value as the database driver returns it: NULL, an integer, a decimal or float, text
      (JSON columns arrive as text) or a date-time with its month and weekday (Monday = 0). */
  datatype SqlValue =
    | SqlNull
    | SqlInt(i: int)
    | SqlReal(r: real)
    | SqlText(s: string)
    | SqlDate(date: CalendarDate)

  predicate Truthy(v: SqlValue) {
    match v
    case SqlNull => false
    case SqlInt(i) => i != 0
    case SqlReal(r) => r != 0.0
    case SqlText(s) => s != ""
    case SqlDate(_) => true
  }

  /** `v if v is not None else 0`. */
  function OrZero(v: SqlValue): (r: SqlValue)
    ensures v.SqlNull? ==> r == SqlInt(0)
    ensures !v.SqlNull? ==> r == v
  {
    if v.SqlNull? then SqlInt(0) else v
  }

  /** `float(v) if v is not None else 0.0`; None where `float` raises (a date, non-numeric text). */
  function FloatOrZero(v: SqlValue): (r: Option<SqlValue>)
    ensures r.Some? ==> r.value.SqlReal?
    ensures v.SqlNull? ==> r == Some(SqlReal(0.0))
    ensures v.SqlInt? ==> r == Some(SqlReal(v.i as real))
    ensures v.SqlReal? ==> r == Some(v)
  {
    match v
    case SqlNull => Some(SqlReal(0.0))
    case SqlInt(i) => Some(SqlReal(i as real))
    case SqlReal(x) => Some(SqlReal(x))
    case SqlText(s) => match J.ParseFloat(s) { case Some(x) => Some(SqlReal(x)) case None => None }
    case SqlDate(_) => None
  }

  /** `1 if v else 0`. */
  function Flag(v: SqlValue): (r: SqlValue)
    ensures r == SqlInt(1) || r == SqlInt(0)
    ensures r == SqlInt(1) <==> Truthy(v)
  {
    SqlInt(if Truthy(v) then 1 else 0)
  }

  predicate IsFlag(v: SqlValue) {
    v == SqlInt(0) || v == SqlInt(1)
  }

  // ---------------------------------------------------------------- the commit date

  /** commit_month and commit_dow: a date-time gives its month and weekday; text is cut to
      ten characters and read as `%Y-%m-%d` by `calendar`; anything else, or a failed read,
      gives 0 and 0. A number never reads as a date: its text has no two dashes after digits. */
  function DateCells(v: SqlValue, calendar: string -> Option<CalendarDate>): seq<SqlValue> {
    if !Truthy(v) then [SqlInt(0), SqlInt(0)]
    else
      match v
      case SqlDate(d) => [SqlInt(d.month), SqlInt(d.weekday)]
      case SqlText(s) =>
        (match calendar(if |s| <= 10 then s else s[..10])
         case Some(d) => [SqlInt(d.month), SqlInt(d.weekday)]
         case None => [SqlInt(0), SqlInt(0)])
      case _ => [SqlInt(0), SqlInt(0)]
  }

  /** Month and weekday are both 0, or a month in 1..12 and a weekday in 0..6; an absent date
      gives 0 and 0. */
  lemma DateCellsRange(v: SqlValue, calendar: string -> Option<CalendarDate>)
    ensures var c := DateCells(v, calendar);
      && |c| == 2 && c[0].SqlInt? && c[1].SqlInt?
      && ((c[0].i == 0 && c[1].i == 0) || (1 <= c[0].i <= 12 && 0 <= c[1].i <= 6))
    ensures !Truthy(v) ==> DateCells(v, calendar) == [SqlInt(0), SqlInt(0)]
  {
  }

  // ---------------------------------------------------------------- complexity indicators

  datatype Complexity = Complexity(
    multiFile: int, crossDirectory: int, manyDirectories: int, hasCoreFiles: int,
    largeSingleFile: int, multipleHighAdditions: int, directoryCount: int)

  const NoComplexity := Complexity(0, 0, 0, 0, 0, 0, 0)

  /** `1 if d.get(key) else 0` on a decoded object. */
  function FlagOf(d: map<string, J.Json>, key: string): int {
    if key in d && J.PyTruthy(d[key]) then 1 else 0
  }

  /** _parse_complexity: an empty column gives all zeros; text is decoded by `decode` (None for
      a decode error, read as an empty object); the six flags are truthiness tests and
      directory_count is `int()` of the value unless absent or null. None where Python raises:
      the decoded value is not an object, or directory_count does not convert. */
  function ParseComplexity(js: SqlValue, decode: string -> Option<J.Json>): (r: Option<Complexity>)
    ensures r.Some? ==>
      && 0 <= r.value.multiFile <= 1 && 0 <= r.value.crossDirectory <= 1
      && 0 <= r.value.manyDirectories <= 1 && 0 <= r.value.hasCoreFiles <= 1
      && 0 <= r.value.largeSingleFile <= 1 && 0 <= r.value.multipleHighAdditions <= 1
  {
    if !Truthy(js) then Some(NoComplexity)
    else
      var d := match js
        case SqlText(s) => (match decode(s) { case Some(j) => j case None => J.Obj(map[]) })
        case _ => J.Null;
      match d
      case Obj(m) =>
        var count :=
          if "directory_count" !in m || m["directory_count"].Null? then Some(0)
          else J.PyInt(m["directory_count"]);
        if count.None? then None
        else Some(Complexity(
          FlagOf(m, "multi_file"), FlagOf(m, "cross_directory"), FlagOf(m, "many_directories"),
          FlagOf(m, "has_core_files"), FlagOf(m, "large_single_file"),
          FlagOf(m, "multiple_high_additions"), count.value))
      case _ => None
  }

  /** Empty or undecodable JSON gives all zeros, as does an object without any of the keys. */
  lemma ComplexityDefaults(js: SqlValue, decode: string -> Option<J.Json>)
    ensures !Truthy(js) ==> ParseComplexity(js, decode) == Some(NoComplexity)
    ensures js.SqlText? && js.s != "" && decode(js.s).None? ==> ParseComplexity(js, decode) == Some(NoComplexity)
    ensures js.SqlText? && js.s != "" && decode(js.s) == Some(J.Obj(map[])) ==>
      ParseComplexity(js, decode) == Some(NoComplexity)
  {
  }

  /** A directory count given as a whole number passes through; one given as a float is cut
      toward zero. */
  lemma ComplexityDirectoryCount(s: string, decode: string -> Option<J.Json>, m: map<string, J.Json>, x: real)
    requires s != "" && decode(s) == Some(J.Obj(m))
    requires "directory_count" in m && m["directory_count"] == J.Num(x)
    ensures ParseComplexity(SqlText(s), decode).Some?
    ensures ParseComplexity(SqlText(s), decode).value.directoryCount == J.Truncate(x)
  {
  }

  function ComplexityCells(c: Complexity): seq<SqlValue> {
    [SqlInt(c.multiFile), SqlInt(c.crossDirectory), SqlInt(c.manyDirectories),
     SqlInt(c.hasCoreFiles), SqlInt(c.largeSingleFile), SqlInt(c.multipleHighAdditions),
     SqlInt(c.directoryCount)]
  }

  // ---------------------------------------------------------------- test changes and status

  /** `(v or 0) if v is not None else 0`, as a number; None when it is not one (Python's
      addition then raises). */
  function CountOf(v: SqlValue): Option<real> {
    if !Truthy(v) then Some(0.0)
    else
      match v
      case SqlInt(i) => Some(i as real)
      case SqlReal(x) => Some(x)
      case _ => None
  }

  /** `v or ''`. */
  function StatusOf(v: SqlValue): SqlValue {
    if Truthy(v) then v else SqlText("")
  }

  /** has_test_changes and status: with the test-analysis join, 1 iff added + modified + removed
      is positive and the status at column 19; without it, 0 and the status at column 16. */
  function TestTail(row: seq<SqlValue>, usedTestAnalysis: bool): Option<seq<SqlValue>>
    requires |row| == RowWidth(usedTestAnalysis)
  {
    if usedTestAnalysis then
      var added, modified, removed := CountOf(row[16]), CountOf(row[17]), CountOf(row[18]);
      if added.None? || modified.None? || removed.None? then None
      else
        var changes := if added.value + modified.value + removed.value > 0.0 then 1 else 0;
        Some([SqlInt(changes), StatusOf(row[19])])
    else Some([SqlInt(0), StatusOf(row[16])])
  }

  /** The query with the test-analysis join selects 20 columns, the one without it 17. */
  function RowWidth(usedTestAnalysis: bool): nat {
    if usedTestAnalysis then 20 else 17
  }

  // ---------------------------------------------------------------- the whole record

  function ScoreCells(row: seq<SqlValue>): Option<seq<SqlValue>>
    requires |row| >= 4
  {
    var d, s := FloatOrZero(row[1]), FloatOrZero(row[2]);
    if d.None? || s.None? then None else Some([OrZero(row[0]), d.value, s.value, OrZero(row[3])])
  }

  function StatCells(row: seq<SqlValue>): seq<SqlValue>
    requires |row| >= 10
  {
    seq(6, k requires 0 <= k < 6 => OrZero(row[4 + k]))
  }

  function FlagCells(row: seq<SqlValue>): Option<seq<SqlValue>>
    requires |row| >= 14
  {
    var coverage := FloatOrZero(row[12]);
    if coverage.None? then None
    else Some([Flag(row[10]), Flag(row[11]), coverage.value, Flag(row[13])])
  }

  const Placeholders: seq<SqlValue> := [SqlInt(0), SqlInt(0), SqlInt(0), SqlInt(0)]

  /** The record's columns in order: four scores and ids, six counts, four flag and coverage
      columns, the date pair, seven complexity indicators, four placeholders, the test-change
      flag and the status. */
  function Record(scores: seq<SqlValue>, stats: seq<SqlValue>, flags: seq<SqlValue>,
                  date: seq<SqlValue>, complexity: Complexity, tail: seq<SqlValue>): seq<SqlValue> {
    scores + stats + flags + date + ComplexityCells(complexity) + Placeholders + tail
  }

  /** Where each group sits in the record. */
  lemma RecordLayout(scores: seq<SqlValue>, stats: seq<SqlValue>, flags: seq<SqlValue>,
                     date: seq<SqlValue>, complexity: Complexity, tail: seq<SqlValue>)
    requires |scores| == 4 && |stats| == 6 && |flags| == 4 && |date| == 2 && |tail| == 2
    ensures var r := Record(scores, stats, flags, date, complexity, tail);
      && |r| == 29
      && r[..4] == scores && r[4..10] == stats && r[10..14] == flags && r[14..16] == date
      && r[16..23] == ComplexityCells(complexity) && r[23..27] == Placeholders && r[27..] == tail
  {
    var r := Record(scores, stats, flags, date, complexity, tail);
    var a := scores + stats + flags + date;
    var b := a + ComplexityCells(complexity) + Placeholders;
    assert r == b + tail;
    assert b[..23] == a + ComplexityCells(complexity);
    assert a[..14] == scores + stats + flags;
    assert (scores + stats)[..4] == scores;
  }

  /** _row_to_csv_row: the record, or None when a conversion raises. */
  function CsvRow(row: seq<SqlValue>, usedTestAnalysis: bool,
                  decode: string -> Option<J.Json>, calendar: string -> Option<CalendarDate>)
    : (r: Option<seq<SqlValue>>)
    requires |row| == RowWidth(usedTestAnalysis)
    ensures r.Some? <==>
      ScoreCells(row).Some? && FlagCells(row).Some? && ParseComplexity(row[15], decode).Some?
      && TestTail(row, usedTestAnalysis).Some?
  {
    var scores := ScoreCells(row);
    var flags := FlagCells(row);
    var complexity := ParseComplexity(row[15], decode);
    var tail := TestTail(row, usedTestAnalysis);
    if scores.None? || flags.None? || complexity.None? || tail.None? then None
    else Some(Record(scores.value, StatCells(row), flags.value, DateCells(row[14], calendar),
                     complexity.value, tail.value))
  }

  /** The record's column groups, each computed from its own columns of the row. */
  lemma CsvRowLayout(row: seq<SqlValue>, usedTestAnalysis: bool,
                     decode: string -> Option<J.Json>, calendar: string -> Option<CalendarDate>)
    requires |row| == RowWidth(usedTestAnalysis)
    requires CsvRow(row, usedTestAnalysis, decode, calendar).Some?
    ensures var r := CsvRow(row, usedTestAnalysis, decode, calendar).value;
      && |r| == 29 && |r| == |CsvColumns|
      && r[..4] == ScoreCells(row).value && r[4..10] == StatCells(row)
      && r[10..14] == FlagCells(row).value && r[14..16] == DateCells(row[14], calendar)
      && r[16..23] == ComplexityCells(ParseComplexity(row[15], decode).value)
      && r[23..27] == Placeholders && r[27..] == TestTail(row, usedTestAnalysis).value
  {
    DateCellsRange(row[14], calendar);
    RecordLayout(ScoreCells(row).value, StatCells(row), FlagCells(row).value,
                 DateCells(row[14], calendar), ParseComplexity(row[15], decode).value,
                 TestTail(row, usedTestAnalysis).value);
  }

  /** NULL scores, ids and counts read as 0 in the first ten columns. */
  lemma LeadingColumns(row: seq<SqlValue>, usedTestAnalysis: bool,
                       decode: string -> Option<J.Json>, calendar: string -> Option<CalendarDate>)
    requires |row| == RowWidth(usedTestAnalysis)
    requires CsvRow(row, usedTestAnalysis, decode, calendar).Some?
    ensures var r := CsvRow(row, usedTestAnalysis, decode, calendar).value;
      && |r| == 29
      && (forall k :: 0 <= k < 10 && k != 1 && k != 2 ==> r[k] == OrZero(row[k]))
      && r[1].SqlReal? && r[2].SqlReal?
      && (row[1].SqlNull? ==> r[1] == SqlReal(0.0)) && (row[2].SqlNull? ==> r[2] == SqlReal(0.0))
  {
    CsvRowLayout(row, usedTestAnalysis, decode, calendar);
    var r := CsvRow(row, usedTestAnalysis, decode, calendar).value;
    var scores, stats := ScoreCells(row).value, StatCells(row);
    assert forall k :: 0 <= k < 4 ==> r[k] == scores[k] by {
      assert r[..4] == scores;
    }
    assert forall k :: 4 <= k < 10 ==> r[k] == stats[k - 4] by {
      assert r[4..10] == stats;
    }
  }

  /** The flag columns are 0 or 1, the four file-statistics placeholders are always 0 and the
      status is the row's last column in both query shapes, or "" when that is empty. */
  lemma TrailingColumns(row: seq<SqlValue>, usedTestAnalysis: bool,
                        decode: string -> Option<J.Json>, calendar: string -> Option<CalendarDate>)
    requires |row| == RowWidth(usedTestAnalysis)
    requires CsvRow(row, usedTestAnalysis, decode, calendar).Some?
    ensures var r := CsvRow(row, usedTestAnalysis, decode, calendar).value;
      && |r| == 29
      && IsFlag(r[10]) && IsFlag(r[11]) && r[12].SqlReal? && IsFlag(r[13])
      && r[23] == SqlInt(0) && r[24] == SqlInt(0) && r[25] == SqlInt(0) && r[26] == SqlInt(0)
      && IsFlag(r[27])
      && r[28] == StatusOf(row[|row| - 1])
  {
    CsvRowLayout(row, usedTestAnalysis, decode, calendar);
    var r := CsvRow(row, usedTestAnalysis, decode, calendar).value;
    var flags, tail := FlagCells(row).value, TestTail(row, usedTestAnalysis).value;
    assert r[10] == flags[0] && r[11] == flags[1] && r[12] == flags[2] && r[13] == flags[3] by {
      assert r[10..14] == flags;
    }
    assert r[23] == Placeholders[0] && r[24] == Placeholders[1] && r[25] == Placeholders[2] && r[26] == Placeholders[3] by {
      assert r[23..27] == Placeholders;
    }
    assert r[27] == tail[0] && r[28] == tail[1] by {
      assert r[27..] == tail;
    }
  }

  /** Column 27: with the join, 1 exactly when some test files were added, modified or removed;
      without it, always 0. */
  lemma HasTestChangesColumn(row: seq<SqlValue>, usedTestAnalysis: bool,
                             decode: string -> Option<J.Json>, calendar: string -> Option<CalendarDate>)
    requires |row| == RowWidth(usedTestAnalysis)
    requires CsvRow(row, usedTestAnalysis, decode, calendar).Some?
    ensures var r := CsvRow(row, usedTestAnalysis, decode, calendar).value;
      && |r| == 29
      && (!usedTestAnalysis ==> r[27] == SqlInt(0))
      && (usedTestAnalysis ==>
            (r[27] == SqlInt(1) <==>
               CountOf(row[16]).value + CountOf(row[17]).value + CountOf(row[18]).value > 0.0))
  {
    CsvRowLayout(row, usedTestAnalysis, decode, calendar);
    var r := CsvRow(row, usedTestAnalysis, decode, calendar).value;
    var tail := TestTail(row, usedTestAnalysis).value;
    assert r[27] == tail[0] by {
      assert r[27..] == tail;
    }
  }

  /** Columns 14-22 are the date pair and the complexity indicators; the six indicator flags
      are 0 or 1. */
  lemma DateAndComplexityColumns(row: seq<SqlValue>, usedTestAnalysis: bool,
                                 decode: string -> Option<J.Json>, calendar: string -> Option<CalendarDate>)
    requires |row| == RowWidth(usedTestAnalysis)
    requires CsvRow(row, usedTestAnalysis, decode, calendar).Some?
    ensures var r := CsvRow(row, usedTestAnalysis, decode, calendar).value;
      && |r| == 29
      && r[14..16] == DateCells(row[14], calendar)
      && r[16..23] == ComplexityCells(ParseComplexity(row[15], decode).value)
      && (forall k :: 16 <= k < 22 ==> IsFlag(r[k]))
  {
    CsvRowLayout(row, usedTestAnalysis, decode, calendar);
    var r := CsvRow(row, usedTestAnalysis, decode, calendar).value;
    var cells := ComplexityCells(ParseComplexity(row[15], decode).value);
    assert forall k :: 16 <= k < 23 ==> r[k] == cells[k - 16] by {
      assert r[16..23] == cells;
    }
    assert forall k :: 0 <= k < 6 ==> IsFlag(cells[k]);
  }

  /** The converter keeps, for the query shape last selected, whether the test-analysis join
      was used; the module-level flag starts out true. */
  class Converter {
    var usedTestAnalysis: bool

    constructor()
      ensures usedTestAnalysis
    {
      usedTestAnalysis := true;
    }

    /** fetch_ml_data's choice of query: the join is used when its query succeeds; when it fails
        with a missing-table or missing-column error the plain query is used; any other error
        propagates (false) and leaves the flag alone. */
    method SelectQuery(joinSucceeded: bool, error: string) returns (ok: bool)
      modifies this
      ensures ok <==> joinSucceeded || MissingTestAnalysis(error)
      ensures ok ==> usedTestAnalysis == joinSucceeded
      ensures !ok ==> usedTestAnalysis == old(usedTestAnalysis)
    {
      if joinSucceeded {
        usedTestAnalysis := true;
        return true;
      }
      if MissingTestAnalysis(error) {
        usedTestAnalysis := false;
        return true;
      }
      return false;
    }

    /** _row_to_csv_row: appends the columns one by one; None when a conversion raises. */
    method RowToCsvRow(row: seq<SqlValue>, decode: string -> Option<J.Json>,
                       calendar: string -> Option<CalendarDate>)
      returns (out: Option<seq<SqlValue>>)
      requires |row| == RowWidth(usedTestAnalysis)
      ensures out == CsvRow(row, usedTestAnalysis, decode, calendar)
    {
      var scores := ScoreCells(row);
      if scores.None? {
        return None;
      }
      var cells := scores.value;
      for i := 4 to 10
        invariant cells == scores.value + StatCells(row)[..i - 4]
      {
        cells := cells + [OrZero(row[i])];
      }
      assert StatCells(row)[..6] == StatCells(row);
      var flags := FlagCells(row);
      if flags.None? {
        return None;
      }
      cells := cells + flags.value + DateCells(row[14], calendar);
      var complexity := ParseComplexity(row[15], decode);
      if complexity.None? {
        return None;
      }
      cells := cells + ComplexityCells(complexity.value) + Placeholders;
      var tail := TestTail(row, usedTestAnalysis);
      if tail.None? {
        return None;
      }
      out := Some(cells + tail.value);
    }
  }

  /** The database error texts that make fetch_ml_data fall back to the query without the
      test-analysis join, searched in the lower-cased message. */
  predicate MissingTestAnalysis(error: string) {
    || ContainsIgnoreCase(error, "commit_test_analysis")
    || ContainsIgnoreCase(error, "test_files_added")
    || ContainsIgnoreCase(error, "42s22")
    || ContainsIgnoreCase(error, "1054")
  }
}

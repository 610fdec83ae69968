/** The `git show --numstat` reader of get_file_statistics
    (backend/repofind/fetch_commits.py): one record per changed file. */
module Numstat {
  import opened Text
  import opened FileClassifier

  /** One changed file of a commit, derived from its path and its two line counts. */
  datatype FileStat = FileStat(
    path: string,
    name: string,
    directory: Option<string>,
    additions: nat,
    deletions: nat,
    isTest: bool,
    isDependency: bool,
    extension: Option<string>)

  /** A count column: '-' (a binary file) reads as 0, a run of digits as its value. git's
      numstat writes only digits or '-'; other text is read as unparsable. */
  function ParseCount(field: string): Option<nat> {
    if field == "-" then Some(0) else ParseNat(field)
  }

  /** `os.path.splitext(name)[1][1:]` when the name holds a dot: the text after the last dot,
      or "" when only dots precede it (".bashrc"); None when the name has no dot. */
  function Extension(name: string): Option<string> {
    if '.' !in name then None
    else
      var ext := AfterLast(name, '.');
      var stem := name[..|name| - |ext| - 1];
      if AllChar(stem, '.') then Some("") else Some(ext)
  }

  function Directory(path: string): Option<string> {
    if Dirname(path) == "" then None else Some(Dirname(path))
  }

  function MakeStat(path: string, additions: nat, deletions: nat): FileStat {
    var name := Basename(path);
    FileStat(path, name, Directory(path), additions, deletions,
             IsTestFile(path), IsDependencyFile(path), Extension(name))
  }

  datatype LineOutcome = Skipped | Parsed(stat: FileStat) | Invalid

  /** One output line: empty lines and lines with fewer than three tab-separated fields are
      skipped; the path is every field from the third on, re-joined with tabs. */
  function ParseLine(line: string): LineOutcome {
    if line == "" then Skipped
    else
      var parts := Split(line, '\t');
      if |parts| < 3 then Skipped
      else
        var a := ParseCount(parts[0]);
        var d := ParseCount(parts[1]);
        if a.None? || d.None? then Invalid
        else Parsed(MakeStat(Join(parts[2..], '\t'), a.value, d.value))
  }

  /** The records of all lines, in order; None when some count does not parse (the
      exception then escapes get_file_statistics and the commit is skipped). */
  function ParseLines(lines: seq<string>): Option<seq<FileStat>>
    decreases |lines|
  {
    if |lines| == 0 then Some([])
    else
      var prev := ParseLines(lines[..|lines| - 1]);
      match ParseLine(lines[|lines| - 1])
      case Skipped => prev
      case Invalid => None
      case Parsed(f) => if prev.None? then None else Some(prev.value + [f])
  }

  function OutputLines(stdout: string): seq<string> {
    Split(Trim(stdout), '\n')
  }

  /** get_file_statistics over the captured output: appends one record per parsed line. */
  method GetFileStatistics(stdout: string) returns (stats: Option<seq<FileStat>>)
    ensures stats == ParseLines(OutputLines(stdout))
  {
    var lines := OutputLines(stdout);
    var acc: seq<FileStat> := [];
    var i := 0;
    while i < |lines|
      invariant 0 <= i <= |lines|
      invariant ParseLines(lines[..i]) == Some(acc)
    {
      var outcome := ParseLine(lines[i]);
      ParseLinesStep(lines, i);
      if outcome.Invalid? {
        ParseLinesInvalidSticks(lines, i);
        return None;
      }
      if outcome.Parsed? {
        acc := acc + [outcome.stat];
      }
      i := i + 1;
    }
    assert lines[..i] == lines;
    stats := Some(acc);
  }

  /** One more line extends the parsed prefix by its record, leaves it alone when skipped, and
      spoils it when invalid. */
  lemma ParseLinesStep(lines: seq<string>, i: nat)
    requires i < |lines|
    ensures ParseLines(lines[..i + 1]) ==
      match ParseLine(lines[i])
      case Skipped => ParseLines(lines[..i])
      case Invalid => None
      case Parsed(f) => if ParseLines(lines[..i]).None? then None else Some(ParseLines(lines[..i]).value + [f])
  {
    assert lines[..i + 1][..i] == lines[..i];
  }

  /** Once a line is invalid, no longer prefix of the output parses. */
  lemma {:induction false} ParseLinesInvalidSticks(lines: seq<string>, i: nat)
    requires i < |lines| && ParseLine(lines[i]).Invalid?
    ensures ParseLines(lines) == None
    decreases |lines|
  {
    if i < |lines| - 1 {
      assert lines[..|lines| - 1][i] == lines[i];
      ParseLinesInvalidSticks(lines[..|lines| - 1], i);
    }
  }

  /** A record built from a path: the name is its basename, no directory means an empty
      dirname, an extension exists exactly when the name holds a dot, and the two flags come
      from the path classifiers. */
  lemma MakeStatFacts(path: string, additions: nat, deletions: nat)
    ensures var f := MakeStat(path, additions, deletions);
      && f.path == path && f.additions == additions && f.deletions == deletions
      && f.name == Basename(path)
      && (f.directory.None? <==> Dirname(path) == "")
      && (f.directory.Some? ==> f.directory.value == Dirname(path))
      && (f.extension.Some? <==> '.' in f.name)
      && f.isTest == IsTestFile(path)
      && f.isDependency == IsDependencyFile(path)
  {
  }

  /** A parsed line is its two count fields, a tab after each, then the record's path
      (which may itself hold tabs); '-' counts read as 0 and digit runs as their value. */
  lemma ParsedLineLayout(line: string)
    requires ParseLine(line).Parsed?
    ensures var f := ParseLine(line).stat;
      var parts := Split(line, '\t');
      && line == parts[0] + "\t" + parts[1] + "\t" + f.path
      && '\t' !in parts[0] && '\t' !in parts[1]
      && ParseCount(parts[0]) == Some(f.additions)
      && ParseCount(parts[1]) == Some(f.deletions)
  {
    SplitThreeLayout(line, '\t');
  }

  /** Text with three or more pieces is its first two pieces, each followed by the separator,
      then the remaining pieces re-joined. */
  lemma SplitThreeLayout(s: string, c: char)
    requires |Split(s, c)| >= 3
    ensures var parts := Split(s, c);
      && s == parts[0] + [c] + parts[1] + [c] + Join(parts[2..], c)
      && c !in parts[0] && c !in parts[1]
  {
    var parts := Split(s, c);
    SplitJoin(s, c);
    assert parts[1..][1..] == parts[2..];
    JoinCons(parts, c);
    JoinCons(parts[1..], c);
  }

  lemma JoinCons(parts: seq<string>, c: char)
    requires |parts| >= 2
    ensures Join(parts, c) == parts[0] + [c] + Join(parts[1..], c)
  {
  }

  /** A line is skipped when empty or short of three fields, and invalid exactly when it
      has three fields and one of the two counts does not read. */
  lemma LineOutcomeCases(line: string)
    ensures line == "" || |Split(line, '\t')| < 3 ==> ParseLine(line) == Skipped
    ensures ParseLine(line).Invalid? <==>
      line != "" && |Split(line, '\t')| >= 3
      && (ParseCount(Split(line, '\t')[0]).None? || ParseCount(Split(line, '\t')[1]).None?)
  {
  }

  /** Every record of a parsed output comes from one of its lines, in order, and a None
      result means some line had an unreadable count. */
  lemma {:induction false} ParseLinesFacts(lines: seq<string>)
    ensures ParseLines(lines).Some? ==>
      |ParseLines(lines).value| <= |lines|
      && forall f :: f in ParseLines(lines).value ==> exists k :: 0 <= k < |lines| && ParseLine(lines[k]) == Parsed(f)
    ensures ParseLines(lines).None? <==> exists k :: 0 <= k < |lines| && ParseLine(lines[k]).Invalid?
    decreases |lines|
  {
    if |lines| > 0 {
      var init := lines[..|lines| - 1];
      ParseLinesFacts(init);
      assert forall k :: 0 <= k < |init| ==> init[k] == lines[k];
      if ParseLines(lines).Some? {
        var out := ParseLines(lines).value;
        forall f | f in out
          ensures exists k :: 0 <= k < |lines| && ParseLine(lines[k]) == Parsed(f)
        {
          if f in ParseLines(init).value {
            var k :| 0 <= k < |init| && ParseLine(init[k]) == Parsed(f);
            assert ParseLine(lines[k]) == Parsed(f);
          } else {
            assert ParseLine(lines[|lines| - 1]) == Parsed(f);
          }
        }
      }
      if exists k :: 0 <= k < |lines| && ParseLine(lines[k]).Invalid? {
        var k :| 0 <= k < |lines| && ParseLine(lines[k]).Invalid?;
        ParseLinesInvalidSticks(lines, k);
      }
    }
  }
}

/** Per-commit analyses of the commit scorer (backend/repofind/fetch_commits.py):
    dependency and test breakdowns, the behaviour-preserving refactor heuristic on the
    commit message, the inline aggregates and the complexity indicators. */
module CommitAnalysis {
  import opened Text
  import opened FileClassifier
  import opened Numstat

  // ---------------------------------------------------------------- file subsets and sums

  function TestFiles(fs: seq<FileStat>): (r: seq<FileStat>)
    ensures |r| <= |fs|
    decreases |fs|
  {
    if |fs| == 0 then []
    else TestFiles(fs[..|fs| - 1]) + (if fs[|fs| - 1].isTest then [fs[|fs| - 1]] else [])
  }

  function NonTestFiles(fs: seq<FileStat>): (r: seq<FileStat>)
    ensures |r| <= |fs|
    decreases |fs|
  {
    if |fs| == 0 then []
    else NonTestFiles(fs[..|fs| - 1]) + (if !fs[|fs| - 1].isTest then [fs[|fs| - 1]] else [])
  }

  function DependencyFiles(fs: seq<FileStat>): (r: seq<FileStat>)
    ensures |r| <= |fs|
    decreases |fs|
  {
    if |fs| == 0 then []
    else DependencyFiles(fs[..|fs| - 1]) + (if fs[|fs| - 1].isDependency then [fs[|fs| - 1]] else [])
  }

  /** The three filters keep exactly the files with their property. */
  lemma {:induction false} FilterMembership(fs: seq<FileStat>)
    ensures forall f :: f in TestFiles(fs) <==> f in fs && f.isTest
    ensures forall f :: f in NonTestFiles(fs) <==> f in fs && !f.isTest
    ensures forall f :: f in DependencyFiles(fs) <==> f in fs && f.isDependency
    decreases |fs|
  {
    if |fs| > 0 {
      var init := fs[..|fs| - 1];
      FilterMembership(init);
      assert fs == init + [fs[|fs| - 1]];
    }
  }

  function SumAdditions(fs: seq<FileStat>): nat
    decreases |fs|
  {
    if |fs| == 0 then 0 else SumAdditions(fs[..|fs| - 1]) + fs[|fs| - 1].additions
  }

  function SumDeletions(fs: seq<FileStat>): nat
    decreases |fs|
  {
    if |fs| == 0 then 0 else SumDeletions(fs[..|fs| - 1]) + fs[|fs| - 1].deletions
  }

  /** Test and non-test files partition a commit: their counts, additions and deletions add up
      to the commit's. */
  lemma {:induction false} Partition(fs: seq<FileStat>)
    ensures |TestFiles(fs)| + |NonTestFiles(fs)| == |fs|
    ensures SumAdditions(TestFiles(fs)) + SumAdditions(NonTestFiles(fs)) == SumAdditions(fs)
    ensures SumDeletions(TestFiles(fs)) + SumDeletions(NonTestFiles(fs)) == SumDeletions(fs)
    decreases |fs|
  {
    if |fs| > 0 {
      var init := fs[..|fs| - 1];
      var last := fs[|fs| - 1];
      Partition(init);
      if last.isTest {
        SumsAppend(TestFiles(init), last);
        assert TestFiles(fs) == TestFiles(init) + [last];
        assert NonTestFiles(fs) == NonTestFiles(init) + [];
        assert NonTestFiles(init) + [] == NonTestFiles(init);
      } else {
        SumsAppend(NonTestFiles(init), last);
        assert NonTestFiles(fs) == NonTestFiles(init) + [last];
        assert TestFiles(fs) == TestFiles(init) + [];
        assert TestFiles(init) + [] == TestFiles(init);
      }
    }
  }

  lemma SumsAppend(fs: seq<FileStat>, f: FileStat)
    ensures SumAdditions(fs + [f]) == SumAdditions(fs) + f.additions
    ensures SumDeletions(fs + [f]) == SumDeletions(fs) + f.deletions
  {
    assert (fs + [f])[..|fs|] == fs;
  }

  /** Every file's additions are part of the sum. */
  lemma {:induction false} SumAdditionsBoundsEach(fs: seq<FileStat>, i: nat)
    requires i < |fs|
    ensures fs[i].additions <= SumAdditions(fs)
    decreases |fs|
  {
    if i < |fs| - 1 {
      assert fs[..|fs| - 1][i] == fs[i];
      SumAdditionsBoundsEach(fs[..|fs| - 1], i);
    }
  }

  function Paths(fs: seq<FileStat>): (r: seq<string>)
    ensures |r| == |fs| && forall i :: 0 <= i < |fs| ==> r[i] == fs[i].path
  {
    seq(|fs|, i requires 0 <= i < |fs| => fs[i].path)
  }

  // ---------------------------------------------------------------- analyze_dependencies

  /** The ecosystem recorded for a dependency change; the stored names are `Name()`. */
  datatype DependencyType = PackageJson | GoMod | RequirementsTxt | PomXml | CargoToml | Other
  {
    function Name(): string {
      match this
      case PackageJson => "package_json"
      case GoMod => "go_mod"
      case RequirementsTxt => "requirements_txt"
      case PomXml => "pom_xml"
      case CargoToml => "cargo_toml"
      case Other => "other"
    }
  }

  /** The manifest-name table of analyze_dependencies. */
  function TypeMapping(name: string): Option<DependencyType> {
    if name in ["package.json", "package-lock.json", "yarn.lock"] then Some(PackageJson)
    else if name in ["go.mod", "go.sum"] then Some(GoMod)
    else if name in ["requirements.txt", "Pipfile", "poetry.lock"] then Some(RequirementsTxt)
    else if name in ["pom.xml", "build.gradle"] then Some(PomXml)
    else if name in ["Cargo.toml", "Cargo.lock"] then Some(CargoToml)
    else if name in ["Gemfile", "Gemfile.lock", "composer.json", "composer.lock"] then Some(Other)
    else None
  }

  /** The type table and the dependency-name list of is_dependency_file name the same sixteen files. */
  lemma TypeMappingCoversDependencyNames(name: string)
    ensures TypeMapping(name).Some? <==> name in DependencyFileNames
  {
  }

  function MappedType(f: FileStat): Option<DependencyType> {
    TypeMapping(Basename(f.path))
  }

  /** Many added lines against few deleted ones: a > 10 and d < 0.3 a. */
  predicate SuggestsNewDependencies(f: FileStat) {
    f.additions > 10 && 10 * f.deletions < 3 * f.additions
  }

  /** Balanced edits: a > 0, d > 0 and |a - d| < 0.5 max(a, d). */
  predicate SuggestsVersionUpdate(f: FileStat) {
    var a := f.additions as int;
    var d := f.deletions as int;
    a > 0 && d > 0 && 2 * (if a >= d then a - d else d - a) < (if a >= d then a else d)
  }

  datatype DependencyAnalysis = DependencyAnalysis(
    files: seq<string>,
    depType: Option<DependencyType>,
    hasNewDependencies: bool,
    hasVersionUpdates: bool)

  /** The type-selection loop of analyze_dependencies: the first file, in input order, whose
      basename is in the table gives the type; `other` when none is. */
  method FirstDependencyType(deps: seq<FileStat>) returns (t: DependencyType)
    ensures (exists i :: 0 <= i < |deps| && MappedType(deps[i]) == Some(t)
               && forall j :: 0 <= j < i ==> MappedType(deps[j]).None?)
            || (t == Other && forall i :: 0 <= i < |deps| ==> MappedType(deps[i]).None?)
  {
    var i := 0;
    while i < |deps|
      invariant 0 <= i <= |deps|
      invariant forall j :: 0 <= j < i ==> MappedType(deps[j]).None?
    {
      var mapped := MappedType(deps[i]);
      if mapped.Some? {
        return mapped.value;
      }
      i := i + 1;
    }
    t := Other;
  }

  /** The heuristic loop of analyze_dependencies over the dependency files. */
  method DependencyHeuristics(deps: seq<FileStat>) returns (hasNew: bool, hasVersion: bool)
    ensures hasNew <==> exists i :: 0 <= i < |deps| && SuggestsNewDependencies(deps[i])
    ensures hasVersion <==> exists i :: 0 <= i < |deps| && SuggestsVersionUpdate(deps[i])
  {
    hasNew, hasVersion := false, false;
    var k := 0;
    while k < |deps|
      invariant 0 <= k <= |deps|
      invariant hasNew <==> exists j :: 0 <= j < k && SuggestsNewDependencies(deps[j])
      invariant hasVersion <==> exists j :: 0 <= j < k && SuggestsVersionUpdate(deps[j])
    {
      if SuggestsNewDependencies(deps[k]) {
        hasNew := true;
      }
      if SuggestsVersionUpdate(deps[k]) {
        hasVersion := true;
      }
      k := k + 1;
    }
  }

  /** analyze_dependencies: the type comes from the first dependency file, in input order,
      whose basename is in the table, else `other`; the two flags say whether some dependency
      file fits each additions/deletions heuristic. */
  method AnalyzeDependencies(stats: seq<FileStat>) returns (r: DependencyAnalysis)
    ensures var deps := DependencyFiles(stats);
      |deps| == 0 ==> r == DependencyAnalysis([], None, false, false)
    ensures r.files == Paths(DependencyFiles(stats))
    ensures var deps := DependencyFiles(stats);
      |deps| > 0 ==>
        (exists i :: 0 <= i < |deps| && MappedType(deps[i]) == r.depType
           && forall j :: 0 <= j < i ==> MappedType(deps[j]).None?)
        || (r.depType == Some(Other) && forall i :: 0 <= i < |deps| ==> MappedType(deps[i]).None?)
    ensures var deps := DependencyFiles(stats);
      r.hasNewDependencies <==> exists i :: 0 <= i < |deps| && SuggestsNewDependencies(deps[i])
    ensures var deps := DependencyFiles(stats);
      r.hasVersionUpdates <==> exists i :: 0 <= i < |deps| && SuggestsVersionUpdate(deps[i])
  {
    var deps := DependencyFiles(stats);
    if |deps| == 0 {
      return DependencyAnalysis([], None, false, false);
    }
    var depType := FirstDependencyType(deps);
    var hasNew, hasVersion := DependencyHeuristics(deps);
    r := DependencyAnalysis(Paths(deps), Some(depType), hasNew, hasVersion);
  }

  // ---------------------------------------------------------------- analyze_tests

  /** How a test file changed, from its two line counts; 0/0 files fall in no counted class. */
  datatype ChangeKind = AddedOnly | Modified | RemovedOnly | Untouched

  function Kind(f: FileStat): ChangeKind {
    if f.additions > 0 && f.deletions == 0 then AddedOnly
    else if f.additions > 0 && f.deletions > 0 then Modified
    else if f.additions == 0 && f.deletions > 0 then RemovedOnly
    else Untouched
  }

  function CountKind(fs: seq<FileStat>, k: ChangeKind): nat
    decreases |fs|
  {
    if |fs| == 0 then 0
    else CountKind(fs[..|fs| - 1], k) + (if Kind(fs[|fs| - 1]) == k then 1 else 0)
  }

  /** The four change kinds partition the files, so the three counted kinds never exceed
      the number of files. */
  lemma {:induction false} CountKindsPartition(fs: seq<FileStat>)
    ensures CountKind(fs, AddedOnly) + CountKind(fs, Modified) + CountKind(fs, RemovedOnly)
            + CountKind(fs, Untouched) == |fs|
    decreases |fs|
  {
    if |fs| > 0 {
      CountKindsPartition(fs[..|fs| - 1]);
    }
  }

  /** Share of all added lines that are in test files, 0 when nothing was added. */
  function Coverage(stats: seq<FileStat>): (r: real)
    ensures 0.0 <= r <= 1.0
    ensures SumAdditions(stats) == 0 ==> r == 0.0
  {
    var total := SumAdditions(stats);
    var tests := SumAdditions(TestFiles(stats));
    if total > 0 then
      var share := tests as real / total as real;
      if share < 1.0 then share else 1.0
    else 0.0
  }

  /** The min(1.0, ...) cap of the coverage estimate never bites: test additions are part of
      the total. */
  lemma CoverageIsTestShare(stats: seq<FileStat>)
    requires SumAdditions(stats) > 0
    ensures Coverage(stats) == SumAdditions(TestFiles(stats)) as real / SumAdditions(stats) as real
  {
    Partition(stats);
    ShareAtMostOne(SumAdditions(TestFiles(stats)), SumAdditions(stats));
  }

  lemma ShareAtMostOne(part: nat, whole: nat)
    requires 0 < whole && part <= whole
    ensures part as real / whole as real <= 1.0
  {
    var p := part as real;
    var w := whole as real;
    assert p / w * w == p;
  }

  /** A test path that names an integration or end-to-end suite, case-insensitively. */
  predicate IsIntegrationPath(path: string) {
    var lower := Lower(path);
    Contains(lower, "integration") || Contains(lower, "e2e")
    || Contains(lower, "end-to-end") || Contains(lower, "integration_test")
  }

  /** The fixed awards of the test quality score: 30/20/20 at coverage 0.3/0.5/0.7,
      20 for integration tests, 10 for three or more test files, capped at 100. */
  function QualityPoints(coverage: real, hasIntegration: bool, testCount: nat): int {
    var score :=
      (if coverage >= 0.3 then 30 else 0)
      + (if coverage >= 0.5 then 20 else 0)
      + (if coverage >= 0.7 then 20 else 0)
      + (if hasIntegration then 20 else 0)
      + (if testCount >= 3 then 10 else 0);
    if score < 100 then score else 100
  }

  /** The quality score lies in [0, 100], and the cap only matters when every award is earned. */
  lemma QualityPointsBounds(coverage: real, hasIntegration: bool, testCount: nat)
    ensures 0 <= QualityPoints(coverage, hasIntegration, testCount) <= 100
    ensures QualityPoints(coverage, hasIntegration, testCount) == 100
            <==> coverage >= 0.7 && hasIntegration && testCount >= 3
  {
  }

  datatype TestAnalysis = TestAnalysis(
    added: nat,
    modified: nat,
    removed: nat,
    coverage: real,
    qualityScore: int,
    hasIntegrationTests: bool,
    hasUnitTests: bool)

  /** analyze_tests: counts the test files by change kind, estimates coverage as the tests'
      share of added lines, detects integration suites and scores quality. */
  method AnalyzeTests(stats: seq<FileStat>) returns (r: TestAnalysis)
    ensures var tests := TestFiles(stats);
      && r.added == CountKind(tests, AddedOnly)
      && r.modified == CountKind(tests, Modified)
      && r.removed == CountKind(tests, RemovedOnly)
      && r.added + r.modified + r.removed <= |tests|
    ensures r.coverage == Coverage(stats) && 0.0 <= r.coverage <= 1.0
    ensures r.hasIntegrationTests <==> exists f :: f in TestFiles(stats) && IsIntegrationPath(f.path)
    ensures r.hasUnitTests <==> exists f :: f in stats && f.isTest
    ensures r.qualityScore == QualityPoints(r.coverage, r.hasIntegrationTests, |TestFiles(stats)|)
    ensures 0 <= r.qualityScore <= 100
  {
    var tests := TestFiles(stats);
    var added, modified, removed := 0, 0, 0;
    var i := 0;
    while i < |tests|
      invariant 0 <= i <= |tests|
      invariant added == CountKind(tests[..i], AddedOnly)
      invariant modified == CountKind(tests[..i], Modified)
      invariant removed == CountKind(tests[..i], RemovedOnly)
    {
      assert tests[..i + 1][..i] == tests[..i];
      var a := tests[i].additions;
      var d := tests[i].deletions;
      if a > 0 && d == 0 {
        added := added + 1;
      } else if a > 0 && d > 0 {
        modified := modified + 1;
      } else if a == 0 && d > 0 {
        removed := removed + 1;
      }
      i := i + 1;
    }
    assert tests[..i] == tests;
    CountKindsPartition(tests);

    var coverage := Coverage(stats);
    var hasIntegration := exists f :: f in tests && IsIntegrationPath(f.path);
    var hasUnit := |tests| > 0;
    FilterMembership(stats);
    if hasUnit {
      assert tests[0] in tests;
    }

    var quality := 0;
    if coverage >= 0.3 {
      quality := quality + 30;
    }
    if coverage >= 0.5 {
      quality := quality + 20;
    }
    if coverage >= 0.7 {
      quality := quality + 20;
    }
    if hasIntegration {
      quality := quality + 20;
    }
    if |tests| >= 3 {
      quality := quality + 10;
    }
    quality := if quality < 100 then quality else 100;
    QualityPointsBounds(coverage, hasIntegration, |tests|);
    r := TestAnalysis(added, modified, removed, coverage, quality, hasIntegration, hasUnit);
  }

  // ---------------------------------------------------------------- refactor heuristic

  /** True when `s` holds one of `words`, ignoring ASCII case (`words` are lower-case). */
  predicate ContainsAnyIgnoreCase(s: string, words: seq<string>) {
    exists i :: 0 <= i < |words| && ContainsIgnoreCase(s, words[i])
  }

  const TitleMarkers: seq<string> := ["perf", "performance", "refactor", "optimiz"]
  const PreservingMarkers: seq<string> :=
    ["preserve", "same output", "behavior", "no functional", "internal only", "no behavior change"]
  const ExplicitRefactorMarkers: seq<string> := ["refactor", "optimize", "optimise"]
  const BehaviorChangeMarkers: seq<string> :=
    ["add", "new feature", "change behavior", "modify behavior", "fix behavior"]

  /** The first line of a message, stripped of surrounding whitespace. */
  function Title(message: string): string {
    var k := IndexOf(message, '\n');
    Trim(if k < 0 then message else message[..k])
  }

  /** Everything after the first newline, or "" for a one-line message. */
  function Body(message: string): string {
    var k := IndexOf(message, '\n');
    if k < 0 then "" else message[k + 1..]
  }

  /** detect_behavior_preserving_refactor: the title must name a performance or refactoring
      change; then a body stating preserved behaviour decides, and failing that an explicit
      refactor/optimize title with a body that claims no behavioural change. */
  predicate DetectBehaviorPreservingRefactor(message: string) {
    if message == "" then false
    else if !ContainsAnyIgnoreCase(Title(message), TitleMarkers) then false
    else if ContainsAnyIgnoreCase(Body(message), PreservingMarkers) then true
    else
      ContainsAnyIgnoreCase(Title(message), ExplicitRefactorMarkers)
      && !ContainsAnyIgnoreCase(Body(message), BehaviorChangeMarkers)
  }

  /** A message is only ever flagged when it is non-empty and its title names perf,
      performance, refactor or optimiz. */
  lemma RefactorNeedsTitleMarker(message: string)
    ensures DetectBehaviorPreservingRefactor(message) ==>
      message != "" && ContainsAnyIgnoreCase(Title(message), TitleMarkers)
  {
  }

  /** Any body mentioning "behavior" is read as behaviour-preserving, even "change behavior". */
  lemma BehaviorInBodyIsPreserving(message: string)
    requires message != "" && ContainsAnyIgnoreCase(Title(message), TitleMarkers)
    requires ContainsIgnoreCase(Body(message), "behavior")
    ensures DetectBehaviorPreservingRefactor(message)
  {
    assert PreservingMarkers[2] == "behavior";
  }

  lemma ChangeBehaviorMentionsBehavior(body: string)
    requires ContainsIgnoreCase(body, "change behavior")
    ensures ContainsIgnoreCase(body, "behavior")
  {
    var phrase := "change behavior";
    assert phrase[7..15] == "behavior";
    ContainsAt(phrase, "behavior", 7);
    ContainsTrans(Lower(body), phrase, "behavior");
  }

  /** A one-line message whose title mentions "refactor" in any case is flagged: with no body
      nothing can claim a behavioural change. "refactor: optimize parser" is one. */
  lemma OneLineRefactorTitleIsPreserving(message: string)
    requires '\n' !in message
    requires ContainsIgnoreCase(Trim(message), "refactor")
    ensures DetectBehaviorPreservingRefactor(message)
  {
    OneLineTitleAndBody(message);
    RefactorTitleMarkers(Trim(message));
    NoMarkerInEmpty(PreservingMarkers);
    NoMarkerInEmpty(BehaviorChangeMarkers);
    var i := ContainsWitness(Lower(Trim(message)), "refactor");
  }

  /** Without a newline the title is the trimmed message and the body is empty. */
  lemma OneLineTitleAndBody(message: string)
    requires '\n' !in message
    ensures Title(message) == Trim(message) && Body(message) == ""
  {
  }

  /** A title mentioning "refactor" names a refactoring change and is an explicit refactor title. */
  lemma RefactorTitleMarkers(title: string)
    requires ContainsIgnoreCase(title, "refactor")
    ensures ContainsAnyIgnoreCase(title, TitleMarkers)
    ensures ContainsAnyIgnoreCase(title, ExplicitRefactorMarkers)
  {
    assert ContainsIgnoreCase(title, TitleMarkers[2]);
    assert ContainsIgnoreCase(title, ExplicitRefactorMarkers[0]);
  }

  /** An empty text mentions none of a list of non-empty markers. */
  lemma NoMarkerInEmpty(words: seq<string>)
    requires "" !in words
    ensures !ContainsAnyIgnoreCase("", words)
  {
    assert Lower("") == "";
    forall i | 0 <= i < |words|
      ensures !ContainsIgnoreCase("", words[i])
    {
      assert words[i] != "";
      EmptyContainsNothing(words[i]);
    }
  }

  // ---------------------------------------------------------------- aggregates and complexity

  datatype Aggregates = Aggregates(
    totalAdditions: nat,
    totalDeletions: nat,
    testAdditions: nat,
    nonTestAdditions: nat,
    netChange: int,
    fileChanges: nat,
    hasDependencyChanges: bool)

  /** The per-commit totals stored with every scored commit. */
  function ComputeAggregates(stats: seq<FileStat>): (r: Aggregates)
    ensures r.testAdditions + r.nonTestAdditions == r.totalAdditions
    ensures r.netChange == r.totalAdditions - r.totalDeletions
    ensures r.fileChanges == |stats|
    ensures r.hasDependencyChanges <==> |DependencyFiles(stats)| > 0
  {
    Partition(stats);
    FilterMembership(stats);
    var hasDeps := exists f :: f in stats && f.isDependency;
    assert hasDeps <==> |DependencyFiles(stats)| > 0 by {
      if |DependencyFiles(stats)| > 0 {
        assert DependencyFiles(stats)[0] in DependencyFiles(stats);
      }
    }
    Aggregates(
      SumAdditions(stats),
      SumDeletions(stats),
      SumAdditions(TestFiles(stats)),
      SumAdditions(NonTestFiles(stats)),
      SumAdditions(stats) - SumDeletions(stats),
      |stats|,
      hasDeps)
  }

  /** A file's recorded directory, when it has a non-empty one. */
  predicate HasDirectory(f: FileStat) {
    f.directory.Some? && f.directory.value != ""
  }

  /** The first '/'-separated component of a file's directory. */
  function TopDirectory(f: FileStat): string
    requires HasDirectory(f)
  {
    Split(f.directory.value, '/')[0]
  }

  /** The distinct top-level directories touched by the given files. */
  function TopDirectories(fs: seq<FileStat>): set<string> {
    set i | 0 <= i < |fs| && HasDirectory(fs[i]) :: TopDirectory(fs[i])
  }

  /** There are never more top-level directories than files. */
  lemma {:induction false} TopDirectoriesAtMostFiles(fs: seq<FileStat>)
    ensures |TopDirectories(fs)| <= |fs|
    decreases |fs|
  {
    if |fs| > 0 {
      var init := fs[..|fs| - 1];
      TopDirectoriesAtMostFiles(init);
      var extra := if HasDirectory(fs[|fs| - 1]) then {TopDirectory(fs[|fs| - 1])} else {};
      assert TopDirectories(fs) <= TopDirectories(init) + extra by {
        forall d | d in TopDirectories(fs) ensures d in TopDirectories(init) + extra {
          var i :| 0 <= i < |fs| && HasDirectory(fs[i]) && TopDirectory(fs[i]) == d;
          if i < |fs| - 1 {
            assert init[i] == fs[i];
          }
        }
      }
      var bound := TopDirectories(init) + extra;
      SubsetCardinality(TopDirectories(fs), bound);
      assert |bound| <= |TopDirectories(init)| + |extra| by {
        assert |bound| + |TopDirectories(init) * extra| == |TopDirectories(init)| + |extra|;
      }
    }
  }

  lemma SubsetCardinality(a: set<string>, b: set<string>)
    requires a <= b
    ensures |a| <= |b|
  {
    assert b == a + (b - a);
  }

  /** The directory loop of the scorer: collects the top directory of every file with one. */
  method CollectTopDirectories(fs: seq<FileStat>) returns (dirs: set<string>)
    ensures dirs == TopDirectories(fs)
    ensures |dirs| <= |fs|
  {
    dirs := {};
    var i := 0;
    while i < |fs|
      invariant 0 <= i <= |fs|
      invariant dirs == TopDirectories(fs[..i])
    {
      var f := fs[i];
      if f.directory.Some? && f.directory.value != "" {
        dirs := dirs + {Split(f.directory.value, '/')[0]};
      }
      assert forall j :: 0 <= j < i ==> fs[..i + 1][j] == fs[..i][j];
      i := i + 1;
    }
    assert fs[..i] == fs;
    TopDirectoriesAtMostFiles(fs);
  }

  const CorePatterns: seq<string> := ["core/", "domain/", "engine/", "kernel/", "src/"]

  /** The path holds one of the core-code directory markers (case-sensitive). */
  predicate HasCorePattern(path: string) {
    exists i :: 0 <= i < |CorePatterns| && Contains(path, CorePatterns[i])
  }

  datatype ComplexityIndicators = ComplexityIndicators(
    multiFile: bool,
    crossDirectory: bool,
    manyDirectories: bool,
    directoryCount: nat,
    hasCoreFiles: bool,
    largeSingleFile: bool,
    multipleHighAdditions: bool)

  /** The complexity indicators stored with each commit; `multi_file` counts every changed
      file, test files included, while the other indicators look at non-test files only. */
  method ComputeComplexity(stats: seq<FileStat>) returns (c: ComplexityIndicators)
    ensures c.multiFile <==> 4 <= |stats| <= 50
    ensures c.directoryCount == |TopDirectories(NonTestFiles(stats))|
    ensures c.directoryCount <= |NonTestFiles(stats)|
    ensures c.crossDirectory <==> c.directoryCount >= 3
    ensures c.manyDirectories <==> c.directoryCount >= 5
    ensures c.hasCoreFiles <==> exists f :: f in NonTestFiles(stats) && HasCorePattern(f.path)
    ensures c.largeSingleFile <==>
      |NonTestFiles(stats)| == 1 && NonTestFiles(stats)[0].additions >= 200
    ensures c.multipleHighAdditions <==>
      3 <= |NonTestFiles(stats)| <= 6 && forall f :: f in NonTestFiles(stats) ==> f.additions >= 300
    ensures !(c.largeSingleFile && c.multipleHighAdditions)
    ensures c.manyDirectories ==> c.crossDirectory
  {
    var nonTest := NonTestFiles(stats);
    var dirs := CollectTopDirectories(nonTest);
    c := ComplexityIndicators(
      4 <= |stats| <= 50,
      |dirs| >= 3,
      |dirs| >= 5,
      |dirs|,
      exists f :: f in nonTest && HasCorePattern(f.path),
      |nonTest| > 0 && |nonTest| == 1 && nonTest[0].additions >= 200,
      3 <= |nonTest| <= 6 && forall f :: f in nonTest ==> f.additions >= 300);
  }
}

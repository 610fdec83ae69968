/** The three commit scorers of backend/repofind/fetch_commits.py: habitate (0-150),
    difficulty (0-100) and suitability (0-100, vetoed by dependency changes). Each scorer
    first computes a few totals over the commit's files and then accumulates points step by
    step; it is proved equal to the clamped sum of named awards over those totals, and the
    properties are proved about the awards. Difficulty and suitability are Python floats
    holding whole numbers and are modelled as integers. */
module Scoring {
  import opened Text
  import opened Numstat
  import opened CommitAnalysis

  /** `max(lo, min(hi, x))` on a score; Priority has its own clamp over JavaScript numbers. */
  function Clamp(lo: int, hi: int, x: int): (r: int)
    requires lo <= hi
    ensures lo <= r <= hi
    ensures lo <= x <= hi ==> r == x
  {
    if x < lo then lo else if x > hi then hi else x
  }

  // ---------------------------------------------------------------- the totals scored

  /** Every file has 300 or more added lines. */
  predicate AllHigh(fs: seq<FileStat>) {
    forall f :: f in fs ==> f.additions >= 300
  }

  predicate HasTestFile(stats: seq<FileStat>) {
    exists f :: f in stats && f.isTest
  }

  predicate TouchesCore(nonTest: seq<FileStat>) {
    exists f :: f in nonTest && HasCorePattern(f.path)
  }

  /** Whether any changed file is a dependency file: such a commit is unsuitable outright. */
  predicate HasDependencyChange(stats: seq<FileStat>) {
    exists f :: f in stats && f.isDependency
  }

  /** The figures of a commit that the three scorers branch on. */
  datatype Totals = Totals(
    nonTestCount: nat,
    firstNonTestAdditions: nat,   // additions of the first non-test file, 0 when there is none
    allNonTestHigh: bool,
    nonTestAdditions: nat,
    nonTestDeletions: nat,
    hasTestFile: bool,
    totalAdditions: nat,
    testAdditions: nat,
    topDirectories: nat,
    touchesCore: bool)

  function TotalsOf(stats: seq<FileStat>): Totals {
    var nonTest := NonTestFiles(stats);
    Totals(
      |nonTest|,
      if |nonTest| > 0 then nonTest[0].additions else 0,
      AllHigh(nonTest),
      SumAdditions(nonTest),
      SumDeletions(nonTest),
      HasTestFile(stats),
      SumAdditions(stats),
      SumAdditions(TestFiles(stats)),
      |TopDirectories(nonTest)|,
      TouchesCore(nonTest))
  }

  // ---------------------------------------------------------------- habitate

  /** One non-test file of 200+ added lines: `base`, plus `big` at 500+. */
  function SingleFileAward(t: Totals, base: int, big: int): int {
    if t.nonTestCount == 1 && t.firstNonTestAdditions >= 200 then
      base + (if t.firstNonTestAdditions >= 500 then big else 0)
    else 0
  }

  /** Three to six non-test files: `high` when each has 300+ additions and they average 400+,
      else `mid` when they average 300+. */
  function FewLargeFilesAward(t: Totals, high: int, mid: int): int {
    var n := t.nonTestCount;
    if 3 <= n <= 6 then
      if t.allNonTestHigh && t.nonTestAdditions >= 400 * n then high
      else if t.nonTestAdditions >= 300 * n then mid
      else 0
    else 0
  }

  /** Breadth: 25 for 4-50 non-test files, then 8, 8 and 12 at 6, 10 and 20 files. */
  function BreadthAward(n: nat): int {
    (if 4 <= n <= 50 then 25 else 0)
    + (if n >= 6 then 8 else 0) + (if n >= 10 then 8 else 0) + (if n >= 20 then 12 else 0)
  }

  /** Net change (non-test additions minus deletions): 4, 8 and 12 at 100, 200 and 500. */
  function NetChangeAward(net: int): int {
    (if net >= 100 then 4 else 0) + (if net >= 200 then 8 else 0) + (if net >= 500 then 12 else 0)
  }

  /** Non-test additions: 8 at 500 and 12 more at 1000. */
  function VolumeAward(adds: nat): int {
    (if adds >= 500 then 8 else 0) + (if adds >= 1000 then 12 else 0)
  }

  /** floor(30 * share) when test files hold more than 40% of the added lines, else 0. */
  function TestSharePenalty(testAdds: nat, totalAdds: nat): int {
    if totalAdds > 0 && 5 * testAdds > 2 * totalAdds then (30 * testAdds) / totalAdds else 0
  }

  function HabitatePoints(t: Totals, isRefactor: bool): int {
    var adds := t.nonTestAdditions;
    var dels := t.nonTestDeletions;
    SingleFileAward(t, 30, 15)
    + FewLargeFilesAward(t, 35, 25)
    + BreadthAward(t.nonTestCount)
    + (if adds + dels >= 20 then 20 else 0)
    + (if t.hasTestFile then 18 else 0)
    + NetChangeAward(adds as int - dels as int)
    + VolumeAward(adds)
    - (if 2 * dels > adds then 10 else 0)
    - TestSharePenalty(t.testAdditions, t.totalAdditions)
    - (if isRefactor then 40 else 0)
  }

  /** calculate_habitate_score: the awards are added in the source's order, section by
      section. */
  method HabitateScore(stats: seq<FileStat>, isRefactor: bool) returns (score: int)
    ensures score == Clamp(0, 150, HabitatePoints(TotalsOf(stats), isRefactor))
    ensures 0 <= score <= 150
  {
    score := HabitateOfTotals(TotalsOf(stats), isRefactor);
  }

  /** The scoring steps of calculate_habitate_score once the totals are known. */
  method HabitateOfTotals(t: Totals, isRefactor: bool) returns (score: int)
    ensures score == Clamp(0, 150, HabitatePoints(t, isRefactor))
  {
    score := AddSizePatterns(t, 30, 15, 35, 25, 0);
    score := AddHabitateBreadth(t, score);
    score := AddHabitateChange(t, score);
    var total := t.totalAdditions;
    var testAdds := t.testAdditions;
    if total > 0 && 5 * testAdds > 2 * total {
      score := score - (30 * testAdds) / total;
    }
    if isRefactor {
      score := score - 40;
    }
    score := Clamp(0, 150, score);
  }

  /** The two size patterns shared by habitate and difficulty, with their point values. */
  method AddSizePatterns(t: Totals, base: int, big: int, high: int, mid: int, score0: int)
    returns (score: int)
    ensures score == score0 + SingleFileAward(t, base, big) + FewLargeFilesAward(t, high, mid)
  {
    var n := t.nonTestCount;
    var adds := t.nonTestAdditions;
    score := score0;
    if n == 1 && t.firstNonTestAdditions >= 200 {
      score := score + base;
      if t.firstNonTestAdditions >= 500 {
        score := score + big;
      }
    }
    if 3 <= n <= 6 {
      if t.allNonTestHigh && adds >= 400 * n {
        score := score + high;
      } else if adds >= 300 * n {
        score := score + mid;
      }
    }
  }

  /** Habitate's breadth section: file counts, touched lines and the presence of tests. */
  method AddHabitateBreadth(t: Totals, score0: int) returns (score: int)
    ensures score == score0 + BreadthAward(t.nonTestCount)
      + (if t.nonTestAdditions + t.nonTestDeletions >= 20 then 20 else 0)
      + (if t.hasTestFile then 18 else 0)
  {
    var n := t.nonTestCount;
    score := score0;
    if 4 <= n <= 50 {
      score := score + 25;
    }
    if t.nonTestAdditions + t.nonTestDeletions >= 20 {
      score := score + 20;
    }
    if t.hasTestFile {
      score := score + 18;
    }
    if n >= 6 {
      score := score + 8;
    }
    if n >= 10 {
      score := score + 8;
    }
    if n >= 20 {
      score := score + 12;
    }
  }

  /** Habitate's change section: net change, volume and the deletion-heavy penalty. */
  method AddHabitateChange(t: Totals, score0: int) returns (score: int)
    ensures var adds := t.nonTestAdditions; var dels := t.nonTestDeletions;
      score == score0 + NetChangeAward(adds as int - dels as int) + VolumeAward(adds)
        - (if 2 * dels > adds then 10 else 0)
  {
    var adds := t.nonTestAdditions;
    var dels := t.nonTestDeletions;
    var net := adds as int - dels as int;
    score := score0;
    if net >= 100 {
      score := score + 4;
    }
    if net >= 200 {
      score := score + 8;
    }
    if net >= 500 {
      score := score + 12;
    }
    if adds >= 500 {
      score := score + 8;
    }
    if adds >= 1000 {
      score := score + 12;
    }
    if 2 * dels > adds {
      score := score - 10;
    }
  }

  /** The test-share penalty is 0, or between 12 and 30 when the test files' additions are part
      of the total: a share above 0.4 and at most 1 floors to 12..30 once multiplied by 30. */
  lemma TestSharePenaltyRange(testAdds: nat, totalAdds: nat)
    requires testAdds <= totalAdds
    ensures TestSharePenalty(testAdds, totalAdds) == 0 || 12 <= TestSharePenalty(testAdds, totalAdds) <= 30
    ensures TestSharePenalty(testAdds, totalAdds) > 0 <==> totalAdds > 0 && 5 * testAdds > 2 * totalAdds
  {
    if totalAdds > 0 && 5 * testAdds > 2 * totalAdds {
      DivAtLeast(30 * testAdds, totalAdds, 12);
      DivAtMost(30 * testAdds, totalAdds, 30);
    }
  }

  /** For a commit the precondition above holds: test additions are part of all additions. */
  lemma CommitTestSharePenaltyRange(stats: seq<FileStat>)
    ensures var t := TotalsOf(stats);
      var p := TestSharePenalty(t.testAdditions, t.totalAdditions);
      p == 0 || 12 <= p <= 30
  {
    Partition(stats);
    TestSharePenaltyRange(SumAdditions(TestFiles(stats)), SumAdditions(stats));
  }

  lemma DivAtLeast(a: nat, b: nat, q: nat)
    requires b > 0 && a >= q * b
    ensures a / b >= q
  {
    var k := a / b;
    assert a == b * k + a % b;
    assert b * (k - q + 1) > 0;
    PositiveFactor(b, k - q + 1);
  }

  lemma PositiveFactor(b: int, x: int)
    requires b > 0 && b * x > 0
    ensures x > 0
  {
  }

  lemma DivAtMost(a: nat, b: nat, q: nat)
    requires b > 0 && a <= q * b
    ensures a / b <= q
  {
  }

  /** The refactor penalty is a flat 40 points before clamping, so a refactor never scores
      higher than the same files otherwise. */
  lemma RefactorLowersHabitate(t: Totals)
    ensures HabitatePoints(t, true) == HabitatePoints(t, false) - 40
    ensures Clamp(0, 150, HabitatePoints(t, true)) <= Clamp(0, 150, HabitatePoints(t, false))
  {
  }

  /** The totals of a commit made of one non-test file. */
  lemma SingleNonTestFile(f: FileStat)
    requires !f.isTest
    ensures var t := TotalsOf([f]);
      && t.nonTestCount == 1 && t.firstNonTestAdditions == f.additions
      && t.nonTestAdditions == f.additions && t.nonTestDeletions == f.deletions
      && !t.hasTestFile && t.testAdditions == 0
  {
    var one := [f];
    assert one[..0] == [];
    assert NonTestFiles(one) == one && TestFiles(one) == [];
    assert SumAdditions(one) == f.additions && SumDeletions(one) == f.deletions;
  }

  /** A commit of one non-test file gains exactly 30 points at the step from 199 to 200 added
      lines, plus 8 when nothing was deleted (the net change reaches 200) and plus 14 with
      exactly 100 deletions (the net change reaches 100 and the deletion penalty lifts). */
  lemma SingleFileThreshold(f199: FileStat, f200: FileStat)
    requires !f199.isTest && !f200.isTest
    requires f199.additions == 199 && f200.additions == 200
    requires f199.deletions == f200.deletions
    ensures HabitatePoints(TotalsOf([f200]), false) - HabitatePoints(TotalsOf([f199]), false)
            == 30 + (if f199.deletions == 0 then 8 else 0) + (if f199.deletions == 100 then 14 else 0)
  {
    SingleNonTestFile(f199);
    SingleNonTestFile(f200);
  }

  // ---------------------------------------------------------------- difficulty

  /** Codebase understanding: 15, 10 and 5 at 10, 20 and 30 non-test files. */
  function CodebaseAward(n: nat): int {
    (if n >= 10 then 15 else 0) + (if n >= 20 then 10 else 0) + (if n >= 30 then 5 else 0)
  }

  /** Cross-directory work: 10 at three top-level directories, 5 more at five. */
  function DirectoryAward(dirs: nat): int {
    (if dirs >= 3 then 10 else 0) + (if dirs >= 5 then 5 else 0)
  }

  /** Deletions between 30% and 70% of additions read as refactoring work: 10. */
  function RefactorRatioAward(adds: nat, dels: nat): int {
    if adds > 0 && 10 * dels >= 3 * adds && 10 * dels <= 7 * adds then 10 else 0
  }

  function DifficultyPoints(t: Totals, isRefactor: bool): int {
    CodebaseAward(t.nonTestCount)
    + DirectoryAward(t.topDirectories)
    + SingleFileAward(t, 15, 10)
    + FewLargeFilesAward(t, 20, 15)
    + (if t.nonTestAdditions >= 1000 then 5 else 0)
    + (if t.hasTestFile then 10 else 0)
    + (if t.touchesCore then 10 else 0)
    + RefactorRatioAward(t.nonTestAdditions, t.nonTestDeletions)
    - (if isRefactor then 30 else 0)
  }

  /** calculate_difficulty_score: the awards are added in the source's order; the top-level
      directories are collected by a loop over the non-test files. */
  method DifficultyScore(stats: seq<FileStat>, isRefactor: bool) returns (score: int)
    ensures score == Clamp(0, 100, DifficultyPoints(TotalsOf(stats), isRefactor))
    ensures 0 <= score <= 100
  {
    var t := TotalsOf(stats);
    var dirs := CollectTopDirectories(NonTestFiles(stats));
    score := AddCodebaseAwards(t.nonTestCount, |dirs|, 0);
    score := AddSizePatterns(t, 15, 10, 20, 15, score);
    score := AddDifficultyExtras(t, score);
    if isRefactor {
      score := score - 30;
    }
    score := Clamp(0, 100, score);
  }

  /** Difficulty's breadth section: non-test file count and distinct top-level directories. */
  method AddCodebaseAwards(n: nat, dirs: nat, score0: int) returns (score: int)
    ensures score == score0 + CodebaseAward(n) + DirectoryAward(dirs)
  {
    score := score0;
    if n >= 10 {
      score := score + 15;
    }
    if n >= 20 {
      score := score + 10;
    }
    if n >= 30 {
      score := score + 5;
    }
    if dirs >= 3 {
      score := score + 10;
    }
    if dirs >= 5 {
      score := score + 5;
    }
  }

  /** Difficulty's last section: volume, tests, core paths and the refactoring ratio. */
  method AddDifficultyExtras(t: Totals, score0: int) returns (score: int)
    ensures score == score0 + (if t.nonTestAdditions >= 1000 then 5 else 0)
      + (if t.hasTestFile then 10 else 0) + (if t.touchesCore then 10 else 0)
      + RefactorRatioAward(t.nonTestAdditions, t.nonTestDeletions)
  {
    var adds := t.nonTestAdditions;
    var dels := t.nonTestDeletions;
    score := score0;
    if adds >= 1000 {
      score := score + 5;
    }
    if t.hasTestFile {
      score := score + 10;
    }
    if t.touchesCore {
      score := score + 10;
    }
    if adds > 0 {
      if 10 * dels >= 3 * adds && 10 * dels <= 7 * adds {
        score := score + 10;
      }
    }
  }

  /** Difficulty points lie in [-30, 105]: at most 30 + 15 + 25 + 5 + 10 + 10 + 10 before the
      refactor penalty of 30, so the upper clamp can bite; the refactor penalty is flat. */
  lemma DifficultyPointsRange(t: Totals, isRefactor: bool)
    ensures -30 <= DifficultyPoints(t, isRefactor) <= 105
    ensures DifficultyPoints(t, true) == DifficultyPoints(t, false) - 30
  {
  }

  // ---------------------------------------------------------------- suitability

  function SuitabilityPoints(t: Totals, habitate: int, difficulty: int, isRefactor: bool): int {
    50
    - (if isRefactor then 35 else 0)
    + (if difficulty >= 60 then 20 else 0) + (if difficulty >= 80 then 10 else 0)
    + (if t.totalAdditions > 0 && 2 * t.testAdditions >= t.totalAdditions then 15 else 0)
    + (if habitate >= 80 then 10 else 0)
    - (if t.nonTestCount < 4 then 15 else 0) - (if t.nonTestCount > 100 then 10 else 0)
    - (if t.nonTestAdditions < 200 then 10 else 0)
  }

  /** calculate_suitability_score; the commit record argument of the source is never read. */
  method SuitabilityScore(stats: seq<FileStat>, habitate: int, difficulty: int, isRefactor: bool)
    returns (score: int)
    ensures HasDependencyChange(stats) ==> score == 0
    ensures !HasDependencyChange(stats) ==>
      score == Clamp(0, 100, SuitabilityPoints(TotalsOf(stats), habitate, difficulty, isRefactor))
    ensures 0 <= score <= 100
  {
    if HasDependencyChange(stats) {
      return 0;
    }
    score := SuitabilityOfTotals(TotalsOf(stats), habitate, difficulty, isRefactor);
  }

  /** The scoring steps of calculate_suitability_score after the dependency veto. */
  method SuitabilityOfTotals(t: Totals, habitate: int, difficulty: int, isRefactor: bool)
    returns (score: int)
    ensures score == Clamp(0, 100, SuitabilityPoints(t, habitate, difficulty, isRefactor))
  {
    score := 50;
    if isRefactor {
      score := score - 35;
    }
    if difficulty >= 60 {
      score := score + 20;
    }
    if difficulty >= 80 {
      score := score + 10;
    }
    if t.totalAdditions > 0 && 2 * t.testAdditions >= t.totalAdditions {
      score := score + 15;
    }
    if habitate >= 80 {
      score := score + 10;
    }
    if t.nonTestCount < 4 {
      score := score - 15;
    }
    if t.nonTestCount > 100 {
      score := score - 10;
    }
    if t.nonTestAdditions < 200 {
      score := score - 10;
    }
    score := Clamp(0, 100, score);
  }

  /** Without a dependency change, suitability points lie in [-20, 105]: the best case is
      50 + 20 + 10 + 15 + 10 = 105, the worst 50 - 35 - 15 - 10 - 10 = -20. */
  lemma SuitabilityPointsRange(t: Totals, habitate: int, difficulty: int, isRefactor: bool)
    ensures -20 <= SuitabilityPoints(t, habitate, difficulty, isRefactor) <= 105
  {
  }

  // ---------------------------------------------------------------- a worked commit

  /** Five non-test files with 320, 310, 305, 450 and 500 added lines, no deletions, no
      directory and no core path: all clear 300 but average 377, so the 3-6 file pattern pays
      its middle award. Habitate is 25 + 25 + 20 + 24 + 20 = 114, difficulty 15 + 5 = 20 and
      suitability 50 + 10 = 60. */
  lemma FiveFileCommitScores(stats: seq<FileStat>)
    requires |stats| == 5
    requires stats[0].additions == 320 && stats[1].additions == 310 && stats[2].additions == 305
    requires stats[3].additions == 450 && stats[4].additions == 500
    requires forall i :: 0 <= i < 5 ==>
      && stats[i].deletions == 0 && !stats[i].isTest && !stats[i].isDependency
      && !HasDirectory(stats[i]) && !HasCorePattern(stats[i].path)
    ensures HabitatePoints(TotalsOf(stats), false) == 114
    ensures DifficultyPoints(TotalsOf(stats), false) == 20
    ensures !HasDependencyChange(stats)
    ensures SuitabilityPoints(TotalsOf(stats), 114, 20, false) == 60
  {
    AllNonTest(stats);
    FiveFileSums(stats);
    var t := TotalsOf(stats);
    assert t.nonTestCount == 5 && t.nonTestAdditions == 1885 && t.nonTestDeletions == 0;
    assert t.totalAdditions == 1885 && t.testAdditions == 0;
    assert t.allNonTestHigh;
    assert !t.hasTestFile;
    assert !t.touchesCore;
    assert TopDirectories(stats) == {};
  }

  lemma FiveFileSums(stats: seq<FileStat>)
    requires |stats| == 5
    requires stats[0].additions == 320 && stats[1].additions == 310 && stats[2].additions == 305
    requires stats[3].additions == 450 && stats[4].additions == 500
    requires forall i :: 0 <= i < 5 ==> stats[i].deletions == 0
    ensures SumAdditions(stats) == 1885 && SumDeletions(stats) == 0
  {
    var s1, s2, s3, s4 := stats[..1], stats[..2], stats[..3], stats[..4];
    assert s1[..0] == [];
    assert s2[..1] == s1 && s3[..2] == s2 && s4[..3] == s3 && stats[..4] == s4;
    assert SumAdditions(s1) == 320 && SumDeletions(s1) == 0;
    assert SumAdditions(s2) == 630 && SumDeletions(s2) == 0;
    assert SumAdditions(s3) == 935 && SumDeletions(s3) == 0;
    assert SumAdditions(s4) == 1385 && SumDeletions(s4) == 0;
  }

  /** A commit without test files is its own non-test part and has no test additions. */
  lemma {:induction false} AllNonTest(fs: seq<FileStat>)
    requires forall i :: 0 <= i < |fs| ==> !fs[i].isTest
    ensures NonTestFiles(fs) == fs
    ensures TestFiles(fs) == []
    decreases |fs|
  {
    if |fs| > 0 {
      var init := fs[..|fs| - 1];
      AllNonTest(init);
      assert fs == init + [fs[|fs| - 1]];
    }
  }
}

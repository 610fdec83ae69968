/** The reservation priority of backend/services/priorityCalculator.js: a 0-100 figure built
    from a commit's three scores and its size pattern. JavaScript numbers are held as exact
    reals, and the integer columns as integers. */
module Priority {
  import opened Text

  /** A field the code reads under a camelCase key, falling back to its snake_case key;
      None stands for null and undefined alike. */
  datatype Keys<T> = Keys(camel: Option<T>, snake: Option<T>)

  /** The commit as the priority sees it: a model instance or a raw query row. */
  datatype CommitRecord = CommitRecord(
    habitate: Keys<real>,
    suitability: Keys<real>,
    difficulty: Keys<real>,
    fileChanges: Keys<int>,
    additions: Option<int>)

  /** `camel ?? snake`, then 0 when both are absent. */
  function ValueOf<T>(k: Keys<T>, zero: T): (r: T)
    ensures k.camel.Some? ==> r == k.camel.value
    ensures k.camel.None? && k.snake.Some? ==> r == k.snake.value
    ensures k.camel.None? && k.snake.None? ==> r == zero
  {
    if k.camel.Some? then k.camel.value
    else if k.snake.Some? then k.snake.value
    else zero
  }

  /** `Math.min(hi, Math.max(lo, x))`. The scorer's clamp in Scoring works on whole numbers;
      this one clamps JavaScript numbers, modelled as reals, so the two are kept apart. */
  function Clamp(lo: real, hi: real, x: real): (r: real)
    requires lo <= hi
    ensures lo <= r <= hi
    ensures lo <= x <= hi ==> r == x
  {
    if x < lo then lo else if x > hi then hi else x
  }

  /** JavaScript `Math.round`: the nearest integer, halves rounding up. */
  function Round(x: real): (r: int)
    ensures r as real - 0.5 <= x < r as real + 0.5
  {
    (x + 0.5).Floor
  }

  /** Habitate 0-200 mapped to 0-40. */
  function HabitatePart(h: real): (r: real)
    ensures 0.0 <= r <= 40.0
  {
    Clamp(0.0, 40.0, h / 5.0)
  }

  /** A score of at most 1 is a fraction and is put on the 0-100 scale first. */
  function Normalised(x: real): real {
    if x <= 1.0 then x * 100.0 else x
  }

  function SuitabilityPart(s: real): (r: real)
    ensures 0.0 <= r <= 30.0
  {
    Clamp(0.0, 30.0, Normalised(s) / 100.0 * 30.0)
  }

  function DifficultyPart(d: real): (r: real)
    ensures 0.0 <= r <= 20.0
  {
    Clamp(0.0, 20.0, Normalised(d) / 100.0 * 20.0)
  }

  /** 5 for a single file with 200 or more additions, 5 for three or more files with 300 or
      more; the two cases exclude each other. */
  function PatternBonus(fileChanges: int, additions: int): (r: real)
    ensures r == 0.0 || r == 5.0
    ensures r == 5.0 <==> (fileChanges == 1 && additions >= 200) || (fileChanges >= 3 && additions >= 300)
  {
    var single := if fileChanges == 1 && additions >= 200 then 5.0 else 0.0;
    var multi := if fileChanges >= 3 && additions >= 300 then 5.0 else 0.0;
    single + multi
  }

  function Max(a: int, b: int): int { if a >= b then a else b }
  function Min(a: int, b: int): int { if a <= b then a else b }

  /** The priority of given scores and size: the rounded sum of the parts, clamped to 0-100. */
  function PriorityOf(h: real, s: real, d: real, fileChanges: int, additions: int): (r: int)
    ensures 0 <= r <= 95
  {
    var raw := HabitatePart(h) + SuitabilityPart(s) + DifficultyPart(d) + PatternBonus(fileChanges, additions);
    Min(100, Max(0, Round(raw)))
  }

  /** computePriorityFromCommit: 0 for a missing commit, otherwise the priority of its fields,
      absent ones counting as 0. */
  function ComputePriority(commit: Option<CommitRecord>): (r: int)
    ensures commit.None? ==> r == 0
    ensures 0 <= r <= 95
  {
    match commit
    case None => 0
    case Some(c) =>
      PriorityOf(ValueOf(c.habitate, 0.0), ValueOf(c.suitability, 0.0), ValueOf(c.difficulty, 0.0),
                 ValueOf(c.fileChanges, 0), c.additions.GetOr(0))
  }

  /** The camelCase key decides whenever it is present; the snake_case key is then ignored. */
  lemma CamelCaseWins(c: CommitRecord, snakeH: Option<real>, snakeS: Option<real>, snakeD: Option<real>,
                      snakeF: Option<int>)
    requires c.habitate.camel.Some? && c.suitability.camel.Some? && c.difficulty.camel.Some?
    requires c.fileChanges.camel.Some?
    ensures ComputePriority(Some(c)) == ComputePriority(Some(c.(
      habitate := c.habitate.(snake := snakeH),
      suitability := c.suitability.(snake := snakeS),
      difficulty := c.difficulty.(snake := snakeD),
      fileChanges := c.fileChanges.(snake := snakeF))))
  {
  }

  /** A commit with no score or size fields at all has priority 0. */
  lemma EmptyCommitHasZeroPriority()
    ensures ComputePriority(Some(CommitRecord(Keys(None, None), Keys(None, None), Keys(None, None),
                                               Keys(None, None), None))) == 0
  {
    assert Round(0.0) == 0;
  }

  /** A fraction and the same value on the 0-100 scale give the same part. */
  lemma FractionsAreScaled(x: real)
    requires 0.01 < x <= 1.0
    ensures SuitabilityPart(x) == SuitabilityPart(100.0 * x)
    ensures DifficultyPart(x) == DifficultyPart(100.0 * x)
    ensures SuitabilityPart(x) == 30.0 * x && DifficultyPart(x) == 20.0 * x
  {
  }

  lemma {:induction false} RoundMonotone(x: real, y: real)
    requires x <= y
    ensures Round(x) <= Round(y)
  {
    assert (x + 0.5).Floor as real <= x + 0.5 <= y + 0.5 < (y + 0.5).Floor as real + 1.0;
  }

  /** With everything else fixed, a higher habitate score never lowers the priority. */
  lemma {:induction false} PriorityMonotoneInHabitate(h1: real, h2: real, s: real, d: real, fileChanges: int, additions: int)
    requires h1 <= h2
    ensures PriorityOf(h1, s, d, fileChanges, additions) <= PriorityOf(h2, s, d, fileChanges, additions)
  {
    assert HabitatePart(h1) <= HabitatePart(h2);
    var rest := SuitabilityPart(s) + DifficultyPart(d) + PatternBonus(fileChanges, additions);
    RoundMonotone(HabitatePart(h1) + rest, HabitatePart(h2) + rest);
  }

  /** The top priority is reached only with a size bonus and every part at its cap. */
  lemma PriorityWithoutBonus(h: real, s: real, d: real, fileChanges: int, additions: int)
    requires PatternBonus(fileChanges, additions) == 0.0
    ensures PriorityOf(h, s, d, fileChanges, additions) <= 90
  {
  }
}

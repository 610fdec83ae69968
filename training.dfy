/** The label derivation, class weighting and threshold sweep of
    backend/repofind/train_success_model.py. The classifier, the scaler and the train/test
    split are foreign numeric code: the sweep takes the test labels and the predicted
    probabilities as given. */
module Training {
  import opened Text
  import J = Json
  import FeatureRows

  /** The classifier's inputs: the exporter's columns without the status label. */
  const FeatureNames: seq<string> := [
    "habitate_score", "difficulty_score", "suitability_score",
    "repo_id", "file_changes", "additions", "deletions", "net_change",
    "test_additions", "non_test_additions", "is_merge",
    "has_dependency_changes", "test_coverage_score", "is_behavior_preserving_refactor",
    "commit_month", "commit_dow",
    "multi_file", "cross_directory", "many_directories", "has_core_files",
    "large_single_file", "multiple_high_additions", "directory_count",
    "test_file_count", "non_test_file_count", "single_file_200plus", "multi_file_300plus",
    "has_test_changes"
  ]

  /** The feature list is the exported record minus its last column, in the same order. */
  lemma FeatureNamesMatchExport()
    ensures |FeatureNames| == 28
    ensures FeatureRows.CsvColumns == FeatureNames + ["status"]
  {
  }

  /** The three scores come first. */
  lemma ScoresLeadFeatures()
    ensures |FeatureNames| == 28
    ensures FeatureNames[0] == "habitate_score" && FeatureNames[1] == "difficulty_score"
    ensures FeatureNames[2] == "suitability_score"
  {
  }

  /** No feature name is listed twice. */
  lemma FeatureNamesDistinct()
    ensures forall i, j :: 0 <= i < j < |FeatureNames| ==> FeatureNames[i] != FeatureNames[j]
  {
  }

  // ---------------------------------------------------------------- load_data

  /** One line of the training file: its status and the numeric cells present on it (a missing
      column or an empty cell has no entry). */
  datatype CsvRecord = CsvRecord(status: string, cells: map<string, real>)

  datatype Dataset = Dataset(x: seq<seq<real>>, y: seq<int>)

  /** The rows whose status is paid_out or too_easy, in file order. */
  function Kept(rows: seq<CsvRecord>): (r: seq<CsvRecord>)
    ensures |r| <= |rows|
    ensures forall i :: 0 <= i < |r| ==> r[i].status in FeatureRows.Statuses
    ensures forall i :: 0 <= i < |rows| && rows[i].status in FeatureRows.Statuses ==> rows[i] in r
    ensures forall c :: c in r ==> c in rows
  {
    if |rows| == 0 then []
    else if rows[0].status in FeatureRows.Statuses then [rows[0]] + Kept(rows[1..])
    else Kept(rows[1..])
  }

  /** `reindex(columns=FEATURE_NAMES).fillna(0)`: the features in list order, 0 where absent. */
  function FeatureVector(cells: map<string, real>): seq<real> {
    seq(|FeatureNames|, k requires 0 <= k < |FeatureNames| =>
      if FeatureNames[k] in cells then cells[FeatureNames[k]] else 0.0)
  }

  /** `1 if status == 'paid_out' else 0`. */
  function Label(status: string): int {
    if status == "paid_out" then 1 else 0
  }

  function LoadData(rows: seq<CsvRecord>): Dataset {
    var kept := Kept(rows);
    Dataset(seq(|kept|, i requires 0 <= i < |kept| => FeatureVector(kept[i].cells)),
            seq(|kept|, i requires 0 <= i < |kept| => Label(kept[i].status)))
  }

  /** One example per kept row; label 1 exactly for paid_out and 0 exactly for too_easy; every
      vector has the 28 features, a missing one read as 0. */
  lemma LoadDataLabels(rows: seq<CsvRecord>)
    ensures var d, kept := LoadData(rows), Kept(rows);
      && |d.x| == |d.y| == |kept|
      && (forall i :: 0 <= i < |kept| ==>
            && (d.y[i] == 1 <==> kept[i].status == "paid_out")
            && (d.y[i] == 0 <==> kept[i].status == "too_easy")
            && |d.x[i]| == 28
            && (forall k :: 0 <= k < 28 && FeatureNames[k] !in kept[i].cells ==> d.x[i][k] == 0.0)
            && (forall k :: 0 <= k < 28 && FeatureNames[k] in kept[i].cells ==>
                  d.x[i][k] == kept[i].cells[FeatureNames[k]]))
  {
    var kept := Kept(rows);
    forall i | 0 <= i < |kept|
      ensures kept[i].status == "paid_out" || kept[i].status == "too_easy"
    {
      assert kept[i].status in FeatureRows.Statuses;
    }
  }

  // ---------------------------------------------------------------- class weighting

  function CountLabel(y: seq<int>, target: int): (n: nat)
    ensures n <= |y|
  {
    if |y| == 0 then 0 else (if y[0] == target then 1 else 0) + CountLabel(y[1..], target)
  }

  /** `n_neg / n_pos`, or 1.0 when the training split has no positive example. */
  function ScalePosWeight(y: seq<int>): (w: real)
    ensures w >= 0.0
  {
    var neg, pos := CountLabel(y, 0), CountLabel(y, 1);
    if pos > 0 then neg as real / pos as real else 1.0
  }

  lemma CountLabelsSplit(y: seq<int>)
    requires forall i :: 0 <= i < |y| ==> y[i] == 0 || y[i] == 1
    ensures CountLabel(y, 0) + CountLabel(y, 1) == |y|
  {
  }

  /** The weight times the number of positives is the number of negatives; with no positive
      it is 1. */
  lemma ScalePosWeightBalances(y: seq<int>)
    ensures var neg, pos := CountLabel(y, 0), CountLabel(y, 1);
      && (pos > 0 ==> ScalePosWeight(y) * pos as real == neg as real)
      && (pos == 0 ==> ScalePosWeight(y) == 1.0)
  {
    var neg, pos := CountLabel(y, 0) as real, CountLabel(y, 1) as real;
    if pos > 0.0 {
      assert ScalePosWeight(y) == neg / pos;
    }
  }

  /** On 0/1 labels with at least one positive, the weight is 1 exactly on a balanced split. */
  lemma ScalePosWeightBalanced(y: seq<int>)
    requires forall i :: 0 <= i < |y| ==> y[i] == 0 || y[i] == 1
    requires CountLabel(y, 1) > 0
    ensures ScalePosWeight(y) == 1.0 <==> 2 * CountLabel(y, 1) == |y|
  {
    var neg, pos := CountLabel(y, 0), CountLabel(y, 1);
    CountLabelsSplit(y);
    assert neg + pos == |y|;
    assert ScalePosWeight(y) == neg as real / pos as real;
    UnitRatio(neg, pos);
  }

  lemma UnitRatio(neg: nat, pos: nat)
    requires pos > 0
    ensures neg as real / pos as real == 1.0 <==> neg == pos
  {
    var q := neg as real / pos as real;
    assert q * pos as real == neg as real;
  }

  // ---------------------------------------------------------------- metrics

  /** `(y_proba >= t).astype(int)`. */
  function Predictions(proba: seq<real>, t: real): (p: seq<int>)
    ensures |p| == |proba|
  {
    seq(|proba|, i requires 0 <= i < |proba| => if proba[i] >= t then 1 else 0)
  }

  /** The number of positions where the truth is `truth` and the prediction `predicted`. */
  function Count(yTrue: seq<int>, yPred: seq<int>, truth: int, predicted: int): nat
    requires |yTrue| == |yPred|
  {
    if |yTrue| == 0 then 0
    else (if yTrue[0] == truth && yPred[0] == predicted then 1 else 0)
         + Count(yTrue[1..], yPred[1..], truth, predicted)
  }

  datatype Metrics = Metrics(prec: real, rec: real, f1: real)

  /** Precision, recall and F1 from the confusion counts, 0 where a denominator is 0. */
  function MetricsOf(tp: nat, fp: nat, fn: nat): (m: Metrics)
    ensures 0.0 <= m.prec <= 1.0 && 0.0 <= m.rec <= 1.0 && 0.0 <= m.f1 <= 1.0
    ensures tp == 0 ==> m == Metrics(0.0, 0.0, 0.0)
  {
    RatioInUnit(tp, tp + fp);
    RatioInUnit(tp, tp + fn);
    RatioInUnit(2 * tp, 2 * tp + fp + fn);
    Metrics(
      if tp + fp == 0 then 0.0 else tp as real / (tp + fp) as real,
      if tp + fn == 0 then 0.0 else tp as real / (tp + fn) as real,
      if 2 * tp + fp + fn == 0 then 0.0 else (2 * tp) as real / (2 * tp + fp + fn) as real)
  }

  lemma RatioInUnit(a: nat, b: nat)
    requires a <= b
    ensures b > 0 ==> 0.0 <= a as real / b as real <= 1.0
  {
    if b > 0 {
      assert a as real / b as real * b as real == a as real;
    }
  }

  /** F1 is the harmonic mean of precision and recall whenever both are positive. */
  lemma F1IsHarmonicMean(tp: nat, fp: nat, fn: nat)
    requires tp > 0
    ensures var m := MetricsOf(tp, fp, fn);
      m.prec > 0.0 && m.rec > 0.0 && m.f1 * (m.prec + m.rec) == 2.0 * m.prec * m.rec
  {
    var t, p, n := tp as real, fp as real, fn as real;
    var m := MetricsOf(tp, fp, fn);
    assert m.prec * (t + p) == t;
    assert m.rec * (t + n) == t;
    assert m.f1 * (2.0 * t + p + n) == 2.0 * t;
    calc {
      m.f1 * (m.prec + m.rec) * (t + p) * (t + n);
      m.f1 * (m.prec * (t + p) * (t + n) + m.rec * (t + n) * (t + p));
      m.f1 * (t * (t + n) + t * (t + p));
      t * (m.f1 * (2.0 * t + p + n));
      2.0 * t * t;
      2.0 * (m.prec * (t + p)) * (m.rec * (t + n));
      2.0 * m.prec * m.rec * (t + p) * (t + n);
    }
    assert (t + p) * (t + n) > 0.0;
  }

  function Scores(yTest: seq<int>, proba: seq<real>, t: real): Metrics
    requires |yTest| == |proba|
  {
    var pred := Predictions(proba, t);
    MetricsOf(Count(yTest, pred, 1, 1), Count(yTest, pred, 0, 1), Count(yTest, pred, 1, 0))
  }

  // ---------------------------------------------------------------- _tune_threshold

  /** `np.arange(0.50, 0.56, 0.05)`. */
  const DefaultThresholds: seq<real> := [0.50, 0.55]

  /** The running best of the sweep; `index` is the candidate it came from, -1 before any. */
  datatype Choice = Choice(f1: real, thr: real, rec: real, prec: real, index: int)

  const Initial := Choice(-1.0, 0.5, 0.0, 0.0, -1)

  /** A candidate replaces the running best when its F1 is higher, or equal with higher recall. */
  function Step(best: Choice, m: Metrics, t: real, i: int): Choice {
    if m.f1 > best.f1 || (m.f1 == best.f1 && m.rec > best.rec) then Choice(m.f1, t, m.rec, m.prec, i)
    else best
  }

  /** The sweep over the candidates in order. */
  function Sweep(yTest: seq<int>, proba: seq<real>, ts: seq<real>): Choice
    requires |yTest| == |proba|
    decreases |ts|
  {
    if |ts| == 0 then Initial
    else
      var n := |ts| - 1;
      Step(Sweep(yTest, proba, ts[..n]), Scores(yTest, proba, ts[n]), ts[n], n)
  }

  /** The chosen threshold is one of the candidates and reproduces its reported metrics; no
      candidate has a higher F1; none with the same F1 has a higher recall; and no earlier
      candidate ties it on both, so the earliest full tie wins. */
  lemma {:induction false} SweepChoosesBest(yTest: seq<int>, proba: seq<real>, ts: seq<real>)
    requires |yTest| == |proba| && |ts| > 0
    ensures var b := Sweep(yTest, proba, ts);
      && 0 <= b.index < |ts| && b.thr == ts[b.index]
      && Scores(yTest, proba, ts[b.index]) == Metrics(b.prec, b.rec, b.f1)
      && (forall i :: 0 <= i < |ts| ==> Scores(yTest, proba, ts[i]).f1 <= b.f1)
      && (forall i :: 0 <= i < |ts| && Scores(yTest, proba, ts[i]).f1 == b.f1 ==>
            Scores(yTest, proba, ts[i]).rec <= b.rec)
      && (forall i :: 0 <= i < b.index ==>
            !(Scores(yTest, proba, ts[i]).f1 == b.f1 && Scores(yTest, proba, ts[i]).rec == b.rec))
  {
    var n := |ts| - 1;
    var m := Scores(yTest, proba, ts[n]);
    if n == 0 {
      assert Sweep(yTest, proba, ts[..0]) == Initial;
    } else {
      var prefix := ts[..n];
      SweepChoosesBest(yTest, proba, prefix);
      var b := Sweep(yTest, proba, prefix);
      assert forall i :: 0 <= i < n ==> prefix[i] == ts[i];
      var after := Step(b, m, ts[n], n);
      assert Sweep(yTest, proba, ts) == after;
      if after != b {
        forall i | 0 <= i < n
          ensures !(Scores(yTest, proba, ts[i]).f1 == m.f1 && Scores(yTest, proba, ts[i]).rec == m.rec)
        {
          assert Scores(yTest, proba, prefix[i]).f1 <= b.f1;
        }
      }
    }
  }

  /** The first candidate is always taken, since F1 is never below 0; no candidate leaves the
      initial threshold 0.5. */
  lemma SweepStarts(yTest: seq<int>, proba: seq<real>, ts: seq<real>)
    requires |yTest| == |proba|
    ensures |ts| == 0 ==> Sweep(yTest, proba, ts) == Initial
    ensures |ts| > 0 ==> Sweep(yTest, proba, ts[..1]).thr == ts[0]
  {
    if |ts| > 0 {
      assert ts[..1][..0] == [];
      assert ts[..1][0] == ts[0];
    }
  }

  datatype SweepRow = SweepRow(t: real, prec: real, rec: real, f1: real)

  function RowOf(yTest: seq<int>, proba: seq<real>, t: real): SweepRow
    requires |yTest| == |proba|
  {
    var m := Scores(yTest, proba, t);
    SweepRow(t, m.prec, m.rec, m.f1)
  }

  /** _tune_threshold: scores every candidate in order (the default pair when none is given),
      records one row per candidate and returns the sweep's choice. */
  method TuneThreshold(yTest: seq<int>, proba: seq<real>, thresholds: Option<seq<real>>)
    returns (thr: real, prec: real, rec: real, f1: real, rows: seq<SweepRow>)
    requires |yTest| == |proba|
    ensures var ts := if thresholds.Some? then thresholds.value else DefaultThresholds;
      && var b := Sweep(yTest, proba, ts);
      && thr == b.thr && prec == b.prec && rec == b.rec && f1 == b.f1
      && |rows| == |ts|
      && (forall i :: 0 <= i < |ts| ==> rows[i] == RowOf(yTest, proba, ts[i]))
  {
    var ts := if thresholds.Some? then thresholds.value else DefaultThresholds;
    var best := Initial;
    rows := [];
    for i := 0 to |ts|
      invariant best == Sweep(yTest, proba, ts[..i])
      invariant |rows| == i
      invariant forall k :: 0 <= k < i ==> rows[k] == RowOf(yTest, proba, ts[k])
    {
      var m := Scores(yTest, proba, ts[i]);
      rows := rows + [SweepRow(ts[i], m.prec, m.rec, m.f1)];
      assert ts[..i + 1][..i] == ts[..i];
      best := Step(best, m, ts[i], i);
    }
    assert ts[..|ts|] == ts;
    thr, prec, rec, f1 := best.thr, best.prec, best.rec, best.f1;
  }

  /** The persisted configuration `{"threshold": chosen}`. */
  function ConfigFor(thr: real): (c: J.Json)
    ensures c.Obj? && c.fields.Keys == {"threshold"} && c.fields["threshold"] == J.Num(thr)
  {
    J.Obj(map["threshold" := J.Num(thr)])
  }
}

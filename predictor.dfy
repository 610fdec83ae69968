/** The scoring side of the classifier, backend/repofind/success_predictor.py: a process-wide
    cache that loads the model, the scaler and the decision threshold once, and `predict`,
    which assembles a dense feature row from sparse keyword arguments and applies the
    threshold. The model and the scaler are foreign code, given as functions. */
module Predictor {
  import opened Text
  import J = Json
  import Training

  /** The fitted scaler: how many features it was fitted on, if it records that, and its
      transformation of one row. */
  datatype Scaler = Scaler(featureCount: Option<nat>, transform: seq<real> -> seq<real>)

  /** The fitted classifier: its class labels in order and the class probabilities it gives
      one scaled row. */
  datatype Classifier = Classifier(classes: seq<int>, predictProba: seq<real> -> seq<real>)

  /** The configuration file: missing, or present with its decoded contents (None when it
      does not decode). */
  datatype ConfigFile = Missing | Present(document: Option<J.Json>)

  const DefaultThreshold: real := 0.5

  /** `float(json.load(f).get('threshold', 0.5))`: a decode error, or a null or container value
      (a TypeError), falls back to 0.5; None where the error escapes: a document that is not an
      object, or text that is not a number. */
  function ReadThreshold(document: Option<J.Json>): (r: Option<real>)
    ensures document.None? ==> r == Some(DefaultThreshold)
    ensures document.Some? && !document.value.Obj? ==> r.None?
    ensures document.Some? && document.value.Obj? && "threshold" !in document.value.fields ==>
      r == Some(DefaultThreshold)
  {
    match document
    case None => Some(DefaultThreshold)
    case Some(d) =>
      match J.Get(d, "threshold", J.Num(DefaultThreshold))
      case None => None
      case Some(v) =>
        if v.Null? || v.Arr? || v.Obj? then Some(DefaultThreshold) else J.PyFloat(v)
  }

  /** The threshold the training run saves is the one the predictor reads back. */
  lemma ConfigRoundTrip(thr: real)
    ensures ReadThreshold(Some(Training.ConfigFor(thr))) == Some(thr)
  {
  }

  /** The cached threshold after `_load`: a cached value stays; otherwise the configuration
      file gives it, or 0.5 when the file is missing; None when reading it raised. */
  function NextThreshold(cached: Option<real>, config: ConfigFile): (r: Option<real>)
    ensures cached.Some? ==> r == cached
    ensures cached.None? && config.Missing? ==> r == Some(DefaultThreshold)
  {
    if cached.Some? then cached
    else match config
      case Missing => Some(DefaultThreshold)
      case Present(document) => ReadThreshold(document)
  }

  /** Loading twice is loading once. */
  lemma NextThresholdIdempotent(cached: Option<real>, config: ConfigFile)
    ensures NextThreshold(NextThreshold(cached, config), config) == NextThreshold(cached, config)
  {
  }

  // ---------------------------------------------------------------- feature assembly
  //
  // `row` is a dictionary keyed by FEATURE_NAMES; since those names are distinct, it is held
  // here as the vector of its values in FEATURE_NAMES order, a name standing for its position.

  /** The keyword arguments Python binds to named parameters and so never reach `extra`. */
  predicate NamedParameter(name: string) {
    name == "habitate_score" || name == "difficulty_score" || name == "suitability_score"
    || name == "threshold"
  }

  /** Keyword arguments have distinct names, none of them a named parameter. */
  predicate ValidExtras(extras: seq<(string, J.Json)>) {
    && (forall i, j :: 0 <= i < j < |extras| ==> extras[i].0 != extras[j].0)
    && (forall i :: 0 <= i < |extras| ==> !NamedParameter(extras[i].0))
  }

  function BoolFeatures(): set<string> {{
    "is_merge", "has_dependency_changes", "is_behavior_preserving_refactor",
    "multi_file", "cross_directory", "many_directories", "has_core_files",
    "large_single_file", "multiple_high_additions", "single_file_200plus", "multi_file_300plus",
    "has_test_changes"
  }}

  /** Every boolean feature is one of the classifier's features. */
  lemma BoolFeaturesAreFeatures()
    ensures forall k :: k in BoolFeatures() ==> k in Training.FeatureNames
  {
  }

  /** The first position of `x` in `s`, or -1. */
  function Find<T(==)>(s: seq<T>, x: T): (i: int)
    ensures -1 <= i < |s|
    ensures i < 0 <==> x !in s
    ensures i >= 0 ==> s[i] == x && x !in s[..i]
  {
    if |s| == 0 then -1
    else if s[0] == x then 0
    else
      var j := Find(s[1..], x);
      if j < 0 then -1
      else
        assert s[..j + 1] == [s[0]] + s[1..][..j];
        j + 1
  }

  /** The value an extra argument stores: 1 or 0 by truthiness for a boolean feature, 0 for
      None, otherwise `float(v)` (None where that raises). */
  function ExtraValue(bools: set<string>, name: string, v: J.Json): (r: Option<real>)
    ensures name in bools ==> r == Some(if J.PyTruthy(v) then 1.0 else 0.0)
    ensures name !in bools && v.Null? ==> r == Some(0.0)
    ensures name !in bools && !v.Null? ==> r == J.PyFloat(v)
  {
    if name in bools then Some(if J.PyTruthy(v) then 1.0 else 0.0)
    else if v.Null? then Some(0.0)
    else J.PyFloat(v)
  }

  /** The feature list starts with the three scores, as FEATURE_NAMES does. */
  predicate ScoresFirst(names: seq<string>) {
    |names| >= 3 && names[0] == "habitate_score" && names[1] == "difficulty_score"
    && names[2] == "suitability_score"
  }

  lemma FeatureNamesScoresFirst()
    ensures ScoresFirst(Training.FeatureNames)
  {
    Training.ScoresLeadFeatures();
  }

  /** Every feature at 0, then the three scores as floats; None where a score does not
      convert. */
  function ScoreRow(names: seq<string>, habitate: J.Json, difficulty: J.Json, suitability: J.Json)
    : (r: Option<seq<real>>)
    requires ScoresFirst(names)
    ensures r.Some? <==> J.PyFloat(habitate).Some? && J.PyFloat(difficulty).Some? && J.PyFloat(suitability).Some?
    ensures r.Some? ==> |r.value| == |names|
  {
    var h, d, s := J.PyFloat(habitate), J.PyFloat(difficulty), J.PyFloat(suitability);
    if h.None? || d.None? || s.None? then None
    else Some([h.value, d.value, s.value] + seq(|names| - 3, _ => 0.0))
  }

  /** The three scores sit at their names' positions and every other feature starts at 0. */
  lemma ScoreRowShape(names: seq<string>, habitate: J.Json, difficulty: J.Json, suitability: J.Json)
    requires ScoresFirst(names)
    requires ScoreRow(names, habitate, difficulty, suitability).Some?
    ensures var row := ScoreRow(names, habitate, difficulty, suitability).value;
      && row[Find(names, "habitate_score")] == J.PyFloat(habitate).value
      && row[Find(names, "difficulty_score")] == J.PyFloat(difficulty).value
      && row[Find(names, "suitability_score")] == J.PyFloat(suitability).value
      && (forall j :: 0 <= j < |row| && !NamedParameter(names[j]) ==> row[j] == 0.0)
  {
    assert Find(names, "habitate_score") == 0;
    assert Find(names, "difficulty_score") == 1 by {
      assert names[1..][0] == "difficulty_score";
    }
    assert Find(names, "suitability_score") == 2 by {
      assert names[1..][1..][0] == "suitability_score";
    }
  }

  /** The extras loop: unknown names are skipped, known ones overwrite their feature. */
  function ApplyExtras(names: seq<string>, bools: set<string>, row: seq<real>, extras: seq<(string, J.Json)>)
    : (r: Option<seq<real>>)
    requires |row| == |names|
    ensures r.Some? ==> |r.value| == |row|
    decreases |extras|
  {
    if |extras| == 0 then Some(row)
    else
      var name, v := extras[0].0, extras[0].1;
      var pos := Find(names, name);
      if pos < 0 then ApplyExtras(names, bools, row, extras[1..])
      else
        match ExtraValue(bools, name, v)
        case None => None
        case Some(x) => ApplyExtras(names, bools, row[pos := x], extras[1..])
  }

  /** The result is None exactly when some known name's value does not convert; a known name
      ends with its converted value, and a feature no extra names keeps its value. */
  lemma {:induction false} ApplyExtrasEffect(names: seq<string>, bools: set<string>, row: seq<real>, extras: seq<(string, J.Json)>)
    requires |row| == |names|
    requires forall i, j :: 0 <= i < j < |extras| ==> extras[i].0 != extras[j].0
    decreases |extras|
    ensures var r := ApplyExtras(names, bools, row, extras);
      && (r.None? <==> exists i :: 0 <= i < |extras| && extras[i].0 in names
                                   && ExtraValue(bools, extras[i].0, extras[i].1).None?)
      && (r.Some? ==>
            && (forall i :: 0 <= i < |extras| && extras[i].0 in names ==>
                  r.value[Find(names, extras[i].0)] == ExtraValue(bools, extras[i].0, extras[i].1).value)
            && (forall j :: 0 <= j < |row| && (forall i :: 0 <= i < |extras| ==> extras[i].0 != names[j]) ==>
                  r.value[j] == row[j]))
  {
    if |extras| > 0 {
      var name, v := extras[0].0, extras[0].1;
      var rest := extras[1..];
      var pos := Find(names, name);
      assert forall i :: 0 <= i < |rest| ==> rest[i] == extras[i + 1];
      if pos < 0 {
        ApplyExtrasEffect(names, bools, row, rest);
      } else if ExtraValue(bools, name, v).Some? {
        var next := row[pos := ExtraValue(bools, name, v).value];
        ApplyExtrasEffect(names, bools, next, rest);
        var r := ApplyExtras(names, bools, next, rest);
        if r.Some? {
          forall i | 0 <= i < |rest| && rest[i].0 in names
            ensures Find(names, rest[i].0) != pos
          {
            assert rest[i].0 != name;
          }
        }
        if r.None? {
          var i :| 0 <= i < |rest| && rest[i].0 in names && ExtraValue(bools, rest[i].0, rest[i].1).None?;
          assert extras[i + 1] == rest[i];
        }
      }
    }
  }

  /** `FEATURE_NAMES[:n_features]`, n_features defaulting to all of them: a prefix of the row. */
  function Columns(row: seq<real>, featureCount: Option<nat>): (x: seq<real>)
    ensures |x| == if featureCount.Some? && featureCount.value < |row| then featureCount.value else |row|
    ensures x <= row
  {
    if featureCount.Some? && featureCount.value < |row| then row[..featureCount.value] else row
  }

  /** The probability of class 1, or 0.0 when the model has no class 1; None when the model's
      probability row is too short (an IndexError). */
  function PaidOutProbability(model: Classifier, scaled: seq<real>): (p: Option<real>)
    ensures 1 !in model.classes ==> p == Some(0.0)
  {
    var idx := Find(model.classes, 1);
    if idx < 0 then Some(0.0)
    else
      var proba := model.predictProba(scaled);
      if idx < |proba| then Some(proba[idx]) else None
  }

  datatype Decision = Decision(probability: real, good: bool)

  /** `float(threshold) if threshold is not None else default_thr`, once `_load` has cached a
      default; None where loading or the conversion raised. */
  function ThresholdChoice(cached: Option<real>, threshold: J.Json): (r: Option<real>)
    ensures cached.None? ==> r.None?
    ensures cached.Some? && threshold.Null? ==> r == cached
  {
    if cached.None? then None
    else if threshold.Null? then cached
    else J.PyFloat(threshold)
  }

  /** The dense row: the scores, then the extras; None where a conversion raised. */
  function RowFor(names: seq<string>, bools: set<string>, habitate: J.Json, difficulty: J.Json,
                  suitability: J.Json, extras: seq<(string, J.Json)>): (r: Option<seq<real>>)
    requires ScoresFirst(names)
    ensures r.Some? ==> |r.value| == |names|
  {
    match ScoreRow(names, habitate, difficulty, suitability)
    case None => None
    case Some(scores) => ApplyExtras(names, bools, scores, extras)
  }

  /** The row of `predict`: the three scores converted, then the extras loop, where unknown
      names are skipped and known ones overwrite their feature; None where a value does not
      convert. */
  method AssembleRow(names: seq<string>, bools: set<string>, habitate: J.Json, difficulty: J.Json,
                     suitability: J.Json, extras: seq<(string, J.Json)>)
    returns (result: Option<seq<real>>)
    requires ScoresFirst(names)
    ensures result == RowFor(names, bools, habitate, difficulty, suitability, extras)
  {
    var scores := ScoreRow(names, habitate, difficulty, suitability);
    if scores.None? {
      return None;
    }
    var row := scores.value;
    for i := 0 to |extras|
      invariant |row| == |names|
      invariant ApplyExtras(names, bools, scores.value, extras) == ApplyExtras(names, bools, row, extras[i..])
    {
      assert extras[i..][1..] == extras[i + 1..];
      var name, v := extras[i].0, extras[i].1;
      var pos := Find(names, name);
      if pos >= 0 {
        var value := ExtraValue(bools, name, v);
        if value.None? {
          return None;
        }
        row := row[pos := value.value];
      }
    }
    assert extras[|extras|..] == [];
    return Some(row);
  }

  /** The model on the first n_features columns and the decision `p >= thr`. */
  function Finish(model: Classifier, scaler: Scaler, thr: Option<real>, row: Option<seq<real>>)
    : (r: Option<Decision>)
    ensures r.Some? <==> (thr.Some? && row.Some?
      && PaidOutProbability(model, scaler.transform(Columns(row.value, scaler.featureCount))).Some?)
    ensures r.Some? ==> (r.value.good <==> r.value.probability >= thr.value)
    ensures r.Some? && 1 !in model.classes ==> r.value.probability == 0.0
  {
    if thr.None? || row.None? then None
    else
      match PaidOutProbability(model, scaler.transform(Columns(row.value, scaler.featureCount)))
      case None => None
      case Some(p) => Some(Decision(p, p >= thr.value))
  }

  /** What `predict` returns given the cached threshold; None where Python raises. */
  function Prediction(names: seq<string>, bools: set<string>, model: Classifier, scaler: Scaler,
                      cached: Option<real>, habitate: J.Json, difficulty: J.Json, suitability: J.Json,
                      threshold: J.Json, extras: seq<(string, J.Json)>): Option<Decision>
    requires ScoresFirst(names)
  {
    Finish(model, scaler, ThresholdChoice(cached, threshold),
           RowFor(names, bools, habitate, difficulty, suitability, extras))
  }

  /** The decision is `p >= thr`, thr being the explicit argument when given and the cached
      default otherwise; a model without class 1 gives probability 0; nothing is decided
      before `_load` has cached a threshold. */
  lemma PredictionDecision(names: seq<string>, bools: set<string>, model: Classifier, scaler: Scaler,
                           cached: Option<real>, habitate: J.Json, difficulty: J.Json, suitability: J.Json,
                           threshold: J.Json, extras: seq<(string, J.Json)>)
    requires ScoresFirst(names)
    ensures var r := Prediction(names, bools, model, scaler, cached, habitate, difficulty, suitability, threshold, extras);
      && (cached.None? ==> r.None?)
      && (r.Some? && threshold.Null? ==> (r.value.good <==> r.value.probability >= cached.value))
      && (r.Some? && !threshold.Null? ==>
            J.PyFloat(threshold).Some? && (r.value.good <==> r.value.probability >= J.PyFloat(threshold).value))
      && (r.Some? && 1 !in model.classes ==> r.value.probability == 0.0)
  {
  }

  /** The module-level cache of `_load`, with the feature list imported from the training
      module. `joblib.load` is file I/O: the contents of the model and scaler files are
      parameters, read into the cache the first time only; `loads` counts those reads. */
  class Predictor {
    const features: seq<string>
    const boolFeatures: set<string>
    var model: Option<Classifier>
    var scaler: Option<Scaler>
    var loads: nat
    var threshold: Option<real>

    /** `_model` and `_scaler` are assigned together. */
    predicate Valid()
      reads this
    {
      model.Some? <==> scaler.Some?
    }

    constructor()
      ensures features == Training.FeatureNames && ScoresFirst(features)
      ensures boolFeatures == BoolFeatures()
      ensures Valid() && model.None? && loads == 0 && threshold.None?
    {
      features := Training.FeatureNames;
      boolFeatures := BoolFeatures();
      FeatureNamesScoresFirst();
      model, scaler, loads, threshold := None, None, 0, None;
    }

    /** _load: reads the model and scaler files unless a model is cached, and the threshold
        unless one is cached; false when reading the configuration raised. A cached model and
        scaler are kept whatever the files now hold. */
    method Load(modelFile: Classifier, scalerFile: Scaler, config: ConfigFile) returns (ok: bool)
      requires Valid()
      modifies this
      ensures Valid() && model.Some?
      ensures old(model).Some? ==> model == old(model) && scaler == old(scaler) && loads == old(loads)
      ensures old(model).None? ==> model == Some(modelFile) && scaler == Some(scalerFile) && loads == old(loads) + 1
      ensures threshold == NextThreshold(old(threshold), config)
      ensures ok <==> threshold.Some?
    {
      if model.None? {
        model, scaler := Some(modelFile), Some(scalerFile);
        loads := loads + 1;
      }
      if threshold.None? && config.Present? {
        threshold := ReadThreshold(config.document);
      } else if threshold.None? {
        threshold := Some(DefaultThreshold);
      }
      ok := threshold.Some?;
    }

    /** predict: loads the cache, converts the threshold and the scores, fills the row from the
        extra arguments in a loop, and applies the cached model to the first n_features
        columns. */
    method Predict(modelFile: Classifier, scalerFile: Scaler, config: ConfigFile,
                   habitate: J.Json, difficulty: J.Json, suitability: J.Json,
                   thresholdArg: J.Json, extras: seq<(string, J.Json)>)
      returns (result: Option<Decision>)
      requires Valid() && ScoresFirst(features) && ValidExtras(extras)
      modifies this
      ensures Valid() && model.Some? && scaler.Some?
      ensures old(model).Some? ==> model == old(model) && scaler == old(scaler) && loads == old(loads)
      ensures old(model).None? ==> model == Some(modelFile) && scaler == Some(scalerFile) && loads == old(loads) + 1
      ensures threshold == NextThreshold(old(threshold), config)
      ensures result == Prediction(features, boolFeatures, model.value, scaler.value, threshold,
                                   habitate, difficulty, suitability, thresholdArg, extras)
    {
      var _ := Load(modelFile, scalerFile, config);
      var thr := ThresholdChoice(threshold, thresholdArg);
      var row := AssembleRow(features, boolFeatures, habitate, difficulty, suitability, extras);
      result := Finish(model.value, scaler.value, thr, row);
    }
  }
}

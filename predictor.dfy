/**
 * `TicketPredictor` (ml_predictions.py:15-324): four model fields and a
 * `models_trained` flag, loaded from pickled artifacts or trained on demand,
 * and the post-processing of the two predictions.
 *
 * scikit-learn and joblib are opaque here. A fitted vectoriser, classifier,
 * regressor and label decoder are functions whose `None` result stands for
 * the call raising; fitting goes through an `MlLibrary` of such functions.
 */
module Predictor {
  import opened Wrappers
  import opened TextNormalizer
  import opened SampleData
  import opened TrainingData
  import opened Rounding

  type Features = seq<real>

  /** What `predict` and `predict_proba` return for one document. */
  datatype ClassOutput = ClassOutput(labelId: int, probabilities: seq<real>)

  /** `transform([text])` of a fitted TF-IDF vectoriser. */
  type Vectorizer = string -> Option<Features>
  type Classifier = Features -> Option<ClassOutput>
  type Regressor = Features -> Option<real>
  /** `inverse_transform([id])[0]` of a fitted label encoder. */
  type LabelDecoder = int -> Option<string>

  /** A scikit-learn object before and after a successful `fit`. */
  datatype Fit<T> = Unfitted | Fitted(fitted: T)

  /** The objects the four model fields hold and that are pickled to disk. */
  datatype Model =
    | VectorizerModel(vectorizer: Fit<Vectorizer>)
    | EncoderModel(encoder: Fit<LabelDecoder>)
    | ClassifierModel(classifier: Fit<Classifier>)
    | RegressorModel(regressor: Fit<Regressor>)

  /** A file in the model directory: a pickled object, or one `joblib.load` fails on. */
  datatype Blob = Pickled(model: Model) | Unreadable

  /**
   * The fitting calls of `train_models`; `None` when the call raises. The
   * classifier and the regressor are fitted on the training part of the
   * split, which the library computes from the whole features and targets.
   */
  datatype MlLibrary = MlLibrary(
    fitVectorizer: seq<string> -> Option<(Vectorizer, seq<Features>)>,
    fitEncoder: seq<string> -> Option<(LabelDecoder, seq<int>)>,
    fitClassifier: (seq<Features>, seq<int>) -> Option<Classifier>,
    fitRegressor: (seq<Features>, seq<real>) -> Option<Regressor>)

  /** Everything outside the object that training depends on. */
  datatype Environment = Environment(
    table: Option<seq<TicketRow>>,   // the tickets table; None when reading it raises
    draw: nat -> Draw,               // the random draws of the synthetic generator
    lib: MlLibrary,
    writable: set<string>)           // artifact names `joblib.dump` can write

  /** A call that returns a value or lets an exception escape. */
  datatype Outcome<T> = Returned(value: T) | Raised

  const CategoryModelFile: string := "category_model.pkl"
  const ResolutionModelFile: string := "resolution_time_model.pkl"
  const VectorizerFile: string := "tfidf_vectorizer.pkl"
  const EncoderFile: string := "label_encoder.pkl"

  /** The four artifact names, in the order they are saved and loaded. */
  const ModelFiles: seq<string> := [CategoryModelFile, ResolutionModelFile, VectorizerFile, EncoderFile]

  /** All four artifact files exist and each of them can be unpickled. */
  predicate Loadable(files: map<string, Blob>) {
    forall name | name in ModelFiles :: name in files && files[name].Pickled?
  }

  const DefaultCategory: string := "General Inquiry"
  const DefaultHours: real := 24.0
  const MinHours: real := 1.0
  const MaxHours: real := 168.0

  /** A classifier whose class probabilities all lie in [0, 1]. */
  ghost predicate ProbabilitiesInRange(c: Classifier) {
    forall x :: c(x).Some? ==> forall p | p in c(x).value.probabilities :: 0.0 <= p <= 1.0
  }

  /** A model that is a fitted classifier has probabilities in [0, 1]. */
  ghost predicate ClassifierSound(m: Model) {
    m.ClassifierModel? && m.classifier.Fitted? ==> ProbabilitiesInRange(m.classifier.fitted)
  }

  /** Every classifier the library can fit has probabilities in [0, 1]. */
  ghost predicate SoundLibrary(lib: MlLibrary) {
    forall xs, ys :: lib.fitClassifier(xs, ys).Some? ==> ProbabilitiesInRange(lib.fitClassifier(xs, ys).value)
  }

  /**
   * `save_models` as a function of the files: the artifacts are dumped in
   * order and the first failing dump ends the sequence, the earlier files
   * staying written.
   */
  function Saved(files: map<string, Blob>, artifacts: seq<(string, Model)>, writable: set<string>): (r: map<string, Blob>)
    ensures files.Keys <= r.Keys <= files.Keys + writable
    decreases |artifacts|
  {
    if artifacts == [] || artifacts[0].0 !in writable then files
    else Saved(files[artifacts[0].0 := Pickled(artifacts[0].1)], artifacts[1..], writable)
  }

  /** When every name is writable and the names differ, each artifact ends up in its file. */
  lemma {:induction false} SavedAllWritable(files: map<string, Blob>, artifacts: seq<(string, Model)>, writable: set<string>)
    requires forall i | 0 <= i < |artifacts| :: artifacts[i].0 in writable
    requires forall i, j | 0 <= i < j < |artifacts| :: artifacts[i].0 != artifacts[j].0
    ensures forall i | 0 <= i < |artifacts| ::
      artifacts[i].0 in Saved(files, artifacts, writable) &&
      Saved(files, artifacts, writable)[artifacts[i].0] == Pickled(artifacts[i].1)
    decreases |artifacts|
  {
    if artifacts != [] {
      var files' := files[artifacts[0].0 := Pickled(artifacts[0].1)];
      SavedAllWritable(files', artifacts[1..], writable);
      SavedKeeps(files', artifacts[1..], writable, artifacts[0].0);
      forall i | 0 <= i < |artifacts|
        ensures artifacts[i].0 in Saved(files, artifacts, writable) &&
          Saved(files, artifacts, writable)[artifacts[i].0] == Pickled(artifacts[i].1)
      {
        if i > 0 {
          assert artifacts[i] == artifacts[1..][i - 1];
        }
      }
    }
  }

  /** A file none of the artifacts is written to keeps its content. */
  lemma {:induction false} SavedKeeps(files: map<string, Blob>, artifacts: seq<(string, Model)>, writable: set<string>, name: string)
    requires forall i | 0 <= i < |artifacts| :: artifacts[i].0 != name
    ensures name in files ==> name in Saved(files, artifacts, writable) && Saved(files, artifacts, writable)[name] == files[name]
    ensures name !in files ==> name !in Saved(files, artifacts, writable)
    decreases |artifacts|
  {
    if artifacts != [] && artifacts[0].0 in writable {
      SavedKeeps(files[artifacts[0].0 := Pickled(artifacts[0].1)], artifacts[1..], writable, name);
    }
  }

  /** The largest element, as Python's `max` of a non-empty list. */
  function MaxOf(s: seq<real>): (m: real)
    requires s != []
    ensures m in s
    ensures forall x | x in s :: x <= m
  {
    if |s| == 1 then s[0]
    else
      var rest := MaxOf(s[1..]);
      assert forall x | x in s :: x == s[0] || x in s[1..];
      if s[0] < rest then rest else s[0]
  }

  /** `max(1.0, min(168.0, x))`. */
  function Clamp(x: real): (r: real)
    ensures MinHours <= r <= MaxHours
    ensures MinHours <= x <= MaxHours ==> r == x
    ensures x < MinHours ==> r == MinHours
    ensures x > MaxHours ==> r == MaxHours
  {
    if x < MinHours then MinHours else if x > MaxHours then MaxHours else x
  }

  /** Rounding to a tenth keeps a value inside [1, 168], whose ends are whole tenths. */
  lemma RoundTenthInHours(x: real)
    requires MinHours <= x <= MaxHours
    ensures MinHours <= Round(x, 1) <= MaxHours
  {
    assert Scale(1) == 10.0;
    RoundWithin(x, 1, 10, 1680);
  }

  /**
   * The `try` block of `predict_category` once the models are in place:
   * any failure along the way gives the default answer.
   */
  function CategoryFromModels(vec: Option<Model>, clf: Option<Model>, enc: Option<Model>, clean: string): (r: (string, real))
    ensures clean == [] ==> r == (DefaultCategory, 0.0)
    ensures r.1 != 0.0 ==> clean != [] && vec.Some? && clf.Some? && enc.Some?
  {
    var default := (DefaultCategory, 0.0);
    if clean == [] then default
    else match (vec, clf, enc)
      case (Some(VectorizerModel(Fitted(v))), Some(ClassifierModel(Fitted(c))), Some(EncoderModel(Fitted(d)))) =>
        if v(clean).None? || c(v(clean).value).None? then default
        else
          var out := c(v(clean).value).value;
          if d(out.labelId).None? || out.probabilities == [] then default
          else (d(out.labelId).value, MaxOf(out.probabilities))
      case _ => default
  }

  /**
   * The answer is the default or the decoded label of the classifier's
   * prediction, with its largest class probability as confidence; that
   * confidence lies in [0, 1] when the classifier's probabilities do.
   */
  lemma CategoryFromModelsMeaning(vec: Option<Model>, clf: Option<Model>, enc: Option<Model>, clean: string)
    requires clf.Some? ==> ClassifierSound(clf.value)
    ensures var r := CategoryFromModels(vec, clf, enc, clean);
      var name := r.0;
      var conf := r.1;
      0.0 <= conf <= 1.0 &&
      (clean == [] ==> (name, conf) == (DefaultCategory, 0.0)) &&
      ((name, conf) == (DefaultCategory, 0.0) ||
       exists v, c, d :: vec == Some(VectorizerModel(Fitted(v))) && clf == Some(ClassifierModel(Fitted(c))) &&
         enc == Some(EncoderModel(Fitted(d))) && v(clean).Some? && c(v(clean).value).Some? &&
         d(c(v(clean).value).value.labelId) == Some(name) &&
         conf in c(v(clean).value).value.probabilities &&
         forall p | p in c(v(clean).value).value.probabilities :: p <= conf)
  {
    var r := CategoryFromModels(vec, clf, enc, clean);
    if r != (DefaultCategory, 0.0) {
      var v := vec.value.vectorizer.fitted;
      var c := clf.value.classifier.fitted;
      var d := enc.value.encoder.fitted;
      assert vec == Some(VectorizerModel(Fitted(v)));
      assert clf == Some(ClassifierModel(Fitted(c)));
      assert enc == Some(EncoderModel(Fitted(d)));
      var out := c(v(clean).value).value;
      assert r.1 in out.probabilities;
    }
  }

  /**
   * The `try` block of `predict_resolution_time` once the models are in
   * place: the regressor's value clamped to [1, 168] and rounded, or 24.0.
   */
  function ResolutionFromModels(vec: Option<Model>, reg: Option<Model>, clean: string): (r: real)
    ensures clean == [] || vec.None? || reg.None? ==> r == DefaultHours
  {
    if clean == [] then DefaultHours
    else match (vec, reg)
      case (Some(VectorizerModel(Fitted(v))), Some(RegressorModel(Fitted(g)))) =>
        if v(clean).None? || g(v(clean).value).None? then DefaultHours
        else Round(Clamp(g(v(clean).value).value), 1)
      case _ => DefaultHours
  }

  /** Whatever the regressor says, the predicted time lies in [1, 168] hours. */
  lemma ResolutionInRange(vec: Option<Model>, reg: Option<Model>, clean: string)
    ensures MinHours <= ResolutionFromModels(vec, reg, clean) <= MaxHours
    ensures clean == [] ==> ResolutionFromModels(vec, reg, clean) == DefaultHours
  {
    if clean != [] && vec.Some? && vec.value.VectorizerModel? && vec.value.vectorizer.Fitted?
       && reg.Some? && reg.value.RegressorModel? && reg.value.regressor.Fitted? {
      var v, g := vec.value.vectorizer.fitted, reg.value.regressor.fitted;
      if v(clean).Some? && g(v(clean).value).Some? {
        RoundTenthInHours(Clamp(g(v(clean).value).value));
      }
    }
  }

  /** The banding of `confidence_level`. */
  datatype ConfidenceLevel = LowConfidence | MediumConfidence | HighConfidence

  function LevelOf(confidence: real): (l: ConfidenceLevel)
    ensures l == HighConfidence <==> confidence > 0.7
    ensures l == MediumConfidence <==> 0.5 < confidence <= 0.7
    ensures l == LowConfidence <==> confidence <= 0.5
  {
    if confidence > 0.7 then HighConfidence else if confidence > 0.5 then MediumConfidence else LowConfidence
  }

  function Rank(l: ConfidenceLevel): nat {
    match l
    case LowConfidence => 0
    case MediumConfidence => 1
    case HighConfidence => 2
  }

  /** A higher confidence never gets a lower band. */
  lemma LevelMonotone(a: real, b: real)
    requires a <= b
    ensures Rank(LevelOf(a)) <= Rank(LevelOf(b))
  {
  }

  /** `predicted_resolution_time_display` before formatting: hours under a day, days otherwise. */
  datatype TimeDisplay = InHours(hours: real) | InDays(days: real)

  function DisplayOf(hours: real): (d: TimeDisplay)
    ensures d.InHours? <==> hours < 24.0
  {
    if hours < 24.0 then InHours(hours) else InDays(hours / 24.0)
  }

  /** The displayed quantity always converts back to the predicted hours. */
  function DisplayedHours(d: TimeDisplay): real {
    match d
    case InHours(h) => h
    case InDays(n) => n * 24.0
  }

  lemma DisplayRoundTrip(hours: real)
    ensures DisplayedHours(DisplayOf(hours)) == hours
    ensures DisplayOf(hours).InDays? ==> DisplayOf(hours).days >= 1.0
  {
  }

  /** The dictionary `get_prediction_insights` returns. */
  datatype Insights = Insights(
    category: string, confidencePercent: real, hours: real, display: TimeDisplay, level: ConfidenceLevel)

  function InsightsOf(category: string, confidence: real, hours: real): (r: Insights)
    ensures r.category == category && r.hours == hours
    ensures r.level == LevelOf(confidence) && r.display == DisplayOf(hours)
  {
    Insights(category, Round(confidence * 100.0, 1), hours, DisplayOf(hours), LevelOf(confidence))
  }

  /** Percentages: a confidence in [0, 1] is shown as a percentage in [0, 100]. */
  lemma PercentInRange(confidence: real)
    requires 0.0 <= confidence <= 1.0
    ensures 0.0 <= Round(confidence * 100.0, 1) <= 100.0
  {
    assert Scale(1) == 10.0;
    RoundWithin(confidence * 100.0, 1, 0, 1000);
  }

  function TextsOf(rows: seq<TrainingRow>): (r: seq<string>)
    ensures |r| == |rows| && forall i | 0 <= i < |rows| :: r[i] == rows[i].text
  {
    seq(|rows|, i requires 0 <= i < |rows| => rows[i].text)
  }

  function LabelsOf(rows: seq<TrainingRow>): (r: seq<string>)
    ensures |r| == |rows| && forall i | 0 <= i < |rows| :: r[i] == rows[i].category
  {
    seq(|rows|, i requires 0 <= i < |rows| => rows[i].category)
  }

  function HoursOf(rows: seq<TrainingRow>): (r: seq<real>)
    ensures |r| == |rows| && forall i | 0 <= i < |rows| :: r[i] == rows[i].hours
  {
    seq(|rows|, i requires 0 <= i < |rows| => rows[i].hours)
  }

  /** The rows `train_models` fits on, for a given environment. */
  function TrainingRows(env: Environment): seq<TrainingRow> {
    NonEmptyRows(LoadDataFromDb(env.table, env.draw))
  }

  /**
   * `train_test_split(..., test_size=0.2)` keeps ceil(0.2 * n) rows for the
   * test part and raises when that leaves no row to train on, which is
   * exactly when there are fewer than two rows.
   */
  const MinSplitRows: nat := 2

  /**
   * The four fitted objects a successful training run produces, or None
   * when a fit or the first split raises (the second split sees the same
   * rows, so it cannot raise once the first has not).
   */
  function FitAll(lib: MlLibrary, rows: seq<TrainingRow>): (r: Option<(Vectorizer, LabelDecoder, Classifier, Regressor)>)
    ensures |rows| < MinSplitRows ==> r.None?
  {
    var vec := lib.fitVectorizer(TextsOf(rows));
    if vec.None? then None
    else
      var enc := lib.fitEncoder(LabelsOf(rows));
      if enc.None? then None
      else if |rows| < MinSplitRows then None
      else
        var clf := lib.fitClassifier(vec.value.1, enc.value.1);
        if clf.None? then None
        else
          var reg := lib.fitRegressor(vec.value.1, HoursOf(rows));
          if reg.None? then None
          else Some((vec.value.0, enc.value.0, clf.value, reg.value))
  }

  /** `train_models` raises: there are rows to fit on, and a fit or the split raises. */
  predicate TrainingRaises(env: Environment) {
    TrainingRows(env) != [] && FitAll(env.lib, TrainingRows(env)).None?
  }

  /**
   * What the two predictions read: nothing before `models_trained` is set
   * (both answer their defaults), the four fields after.
   */
  datatype ModelState =
    | Untrained
    | Trained(vectorizer: Option<Model>, classifier: Option<Model>, encoder: Option<Model>, regressor: Option<Model>)

  /** The dictionary `get_prediction_insights` builds for a cleaned text in a given model state. */
  function InsightsIn(state: ModelState, clean: string): Insights {
    match state
    case Untrained => InsightsOf(DefaultCategory, 0.0, DefaultHours)
    case Trained(vec, clf, enc, reg) =>
      var (name, confidence) := CategoryFromModels(vec, clf, enc, clean);
      InsightsOf(name, confidence, ResolutionFromModels(vec, reg, clean))
  }

  /** The directory of pickled artifacts (`ml_models`). */
  class ArtifactStore {
    var files: map<string, Blob>

    constructor()
      ensures files == map[]
    {
      files := map[];
    }

    /** Every pickled classifier in the directory has probabilities in [0, 1]. */
    ghost predicate Sound()
      reads this
    {
      forall name | name in files && files[name].Pickled? :: ClassifierSound(files[name].model)
    }
  }

  class TicketPredictor {
    var categoryModel: Option<Model>
    var resolutionTimeModel: Option<Model>
    var tfidfVectorizer: Option<Model>
    var labelEncoder: Option<Model>
    var modelsTrained: bool
    const store: ArtifactStore

    /**
     * `models_trained` is only ever set after all four fields were
     * assigned, and a classifier the object holds has probabilities in [0, 1].
     */
    ghost predicate Valid()
      reads this, store
    {
      (modelsTrained ==>
        categoryModel.Some? && resolutionTimeModel.Some? && tfidfVectorizer.Some? && labelEncoder.Some?) &&
      (categoryModel.Some? ==> ClassifierSound(categoryModel.value)) &&
      (resolutionTimeModel.Some? ==> ClassifierSound(resolutionTimeModel.value)) &&
      (tfidfVectorizer.Some? ==> ClassifierSound(tfidfVectorizer.value)) &&
      (labelEncoder.Some? ==> ClassifierSound(labelEncoder.value)) &&
      store.Sound()
    }

    /** The four fields hold the objects of a successful fit. */
    ghost predicate HoldsFitted(fit: (Vectorizer, LabelDecoder, Classifier, Regressor))
      reads this
    {
      && tfidfVectorizer == Some(VectorizerModel(Fitted(fit.0)))
      && labelEncoder == Some(EncoderModel(Fitted(fit.1)))
      && categoryModel == Some(ClassifierModel(Fitted(fit.2)))
      && resolutionTimeModel == Some(RegressorModel(Fitted(fit.3)))
    }

    /** The four fields hold the objects unpickled from the four artifact files. */
    ghost predicate HoldsArtifacts(files: map<string, Blob>)
      reads this
    {
      && Loadable(files)
      && categoryModel == Some(files[CategoryModelFile].model)
      && resolutionTimeModel == Some(files[ResolutionModelFile].model)
      && tfidfVectorizer == Some(files[VectorizerFile].model)
      && labelEncoder == Some(files[EncoderFile].model)
    }

    /**
     * What `get_prediction_insights` reports from the fields as they stand:
     * both predictions once trained, the two defaults before.
     */
    function CurrentInsights(clean: string): (r: Insights)
      reads this
      ensures !modelsTrained || clean == [] ==> r == InsightsOf(DefaultCategory, 0.0, DefaultHours)
      ensures MinHours <= r.hours <= MaxHours && r.display == DisplayOf(r.hours)
    {
      if modelsTrained then ResolutionInRange(tfidfVectorizer, resolutionTimeModel, clean); InsightsIn(State(), clean)
      else InsightsIn(State(), clean)
    }

    /** The model state the predictions read. */
    function State(): ModelState
      reads this
    {
      if modelsTrained then Trained(tfidfVectorizer, categoryModel, labelEncoder, resolutionTimeModel) else Untrained
    }

    /** A prediction would have to train, and training raises. */
    ghost predicate WouldRaise(env: Environment)
      reads this, store
    {
      !modelsTrained && !Loadable(store.files) && TrainingRaises(env)
    }

    /**
     * Nothing is left to load or train: trained, or no artifacts to load
     * and no row to train on. A prediction then neither raises nor changes
     * what the predictions read.
     */
    ghost predicate Settled(env: Environment)
      reads this, store
    {
      modelsTrained || (!Loadable(store.files) && TrainingRows(env) == [])
    }

    /** `__init__`: nothing loaded, nothing trained. */
    constructor(store: ArtifactStore)
      requires store.Sound()
      ensures Valid() && this.store == store
      ensures categoryModel.None? && resolutionTimeModel.None? && tfidfVectorizer.None? && labelEncoder.None?
      ensures !modelsTrained
    {
      categoryModel := None;
      resolutionTimeModel := None;
      tfidfVectorizer := None;
      labelEncoder := None;
      modelsTrained := false;
      this.store := store;
    }

    /** The four fields in the order `save_models` dumps them. */
    function Artifacts(): seq<(string, Model)>
      reads this
      requires categoryModel.Some? && resolutionTimeModel.Some? && tfidfVectorizer.Some? && labelEncoder.Some?
    {
      [(CategoryModelFile, categoryModel.value), (ResolutionModelFile, resolutionTimeModel.value),
       (VectorizerFile, tfidfVectorizer.value), (EncoderFile, labelEncoder.value)]
    }

    /**
     * `save_models()`: dump the four fields in order; a failing dump is
     * swallowed and leaves the later files unwritten.
     */
    method SaveModels(writable: set<string>)
      requires Valid()
      requires categoryModel.Some? && resolutionTimeModel.Some? && tfidfVectorizer.Some? && labelEncoder.Some?
      modifies store
      ensures Valid()
      ensures store.files == Saved(old(store.files), Artifacts(), writable)
    {
      ghost var artifacts := Artifacts();
      assert artifacts[0] == (CategoryModelFile, categoryModel.value);
      if CategoryModelFile !in writable {
        return;
      }
      store.files := store.files[CategoryModelFile := Pickled(categoryModel.value)];
      assert Saved(old(store.files), artifacts, writable) == Saved(store.files, artifacts[1..], writable);
      assert artifacts[1..][0] == (ResolutionModelFile, resolutionTimeModel.value);
      if ResolutionModelFile !in writable {
        return;
      }
      store.files := store.files[ResolutionModelFile := Pickled(resolutionTimeModel.value)];
      assert artifacts[1..][1..] == artifacts[2..];
      assert Saved(old(store.files), artifacts, writable) == Saved(store.files, artifacts[2..], writable);
      assert artifacts[2..][0] == (VectorizerFile, tfidfVectorizer.value);
      if VectorizerFile !in writable {
        return;
      }
      store.files := store.files[VectorizerFile := Pickled(tfidfVectorizer.value)];
      assert artifacts[2..][1..] == artifacts[3..];
      assert Saved(old(store.files), artifacts, writable) == Saved(store.files, artifacts[3..], writable);
      assert artifacts[3..][0] == (EncoderFile, labelEncoder.value);
      if EncoderFile !in writable {
        return;
      }
      store.files := store.files[EncoderFile := Pickled(labelEncoder.value)];
      assert artifacts[3..][1..] == [];
      assert Saved(old(store.files), artifacts, writable) == Saved(store.files, [], writable);
    }

    /**
     * `load_models()`: nothing happens unless all four files exist; then
     * they are loaded in order, a file that cannot be read ending the load
     * with the earlier fields already replaced, and `models_trained` is set
     * only when all four were read.
     */
    method LoadModels() returns (loaded: bool)
      requires Valid()
      modifies this
      ensures Valid()
      ensures modelsTrained == (loaded || old(modelsTrained))
      ensures loaded <==> Loadable(store.files)
      ensures (exists name | name in ModelFiles :: name !in store.files) ==> unchanged(this)
      ensures loaded ==> modelsTrained && HoldsArtifacts(store.files)
      ensures !loaded ==> modelsTrained == old(modelsTrained)
    {
      var files := store.files;
      var i := 0;
      while i < |ModelFiles|
        invariant 0 <= i <= |ModelFiles|
        invariant forall k | 0 <= k < i :: ModelFiles[k] in files
      {
        if ModelFiles[i] !in files {
          return false;
        }
        i := i + 1;
      }
      assert ModelFiles == [CategoryModelFile, ResolutionModelFile, VectorizerFile, EncoderFile];
      assert ModelFiles[0] in files && ModelFiles[1] in files && ModelFiles[2] in files && ModelFiles[3] in files;
      match files[CategoryModelFile]
      case Unreadable => return false;
      case Pickled(m) => categoryModel := Some(m);
      match files[ResolutionModelFile]
      case Unreadable => return false;
      case Pickled(m) => resolutionTimeModel := Some(m);
      match files[VectorizerFile]
      case Unreadable => return false;
      case Pickled(m) => tfidfVectorizer := Some(m);
      match files[EncoderFile]
      case Unreadable => return false;
      case Pickled(m) => labelEncoder := Some(m);
      modelsTrained := true;
      return true;
    }

    /**
     * The fitting steps of `train_models()` on non-empty rows: each field is
     * assigned a fresh object before it is fitted, so a fit that raises
     * (false) leaves the fields assigned so far; true means all four fitted.
     */
    method FitModels(lib: MlLibrary, rows: seq<TrainingRow>) returns (ok: bool)
      requires Valid() && SoundLibrary(lib)
      modifies this
      ensures Valid()
      ensures ok <==> FitAll(lib, rows).Some?
      ensures ok ==> HoldsFitted(FitAll(lib, rows).value)
      ensures modelsTrained == old(modelsTrained)
    {
      tfidfVectorizer := Some(VectorizerModel(Unfitted));
      var vec := lib.fitVectorizer(TextsOf(rows));
      if vec.None? {
        return false;
      }
      tfidfVectorizer := Some(VectorizerModel(Fitted(vec.value.0)));
      labelEncoder := Some(EncoderModel(Unfitted));
      var enc := lib.fitEncoder(LabelsOf(rows));
      if enc.None? {
        return false;
      }
      labelEncoder := Some(EncoderModel(Fitted(enc.value.0)));
      if |rows| < MinSplitRows {
        return false;
      }
      categoryModel := Some(ClassifierModel(Unfitted));
      var clf := lib.fitClassifier(vec.value.1, enc.value.1);
      if clf.None? {
        return false;
      }
      categoryModel := Some(ClassifierModel(Fitted(clf.value)));
      resolutionTimeModel := Some(RegressorModel(Unfitted));
      var reg := lib.fitRegressor(vec.value.1, HoursOf(rows));
      if reg.None? {
        return false;
      }
      resolutionTimeModel := Some(RegressorModel(Fitted(reg.value)));
      return true;
    }

    /**
     * `train_models()`. No rows with non-empty cleaned text: False, nothing
     * assigned. Otherwise each field is assigned a fresh object before it is
     * fitted, so a fit that raises leaves the fields assigned so far and the
     * exception escapes. When every fit succeeds the models are saved (a
     * failed save is swallowed) and `models_trained` becomes True.
     */
    method TrainModels(env: Environment) returns (r: Outcome<bool>)
      requires Valid() && SoundLibrary(env.lib)
      modifies this, store
      ensures Valid()
      ensures TrainingRows(env) == [] ==> r == Returned(false) && unchanged(this) && unchanged(store)
      ensures r == Returned(false) ==> TrainingRows(env) == []
      ensures r == Returned(true) <==> TrainingRows(env) != [] && FitAll(env.lib, TrainingRows(env)).Some?
      ensures r == Returned(true) ==>
        && modelsTrained
        && HoldsFitted(FitAll(env.lib, TrainingRows(env)).value)
        && store.files == Saved(old(store.files), Artifacts(), env.writable)
      ensures r.Raised? ==> modelsTrained == old(modelsTrained) && unchanged(store)
      ensures modelsTrained == (r == Returned(true) || old(modelsTrained))
      ensures r.Raised? <==> TrainingRaises(env)
    {
      LoadAtLeastTen(env.table, env.draw);
      var data := LoadDataFromDb(env.table, env.draw);
      var rows := NonEmptyRows(data);
      if rows == [] {
        return Returned(false);
      }
      var fitted := FitModels(env.lib, rows);
      if !fitted {
        return Raised;
      }
      SaveModels(env.writable);
      assert store.Sound();
      modelsTrained := true;
      return Returned(true);
    }

    /**
     * The lazy start shared by both predictions: already trained, or the
     * artifacts load, or training succeeds. Returned(false) means the
     * default answer is due; Raised means training raised.
     */
    method EnsureModels(env: Environment) returns (ready: Outcome<bool>)
      requires Valid() && SoundLibrary(env.lib)
      modifies this, store
      ensures Valid()
      ensures old(modelsTrained) ==> ready == Returned(true) && unchanged(this) && unchanged(store)
      ensures ready == Returned(true) <==> modelsTrained
      ensures ready.Raised? ==> !old(modelsTrained)
      ensures !old(modelsTrained) && Loadable(old(store.files)) ==>
        ready == Returned(true) && unchanged(store) && HoldsArtifacts(store.files)
      ensures !old(modelsTrained) && !Loadable(old(store.files)) ==>
        && (ready == Returned(false) <==> TrainingRows(env) == [])
        && (ready == Returned(true) <==> TrainingRows(env) != [] && FitAll(env.lib, TrainingRows(env)).Some?)
        && (ready == Returned(true) ==>
              HoldsFitted(FitAll(env.lib, TrainingRows(env)).value) &&
              store.files == Saved(old(store.files), Artifacts(), env.writable))
      ensures ready.Raised? || ready == Returned(false) ==> unchanged(store)
      ensures ready.Raised? <==> old(WouldRaise(env))
      ensures ready.Returned? ==> Settled(env)
      ensures old(Settled(env)) ==> State() == old(State()) && unchanged(store)
    {
      if modelsTrained {
        return Returned(true);
      }
      ghost var files := store.files;
      var loaded := LoadModels();
      if loaded {
        return Returned(true);
      }
      assert store.files == files && !Loadable(files);
      ready := TrainModels(env);
    }

    /**
     * `predict_category(description)`: ("General Inquiry", 0.0) when the
     * models cannot be made ready, the cleaned text is empty or a model
     * call raises; otherwise the decoded label and the largest class
     * probability. Only an exception from training escapes.
     */
    method PredictCategory(description: string, env: Environment) returns (r: Outcome<(string, real)>)
      requires Valid() && SoundLibrary(env.lib)
      modifies this, store
      ensures Valid()
      ensures old(modelsTrained) ==> unchanged(this) && unchanged(store)
      ensures r.Raised? ==> !old(modelsTrained)
      ensures r.Returned? ==>
        r.value == (if modelsTrained then CategoryFromModels(tfidfVectorizer, categoryModel, labelEncoder, Preprocess(Some(description)))
                    else (DefaultCategory, 0.0))
      ensures r.Returned? ==> 0.0 <= r.value.1 <= 1.0
      ensures r.Returned? && Preprocess(Some(description)) == [] ==> r.value == (DefaultCategory, 0.0)
      ensures r.Returned? && !modelsTrained <==>
        !old(modelsTrained) && !Loadable(old(store.files)) && TrainingRows(env) == []
      ensures r.Returned? && !modelsTrained ==> unchanged(store)
      ensures r.Raised? <==> old(WouldRaise(env))
      ensures r.Returned? ==> Settled(env)
      ensures old(Settled(env)) ==> State() == old(State()) && unchanged(store)
    {
      var ready := EnsureModels(env);
      if ready.Raised? {
        return Raised;
      }
      if !ready.value {
        return Returned((DefaultCategory, 0.0));
      }
      var clean := Preprocess(Some(description));
      CategoryFromModelsMeaning(tfidfVectorizer, categoryModel, labelEncoder, clean);
      return Returned(CategoryFromModels(tfidfVectorizer, categoryModel, labelEncoder, clean));
    }

    /**
     * `predict_resolution_time(description)`: 24.0 in the same default
     * cases as the category; otherwise the regressor's value clamped to
     * [1, 168] and rounded to a tenth.
     */
    method PredictResolutionTime(description: string, env: Environment) returns (r: Outcome<real>)
      requires Valid() && SoundLibrary(env.lib)
      modifies this, store
      ensures Valid()
      ensures old(modelsTrained) ==> unchanged(this) && unchanged(store)
      ensures r.Raised? ==> !old(modelsTrained)
      ensures r.Returned? ==>
        r.value == (if modelsTrained then ResolutionFromModels(tfidfVectorizer, resolutionTimeModel, Preprocess(Some(description)))
                    else DefaultHours)
      ensures r.Returned? ==> MinHours <= r.value <= MaxHours
      ensures r.Returned? && Preprocess(Some(description)) == [] ==> r.value == DefaultHours
      ensures r.Returned? && !modelsTrained <==>
        !old(modelsTrained) && !Loadable(old(store.files)) && TrainingRows(env) == []
      ensures r.Returned? && !modelsTrained ==> unchanged(store)
      ensures r.Raised? <==> old(WouldRaise(env))
      ensures r.Returned? ==> Settled(env)
      ensures old(Settled(env)) ==> State() == old(State()) && unchanged(store)
    {
      var ready := EnsureModels(env);
      if ready.Raised? {
        return Raised;
      }
      if !ready.value {
        return Returned(DefaultHours);
      }
      var clean := Preprocess(Some(description));
      ResolutionInRange(tfidfVectorizer, resolutionTimeModel, clean);
      return Returned(ResolutionFromModels(tfidfVectorizer, resolutionTimeModel, clean));
    }

    /**
     * `get_prediction_insights(description)`: both predictions, the
     * confidence as a percentage, its band and the hours/days display.
     * The two predictions each make the models ready, but once the first
     * has trained or loaded them the second changes nothing, and when the
     * first finds nothing to load or train on neither does the second, so
     * both come from the final fields.
     */
    method GetPredictionInsights(description: string, env: Environment) returns (r: Outcome<Insights>)
      requires Valid() && SoundLibrary(env.lib)
      modifies this, store
      ensures Valid()
      ensures old(modelsTrained) ==> unchanged(this) && unchanged(store) && r.Returned?
      ensures r.Returned? ==>
        && MinHours <= r.value.hours <= MaxHours
        && 0.0 <= r.value.confidencePercent <= 100.0
        && r.value.display == DisplayOf(r.value.hours)
      ensures r.Returned? && Preprocess(Some(description)) == [] ==>
        r.value == InsightsOf(DefaultCategory, 0.0, DefaultHours)
      ensures r.Returned? ==> r.value == CurrentInsights(Preprocess(Some(description)))
      ensures r.Raised? <==> old(WouldRaise(env))
      ensures r.Returned? ==> Settled(env)
      ensures old(Settled(env)) ==> State() == old(State()) && unchanged(store)
    {
      var category := PredictCategory(description, env);
      if category.Raised? {
        return Raised;
      }
      ghost var trained := modelsTrained;
      ghost var vec, clf, enc := tfidfVectorizer, categoryModel, labelEncoder;
      var hours := PredictResolutionTime(description, env);
      if hours.Raised? {
        return Raised;
      }
      assert trained ==> tfidfVectorizer == vec && categoryModel == clf && labelEncoder == enc;
      var (name, confidence) := category.value;
      PercentInRange(confidence);
      return Returned(InsightsOf(name, confidence, hours.value));
    }
  }
}

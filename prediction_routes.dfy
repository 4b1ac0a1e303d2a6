/**
 * The prediction endpoints: a single prediction, retraining, the model
 * status report and batch prediction, over one `TicketPredictor`. A reply
 * is a JSON body or an HTTP error status.
 */
module PredictionRoutes {
  import opened Wrappers
  import opened PyText
  import opened TextNormalizer
  import opened TrainingData
  import opened Predictor

  /** A JSON body, or an error status (400, 403 or 500). */
  datatype Reply<T> = Ok(body: T) | Error(status: int)

  /** The `description` member of the request's JSON object: absent, `null`, a string, or any other JSON value. */
  datatype JsonField = Absent | JsonNull | JsonString(text: string) | OtherJson

  /**
   * `predict_ticket`: an absent description reads as "", so it and a blank
   * string are a 400 before the predictor is touched. `null` or a
   * non-string value has no `strip`, and that exception is a 500, as is
   * one from the predictor.
   */
  method PredictTicket(p: TicketPredictor, description: JsonField, env: Environment) returns (reply: Reply<Insights>)
    requires p.Valid() && SoundLibrary(env.lib)
    modifies p, p.store
    ensures p.Valid()
    ensures description.Absent? || (description.JsonString? && IsBlank(description.text)) ==>
      reply == Error(400) && unchanged(p) && unchanged(p.store)
    ensures description.JsonNull? || description.OtherJson? ==>
      reply == Error(500) && unchanged(p) && unchanged(p.store)
    ensures reply.Ok? ==>
      && description.JsonString? && !IsBlank(description.text)
      && reply.body == p.CurrentInsights(Preprocess(Some(description.text)))
      && MinHours <= reply.body.hours <= MaxHours && 0.0 <= reply.body.confidencePercent <= 100.0
    ensures reply.Error? ==> reply.status == 400 || reply.status == 500
    ensures description.JsonString? && !IsBlank(description.text) ==>
      if old(p.WouldRaise(env)) then reply == Error(500) else reply.Ok?
  {
    if description.JsonNull? || description.OtherJson? {
      return Error(500);
    }
    var text := if description.JsonString? then description.text else "";
    if Strip(text) == [] {
      return Error(400);
    }
    var insights := p.GetPredictionInsights(text, env);
    if insights.Raised? {
      return Error(500);
    }
    return Ok(insights.value);
  }

  /**
   * `retrain_models`: 403 for anyone but an admin, without training;
   * otherwise the success flag is what `train_models` returned, and an
   * exception from it is a 500.
   */
  method RetrainModels(p: TicketPredictor, role: string, env: Environment) returns (reply: Reply<bool>)
    requires p.Valid() && SoundLibrary(env.lib)
    modifies p, p.store
    ensures p.Valid()
    ensures role != "admin" ==> reply == Error(403) && unchanged(p) && unchanged(p.store)
    ensures reply.Ok? ==> role == "admin"
    ensures reply.Ok? ==> (reply.body <==> TrainingRows(env) != [] && FitAll(env.lib, TrainingRows(env)).Some?)
    ensures reply == Ok(true) ==> p.modelsTrained
    ensures reply.Error? ==> reply.status == 403 || reply.status == 500
    ensures reply == Error(403) <==> role != "admin"
    ensures reply == Error(500) <==> role == "admin" && TrainingRaises(env)
    ensures reply.Ok? <==> role == "admin" && !TrainingRaises(env)
  {
    if role != "admin" {
      return Error(403);
    }
    var success := p.TrainModels(env);
    if success.Raised? {
      return Error(500);
    }
    return Ok(success.value);
  }

  /** How much resolved history there is to train on. */
  datatype Recommendation = Good | Limited | Insufficient

  /** `'Good' if n >= 50 else 'Limited' if n >= 10 else 'Insufficient'`. */
  function RecommendationFor(resolved: int): (r: Recommendation)
    ensures r == Good <==> resolved >= 50
    ensures r == Limited <==> 10 <= resolved < 50
    ensures r == Insufficient <==> resolved < 10
  {
    if resolved >= 50 then Good else if resolved >= 10 then Limited else Insufficient
  }

  /** More resolved tickets never make the recommendation worse. */
  lemma RecommendationMonotone(a: int, b: int)
    requires a <= b
    ensures RecommendationFor(a) == Good ==> RecommendationFor(b) == Good
    ensures RecommendationFor(a) == Limited ==> RecommendationFor(b) != Insufficient
  {
  }

  datatype ModelStatusReport = ModelStatusReport(
    modelsLoaded: bool, totalTickets: int, trainingDataSize: int, recommendation: Recommendation)

  /**
   * `model_status`: the predictor's flag and the two counts, the second of
   * tickets whose status is exactly `Resolved`, capitalised.
   */
  function ModelStatus(p: TicketPredictor, totalTickets: int, resolvedTickets: int): (r: ModelStatusReport)
    reads p
    ensures r.modelsLoaded == p.modelsTrained && r.trainingDataSize == resolvedTickets
    ensures r.recommendation == RecommendationFor(resolvedTickets)
  {
    ModelStatusReport(p.modelsTrained, totalTickets, resolvedTickets, RecommendationFor(resolvedTickets))
  }

  /** The entries of a batch whose strip is non-empty, in their order. */
  function NonBlank(descriptions: seq<string>): (r: seq<string>)
    ensures |r| <= |descriptions|
    ensures forall d | d in r :: d in descriptions && !IsBlank(d)
    ensures forall d | d in descriptions && !IsBlank(d) :: d in r
  {
    if descriptions == [] then []
    else
      var init := descriptions[..|descriptions| - 1];
      var last := descriptions[|descriptions| - 1];
      assert descriptions == init + [last];
      NonBlank(init) + (if IsBlank(last) then [] else [last])
  }

  /** One element of `results`. */
  datatype BatchResult = BatchResult(description: string, predictions: Insights)

  /**
   * Results for exactly the given descriptions, in order, each carrying
   * the insights of the given model state for it (`EntryFor`). Defined
   * from the last element back; `ResultsForMeaning` and
   * `ResultsForOfEntries` give the element-by-element reading.
   */
  predicate ResultsFor(results: seq<BatchResult>, kept: seq<string>, state: ModelState) {
    |results| == |kept| &&
    (results != [] ==>
      && ResultsFor(results[..|results| - 1], kept[..|kept| - 1], state)
      && EntryFor(results[|results| - 1], kept[|kept| - 1], state))
  }

  /** One result: the description as sent, the insights for its cleaned text, hours in [1, 168]. */
  predicate EntryFor(result: BatchResult, d: string, state: ModelState) {
    && result.description == d
    && result.predictions == InsightsIn(state, Preprocess(Some(d)))
    && MinHours <= result.predictions.hours <= MaxHours
  }

  /** `ResultsFor` read element by element: the k-th result is for the k-th kept description. */
  lemma {:induction false} ResultsForMeaning(results: seq<BatchResult>, kept: seq<string>, state: ModelState)
    requires ResultsFor(results, kept, state)
    ensures |results| == |kept|
    ensures forall k | 0 <= k < |kept| :: EntryFor(results[k], kept[k], state)
  {
    if results != [] {
      var n := |results| - 1;
      ResultsForMeaning(results[..n], kept[..n], state);
      forall k | 0 <= k < |kept|
        ensures EntryFor(results[k], kept[k], state)
      {
        if k < n {
          assert results[..n][k] == results[k] && kept[..n][k] == kept[k];
        }
      }
    }
  }

  /** The converse: results that match element by element are `ResultsFor`. */
  lemma {:induction false} ResultsForOfEntries(results: seq<BatchResult>, kept: seq<string>, state: ModelState)
    requires |results| == |kept|
    requires forall k | 0 <= k < |kept| :: EntryFor(results[k], kept[k], state)
    ensures ResultsFor(results, kept, state)
  {
    if results != [] {
      var n := |results| - 1;
      forall k | 0 <= k < n
        ensures EntryFor(results[..n][k], kept[..n][k], state)
      {
        assert results[..n][k] == results[k] && kept[..n][k] == kept[k];
      }
      ResultsForOfEntries(results[..n], kept[..n], state);
    }
  }

  lemma ResultsSnoc(results: seq<BatchResult>, kept: seq<string>, state: ModelState, next: BatchResult)
    requires ResultsFor(results, kept, state) && EntryFor(next, next.description, state)
    ensures ResultsFor(results + [next], kept + [next.description], state)
  {
    assert (results + [next])[..|results|] == results;
    assert (kept + [next.description])[..|kept|] == kept;
  }

  lemma NonBlankStep(ds: seq<string>, i: nat)
    requires i < |ds|
    ensures NonBlank(ds[..i + 1]) == NonBlank(ds[..i]) + (if IsBlank(ds[i]) then [] else [ds[i]])
  {
    assert ds[..i + 1][..i] == ds[..i];
  }

  /** A non-blank entry adds its result at the end. */
  lemma KeepStep(ds: seq<string>, i: nat, results: seq<BatchResult>, state: ModelState, next: BatchResult)
    requires i < |ds| && ResultsFor(results, NonBlank(ds[..i]), state)
    requires !IsBlank(ds[i]) && EntryFor(next, ds[i], state)
    ensures ResultsFor(results + [next], NonBlank(ds[..i + 1]), state)
  {
    NonBlankStep(ds, i);
    ResultsSnoc(results, NonBlank(ds[..i]), state, next);
  }

  /** A batch with an entry that is not blank keeps something. */
  lemma NonBlankKept(ds: seq<string>, i: nat)
    requires i < |ds| && !IsBlank(ds[i])
    ensures NonBlank(ds) != []
  {
    assert ds[i] in ds;
  }

  /** A blank entry adds nothing. */
  lemma SkipStep(ds: seq<string>, i: nat, results: seq<BatchResult>, state: ModelState)
    requires i < |ds| && ResultsFor(results, NonBlank(ds[..i]), state)
    requires IsBlank(ds[i])
    ensures ResultsFor(results, NonBlank(ds[..i + 1]), state)
  {
    NonBlankStep(ds, i);
    assert NonBlank(ds[..i + 1]) == NonBlank(ds[..i]) + [];
    assert NonBlank(ds[..i]) + [] == NonBlank(ds[..i]);
  }

  /**
   * One element of `results`: the description with the predictor's
   * insights for it. `raised` is an exception from the predictor, and the
   * element is then not used.
   */
  method PredictEntry(p: TicketPredictor, desc: string, env: Environment) returns (raised: bool, r: BatchResult)
    requires p.Valid() && SoundLibrary(env.lib)
    modifies p, p.store
    ensures p.Valid()
    ensures raised <==> old(p.WouldRaise(env))
    ensures !raised ==>
      && p.Settled(env)
      && EntryFor(r, desc, p.State())
    ensures old(p.Settled(env)) ==> !raised && p.State() == old(p.State())
  {
    var insights := p.GetPredictionInsights(desc, env);
    raised := insights.Raised?;
    r := BatchResult(desc, if raised then InsightsOf(DefaultCategory, 0.0, DefaultHours) else insights.value);
  }

  /**
   * One turn of the loop of `batch_predict` at entry `i`: a blank entry is
   * skipped, any other is predicted and appended, or raises. `state` is
   * the model state every result so far reads and `started` whether a
   * prediction has run; once one has, the predictor is settled.
   */
  method PredictAt(p: TicketPredictor, ds: seq<string>, i: nat, results: seq<BatchResult>, env: Environment,
                   ghost state: ModelState, ghost raises: bool, ghost started: bool)
    returns (failed: bool, next: seq<BatchResult>, ghost state': ModelState, ghost started': bool)
    requires p.Valid() && SoundLibrary(env.lib)
    requires i < |ds| && ResultsFor(results, NonBlank(ds[..i]), state)
    requires !started ==> results == [] && p.WouldRaise(env) == raises
    requires started ==> !raises && p.Settled(env) && p.State() == state
    modifies p, p.store
    ensures p.Valid()
    ensures failed ==> NonBlank(ds) != [] && raises
    ensures !failed ==> ResultsFor(next, NonBlank(ds[..i + 1]), state')
    ensures !failed && !started' ==> next == [] && p.WouldRaise(env) == raises
    ensures !failed && started' ==> !raises && p.Settled(env) && p.State() == state'
  {
    failed, next, state', started' := false, results, state, started;
    var desc := ds[i];
    if !IsBlank(desc) {
      NonBlankKept(ds, i);
      var entry;
      failed, entry := PredictEntry(p, desc, env);
      if failed {
        return;
      }
      state', started' := p.State(), true;
      KeepStep(ds, i, results, state', entry);
      next := results + [entry];
    } else {
      SkipStep(ds, i, results, state);
    }
  }

  /**
   * The loop of `batch_predict`: one result per entry that is not blank,
   * in order; the first exception ends it. Only the first prediction can
   * load or train, so every result reads the final model state, and the
   * loop raises exactly when that first prediction does.
   */
  method PredictAll(p: TicketPredictor, ds: seq<string>, env: Environment) returns (r: Outcome<seq<BatchResult>>)
    requires p.Valid() && SoundLibrary(env.lib)
    modifies p, p.store
    ensures p.Valid()
    ensures r.Raised? <==> NonBlank(ds) != [] && old(p.WouldRaise(env))
    ensures r.Returned? ==> ResultsFor(r.value, NonBlank(ds), p.State())
  {
    var results: seq<BatchResult> := [];
    ghost var state := p.State();
    ghost var raises := p.WouldRaise(env);
    ghost var started := false;
    var i := 0;
    while i < |ds|
      invariant 0 <= i <= |ds|
      invariant p.Valid()
      invariant ResultsFor(results, NonBlank(ds[..i]), state)
      invariant !started ==> results == [] && p.WouldRaise(env) == raises
      invariant started ==> !raises && p.Settled(env) && p.State() == state
    {
      var failed;
      failed, results, state, started := PredictAt(p, ds, i, results, env, state, raises, started);
      if failed {
        return Raised;
      }
      i := i + 1;
    }
    assert ds[..i] == ds;
    return Returned(results);
  }

  /**
   * `batch_predict`: a missing or empty list is a 400; otherwise one result
   * per entry that is not blank, in input order, blank entries skipped; an
   * exception from the predictor is a 500, and it happens exactly when
   * some entry is not blank and training raises.
   */
  method BatchPredict(p: TicketPredictor, descriptions: Option<seq<string>>, env: Environment)
    returns (reply: Reply<seq<BatchResult>>)
    requires p.Valid() && SoundLibrary(env.lib)
    modifies p, p.store
    ensures p.Valid()
    ensures reply == Error(400) <==> descriptions.None? || descriptions.value == []
    ensures reply == Error(500) <==>
      descriptions.Some? && NonBlank(descriptions.value) != [] && old(p.WouldRaise(env))
    ensures reply.Ok? ==> ResultsFor(reply.body, NonBlank(descriptions.value), p.State())
    ensures reply.Error? ==> reply.status == 400 || reply.status == 500
  {
    if descriptions.None? || descriptions.value == [] {
      return Error(400);
    }
    var results := PredictAll(p, descriptions.value, env);
    if results.Raised? {
      return Error(500);
    }
    return Ok(results.value);
  }
}

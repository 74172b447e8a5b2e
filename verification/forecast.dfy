/** The multi-day forecast of the prediction page: a rollout that turns today's
    six readings into one predicted rainfall category per day ahead, carrying the
    last known readings forward unchanged from one day to the next. */
module Forecast {
  import opened Wrappers

  /** Today's readings as entered on the page. */
  datatype Observation = Observation(tn: real, tx: real, tavg: real, rhAvg: real, ss: real, rr: real)

  /** The slider's range and default for the number of days to forecast. */
  const MinDays: nat := 1
  const MaxDays: nat := 7
  const DefaultDays: nat := 3

  /** A horizon the slider can produce. */
  type Horizon = n: nat | MinDays <= n <= MaxDays witness DefaultDays

  /** The six parallel series the rollout accumulates (`hist`). */
  datatype History = History(tn: seq<real>, tx: seq<real>, tavg: seq<real>,
                             rhAvg: seq<real>, ss: seq<real>, rr: seq<real>)

  /** Every series has a last entry. */
  predicate NonEmpty(h: History) {
    |h.tn| > 0 && |h.tx| > 0 && |h.tavg| > 0 && |h.rhAvg| > 0 && |h.ss| > 0 && |h.rr| > 0
  }

  /** The history before the first step: one entry per series, today's reading. */
  function Start(obs: Observation): (h: History)
    ensures NonEmpty(h)
  {
    History([obs.tn], [obs.tx], [obs.tavg], [obs.rhAvg], [obs.ss], [obs.rr])
  }

  /** `xs[-1]`. */
  function Last(xs: seq<real>): real
    requires |xs| > 0
  {
    xs[|xs| - 1]
  }

  function Min(a: nat, b: nat): nat {
    if a <= b then a else b
  }

  /** `xs[-3:]`: the last three entries, or all of them when there are fewer. */
  function LastThree(xs: seq<real>): (r: seq<real>)
    ensures |r| == Min(3, |xs|)
    ensures r == xs[|xs| - |r|..]
  {
    if |xs| <= 3 then xs else xs[|xs| - 3..]
  }

  function Sum(xs: seq<real>): real {
    if |xs| == 0 then 0.0 else xs[0] + Sum(xs[1..])
  }

  /** `np.mean` of a non-empty list. */
  function Mean(xs: seq<real>): real
    requires |xs| > 0
  {
    Sum(xs) / (|xs| as real)
  }

  /** The sum of n copies of v is n times v. */
  lemma {:induction false} SumOfConstant(xs: seq<real>, v: real)
    requires forall i :: 0 <= i < |xs| ==> xs[i] == v
    ensures Sum(xs) == (|xs| as real) * v
  {
    if |xs| > 0 {
      SumOfConstant(xs[1..], v);
    }
  }

  /** The mean of copies of one value is that value. */
  lemma MeanOfConstant(xs: seq<real>, v: real)
    requires |xs| > 0
    requires forall i :: 0 <= i < |xs| ==> xs[i] == v
    ensures Mean(xs) == v
  {
    SumOfConstant(xs, v);
  }

  /** The column names of the feature frame, in the order the feature dict lists them. */
  const FeatureNames: seq<string> := [
    "TN", "TX", "TAVG", "RH_AVG", "SS",
    "RR_lag1", "TAVG_lag1", "RH_AVG_lag1", "SS_lag1", "TX_lag1", "TN_lag1",
    "RR_rolling_mean_3d_lag1"]

  /** The twelve model inputs. */
  datatype Features = Features(
    tn: real, tx: real, tavg: real, rhAvg: real, ss: real,
    rrLag1: real, tavgLag1: real, rhAvgLag1: real, ssLag1: real, txLag1: real, tnLag1: real,
    rrRollingMean3dLag1: real)
  {
    /** The value of the column with the given name. */
    function Column(name: string): Option<real> {
      match name
      case "TN" => Some(tn)
      case "TX" => Some(tx)
      case "TAVG" => Some(tavg)
      case "RH_AVG" => Some(rhAvg)
      case "SS" => Some(ss)
      case "RR_lag1" => Some(rrLag1)
      case "TAVG_lag1" => Some(tavgLag1)
      case "RH_AVG_lag1" => Some(rhAvgLag1)
      case "SS_lag1" => Some(ssLag1)
      case "TX_lag1" => Some(txLag1)
      case "TN_lag1" => Some(tnLag1)
      case "RR_rolling_mean_3d_lag1" => Some(rrRollingMean3dLag1)
      case _ => None
    }

    /** The one-row frame handed to the scaler: one value per column of
        `FeatureNames`, in that order. */
    function Vector(): (v: seq<real>)
      ensures |v| == |FeatureNames|
      ensures forall i :: 0 <= i < |v| ==> Column(FeatureNames[i]) == Some(v[i])
    {
      [tn, tx, tavg, rhAvg, ss, rrLag1, tavgLag1, rhAvgLag1, ssLag1, txLag1, tnLag1, rrRollingMean3dLag1]
    }
  }

  /** The features of step i, read off the current last entries of the history.
      The "lag 1" features are read from the same last entry as the same-day ones,
      so each coincides with its same-day twin. */
  function FeaturesOf(h: History): (f: Features)
    requires NonEmpty(h)
    ensures f.tn == f.tnLag1 == Last(h.tn) && f.tx == f.txLag1 == Last(h.tx)
    ensures f.tavg == f.tavgLag1 == Last(h.tavg) && f.rhAvg == f.rhAvgLag1 == Last(h.rhAvg)
    ensures f.ss == f.ssLag1 == Last(h.ss) && f.rrLag1 == Last(h.rr)
    ensures f.rrRollingMean3dLag1 == Mean(h.rr[|h.rr| - Min(3, |h.rr|)..])
  {
    Features(
      Last(h.tn), Last(h.tx), Last(h.tavg), Last(h.rhAvg), Last(h.ss),
      Last(h.rr), Last(h.tavg), Last(h.rhAvg), Last(h.ss), Last(h.tx), Last(h.tn),
      Mean(LastThree(h.rr)))
  }

  /** The features of a day that has nothing but today behind it: every lag is
      today's reading and the three-day rain mean is today's rain. */
  function TodayFeatures(obs: Observation): Features {
    Features(obs.tn, obs.tx, obs.tavg, obs.rhAvg, obs.ss,
             obs.rr, obs.tavg, obs.rhAvg, obs.ss, obs.tx, obs.tn, obs.rr)
  }

  /** One entry appended: a copy of the series' last value. */
  function Persist(xs: seq<real>): (r: seq<real>)
    requires |xs| > 0
    ensures |r| == |xs| + 1
    ensures r[..|xs|] == xs
    ensures Last(r) == Last(xs)
  {
    xs + [Last(xs)]
  }

  /** The end of a step: every series grows by a copy of its last value. */
  function Advance(h: History): (r: History)
    requires NonEmpty(h)
    ensures NonEmpty(r)
  {
    History(Persist(h.tn), Persist(h.tx), Persist(h.tavg), Persist(h.rhAvg), Persist(h.ss), Persist(h.rr))
  }

  /** `xs` has length n and every entry is v. */
  predicate Constant(xs: seq<real>, v: real, n: nat) {
    |xs| == n && forall i :: 0 <= i < n ==> xs[i] == v
  }

  /** Every series has length n and holds nothing but today's reading. */
  predicate Persistent(h: History, obs: Observation, n: nat) {
    && Constant(h.tn, obs.tn, n) && Constant(h.tx, obs.tx, n) && Constant(h.tavg, obs.tavg, n)
    && Constant(h.rhAvg, obs.rhAvg, n) && Constant(h.ss, obs.ss, n) && Constant(h.rr, obs.rr, n)
  }

  /** The starting history is the persistent history of length one. */
  lemma StartIsPersistent(obs: Observation)
    ensures Persistent(Start(obs), obs, 1)
  {
  }

  /** A step keeps the history persistent and one entry longer. */
  lemma AdvancePersistent(h: History, obs: Observation, n: nat)
    requires n >= 1
    requires Persistent(h, obs, n)
    ensures Persistent(Advance(h), obs, n + 1)
  {
  }

  /** However long a persistent history has grown, it yields today's features. */
  lemma FeaturesOfPersistent(h: History, obs: Observation, n: nat)
    requires n >= 1
    requires Persistent(h, obs, n)
    ensures FeaturesOf(h) == TodayFeatures(obs)
  {
    var w := LastThree(h.rr);
    forall i | 0 <= i < |w|
      ensures w[i] == obs.rr
    {
      assert w[i] == h.rr[|h.rr| - |w| + i];
    }
    MeanOfConstant(w, obs.rr);
  }

  /** Why the prediction chain gave up: the scaler or the model raised, or
      the model produced a code the label encoder was not fitted on. */
  datatype Failure = ScalerRejected | ModelRejected | UnseenCode(code: int)

  /** The fitted artifacts: the scaler and the classifier are opaque (and may
      reject their input); the label encoder is its fitted class list. */
  datatype Artifacts = Artifacts(
    scale: seq<real> -> Option<seq<real>>,
    predict: seq<real> -> Option<int>,
    classes: seq<string>)

  /** `le.inverse_transform([code])[0]`: the class at that index, or an error
      for a code outside the fitted range. */
  function Decode(classes: seq<string>, code: int): (r: Result<string, Failure>)
    ensures r.Success? <==> 0 <= code < |classes|
    ensures r.Success? ==> r.value in classes
    ensures r.Failure? ==> r.error == UnseenCode(code)
  {
    if 0 <= code < |classes| then Success(classes[code]) else Failure(UnseenCode(code))
  }

  /** scale, predict, decode. Whatever category comes out is one the encoder knows. */
  function Infer(art: Artifacts, f: Features): (r: Result<string, Failure>)
    ensures r.Success? ==> r.value in art.classes
    ensures r.Success? <==>
      && art.scale(f.Vector()).Some?
      && art.predict(art.scale(f.Vector()).value).Some?
      && 0 <= art.predict(art.scale(f.Vector()).value).value < |art.classes|
  {
    match art.scale(f.Vector())
    case None => Failure(ScalerRejected)
    case Some(scaled) =>
      match art.predict(scaled)
      case None => Failure(ModelRejected)
      case Some(code) => Decode(art.classes, code)
  }

  /** One forecast line: the day (as a day number) and the predicted category. */
  datatype Entry = Entry(day: int, category: string)

  /** What the page keeps after a run: the forecast lines and the history. */
  datatype Forecast = Forecast(results: seq<Entry>, hist: History)

  /** The shape of a completed run of n days from `today`: n lines dated
      today+1 .. today+n, all carrying `category`, and every series n+1 long and
      still equal to today's reading. */
  predicate PersistentForecast(obs: Observation, n: nat, today: int, category: string, fc: Forecast) {
    && |fc.results| == n
    && (forall k :: 0 <= k < n ==> fc.results[k] == Entry(today + k + 1, category))
    && Persistent(fc.hist, obs, n + 1)
  }

  /** The button handler: roll the forecast out for `nDays` days. The rollout
      aborts with the chain's error as soon as one step fails, keeping nothing;
      since every step sees today's features, it fails exactly when today's
      prediction fails, and otherwise repeats today's prediction on every day. */
  method Predict(obs: Observation, nDays: Horizon, today: int, art: Artifacts)
    returns (r: Result<Forecast, Failure>)
    ensures r.Success? <==> Infer(art, TodayFeatures(obs)).Success?
    ensures r.Failure? ==> r.error == Infer(art, TodayFeatures(obs)).error
    ensures r.Success? ==> PersistentForecast(obs, nDays, today, Infer(art, TodayFeatures(obs)).value, r.value)
  {
    var results: seq<Entry> := [];
    var hist := Start(obs);
    StartIsPersistent(obs);
    ghost var today0 := Infer(art, TodayFeatures(obs));
    var i: nat := 0;
    while i < nDays
      invariant i <= nDays
      invariant Persistent(hist, obs, i + 1)
      invariant |results| == i
      invariant i > 0 ==> today0.Success?
      invariant forall k :: 0 <= k < i ==> today0.Success? && results[k] == Entry(today + k + 1, today0.value)
    {
      FeaturesOfPersistent(hist, obs, i + 1);
      var f := FeaturesOf(hist);
      var res := Infer(art, f);
      if res.Failure? {
        return Failure(res.error);
      }
      results := results + [Entry(today + i + 1, res.value)];
      AdvancePersistent(hist, obs, i + 1);
      hist := Advance(hist);
      i := i + 1;
    }
    r := Success(Forecast(results, hist));
  }

  /** The lines of a completed run are dated on consecutive days, in order,
      and every category is one of the encoder's classes. */
  lemma ForecastDatesConsecutive(obs: Observation, n: nat, today: int, category: string, fc: Forecast, art: Artifacts)
    requires PersistentForecast(obs, n, today, category, fc)
    requires category in art.classes
    ensures forall k :: 0 <= k < n ==> fc.results[k].category in art.classes
    ensures forall k :: 0 <= k < n ==> fc.results[k].day == today + k + 1
    ensures forall j, k :: 0 <= j < k < n ==> fc.results[j].day < fc.results[k].day
  {
  }
}

/** The model-comparison page: one metrics record per trained model, in the
    order the models were loaded, and the model with the highest weighted F1. */
module Evaluation {
  import opened Wrappers
  import opened Dicts

  /** The four scores of one model on the held-out set (weighted averages for
      precision, recall and F1). */
  datatype Metrics = Metrics(accuracy: real, precision: real, recall: real, f1: real)

  /** The models the page loads, in load order. */
  const ModelNames: seq<string> := ["Naive Bayes", "K-Nearest Neighbors", "Random Forest", "Stacking"]

  /** The metrics loop: `metrics[name] = {...}` for every model in load order.
      Model names are dictionary keys, hence distinct. */
  method ComputeMetrics<M>(models: seq<Item<M>>, evaluate: M -> Metrics)
    returns (metrics: seq<Item<Metrics>>)
    requires Distinct(Keys(models))
    ensures Keys(metrics) == Keys(models)
    ensures forall i :: 0 <= i < |models| ==> metrics[i].value == evaluate(models[i].value)
  {
    metrics := [];
    var i := 0;
    while i < |models|
      invariant i <= |models|
      invariant Keys(metrics) == Keys(models[..i])
      invariant forall j :: 0 <= j < i ==> metrics[j].value == evaluate(models[j].value)
    {
      var name := models[i].key;
      assert name !in Keys(models[..i]) by {
        forall j | 0 <= j < i
          ensures Keys(models[..i])[j] != name
        {
          assert Keys(models)[j] != Keys(models)[i];
        }
      }
      metrics := Put(metrics, name, evaluate(models[i].value));
      assert Keys(models[..i + 1]) == Keys(models[..i]) + [name];
      i := i + 1;
    }
    assert models[..i] == models;
  }

  /** The i-th model is the one Python's `max` picks: nobody beats its F1,
      and everybody before it has a strictly lower F1. */
  predicate IsFirstMax(metrics: seq<Item<Metrics>>, i: int) {
    && 0 <= i < |metrics|
    && (forall j :: 0 <= j < |metrics| ==> metrics[j].value.f1 <= metrics[i].value.f1)
    && (forall j :: 0 <= j < i ==> metrics[j].value.f1 < metrics[i].value.f1)
  }

  /** There is at most one first maximum, so the choice is determined. */
  lemma FirstMaxUnique(metrics: seq<Item<Metrics>>, i: int, j: int)
    requires IsFirstMax(metrics, i) && IsFirstMax(metrics, j)
    ensures i == j
  {
    assert metrics[i].value.f1 == metrics[j].value.f1;
  }

  /** `max(metrics, key=lambda k: metrics[k]['F1'])`: scan the keys in order
      and move to a key only on a strictly greater F1, so the first of several
      tied models wins. An empty dictionary makes `max` raise. */
  method BestModel(metrics: seq<Item<Metrics>>) returns (best: Option<string>)
    ensures best.None? <==> |metrics| == 0
    ensures best.Some? ==> exists i :: IsFirstMax(metrics, i) && metrics[i].key == best.value
  {
    if |metrics| == 0 {
      return None;
    }
    var b := 0;
    var i := 1;
    while i < |metrics|
      invariant 0 <= b < i <= |metrics|
      invariant forall j :: 0 <= j < i ==> metrics[j].value.f1 <= metrics[b].value.f1
      invariant forall j :: 0 <= j < b ==> metrics[j].value.f1 < metrics[b].value.f1
    {
      if metrics[i].value.f1 > metrics[b].value.f1 {
        b := i;
      }
      i := i + 1;
    }
    assert IsFirstMax(metrics, b);
    best := Some(metrics[b].key);
  }

  /** The page: metrics for the loaded models, then the best of them. With the
      four models loaded, there always is a best model, it is one of them, and
      no model has a higher F1. */
  method ComparePage<M>(models: seq<Item<M>>, evaluate: M -> Metrics)
    returns (metrics: seq<Item<Metrics>>, best: string)
    requires Keys(models) == ModelNames
    ensures Keys(metrics) == ModelNames
    ensures best in ModelNames
    ensures exists i :: IsFirstMax(metrics, i) && metrics[i].key == best
    ensures forall i :: 0 <= i < |models| ==> metrics[i].value == evaluate(models[i].value)
  {
    assert Distinct(Keys(models));
    metrics := ComputeMetrics(models, evaluate);
    var b := BestModel(metrics);
    assert |metrics| == 4 by { assert |Keys(metrics)| == |metrics|; }
    best := b.value;
    ghost var i :| IsFirstMax(metrics, i) && metrics[i].key == best;
    assert Keys(metrics)[i] == best;
  }

  /** The explanation texts, keyed by model name. */
  const Explanations: map<string, string> := map[
    "Naive Bayes" := "\n**Naive Bayes**  \nModel ini memiliki banyak nilai di luar diagonal \U{2192} sering salah membedakan kelas yang mirip (*Hujan Ringan* vs *Hujan Sedang*).  \nCocok sebagai baseline, tetapi kurang akurat untuk pola curah hujan kompleks.\n        ",
    "K-Nearest Neighbors" := "\n**K-Nearest Neighbors (KNN)**  \nHampir semua prediksi tepat di diagonal \U{2192} akurasi sangat tinggi.  \nKNN berhasil menangkap pola lokal; sangat baik membedakan *No Rain* dan *Hujan Sangat Lebat*.\n        ",
    "Random Forest" := "\n**Random Forest**  \nPrediksi mayoritas benar; hanya sedikit kesalahan pada *Hujan Ringan* \U{2192} *Hujan Sedang*.  \nModel stabil, tahan outlier, dan seimbang antara akurasi & efisiensi.\n        ",
    "Stacking" := "\n**Stacking Ensemble**  \nMenggabungkan kekuatan beberapa model dasar untuk meningkatkan generalisasi.  \nPerforma terbaik karena mampu menangkap berbagai pola dari model-model base learner.\n        "
  ]

  /** `explanations.get(choice, "")`: empty exactly for a name without a text. */
  function Explanation(choice: string): (r: string)
    ensures r == "" <==> choice !in Explanations
  {
    GetOr(Explanations, choice, "")
  }

  /** Every model the selector can offer has an explanation. */
  lemma EveryModelExplained(choice: string)
    requires choice in ModelNames
    ensures Explanation(choice) != ""
    ensures Explanation(choice) == Explanations[choice]
  {
  }
}

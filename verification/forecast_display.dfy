/** The forecast summary of the prediction page: one row per forecast line,
    with an icon and a tip looked up by label and the temperature of the
    history entry that line corresponds to. */
module ForecastDisplay {
  import opened Dicts
  import Forecast
  import Rainfall

  /** The icon shown for a label the icon table does not know. */
  const Cloud: string := "\U{2601}\U{FE0F}"

  /** The icon table, keyed by label. */
  const Icons: map<string, string> := map[
    "Tidak Hujan" := "\U{2600}\U{FE0F}",
    "Hujan Ringan" := "\U{1F326}\U{FE0F}",
    "Hujan Sedang" := "\U{1F327}\U{FE0F}",
    "Hujan Lebat" := "\U{26C8}\U{FE0F}"
  ]

  /** The advice table, keyed by label. */
  const Tips: map<string, string> := map[
    "Tidak Hujan" := "Cuaca cerah, cocok untuk aktivitas luar ruangan.",
    "Hujan Ringan" := "Bawa payung kecil, kemungkinan hujan ringan.",
    "Hujan Sedang" := "Gunakan jas hujan atau payung, hujan sedang mungkin terjadi.",
    "Hujan Lebat" := "Waspada genangan, hindari berkendara terlalu cepat."
  ]

  /** `emoji_dict.get(pred, cloud)`: the cloud marks exactly the unknown labels. */
  function Icon(category: string): (r: string)
    ensures category in Icons ==> r == Icons[category]
    ensures r == Cloud <==> category !in Icons
  {
    GetOr(Icons, category, Cloud)
  }

  /** `tips_dict.get(pred, '')`: the tip is empty exactly for the unknown labels. */
  function Tip(category: string): (r: string)
    ensures category in Tips ==> r == Tips[category]
    ensures r == "" <==> category !in Tips
  {
    GetOr(Tips, category, "")
  }

  /** One displayed line. */
  datatype Row = Row(day: int, icon: string, category: string, temperature: real, tip: string)

  /** Line i shows the temperature of history entry i + 1, so the history must
      be longer than the list of lines. */
  predicate Displayable(fc: Forecast.Forecast) {
    |fc.hist.tavg| > |fc.results|
  }

  /** The rows of the summary, in forecast order. */
  function Rows(fc: Forecast.Forecast): (rows: seq<Row>)
    requires Displayable(fc)
    ensures |rows| == |fc.results|
    ensures forall i :: 0 <= i < |rows| ==>
      && rows[i].day == fc.results[i].day
      && rows[i].category == fc.results[i].category
      && rows[i].temperature == fc.hist.tavg[i + 1]
      && rows[i].icon == Icon(fc.results[i].category)
      && rows[i].tip == Tip(fc.results[i].category)
  {
    seq(|fc.results|, i requires 0 <= i < |fc.results| =>
      var e := fc.results[i];
      Row(e.day, Icon(e.category), e.category, fc.hist.tavg[i + 1], Tip(e.category)))
  }

  /** Every completed run can be displayed, and each of its rows shows
      today's average temperature next to the date today + i + 1. */
  lemma CompletedRunDisplays(obs: Forecast.Observation, n: nat, today: int, category: string, fc: Forecast.Forecast)
    requires Forecast.PersistentForecast(obs, n, today, category, fc)
    ensures Displayable(fc)
    ensures forall i :: 0 <= i < n ==> Rows(fc)[i].temperature == obs.tavg && Rows(fc)[i].day == today + i + 1
  {
  }

  /** The tables are keyed by "Tidak Hujan", while the data page calls dry days
      "No Rain" and also has "Hujan Sangat Lebat": those two categories get the
      cloud and no tip. The other three categories have both. */
  lemma TablesMissTwoCategories()
    ensures Icon(Rainfall.Label.NoRain.Name()) == Cloud && Tip(Rainfall.Label.NoRain.Name()) == ""
    ensures Icon(Rainfall.Label.VeryHeavy.Name()) == Cloud && Tip(Rainfall.Label.VeryHeavy.Name()) == ""
    ensures Icon(Rainfall.Label.Light.Name()) != Cloud && Tip(Rainfall.Label.Light.Name()) != ""
    ensures Icon(Rainfall.Label.Moderate.Name()) != Cloud && Tip(Rainfall.Label.Moderate.Name()) != ""
    ensures Icon(Rainfall.Label.Heavy.Name()) != Cloud && Tip(Rainfall.Label.Heavy.Name()) != ""
  {
  }
}

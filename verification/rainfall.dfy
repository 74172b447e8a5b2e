/** The rainfall category of the data page (`rr_categorization`): a raw RR value
    in millimetres becomes one of six label strings. */
module Rainfall {
  import opened Wrappers
  import opened Values

  /** The six categories. `Name` gives the exact string the dashboard shows. */
  datatype Label = NoRain | Light | Moderate | Heavy | VeryHeavy | Unknown {

    function Name(): string {
      match this
      case NoRain => "No Rain"
      case Light => "Hujan Ringan"
      case Moderate => "Hujan Sedang"
      case Heavy => "Hujan Lebat"
      case VeryHeavy => "Hujan Sangat Lebat"
      case Unknown => "Tidak Diketahui"
    }
  }

  /** The label strings the categoriser can produce. */
  const LabelNames: set<string> :=
    {"No Rain", "Hujan Ringan", "Hujan Sedang", "Hujan Lebat", "Hujan Sangat Lebat", "Tidak Diketahui"}

  /** Distinct categories have distinct names, so a name identifies its category. */
  lemma NameInjective(a: Label, b: Label)
    ensures a.Name() == b.Name() <==> a == b
    ensures a.Name() in LabelNames
  {
  }

  /** The comparison chain applied to a value that did convert to a float.
      Each band is open below and closed above; whatever fails every test
      (above 100, negative, NaN, either infinity) lands in the last branch. */
  function Classify(f: Float): (r: Label)
    ensures r != Unknown
    ensures r == NoRain <==> f == Finite(0.0)
    ensures r == Light <==> f.Finite? && 0.0 < f.x <= 20.0
    ensures r == Moderate <==> f.Finite? && 20.0 < f.x <= 50.0
    ensures r == Heavy <==> f.Finite? && 50.0 < f.x <= 100.0
    ensures r == VeryHeavy <==> !(f.Finite? && 0.0 <= f.x <= 100.0)
  {
    if EqualTo(f, 0.0) then NoRain
    else if Exceeds(f, 0.0) && AtMost(f, 20.0) then Light
    else if Exceeds(f, 20.0) && AtMost(f, 50.0) then Moderate
    else if Exceeds(f, 50.0) && AtMost(f, 100.0) then Heavy
    else VeryHeavy
  }

  /** `rr_categorization(rr)`: convert with `float`, answer "Tidak Diketahui"
      when that raises, otherwise the name of the band the value falls in. */
  function RrCategorization(rr: Cell, parse: string -> Option<Float>): (r: string)
    ensures r in LabelNames
    ensures r == Unknown.Name() <==> ToFloat(rr, parse).None?
    ensures ToFloat(rr, parse).Some? ==> r == Classify(ToFloat(rr, parse).value).Name()
  {
    match ToFloat(rr, parse)
    case None => Unknown.Name()
    case Some(f) =>
      var l := Classify(f);
      NameInjective(l, Unknown);
      l.Name()
  }

  // ---------------------------------------------------------------------------
  // An independent description of the bands: the category of a non-negative
  // amount is determined by how many of the thresholds 0, 20, 50, 100 lie
  // strictly below it.

  const Thresholds: seq<real> := [0.0, 20.0, 50.0, 100.0]

  /** The number of thresholds strictly below `x`. */
  function CountBelow(ts: seq<real>, x: real): (n: nat)
    ensures n <= |ts|
  {
    if |ts| == 0 then 0
    else (if ts[0] < x then 1 else 0) + CountBelow(ts[1..], x)
  }

  /** Categories ordered by intensity; the category of rank `k`. */
  function ByRank(k: nat): Label {
    if k == 0 then NoRain
    else if k == 1 then Light
    else if k == 2 then Moderate
    else if k == 3 then Heavy
    else VeryHeavy
  }

  /** The intensity rank of a category (Unknown is ranked with no rain). */
  function Rank(l: Label): nat {
    match l
    case NoRain => 0
    case Unknown => 0
    case Light => 1
    case Moderate => 2
    case Heavy => 3
    case VeryHeavy => 4
  }

  /** On the non-negative reals the comparison chain agrees with the threshold count. */
  lemma ClassifyMatchesThresholds(x: real)
    requires x >= 0.0
    ensures Classify(Finite(x)) == ByRank(CountBelow(Thresholds, x))
  {
    var t4: seq<real> := [];
    var t3 := [100.0];
    var t2 := [50.0, 100.0];
    var t1 := [20.0, 50.0, 100.0];
    assert t3[1..] == t4 && t2[1..] == t3 && t1[1..] == t2 && Thresholds[1..] == t1;
    assert CountBelow(t3, x) == (if 100.0 < x then 1 else 0);
    assert CountBelow(t2, x) == (if 50.0 < x then 1 else 0) + CountBelow(t3, x);
    assert CountBelow(t1, x) == (if 20.0 < x then 1 else 0) + CountBelow(t2, x);
    assert CountBelow(Thresholds, x) == (if 0.0 < x then 1 else 0) + CountBelow(t1, x);
  }

  /** A threshold count can only grow with the amount. */
  lemma {:induction false} CountBelowMonotone(ts: seq<real>, x: real, y: real)
    requires x <= y
    ensures CountBelow(ts, x) <= CountBelow(ts, y)
  {
    if |ts| > 0 {
      CountBelowMonotone(ts[1..], x, y);
    }
  }

  /** More rain never gives a lighter category, as long as the amounts are not negative. */
  lemma ClassifyMonotone(x: real, y: real)
    requires 0.0 <= x <= y
    ensures Rank(Classify(Finite(x))) <= Rank(Classify(Finite(y)))
  {
    ClassifyMatchesThresholds(x);
    ClassifyMatchesThresholds(y);
    CountBelowMonotone(Thresholds, x, y);
  }

  /** How many of the flags are set. */
  function CountTrue(bs: seq<bool>): nat {
    if |bs| == 0 then 0 else (if bs[0] then 1 else 0) + CountTrue(bs[1..])
  }

  /** The five band tests of the comparison chain, from dry to heaviest, on a non-negative amount. */
  function BandTests(x: real): (bs: seq<bool>)
    ensures |bs| == 5
  {
    [x == 0.0, 0.0 < x <= 20.0, 20.0 < x <= 50.0, 50.0 < x <= 100.0, x > 100.0]
  }

  /** The five bands cover [0, inf) without gap or overlap: exactly one test
      holds of every non-negative amount, and it is the band of the category
      the chain returns. */
  lemma BandsPartition(x: real)
    requires x >= 0.0
    ensures CountTrue(BandTests(x)) == 1
    ensures BandTests(x)[Rank(Classify(Finite(x)))]
    ensures Classify(Finite(x)) == VeryHeavy <==> x > 100.0
  {
    var bs := BandTests(x);
    var b4 := [bs[4]];
    var b3 := [bs[3], bs[4]];
    var b2 := [bs[2], bs[3], bs[4]];
    var b1 := [bs[1], bs[2], bs[3], bs[4]];
    assert b4[1..] == [] && b3[1..] == b4 && b2[1..] == b3 && b1[1..] == b2 && bs[1..] == b1;
    assert CountTrue(b4) == (if bs[4] then 1 else 0);
    assert CountTrue(b3) == (if bs[3] then 1 else 0) + CountTrue(b4);
    assert CountTrue(b2) == (if bs[2] then 1 else 0) + CountTrue(b3);
    assert CountTrue(b1) == (if bs[1] then 1 else 0) + CountTrue(b2);
    assert CountTrue(bs) == (if bs[0] then 1 else 0) + CountTrue(b1);
  }

  /** The boundary values land in the band they close. */
  lemma Boundaries()
    ensures Classify(Finite(0.0)) == NoRain
    ensures Classify(Finite(20.0)) == Light
    ensures Classify(Finite(50.0)) == Moderate
    ensures Classify(Finite(100.0)) == Heavy
    ensures Classify(Finite(100.0001)) == VeryHeavy
    ensures Classify(Finite(20.0001)) == Moderate
  {
  }

  /** The fall-through: a negative amount, NaN (a missing reading) and either
      infinity all come out as the heaviest category, so over the whole real
      line the categorisation is not monotone. */
  lemma FallThroughIsVeryHeavy(x: real)
    requires x < 0.0
    ensures Classify(Finite(x)) == VeryHeavy
    ensures Classify(NaN) == VeryHeavy
    ensures Classify(Infinity(true)) == VeryHeavy && Classify(Infinity(false)) == VeryHeavy
    ensures Rank(Classify(Finite(x))) > Rank(Classify(Finite(0.0)))
  {
  }
}

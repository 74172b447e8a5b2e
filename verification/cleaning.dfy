/** The data page's preprocessing of a weather column: sentinel codes become
    missing, the column is coerced to numbers, and RR is categorised. */
module Cleaning {
  import opened Wrappers
  import opened Values
  import Rainfall

  /** The codes the station uses for "no reading", as text and as numbers. */
  const Sentinels: seq<Cell> :=
    [Text("8888"), Text("9999"), Text("-"), Number(Finite(8888.0)), Number(Finite(9999.0))]

  /** The missing value pandas puts in place of a sentinel. */
  const Missing: Cell := Number(NaN)

  /** `replace(['8888', '9999', '-', 8888, 9999], np.nan)` on one cell. */
  function Clean(c: Cell): (r: Cell)
    ensures r != c <==> c in Sentinels
    ensures r !in Sentinels
    ensures c in Sentinels ==> r == Missing
  {
    if c in Sentinels then Missing else c
  }

  /** The same replacement applied to every cell of a column, in place. */
  function CleanColumn(cs: seq<Cell>): (r: seq<Cell>)
    ensures |r| == |cs|
    ensures forall i :: 0 <= i < |cs| ==> (r[i] != cs[i] <==> cs[i] in Sentinels)
    ensures forall i :: 0 <= i < |cs| ==> r[i] !in Sentinels
  {
    seq(|cs|, i requires 0 <= i < |cs| => Clean(cs[i]))
  }

  /** Cleaning twice is cleaning once. */
  lemma CleanColumnIdempotent(cs: seq<Cell>)
    ensures CleanColumn(CleanColumn(cs)) == CleanColumn(cs)
  {
  }

  /** `pd.to_numeric(c, errors='coerce')`: a cell that does not convert becomes NaN. */
  function ToNumeric(c: Cell, parse: string -> Option<Float>): (r: Float)
    ensures ToFloat(c, parse).None? ==> r == NaN
    ensures ToFloat(c, parse).Some? ==> r == ToFloat(c, parse).value
  {
    ToFloat(c, parse).GetOr(NaN)
  }

  /** The category the data page derives for one RR cell: clean, coerce, categorise. */
  function CategoryOfCell(c: Cell, parse: string -> Option<Float>): (r: string)
    ensures r in Rainfall.LabelNames
  {
    Rainfall.RrCategorization(Number(ToNumeric(Clean(c), parse)), parse)
  }

  /** After coercion every value is a number, so the page never shows
      "Tidak Diketahui"; every sentinel, and every missing reading, is
      shown as the heaviest category. */
  lemma CategoryOfCellNeverUnknown(c: Cell, parse: string -> Option<Float>)
    ensures CategoryOfCell(c, parse) != Rainfall.Label.Unknown.Name()
    ensures c in Sentinels || c == Missing ==> CategoryOfCell(c, parse) == Rainfall.Label.VeryHeavy.Name()
  {
  }

  /** With Python's reading of the three sentinel strings, the cleaning step
      does not change any category: 8888 and 9999 are above 100 anyway, and
      coercion already turns "-" into NaN. */
  lemma CleaningDoesNotChangeCategory(c: Cell, parse: string -> Option<Float>)
    requires parse("8888") == Some(Finite(8888.0))
    requires parse("9999") == Some(Finite(9999.0))
    requires parse("-") == None
    ensures CategoryOfCell(c, parse) == Rainfall.RrCategorization(Number(ToNumeric(c, parse)), parse)
  {
  }
}

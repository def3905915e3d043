/** The sign rule both front-end views use for a percentage change. */
module Display {

  datatype Tone = Positive | Negative

  /** The CSS tone and the prefix written before the number. */
  datatype ChangeCell = ChangeCell(tone: Tone, prefix: string)

  /** Zero counts as a gain: it is shown as positive with a "+" prefix. */
  function ChangeCellOf(change: real): (c: ChangeCell)
    ensures c.tone == Positive <==> change >= 0.0
    ensures c.prefix == "+" <==> change >= 0.0
    ensures c.prefix == "" <==> change < 0.0
  {
    if change >= 0.0 then ChangeCell(Positive, "+") else ChangeCell(Negative, "")
  }
}

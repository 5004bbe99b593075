/** The price series the dashboard works on: hourly TGE fixing prices. */
module Series {

  /** A value of a float price column: a number, or NaN. pandas holds NaN for
      a cell the CSV reader found missing, and `float("nan")` gives it back
      after `.astype(str)` has turned that cell into the text "nan". */
  datatype Number = Num(value: real) | NaN

  /** The fields of a parsed date-time that the pipeline reads. Minutes and
      seconds play no part and are not kept. */
  datatype Timestamp = Timestamp(year: int, month: int, day: int, hour: int)

  /** One row of the price table: when, and the fixing price in PLN/MWh
      (NaN where the price cell was missing). */
  datatype Sample = Sample(year: int, month: int, day: int, hour: int, price: Number)

  function At(t: Timestamp, price: Number): Sample
  {
    Sample(t.year, t.month, t.day, t.hour, price)
  }
}

/** The historical sales table, the derived Months_Since_Start feature and the
    fitted single-feature linear model. */
module Sales {

  datatype Option<T> = None | Some(value: T)

  /** One row of the historical table (columns Product, Year, Month, Sales). */
  datatype Record = Record(product: string, year: int, month: int, sales: real)

  /** The derived feature column: Months_Since_Start = Year * 12 + Month.
      No range check is made on the month. */
  function MonthsSinceStart(year: int, month: int): int
  {
    year * 12 + month
  }

  /** The feature of one record, as computed for the whole table at start-up. */
  function Feature(r: Record): int
  {
    MonthsSinceStart(r.year, r.month)
  }

  /** The calendar year a feature value belongs to, when its month is in 1..12. */
  function YearOf(feature: int): int
  {
    (feature - 1) / 12
  }

  /** The month (1..12) a feature value belongs to. */
  function MonthOf(feature: int): (m: int)
    ensures 1 <= m <= 12
  {
    (feature - 1) % 12 + 1
  }

  /** For months in 1..12 the feature loses nothing: year and month can be
      read back from it. */
  lemma FeatureRoundTrip(year: int, month: int)
    requires 1 <= month <= 12
    ensures YearOf(MonthsSinceStart(year, month)) == year
    ensures MonthOf(MonthsSinceStart(year, month)) == month
  {
  }

  /** Two distinct calendar periods with months in 1..12 get distinct features. */
  lemma FeatureInjective(y1: int, m1: int, y2: int, m2: int)
    requires 1 <= m1 <= 12 && 1 <= m2 <= 12
    ensures MonthsSinceStart(y1, m1) == MonthsSinceStart(y2, m2) <==> y1 == y2 && m1 == m2
  {
  }

  /** The fitted regression, kept as its two coefficients. */
  datatype Model = Model(slope: real, intercept: real)

  /** model.predict on one feature value. */
  function Predict(model: Model, x: int): real
  {
    model.slope * (x as real) + model.intercept
  }

  /** The /predict route: the prediction for a single (year, month). */
  function PredictPeriod(model: Model, year: int, month: int): (p: real)
    ensures p == Predict(model, MonthsSinceStart(year, month))
  {
    var x := year * 12 + month;
    Predict(model, x)
  }

  /** Prediction is affine in the feature. */
  lemma PredictAffine(model: Model, x1: int, x2: int)
    ensures Predict(model, x2) - Predict(model, x1) == model.slope * ((x2 - x1) as real)
  {
  }

  /** One month later always moves the prediction by exactly the slope. */
  lemma PredictNextMonth(model: Model, year: int, month: int)
    ensures PredictPeriod(model, year, month + 1) - PredictPeriod(model, year, month) == model.slope
    ensures PredictPeriod(model, year + 1, month) - PredictPeriod(model, year, month) == 12.0 * model.slope
  {
  }
}

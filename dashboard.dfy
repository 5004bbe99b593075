/** The script's data flow from Kalkulator_Flix/app/app.py (lines 117-168):
    load the uploaded table or fall back on the demo series, then compute the
    monthly FLIX table. A failed load and a 2025 without season data, which
    the script does not check and which crash it, and the stop on a year
    without data are all results here. */
module Dashboard {
  import opened Wrappers
  import opened Series
  import opened Loader
  import Demo
  import opened Flix

  /** Why no monthly table is shown. */
  datatype Failure = LoadFailed(reason: LoadError) | NoDataForTargetYear | NoSeasonData

  /** The samples the computation starts from: the uploaded table, loaded, or
      the demo series when nothing was uploaded, which always loads and holds
      one sample per hour of 2024. */
  function Input(file: Option<RawTable>, parseDate: string -> Option<Timestamp>, parseNumber: string -> Option<Number>): (r: Result<seq<Sample>, LoadError>)
    requires file.Some? ==> Rectangular(file.value)
    ensures file.None? ==> r.Ok? && |r.value| == 8784 && forall s :: s in r.value ==> s.year == 2024
    ensures file.Some? ==> r == Load(file.value, parseDate, parseNumber)
  {
    match file
    case None => Ok(Demo.DemoSeries())
    case Some(t) => Load(t, parseDate, parseNumber)
  }

  /** The whole computation: the monthly table, or the reason there is none. */
  function Run(file: Option<RawTable>, parseDate: string -> Option<Timestamp>, parseNumber: string -> Option<Number>, p: Params): (r: Result<seq<MonthlyRow>, Failure>)
    requires file.Some? ==> Rectangular(file.value)
    ensures r == Err(NoDataForTargetYear) <==>
      Input(file, parseDate, parseNumber).Ok? &&
      forall s :: s in Input(file, parseDate, parseNumber).value ==> s.year != TargetYear
    ensures r == Err(NoSeasonData) <==>
      && Input(file, parseDate, parseNumber).Ok?
      && (exists s :: s in Input(file, parseDate, parseNumber).value && s.year == TargetYear)
      && forall s :: s in Input(file, parseDate, parseNumber).value && s.year == TargetYear ==>
           !(SeasonFirst <= s.month <= SeasonLast)
    ensures r.Err? && r.error.LoadFailed? <==> Input(file, parseDate, parseNumber).Err?
    ensures Input(file, parseDate, parseNumber).Err? ==>
      r == Err(LoadFailed(Input(file, parseDate, parseNumber).error))
    ensures r.Ok? ==>
      Input(file, parseDate, parseNumber).Ok? && r.value == Rows(Input(file, parseDate, parseNumber).value, p)
  {
    Outcome(Input(file, parseDate, parseNumber), p)
  }

  /** What the page ends with for a loaded input or a failed load (lines
      127-161): the load's failure, the stop on a year without data, the
      crash on a season without data, or the monthly table. */
  function Outcome(input: Result<seq<Sample>, LoadError>, p: Params): (r: Result<seq<MonthlyRow>, Failure>)
    ensures r == Err(NoDataForTargetYear) <==>
      input.Ok? && forall s :: s in input.value ==> s.year != TargetYear
    ensures r == Err(NoSeasonData) <==>
      && input.Ok?
      && (exists s :: s in input.value && s.year == TargetYear)
      && forall s :: s in input.value && s.year == TargetYear ==> !(SeasonFirst <= s.month <= SeasonLast)
    ensures r.Err? && r.error.LoadFailed? <==> input.Err?
    ensures input.Err? ==> r == Err(LoadFailed(input.error))
    ensures r.Ok? ==> input.Ok? && r.value == Rows(input.value, p)
  {
    match input
    case Err(e) => Err(LoadFailed(e))
    case Ok(samples) =>
      match Aggregate(samples, p)
      case Err(NoDataForYear) => Err(NoDataForTargetYear)
      case Err(EmptySeason) => Err(NoSeasonData)
      case Ok(rows) => Ok(rows)
  }

  /** Without an upload the dashboard never shows a table: every demo sample
      is dated 2024, so the year filter leaves nothing and the script stops. */
  lemma DemoStops(parseDate: string -> Option<Timestamp>, parseNumber: string -> Option<Number>, p: Params)
    ensures Run(None, parseDate, parseNumber, p) == Err(NoDataForTargetYear)
  {
  }

  /** An uploaded table with a price cell that does not convert produces no
      table, whatever its dates. */
  lemma BadPriceStops(t: RawTable, parseDate: string -> Option<Timestamp>, parseNumber: string -> Option<Number>, p: Params, i: nat)
    requires Rectangular(t)
    requires DateColumn(Normalised(t.header)).Some? && PriceColumn(Normalised(t.header)).Some?
    requires i < |t.rows|
    requires parseNumber(CommaToDot(t.rows[i][PriceColumn(Normalised(t.header)).value])).None?
    ensures Run(Some(t), parseDate, parseNumber, p).Err?
    ensures Run(Some(t), parseDate, parseNumber, p).error.LoadFailed?
  {
    BadPriceFailsLoad(t, parseDate, parseNumber, i);
  }

  /** Lines 117-168 as the script runs them. */
  method RunDashboard(file: Option<RawTable>, parseDate: string -> Option<Timestamp>, parseNumber: string -> Option<Number>, p: Params) returns (r: Result<seq<MonthlyRow>, Failure>)
    requires file.Some? ==> Rectangular(file.value)
    ensures r == Run(file, parseDate, parseNumber, p)
  {
    var samples: seq<Sample>;
    if file.Some? {
      var loaded := LoadPriceTable(file.value, parseDate, parseNumber);
      if loaded.Err? {
        return Err(LoadFailed(loaded.error));
      }
      samples := loaded.value;
    } else {
      samples := Demo.DemoSeries();
    }
    var table := MonthlyFlix(samples, p);
    if table.Err? {
      if table.error == NoDataForYear {
        return Err(NoDataForTargetYear);
      }
      return Err(NoSeasonData);
    }
    r := Ok(table.value);
  }
}

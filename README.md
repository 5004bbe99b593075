# FLIX calculator: price loading and monthly aggregation

A Dafny model of the data pipeline inside the FLIX cost calculator dashboard
(`Kalkulator_Flix/app/app.py`). The pipeline has two parts:

- `wczytaj_csv` loads a TGE hourly price table. It normalises the header
  names (strip, lower-case, delete U+FEFF). It picks the first date column
  (`data`, `date` or `datetime`) and the first column whose name contains
  `fixing`. It rewrites decimal commas to dots, converts the prices and dates,
  and drops rows without a date. A missing price cell becomes NaN and does
  not stop the load. When no file is uploaded, a synthetic 2024 demo series
  is used instead.
- The monthly FLIX aggregation keeps the 2025 samples and stops if there are
  none. It weights each hour (the peak weight inside `[start, end)`, 1.0
  elsewhere) and adds the surcharge. It keeps April to September, groups by
  month, and takes each month's weighted mean price. Finally it derives the
  monthly consumption, FLIX cost, current cost and savings columns.

Modules:

- `Wrappers`: `Option` and `Result`.
- `Seqs`: mask selection and element-wise column operations.
- `Series`: timestamps and price samples.
- `Loader`: `wczytaj_csv`.
- `Demo`: the demo series.
- `Flix`: the aggregation.
- `Dashboard`: the script's flow from upload to monthly table.

The imperative steps are methods, each proved to compute a pure function
of its inputs. These steps are the column reassignment, the column
conversions into new arrays, the `Waga` column set to 1.0 and then
overwritten for the window, and the monthly table built one row at a time.
The properties are proved about those functions.

What the code does, and the model with it:

- The price column is found only by the substring `fixing`. No exact column
  name is tried.
- A load that keeps no rows is not an error of its own. The following year
  filter then finds no 2025 sample and the computation stops.
- A price cell the CSV reader found missing is turned into the text "nan" by
  `.astype(str)` and back into NaN by `.astype(float)`, so it loads without
  error. In the monthly mean its product is skipped by `.sum()` while its
  weight still counts (see Findings).
- The peak weight is whatever the sidebar supplies, not necessarily ≥ 1. A
  month whose weights sum to zero has no price (`None`), since pandas would
  give NaN or an infinity.
- Grouping is by month alone, because only one year survives the filter.
- When 2025 has samples but none from April to September, `apply` returns an
  empty frame and `reset_index(name=...)` at line 161 raises. The model
  returns the error `EmptySeason`.

## Model

Five reference functions carry no contract of their own; the table's lemmas
and methods state their properties:

- `Loader.Normalised` (lines 93-97): every header normalised, in order. `Loader.NormaliseColumns` is proved equal to it.
- `Loader.ParseDates` (line 107): each date cell's parse. `Loader.ConvertDates` is proved equal to it.
- `Flix.WithCosts` (lines 164-168): one `MonthRow` per grouped month. `Flix.AddCostColumns` is proved equal to it, and `Flix.WithCostsMonths` shows that it keeps the months.
- `Flix.Rows` (lines 132-168): the monthly table. It is described by `Flix.RowMonthsAreKeys`, `Flix.MonthsInCalendarOrder`, `Flix.MonthListedIffSampled` and `Flix.RowPriceIsGroupMean`.
- `Flix.PricedMean` (line 160, corrected): the weighted mean over the hours that have a price. It is described by `Flix.PricedMeanWithinRange` and `Flix.PricedMeanAgrees`.

| member | source | states |
|---|---|---|
| Loader.Strip | Kalkulator_Flix/app/app.py:94 | `str.strip()`: the result is an infix of the header, everything cut off at either end is whitespace, and the result neither starts nor ends with whitespace |
| Loader.Lower | Kalkulator_Flix/app/app.py:95 | `str.lower()` keeps the length and lower-cases each character where it stands |
| Loader.LowerAppend | Kalkulator_Flix/app/app.py:95 | lower-casing distributes over concatenation |
| Loader.RemoveBom | Kalkulator_Flix/app/app.py:96 | deleting the marks never lengthens the text |
| Loader.RemoveBomMembers | Kalkulator_Flix/app/app.py:96 | a character survives the U+FEFF deletion iff it was there and is not U+FEFF |
| Loader.RemoveBomLength | Kalkulator_Flix/app/app.py:96 | exactly as many characters go as there were marks |
| Loader.RemoveBomWithoutMark | Kalkulator_Flix/app/app.py:96 | a header without U+FEFF is left unchanged |
| Loader.RemoveBomAppend | Kalkulator_Flix/app/app.py:96 | deletion distributes over concatenation, so the remaining characters keep their order |
| Loader.NormaliseHeader | Kalkulator_Flix/app/app.py:93-97 | a normalised header holds no U+FEFF and no upper-case ASCII letter |
| Loader.NormaliseStripped | Kalkulator_Flix/app/app.py:93-97 | normalising a stripped header gives the same name as normalising the header |
| Loader.StripKeepsFront | Kalkulator_Flix/app/app.py:94 | a header that starts with a non-space character keeps its front when stripped, up to any later non-space character |
| Loader.PrefixSurvivesStrip | Kalkulator_Flix/app/app.py:94 | a prefix that neither starts nor ends with whitespace is still a prefix after stripping, and the stripped text does not end in whitespace |
| Loader.BomShieldsSpace | Kalkulator_Flix/app/app.py:93-97 | because stripping runs before the mark is deleted, a header of U+FEFF, then whitespace, then anything holding a non-space character (trailing whitespace allowed, as in "\uFEFF date ") keeps that whitespace at its front, and is then no date name |
| Loader.NormaliseColumns | Kalkulator_Flix/app/app.py:93-97 | the reassigned `df.columns` holds every header normalised, in order |
| Loader.NormaliseDateHeader | Kalkulator_Flix/app/app.py:93-99 | the TGE header "Date" normalises to the date name "date" |
| Loader.FixingHeaderMentionsFixing | Kalkulator_Flix/app/app.py:93-100 | a header starting with "Fixing" (such as "Fixing I Price", with or without trailing whitespace) normalises to a name starting with "fixing", so it names a price column |
| Loader.FirstIndex | Kalkulator_Flix/app/app.py:99-100 | `next(...)` returns the first matching column, with no earlier column matching, and None iff no column matches |
| Loader.DateColumn | Kalkulator_Flix/app/app.py:99 | `col_data` is the first column with a date name, and None iff no column has one |
| Loader.PriceColumn | Kalkulator_Flix/app/app.py:100 | `col_price` is the first column whose name contains "fixing", and None iff no column's does |
| Loader.DateNamesLackFixing | Kalkulator_Flix/app/app.py:99-100 | no accepted date name contains "fixing" |
| Loader.DateAndPriceColumnsDiffer | Kalkulator_Flix/app/app.py:99-100 | the date column and the price column are never the same column |
| Loader.CommaToDot | Kalkulator_Flix/app/app.py:111 | every comma becomes a dot, every other character is unchanged, the length is kept and no comma is left |
| Loader.ParsePrices | Kalkulator_Flix/app/app.py:108-113 | the column converts iff every rewritten cell converts, to a number or to NaN, and then holds each cell's value; a failure reports an unconvertible text |
| Loader.ParsePricesAll | Kalkulator_Flix/app/app.py:108-113 | when every rewritten cell converts to its value in `vs`, the column converts to exactly `vs` |
| Loader.ParsePricesFirstBad | Kalkulator_Flix/app/app.py:108-113 | the failure reports the first cell that does not convert |
| Loader.DropUndated | Kalkulator_Flix/app/app.py:114 | dropping never adds rows |
| Loader.DropUndatedMembers | Kalkulator_Flix/app/app.py:107-114 | a sample is kept iff some row's date parsed and the sample is that row's timestamp with that row's price |
| Loader.DropUndatedAppend | Kalkulator_Flix/app/app.py:114 | dropping distributes over concatenation, so kept rows stay in their original order |
| Loader.Load | Kalkulator_Flix/app/app.py:99-104 | the loader reports a missing column iff the date column or the price column is absent |
| Loader.LoadColumns | Kalkulator_Flix/app/app.py:106-115 | once both columns are found, the only possible failure is an invalid price |
| Loader.LoadFailsIffBadPrice | Kalkulator_Flix/app/app.py:107-114 | with both columns found, the load succeeds iff every price cell converts, whatever the dates |
| Loader.BadPriceFailsLoad | Kalkulator_Flix/app/app.py:108-114 | conversion runs before the undated rows are dropped, so one bad price fails the whole load, even on a row that would be dropped |
| Loader.LoadKeepsDatedRows | Kalkulator_Flix/app/app.py:107-114 | a successful load holds exactly the rows whose date parsed, each with its converted price |
| Loader.MissingPriceKept | Kalkulator_Flix/app/app.py:108-114 | a dated row whose price cell is the "nan" of a missing cell does not fail the load and is kept with a NaN price |
| Loader.ConvertedColumns | Kalkulator_Flix/app/app.py:107-114 | when every price cell converts, the load is the dated rows of the two converted columns, each holding every row's parse |
| Loader.ConvertDates | Kalkulator_Flix/app/app.py:107 | the date column, converted into a new array, is each cell's parse (None where unparsable) |
| Loader.ConvertPrices | Kalkulator_Flix/app/app.py:108-113 | the price column loop fails exactly when ParsePrices fails, with the same error, and otherwise fills a new array with ParsePrices' values |
| Loader.DropUndatedRows | Kalkulator_Flix/app/app.py:114 | the row-dropping loop keeps exactly what DropUndated keeps |
| Loader.LoadPriceTable | Kalkulator_Flix/app/app.py:91-115 | the loader run step by step returns what Load defines |
| Seqs.Filter | Kalkulator_Flix/app/app.py:132-154 | mask selection keeps exactly the rows satisfying the mask and never adds rows |
| Seqs.FilterAppend | Kalkulator_Flix/app/app.py:132-154 | selection distributes over concatenation, so kept rows stay in order |
| Seqs.FilterAll | Kalkulator_Flix/app/app.py:132-154 | a mask that holds on every row keeps every row |
| Seqs.FilterSnoc | Kalkulator_Flix/app/app.py:132-154 | one more row of input adds that row to a selection when the mask holds on it, and nothing otherwise |
| Seqs.Select | Kalkulator_Flix/app/app.py:132-154 | the selection loop computes Filter |
| Seqs.Apply | Kalkulator_Flix/app/app.py:93-97 | an element-wise column operation builds a new column of the same length holding each element's image, in order |
| Demo.DemoPrice | Kalkulator_Flix/app/app.py:125 | every demo price lies in [431, 477] |
| Demo.DemoMonth | Kalkulator_Flix/app/app.py:122-126 | a month of the demo series has 24 samples per day, all in that month of 2024, with hours 0..23 and prices in [431, 477] |
| Demo.DemoSeries | Kalkulator_Flix/app/app.py:122-126 | the demo series has 8784 samples (2024 is a leap year), all dated 2024 and priced in [431, 477] |
| Demo.DemoMonthAt | Kalkulator_Flix/app/app.py:122-126 | hour h of day d sits at position (d - 1) * 24 + h of its month, priced by the demo formula |
| Demo.DemoCoversEveryHour | Kalkulator_Flix/app/app.py:122-126 | every hour of every day of 2024 is in the demo series with its demo price |
| Flix.Weight | Kalkulator_Flix/app/app.py:143-148 | an hour in the half-open window [start, end) gets the peak weight and every other hour gets 1.0, so the hour `end` is not up-weighted, an empty window gives 1.0 everywhere, and a positive peak weight gives positive weights |
| Flix.SeasonSeries | Kalkulator_Flix/app/app.py:132-154 | exactly the 2025 samples of April to September reach the grouping, each weighted and with the surcharge added |
| Flix.Weigh | Kalkulator_Flix/app/app.py:142-151 | row `i` is sample `i` with its weight and its FLIX price, so no sample is added, lost or repeated |
| Flix.WeightedMean | Kalkulator_Flix/app/app.py:160 | the mean exists iff the weights do not sum to zero, and then the mean times the sum of all weights is the weighted sum of the prices present |
| Flix.MinFlix | Kalkulator_Flix/app/app.py:151 | the lowest FLIX price of a group without missing prices is a member's price and at most every member's price |
| Flix.MaxFlix | Kalkulator_Flix/app/app.py:151 | the highest FLIX price of a group without missing prices is a member's price and at least every member's price |
| Flix.WeightedSumAbove | Kalkulator_Flix/app/app.py:160 | with positive weights and prices all present and ≥ lo, Σ price·weight ≥ lo·Σ weight |
| Flix.WeightedSumBelow | Kalkulator_Flix/app/app.py:160 | with positive weights and prices all present and ≤ hi, Σ price·weight ≤ hi·Σ weight |
| Flix.MeanBounds | Kalkulator_Flix/app/app.py:160 | with positive weights and no missing price the weighted mean exists and lies in any interval that holds every price |
| Flix.MeanWithinRange | Kalkulator_Flix/app/app.py:160 | with positive weights and no missing price the weighted mean lies between the group's lowest and highest FLIX price |
| Flix.MeanOfUnitWeights | Kalkulator_Flix/app/app.py:160 | with all weights 1.0 the weighted mean is the sum of the prices present over the number of hours |
| Flix.MeanOfConstant | Kalkulator_Flix/app/app.py:160 | a group whose prices are all c has mean c, whatever its (non-zero-sum) weights |
| Flix.SplitSums | Kalkulator_Flix/app/app.py:160 | Σ price·weight runs over the priced hours only, while Σ weight is the priced hours' weights plus the weights of the hours without a price |
| Flix.PricedMeanWithinRange | Kalkulator_Flix/app/app.py:160 | with positive weights and one price present, the mean over the priced hours exists and lies between their lowest and highest FLIX price |
| Flix.PricedMeanAgrees | Kalkulator_Flix/app/app.py:160 | without missing prices the mean over the priced hours is line 160's mean |
| Flix.MissingPriceLowersMean | Kalkulator_Flix/app/app.py:160 | with positive weights and prices, a group with a missing price gets a mean strictly below the mean of its priced hours |
| Flix.MissingPriceExample | Kalkulator_Flix/app/app.py:160 | a missing price at weight 2.0 beside a FLIX price of 460 at weight 1.0 gives the mean 460 / 3, where the priced hours give 460 |
| Flix.MonthGroup | Kalkulator_Flix/app/app.py:157-159 | the group of a month holds exactly the samples of that month |
| Flix.GroupKeysFrom | Kalkulator_Flix/app/app.py:157-159 | the group keys are months of the season, strictly increasing |
| Flix.GroupMonthsFrom | Kalkulator_Flix/app/app.py:157-159 | a month is a group key iff it is in the season and has a sample |
| Flix.GroupMeans | Kalkulator_Flix/app/app.py:157-162 | `apply` gives one row per group key, in key order |
| Flix.Digits4 | Kalkulator_Flix/app/app.py:164 | the four digits of a year are decimal digits that make up the year |
| Flix.PeriodLabel | Kalkulator_Flix/app/app.py:164 | the period text has seven characters with a dash at position 4 |
| Flix.PeriodLabelRoundTrip | Kalkulator_Flix/app/app.py:164 | reading the "YYYY-MM" text back gives its year and month |
| Flix.ParsedLabelIsCanonical | Kalkulator_Flix/app/app.py:164 | every text that reads as a year and a month 1..12 is that period's text |
| Flix.MonthRow | Kalkulator_Flix/app/app.py:164-168 | a row's label reads back as its 2025 month. Consumption is annual/12, current cost is current price × consumption, FLIX cost is price × consumption, and savings are current cost − FLIX cost = (current − price) × consumption, both present iff the price is. With positive consumption, savings are positive iff FLIX is cheaper |
| Flix.Aggregate | Kalkulator_Flix/app/app.py:132-168 | the computation stops iff no sample is dated 2025, fails at line 161 iff there are 2025 samples but none from April to September, and otherwise yields the monthly table |
| Flix.MonthGroupMembers | Kalkulator_Flix/app/app.py:132-159 | a month's group holds exactly the 2025 samples of that month, weighted and priced, and only season months have any |
| Flix.MonthGroupNonEmpty | Kalkulator_Flix/app/app.py:132-159 | a month's group is non-empty iff the month is in the season and has a 2025 sample |
| Flix.MonthsInCalendarOrder | Kalkulator_Flix/app/app.py:157-162 | the table lists its months in strictly increasing order, so each at most once |
| Flix.RowMonthsAreKeys | Kalkulator_Flix/app/app.py:154-168 | row `i` of the table is for the `i`-th grouped month, one row per group |
| Flix.MonthListedIffSampled | Kalkulator_Flix/app/app.py:132-162 | the table lists a month iff it is April..September and has a 2025 sample |
| Flix.RowPriceIsGroupMean | Kalkulator_Flix/app/app.py:157-162 | each row's price is the weighted mean of its month's non-empty group |
| Flix.GroupWeightsPositive | Kalkulator_Flix/app/app.py:143-148 | with a positive peak weight every weight is positive |
| Flix.GroupAllPriced | Kalkulator_Flix/app/app.py:132-159 | a month whose 2025 prices are all present has no missing FLIX price in its group |
| Flix.GroupPricesPositive | Kalkulator_Flix/app/app.py:132-159 | positive fixing prices plus the surcharge give a group of positive FLIX prices |
| Flix.RowPriceWithinMonthRange | Kalkulator_Flix/app/app.py:143-162 | with a positive peak weight, each month without missing prices gets a price, and it lies between the month's lowest and highest FLIX price |
| Flix.MissingHourLowersRowPrice | Kalkulator_Flix/app/app.py:108-162 | with a positive peak weight and positive prices, a month with a priced and an unpriced 2025 sample gets a price strictly below the weighted mean of its priced hours |
| Flix.UnitPeakWeightGivesPlainMean | Kalkulator_Flix/app/app.py:143-162 | with peak weight 1.0 each month's price is the sum of its FLIX prices present over its number of hours |
| Flix.GroupFlixConstant | Kalkulator_Flix/app/app.py:132-159 | a month whose fixing prices are all c has FLIX price c + surcharge in every member of its group |
| Flix.ConstantGroupMean | Kalkulator_Flix/app/app.py:143-162 | a month whose fixing prices are all c has mean c + surcharge, provided the peak weight is positive or the month's weights do not sum to zero |
| Flix.ConstantMonthPrice | Kalkulator_Flix/app/app.py:143-162 | a listed month whose fixing prices are all c gets price c + surcharge, provided the peak weight is positive or the month's weights do not sum to zero |
| Flix.ZeroWeightMonthHasNoPrice | Kalkulator_Flix/app/app.py:160 | a listed month whose weights sum to zero (possible with a peak weight of 0, which the sidebar allows) has no price |
| Flix.WeighIgnoresPeakWeight | Kalkulator_Flix/app/app.py:143-148 | with an empty window (start ≥ end) the peak weight changes no weight |
| Flix.RowsIgnorePeakWeight | Kalkulator_Flix/app/app.py:143-168 | with an empty window the peak weight does not change the monthly table |
| Flix.EmptyWindowIgnoresPeakWeight | Kalkulator_Flix/app/app.py:132-168 | with an empty window the whole result is as if the peak weight were 1.0 |
| Flix.AssignWeights | Kalkulator_Flix/app/app.py:142-148 | the weight column is the peak weight exactly where start ≤ hour < end and 1.0 elsewhere. An hour equal to end gets 1.0, and an empty window up-weights nothing |
| Flix.PriceAndWeigh | Kalkulator_Flix/app/app.py:151 | the priced and weighted column is Weigh of the samples |
| Flix.AddCostColumns | Kalkulator_Flix/app/app.py:164-168 | the table built one row at a time gives each month its MonthRow |
| Flix.WithCostsMonths | Kalkulator_Flix/app/app.py:164-168 | adding the cost columns keeps the number of rows and each row's month |
| Flix.MonthlyFlix | Kalkulator_Flix/app/app.py:132-168 | the aggregation run step by step returns what Aggregate defines |
| Dashboard.Input | Kalkulator_Flix/app/app.py:117-126 | without an upload the input always loads and holds 8784 samples, all dated 2024; with one it is the loaded table |
| Dashboard.Run | Kalkulator_Flix/app/app.py:117-168 | the dashboard stops for lack of 2025 data iff the input loaded and none of its samples is dated 2025, fails for lack of season data iff it loaded with 2025 samples but none from April to September, fails to load exactly when the input does (with the input's error), and otherwise shows the monthly table of the input |
| Dashboard.Outcome | Kalkulator_Flix/app/app.py:127-168 | for a given input: a failed load gives LoadFailed with its error; a loaded input stops iff no sample is dated 2025, fails for lack of season data iff 2025 has samples but none from April to September, and otherwise gives the monthly table |
| Dashboard.DemoStops | Kalkulator_Flix/app/app.py:122-136 | without an upload the dashboard always stops: every demo sample is dated 2024 |
| Dashboard.BadPriceStops | Kalkulator_Flix/app/app.py:108-120 | an upload with one unconvertible price yields no table, only a load failure |
| Dashboard.RunDashboard | Kalkulator_Flix/app/app.py:117-168 | the script run step by step returns what Run defines |

## Findings

| source | as written | input that shows it | evidently intended | confidence | as-written member | corrected member |
|---|---|---|---|---|---|---|
| Kalkulator_Flix/app/app.py:160 | `(Cena_FLIX * Waga).sum() / Waga.sum()`: the sum of products skips an hour whose price is NaN (a missing cell, which lines 108-114 load without error), while the sum of weights still counts that hour's weight | header `Date`, `Fixing I Price`; rows ("01.04.2025 08:00", missing) and ("01.04.2025 20:00", "300,0"); surcharge 160, window [8, 16) weighted 2.0: April gets 460 / 3 ≈ 153.3, below its only FLIX price 460 | the weighted mean over the hours that have a price, 460 here | medium; not executed | Flix.MissingHourLowersRowPrice | Flix.PricedMeanWithinRange |

`Flix.MissingPriceExample` computes the example's group. The monthly table
(`Flix.Rows`) keeps the code's mean, so that it stays the table the script
shows. `Flix.PricedMean` is the corrected mean, and `Flix.PricedMeanAgrees`
proves that the two are equal on every month without a missing price, which
is where the range and constant-price properties are stated.

## Left out

- The Streamlit page, sidebar widgets, messages, `st.stop`, the metrics and the charts (lines 11-84, 127, 135-136, 173-247). The sidebar values are the `Params` fields, with no range restriction.
- The summary mean and sum metrics (lines 180-192). They are display only.
- `pd.read_csv(..., sep=None)` delimiter sniffing and the upload itself (lines 92, 117). A table arrives as header cells and rows of cells, one cell per header.
- `read_csv`'s recognition of missing cells (its `na_values`). A missing cell arrives as the text "nan" that `.astype(str)` makes of it.
- Price texts that `float()` turns into an infinity, such as "inf". `parseNumber` returns a number, NaN or a failure.
- `pd.to_datetime(..., dayfirst=True, errors="coerce")` and `float()` are library parsers. They are the parameters `parseDate` and `parseNumber`; their formats are not modelled.
- Timestamps keep year, month, day and hour only. Minutes play no part in the pipeline.
- Floating point: prices, weights and costs are reals, so IEEE rounding is not modelled.
- Loader.Lower: lower-cases ASCII letters only, not full Unicode `str.lower()`.
- Loader.LoadPriceTable: the source returns `None` on a missing column and the script then crashes with a TypeError (lines 104, 120, 132). The model returns `Err(MissingColumn)`, and `Run` stops with `LoadFailed`. A price cell that `.astype(float)` cannot convert raises an uncaught ValueError at line 112, which also ends the script; the model returns `Err(InvalidPrice)` for it, and `Run` stops with `LoadFailed`.
- Duplicate column names after normalisation, and a rename onto an existing column name (line 106), are not modelled. Columns are addressed by the index of the first match.
- Flix.Aggregate: the TypeError raised at line 161 when 2025 has samples but none from April to September is the error `EmptySeason`; `Run` reports it as `NoSeasonData`.
- Flix.WeightedMean: a zero sum of weights gives `None` instead of pandas' NaN or infinity. The value of a row with NaN costs is not modelled beyond its absence.

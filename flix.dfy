/** The monthly FLIX aggregation of Kalkulator_Flix/app/app.py (lines
    132-168): keep the 2025 samples, weight each by its hour, add the
    surcharge, keep April to September, and for each month compute the
    weighted mean price and the cost and savings columns. Prices, weights and
    costs are reals: the model does not follow floating-point rounding. */
module Flix {
  import opened Wrappers
  import opened Series
  import opened Seqs

  /** The calculator's parameters, as the sidebar supplies them. */
  datatype Params = Params(
    surcharge: real,          // PLN/MWh added to every fixing price
    annualConsumption: real,  // MWh per year
    currentPrice: real,       // the customer's present flat price, PLN/MWh
    peakStart: int,           // first hour of the heavier-consumption window
    peakEnd: int,             // first hour after that window
    peakWeight: real)         // weight of the hours inside the window

  /** The only year the dashboard analyses. */
  const TargetYear := 2025

  /** The summer season the monthly table covers: April to September. */
  const SeasonFirst := 4
  const SeasonLast := 9

  /** A sample after the weighting step: its period and hour, its FLIX price
      (fixing price plus surcharge, NaN where the price is missing) and its
      weight. */
  datatype Weighted = Weighted(year: int, month: int, hour: int, flix: Number, weight: real)

  predicate InTargetYear(s: Sample)
  {
    s.year == TargetYear
  }

  predicate InSeason(x: Weighted)
  {
    SeasonFirst <= x.month <= SeasonLast
  }

  /** The weight of a sample at `hour`: the peak weight inside the half-open
      window [peakStart, peakEnd), 1.0 everywhere else. The hour `peakEnd`
      itself is not up-weighted, an empty window up-weights nothing, and a
      positive peak weight makes every weight positive. */
  function Weight(hour: int, p: Params): (r: real)
    ensures p.peakStart <= hour < p.peakEnd ==> r == p.peakWeight
    ensures !(p.peakStart <= hour < p.peakEnd) ==> r == 1.0
    ensures r == p.peakWeight || r == 1.0
    ensures hour == p.peakEnd || hour < p.peakStart ==> r == 1.0
    ensures p.peakStart >= p.peakEnd ==> r == 1.0
    ensures p.peakWeight > 0.0 ==> r > 0.0
  {
    if p.peakStart <= hour < p.peakEnd then p.peakWeight else 1.0
  }

  /** `fixing_i_price + skladnik_dodatkowy` on one value: a missing price
      stays missing. */
  function AddSurcharge(price: Number, surcharge: real): Number
  {
    if price.NaN? then NaN else Num(price.value + surcharge)
  }

  function WeighOne(s: Sample, p: Params): Weighted
  {
    Weighted(s.year, s.month, s.hour, AddSurcharge(s.price, p.surcharge), Weight(s.hour, p))
  }

  /** The `Waga` and `Cena_FLIX` columns added to every sample: row `i` of
      the result is sample `i` weighted and priced, so no row is added, lost
      or repeated. */
  function Weigh(ys: seq<Sample>, p: Params): (r: seq<Weighted>)
    ensures |r| == |ys|
    ensures forall i :: 0 <= i < |ys| ==> r[i] == WeighOne(ys[i], p)
    ensures forall x :: x in r <==> exists s :: s in ys && x == WeighOne(s, p)
  {
    var r := seq(|ys|, i requires 0 <= i < |ys| => WeighOne(ys[i], p));
    assert forall i :: 0 <= i < |ys| ==> r[i] == WeighOne(ys[i], p);
    r
  }

  /** What reaches the grouping step: the samples of the target year, weighted
      and priced, restricted to the season. */
  function SeasonSeries(samples: seq<Sample>, p: Params): (r: seq<Weighted>)
    ensures forall x :: x in r ==> x.year == TargetYear && InSeason(x)
    ensures forall x :: x in r <==>
      exists s :: s in samples && s.year == TargetYear && SeasonFirst <= s.month <= SeasonLast && x == WeighOne(s, p)
  {
    Filter(Weigh(Filter(samples, InTargetYear), p), InSeason)
  }

  // ---------------------------------------------------------------------------
  // The weighted mean
  // ---------------------------------------------------------------------------

  function SumW(ws: seq<Weighted>): real
  {
    if ws == [] then 0.0 else ws[0].weight + SumW(ws[1..])
  }

  /** One summand of `(Cena_FLIX * Waga).sum()`: pandas skips the NaN product
      of a missing price. */
  function Term(x: Weighted): real
  {
    if x.flix.Num? then x.flix.value * x.weight else 0.0
  }

  function SumPW(ws: seq<Weighted>): real
  {
    if ws == [] then 0.0 else Term(ws[0]) + SumPW(ws[1..])
  }

  /** The sum of the FLIX prices present. */
  function SumFlix(ws: seq<Weighted>): real
  {
    if ws == [] then 0.0 else (if ws[0].flix.Num? then ws[0].flix.value else 0.0) + SumFlix(ws[1..])
  }

  /** `(Cena_FLIX * Waga).sum() / Waga.sum()`. When the weights sum to zero
      the quotient is not a number (NaN or an infinity) and is None here;
      otherwise the mean times the sum of all weights is the weighted sum of
      the prices present. */
  function WeightedMean(ws: seq<Weighted>): (r: Option<real>)
    ensures r.Some? <==> SumW(ws) != 0.0
    ensures r.Some? ==> r.value * SumW(ws) == SumPW(ws)
  {
    if SumW(ws) == 0.0 then None else Some(SumPW(ws) / SumW(ws))
  }

  /** Every FLIX price of the group is present. */
  predicate AllPriced(ws: seq<Weighted>)
  {
    forall x :: x in ws ==> x.flix.Num?
  }

  /** The lowest FLIX price of a non-empty group without missing prices. */
  function MinFlix(ws: seq<Weighted>): (r: real)
    requires ws != [] && AllPriced(ws)
    ensures forall x :: x in ws ==> r <= x.flix.value
    ensures exists x :: x in ws && x.flix.value == r
  {
    assert ws == [ws[0]] + ws[1..];
    if |ws| == 1 then ws[0].flix.value
    else
      var m := MinFlix(ws[1..]);
      if ws[0].flix.value <= m then ws[0].flix.value else m
  }

  /** The highest FLIX price of a non-empty group without missing prices. */
  function MaxFlix(ws: seq<Weighted>): (r: real)
    requires ws != [] && AllPriced(ws)
    ensures forall x :: x in ws ==> x.flix.value <= r
    ensures exists x :: x in ws && x.flix.value == r
  {
    assert ws == [ws[0]] + ws[1..];
    if |ws| == 1 then ws[0].flix.value
    else
      var m := MaxFlix(ws[1..]);
      if m <= ws[0].flix.value then ws[0].flix.value else m
  }

  lemma {:induction false} SumWPositive(ws: seq<Weighted>)
    requires ws != []
    requires forall x :: x in ws ==> x.weight > 0.0
    ensures SumW(ws) > 0.0
  {
    if |ws| > 1 {
      assert forall x :: x in ws[1..] ==> x in ws;
      SumWPositive(ws[1..]);
    }
  }

  /** With positive weights, the weighted sum is at least lo times the sum of
      weights whenever every price is at least lo. */
  lemma {:induction false} WeightedSumAbove(ws: seq<Weighted>, lo: real)
    requires forall x :: x in ws ==> x.weight > 0.0 && x.flix.Num? && lo <= x.flix.value
    ensures lo * SumW(ws) <= SumPW(ws)
  {
    if ws != [] {
      var x, rest := ws[0], ws[1..];
      FirstAndRest(ws);
      WeightedSumAbove(rest, lo);
      SumsStep(ws);
      AddAbove(x, lo, SumW(rest), SumPW(rest), SumW(ws), SumPW(ws));
    }
  }

  /** With positive weights, the weighted sum is at most hi times the sum of
      weights whenever every price is at most hi. */
  lemma {:induction false} WeightedSumBelow(ws: seq<Weighted>, hi: real)
    requires forall x :: x in ws ==> x.weight > 0.0 && x.flix.Num? && x.flix.value <= hi
    ensures SumPW(ws) <= hi * SumW(ws)
  {
    if ws != [] {
      var x, rest := ws[0], ws[1..];
      FirstAndRest(ws);
      WeightedSumBelow(rest, hi);
      SumsStep(ws);
      AddBelow(x, hi, SumW(rest), SumPW(rest), SumW(ws), SumPW(ws));
    }
  }

  /** A non-empty group is its first sample and the rest. */
  lemma FirstAndRest(ws: seq<Weighted>)
    requires ws != []
    ensures ws[0] in ws
    ensures forall y :: y in ws[1..] ==> y in ws
  {
  }

  /** Both sums of a non-empty group: its first sample plus the rest. */
  lemma SumsStep(ws: seq<Weighted>)
    requires ws != []
    ensures SumW(ws) == ws[0].weight + SumW(ws[1..])
    ensures SumPW(ws) == Term(ws[0]) + SumPW(ws[1..])
  {
  }

  /** One step of WeightedSumAbove: a sample with positive weight and a price
      of at least lo added to sums sw and spw with lo * sw <= spw. */
  lemma AddAbove(x: Weighted, lo: real, sw: real, spw: real, s: real, sp: real)
    requires x.weight > 0.0 && x.flix.Num? && lo <= x.flix.value && lo * sw <= spw
    requires s == x.weight + sw && sp == Term(x) + spw
    ensures lo * s <= sp
  {
    var w, f := x.weight, x.flix.value;
    assert lo * w <= f * w;
    assert lo * s == lo * w + lo * sw;
  }

  /** One step of WeightedSumBelow. */
  lemma AddBelow(x: Weighted, hi: real, sw: real, spw: real, s: real, sp: real)
    requires x.weight > 0.0 && x.flix.Num? && x.flix.value <= hi && spw <= hi * sw
    requires s == x.weight + sw && sp == Term(x) + spw
    ensures sp <= hi * s
  {
    var w, f := x.weight, x.flix.value;
    assert f * w <= hi * w;
    assert hi * s == hi * w + hi * sw;
  }

  lemma QuotientBounds(a: real, b: real, lo: real, hi: real)
    requires b > 0.0 && lo * b <= a <= hi * b
    ensures lo <= a / b <= hi
  {
    assert a / b * b == a;
  }

  /** With positive weights, the weighted mean of a non-empty group whose
      prices are all present and lie in [lo, hi] exists and lies in [lo, hi]. */
  lemma MeanBounds(ws: seq<Weighted>, lo: real, hi: real)
    requires ws != []
    requires forall x :: x in ws ==> x.weight > 0.0 && x.flix.Num? && lo <= x.flix.value <= hi
    ensures WeightedMean(ws).Some?
    ensures lo <= WeightedMean(ws).value <= hi
  {
    SumWPositive(ws);
    WeightedSumAbove(ws, lo);
    WeightedSumBelow(ws, hi);
    QuotientBounds(SumPW(ws), SumW(ws), lo, hi);
  }

  /** With positive weights, the weighted mean of a non-empty group without
      missing prices exists and lies between the group's lowest and highest
      FLIX price. */
  lemma MeanWithinRange(ws: seq<Weighted>)
    requires ws != [] && AllPriced(ws)
    requires forall x :: x in ws ==> x.weight > 0.0
    ensures WeightedMean(ws).Some?
    ensures MinFlix(ws) <= WeightedMean(ws).value <= MaxFlix(ws)
  {
    MeanBounds(ws, MinFlix(ws), MaxFlix(ws));
  }

  lemma {:induction false} UnitWeightSums(ws: seq<Weighted>)
    requires forall x :: x in ws ==> x.weight == 1.0
    ensures SumW(ws) == |ws| as real
    ensures SumPW(ws) == SumFlix(ws)
  {
    if ws != [] {
      assert forall y :: y in ws[1..] ==> y in ws;
      UnitWeightSums(ws[1..]);
    }
  }

  /** With every weight 1.0 the weighted mean is the sum of the prices present
      over the number of hours (a missing price still counts as an hour). */
  lemma MeanOfUnitWeights(ws: seq<Weighted>)
    requires ws != []
    requires forall x :: x in ws ==> x.weight == 1.0
    ensures WeightedMean(ws) == Some(SumFlix(ws) / |ws| as real)
  {
    UnitWeightSums(ws);
  }

  lemma {:induction false} ConstantSums(ws: seq<Weighted>, c: real)
    requires forall x :: x in ws ==> x.flix == Num(c)
    ensures SumPW(ws) == c * SumW(ws)
  {
    if ws != [] {
      assert forall y :: y in ws[1..] ==> y in ws;
      ConstantSums(ws[1..], c);
    }
  }

  /** Whatever the weights, a group whose prices are all `c` has mean `c`
      (when its weights do not sum to zero). */
  lemma MeanOfConstant(ws: seq<Weighted>, c: real)
    requires forall x :: x in ws ==> x.flix == Num(c)
    requires SumW(ws) != 0.0
    ensures WeightedMean(ws) == Some(c)
  {
    ConstantSums(ws, c);
    var b := SumW(ws);
    DivCancel(c, b);
    assert SumPW(ws) / b == c * b / b;
  }

  lemma DivCancel(c: real, b: real)
    requires b != 0.0
    ensures c * b / b == c
  {
  }

  // ---------------------------------------------------------------------------
  // Missing prices in the weighted mean
  // ---------------------------------------------------------------------------

  predicate Priced(x: Weighted)
  {
    x.flix.Num?
  }

  predicate Unpriced(x: Weighted)
  {
    x.flix.NaN?
  }

  /** The weighted mean over the hours whose price is present: both sums
      taken over the same hours. */
  function PricedMean(ws: seq<Weighted>): Option<real>
  {
    WeightedMean(Filter(ws, Priced))
  }

  /** The price sum of line 160 is that of the priced hours alone, while the
      weight sum also counts the weights of the hours without a price. */
  lemma SplitSums(ws: seq<Weighted>)
    ensures SumPW(ws) == SumPW(Filter(ws, Priced))
    ensures SumW(ws) == SumW(Filter(ws, Priced)) + SumW(Filter(ws, Unpriced))
  {
    PricedSum(ws);
    SplitWeights(ws);
  }

  lemma {:induction false} PricedSum(ws: seq<Weighted>)
    ensures SumPW(ws) == SumPW(Filter(ws, Priced))
  {
    if ws != [] {
      var x, rest := ws[0], ws[1..];
      var fp := Filter(rest, Priced);
      PricedSum(rest);
      if x.flix.Num? {
        assert Filter(ws, Priced) == [x] + fp;
        assert ([x] + fp)[1..] == fp;
      } else {
        assert Filter(ws, Priced) == [] + fp == fp;
      }
    }
  }

  lemma {:induction false} SplitWeights(ws: seq<Weighted>)
    ensures SumW(ws) == SumW(Filter(ws, Priced)) + SumW(Filter(ws, Unpriced))
  {
    if ws != [] {
      var x, rest := ws[0], ws[1..];
      var fp, fu := Filter(rest, Priced), Filter(rest, Unpriced);
      SplitWeights(rest);
      if x.flix.Num? {
        assert Filter(ws, Priced) == [x] + fp;
        assert ([x] + fp)[1..] == fp;
        assert Filter(ws, Unpriced) == [] + fu == fu;
      } else {
        assert Filter(ws, Priced) == [] + fp == fp;
        assert Filter(ws, Unpriced) == [x] + fu;
        assert ([x] + fu)[1..] == fu;
      }
    }
  }

  /** With positive weights and at least one price present, the mean over the
      priced hours exists and lies between their lowest and highest FLIX
      price. */
  lemma PricedMeanWithinRange(ws: seq<Weighted>, y: Weighted)
    requires forall x :: x in ws ==> x.weight > 0.0
    requires y in ws && y.flix.Num?
    ensures Filter(ws, Priced) != []
    ensures PricedMean(ws).Some?
    ensures MinFlix(Filter(ws, Priced)) <= PricedMean(ws).value <= MaxFlix(Filter(ws, Priced))
  {
    assert y in Filter(ws, Priced);
    MeanWithinRange(Filter(ws, Priced));
  }

  /** Without missing prices the two means are the same. */
  lemma PricedMeanAgrees(ws: seq<Weighted>)
    requires AllPriced(ws)
    ensures PricedMean(ws) == WeightedMean(ws)
  {
    FilterAll(ws, Priced);
  }

  /** A missing price pulls the mean of line 160 down: with positive weights
      and positive prices, a group with a missing price gets a mean strictly
      below the mean of its priced hours. */
  lemma MissingPriceLowersMean(ws: seq<Weighted>, y: Weighted, z: Weighted)
    requires forall x :: x in ws ==> x.weight > 0.0
    requires forall x :: x in ws && x.flix.Num? ==> x.flix.value > 0.0
    requires y in ws && y.flix.Num?
    requires z in ws && z.flix.NaN?
    ensures WeightedMean(ws).Some? && PricedMean(ws).Some?
    ensures WeightedMean(ws).value < PricedMean(ws).value
  {
    var pr, un := Filter(ws, Priced), Filter(ws, Unpriced);
    SplitSums(ws);
    var a, b, c := SumPW(pr), SumW(pr), SumW(un);
    assert y in pr && z in un;
    SumWPositive(pr);
    SumWPositive(un);
    assert PricedMean(ws) == Some(a / b);
    assert WeightedMean(ws) == Some(a / (b + c));
    MeanWithinRange(pr);
    var w :| w in pr && w.flix.value == MinFlix(pr);
    assert a / b > 0.0;
    ShareBelow(a, b, c);
  }

  lemma ShareBelow(a: real, b: real, c: real)
    requires b > 0.0 && c > 0.0 && a / b > 0.0
    ensures a / (b + c) < a / b
  {
    assert a == a / b * b;
    assert a > 0.0;
    assert a / (b + c) * (b + c) == a;
    assert a * b < a * (b + c);
  }

  /** The group of the example: April 2025, a missing price at 8:00 inside a
      window weighted 2.0, and a fixing price of 300.0 at 20:00 with the
      surcharge 160.0. Line 160 gives 460 / 3, a third of the only price
      present; the priced hours alone give 460. */
  lemma MissingPriceExample()
    ensures var ws := [Weighted(2025, 4, 8, NaN, 2.0), Weighted(2025, 4, 20, Num(460.0), 1.0)];
      && WeightedMean(ws) == Some(460.0 / 3.0)
      && PricedMean(ws) == Some(460.0)
  {
    var ws := [Weighted(2025, 4, 8, NaN, 2.0), Weighted(2025, 4, 20, Num(460.0), 1.0)];
    assert ws[1..] == [ws[1]] && ws[1..][1..] == [];
    assert Filter(ws, Priced) == [ws[1]];
    assert [ws[1]][1..] == [];
  }

  // ---------------------------------------------------------------------------
  // Grouping by month
  // ---------------------------------------------------------------------------

  /** The samples of month `m`: one group of `groupby("Miesiąc")`. */
  function MonthGroup(ws: seq<Weighted>, m: int): (r: seq<Weighted>)
    ensures forall x :: x in r <==> x in ws && x.month == m
  {
    Filter(ws, (x: Weighted) => x.month == m)
  }

  /** The keys of `groupby("Miesiąc")` from month `m` on: the months `m` to
      September that have a sample, in calendar order. The group of key `k`
      is MonthGroup(ws, k). */
  function GroupKeysFrom(ws: seq<Weighted>, m: int): (r: seq<int>)
    requires SeasonFirst <= m <= SeasonLast + 1
    decreases SeasonLast + 1 - m
    ensures forall i :: 0 <= i < |r| ==> m <= r[i] <= SeasonLast
    ensures forall i, j :: 0 <= i < j < |r| ==> r[i] < r[j]
  {
    if m > SeasonLast then []
    else
      var rest := GroupKeysFrom(ws, m + 1);
      if MonthGroup(ws, m) == [] then rest
      else
        var r := [m] + rest;
        assert forall i :: 0 < i < |r| ==> r[i] == rest[i - 1];
        r
  }

  /** `groupby` makes a group for a month exactly when the month has a sample:
      the keys from `m` on hold k iff m <= k <= September and the samples of
      k are not empty. */
  lemma {:induction false} GroupMonthsFrom(ws: seq<Weighted>, m: int, k: int)
    requires SeasonFirst <= m <= SeasonLast + 1
    decreases SeasonLast + 1 - m
    ensures k in GroupKeysFrom(ws, m) <==> m <= k <= SeasonLast && MonthGroup(ws, k) != []
  {
    if m <= SeasonLast {
      var rest := GroupKeysFrom(ws, m + 1);
      GroupMonthsFrom(ws, m + 1, k);
      assert k in rest <==> m + 1 <= k <= SeasonLast && MonthGroup(ws, k) != [];
      if MonthGroup(ws, m) == [] {
        assert GroupKeysFrom(ws, m) == rest;
      } else {
        assert GroupKeysFrom(ws, m) == [m] + rest;
        assert k in [m] + rest <==> k == m || k in rest;
      }
    } else {
      assert GroupKeysFrom(ws, m) == [];
    }
  }

  /** The keys of `groupby("Miesiąc")` over the season's samples. */
  function GroupKeys(ws: seq<Weighted>): seq<int>
  {
    GroupKeysFrom(ws, SeasonFirst)
  }

  /** One row of the grouped table: the month and its weighted mean price. */
  datatype MonthMean = MonthMean(month: int, price: Option<real>)

  /** The lambda that `apply` runs on the group of month `k`. */
  function Mean(ws: seq<Weighted>, k: int): MonthMean
  {
    MonthMean(k, WeightedMean(MonthGroup(ws, k)))
  }

  /** `groupby("Miesiąc").apply(weighted mean)`. */
  function GroupMeans(ws: seq<Weighted>): (r: seq<MonthMean>)
    ensures |r| == |GroupKeys(ws)|
    ensures forall i :: 0 <= i < |r| ==> r[i].month == GroupKeys(ws)[i]
  {
    var ks := GroupKeys(ws);
    seq(|ks|, i requires 0 <= i < |ks| => Mean(ws, ks[i]))
  }

  // ---------------------------------------------------------------------------
  // The monthly table
  // ---------------------------------------------------------------------------

  function DigitChar(d: int): char
    requires 0 <= d <= 9
  {
    ('0' as int + d) as char
  }

  function DigitValue(c: char): Option<int>
  {
    if '0' <= c <= '9' then Some(c as int - '0' as int) else None
  }

  lemma DigitRoundTrip(d: int)
    requires 0 <= d <= 9
    ensures DigitValue(DigitChar(d)) == Some(d)
  {
  }

  lemma DigitCharOfValue(c: char)
    requires DigitValue(c).Some?
    ensures 0 <= DigitValue(c).value <= 9 && DigitChar(DigitValue(c).value) == c
  {
  }

  lemma DivMod10(n: int)
    ensures n == 10 * (n / 10) + n % 10 && 0 <= n % 10 < 10
  {
  }

  /** The four decimal digits of `n`, most significant first. */
  function Digits4(n: int): (r: (int, int, int, int))
    requires 0 <= n <= 9999
    ensures 0 <= r.0 <= 9 && 0 <= r.1 <= 9 && 0 <= r.2 <= 9 && 0 <= r.3 <= 9
    ensures r.0 * 1000 + r.1 * 100 + r.2 * 10 + r.3 == n
  {
    var r1 := n / 10;
    var r2 := r1 / 10;
    DivMod10(n);
    DivMod10(r1);
    DivMod10(r2);
    (r2 / 10, r2 % 10, r1 % 10, n % 10)
  }

  lemma DivModUnique(n: int, q: int, r: int)
    requires n == 10 * q + r && 0 <= r < 10
    ensures n / 10 == q && n % 10 == r
  {
    DivMod10(n);
  }

  /** Four digits determine their number: the digits of n are unique. */
  lemma Digits4Unique(n: int, a: int, b: int, c: int, d: int)
    requires 0 <= a <= 9 && 0 <= b <= 9 && 0 <= c <= 9 && 0 <= d <= 9
    requires n == a * 1000 + b * 100 + c * 10 + d
    ensures Digits4(n) == (a, b, c, d)
  {
    DivModUnique(n, a * 100 + b * 10 + c, d);
    DivModUnique(a * 100 + b * 10 + c, a * 10 + b, c);
    DivModUnique(a * 10 + b, a, b);
  }

  /** Reads back a "YYYY-MM" label. */
  function ParsePeriodLabel(s: string): Option<(int, int)>
  {
    if |s| != 7 || s[4] != '-' then None
    else
      match (DigitValue(s[0]), DigitValue(s[1]), DigitValue(s[2]), DigitValue(s[3]), DigitValue(s[5]), DigitValue(s[6]))
      case (Some(a), Some(b), Some(c), Some(d), Some(e), Some(f)) =>
        Some((a * 1000 + b * 100 + c * 10 + d, e * 10 + f))
      case _ => None
  }

  /** The text of a monthly period, `str(Period(..., "M"))`: four year digits,
      a dash, two month digits. */
  function PeriodLabel(year: int, month: int): (r: string)
    requires 0 <= year <= 9999 && 1 <= month <= 12
    ensures |r| == 7 && r[4] == '-'
  {
    var y := Digits4(year);
    [DigitChar(y.0), DigitChar(y.1), DigitChar(y.2), DigitChar(y.3), '-', DigitChar(month / 10), DigitChar(month % 10)]
  }

  /** Reading a label back gives its period. */
  lemma PeriodLabelRoundTrip(year: int, month: int)
    requires 0 <= year <= 9999 && 1 <= month <= 12
    ensures ParsePeriodLabel(PeriodLabel(year, month)) == Some((year, month))
  {
    var y := Digits4(year);
    DigitRoundTrip(y.0);
    DigitRoundTrip(y.1);
    DigitRoundTrip(y.2);
    DigitRoundTrip(y.3);
    DigitRoundTrip(month / 10);
    DigitRoundTrip(month % 10);
  }

  /** Conversely, every text that reads as a period of months 1..12 is that
      period's label: the label is the only spelling of its period. */
  lemma ParsedLabelIsCanonical(s: string, year: int, month: int)
    requires ParsePeriodLabel(s) == Some((year, month)) && 1 <= month <= 12
    ensures 0 <= year <= 9999
    ensures PeriodLabel(year, month) == s
  {
    DigitCharOfValue(s[0]);
    DigitCharOfValue(s[1]);
    DigitCharOfValue(s[2]);
    DigitCharOfValue(s[3]);
    DigitCharOfValue(s[5]);
    DigitCharOfValue(s[6]);
    var a, b, c, d := DigitValue(s[0]).value, DigitValue(s[1]).value, DigitValue(s[2]).value, DigitValue(s[3]).value;
    var e, f := DigitValue(s[5]).value, DigitValue(s[6]).value;
    assert year == a * 1000 + b * 100 + c * 10 + d && month == e * 10 + f;
    Digits4Unique(year, a, b, c, d);
    assert month / 10 == e && month % 10 == f;
    var t := PeriodLabel(year, month);
    assert forall i :: 0 <= i < 7 ==> t[i] == s[i];
  }

  /** One row of the `monthly` table. `price`, `flixCost` and `savings` are
      None where pandas would hold NaN or an infinity. */
  datatype MonthlyRow = MonthlyRow(
    period: string,
    month: int,
    price: Option<real>,
    consumption: real,
    flixCost: Option<real>,
    currentCost: real,
    savings: Option<real>)

  /** The cost and savings columns of one month, from the annual consumption
      and the customer's present price. Savings are the difference between
      the present price and the FLIX price, times the monthly consumption, so
      they are positive exactly when FLIX is cheaper (for a positive
      consumption). */
  function MonthRow(mm: MonthMean, annualConsumption: real, currentPrice: real): (r: MonthlyRow)
    requires 1 <= mm.month <= 12
    ensures r.month == mm.month && r.price == mm.price
    ensures ParsePeriodLabel(r.period) == Some((TargetYear, mm.month))
    ensures r.consumption == annualConsumption / 12.0
    ensures r.currentCost == currentPrice * r.consumption
    ensures r.flixCost.Some? <==> mm.price.Some?
    ensures mm.price.Some? ==> r.flixCost.value == mm.price.value * r.consumption
    ensures r.savings.Some? <==> mm.price.Some?
    ensures mm.price.Some? ==> r.savings.value == r.currentCost - r.flixCost.value
    ensures mm.price.Some? ==> r.savings.value == (currentPrice - mm.price.value) * r.consumption
    ensures mm.price.Some? && annualConsumption > 0.0 ==>
      (r.savings.value > 0.0 <==> mm.price.value < currentPrice)
  {
    PeriodLabelRoundTrip(TargetYear, mm.month);
    var consumption := annualConsumption / 12.0;
    var currentCost := currentPrice * consumption;
    var period := PeriodLabel(TargetYear, mm.month);
    if mm.price.None? then MonthlyRow(period, mm.month, mm.price, consumption, None, currentCost, None)
    else
      var flixCost := mm.price.value * consumption;
      SavingsSign(currentPrice, mm.price.value, consumption);
      MonthlyRow(period, mm.month, mm.price, consumption, Some(flixCost), currentCost, Some(currentCost - flixCost))
  }

  /** Savings per unit of consumption are the price difference; with a
      positive consumption they share its sign. */
  lemma SavingsSign(currentPrice: real, price: real, consumption: real)
    ensures currentPrice * consumption - price * consumption == (currentPrice - price) * consumption
    ensures consumption > 0.0 ==>
      (currentPrice * consumption - price * consumption > 0.0 <==> price < currentPrice)
  {
    if consumption > 0.0 {
      if price < currentPrice {
        assert (currentPrice - price) * consumption > 0.0;
      } else {
        assert (currentPrice - price) * consumption <= 0.0;
      }
    }
  }

  function WithCosts(means: seq<MonthMean>, p: Params): seq<MonthlyRow>
    requires forall i :: 0 <= i < |means| ==> 1 <= means[i].month <= 12
  {
    seq(|means|, i requires 0 <= i < |means| => MonthRow(means[i], p.annualConsumption, p.currentPrice))
  }

  /** Why the computation stopped: no sample of the target year (the script's
      own stop), or none in the season, where `reset_index(name=...)` meets
      the empty frame that `apply` returns for no groups and raises. */
  datatype AggError = NoDataForYear | EmptySeason

  /** The monthly table of the season: one row per grouped month. */
  function Rows(samples: seq<Sample>, p: Params): seq<MonthlyRow>
  {
    WithCosts(GroupMeans(SeasonSeries(samples, p)), p)
  }

  /** The monthly FLIX table the script computes from the loaded samples. It
      stops exactly when no sample is dated in the target year, and crashes
      exactly when there are such samples but none in April to September. */
  function Aggregate(samples: seq<Sample>, p: Params): (r: Result<seq<MonthlyRow>, AggError>)
    ensures r == Err(NoDataForYear) <==> forall s :: s in samples ==> s.year != TargetYear
    ensures r == Err(EmptySeason) <==>
      && (exists s :: s in samples && s.year == TargetYear)
      && forall s :: s in samples && s.year == TargetYear ==> !(SeasonFirst <= s.month <= SeasonLast)
    ensures r.Ok? ==> r.value == Rows(samples, p)
  {
    var ys := Filter(samples, InTargetYear);
    if ys == [] then Err(NoDataForYear)
    else
      assert ys[0] in ys;
      var ws := SeasonSeries(samples, p);
      if ws == [] then
        assert forall s :: s in samples && s.year == TargetYear && SeasonFirst <= s.month <= SeasonLast ==> WeighOne(s, p) in ws;
        Err(EmptySeason)
      else
        assert ws[0] in ws;
        Ok(Rows(samples, p))
  }

  // ---------------------------------------------------------------------------
  // Properties of the monthly table
  // ---------------------------------------------------------------------------

  predicate ListsMonth(rows: seq<MonthlyRow>, m: int)
  {
    exists i :: 0 <= i < |rows| && rows[i].month == m
  }

  predicate HasSampleIn(samples: seq<Sample>, year: int, m: int)
  {
    exists s :: s in samples && s.year == year && s.month == m
  }

  /** The samples behind month `m`'s group are exactly the samples of the
      target year in month `m`, and there are some only for a month of the
      season. */
  lemma MonthGroupMembers(samples: seq<Sample>, p: Params, m: int, x: Weighted)
    ensures x in MonthGroup(SeasonSeries(samples, p), m) <==>
      SeasonFirst <= m <= SeasonLast &&
      exists s :: s in samples && s.year == TargetYear && s.month == m && x == WeighOne(s, p)
  {
    var g := MonthGroup(SeasonSeries(samples, p), m);
    if x in g {
      var s :| s in samples && s.year == TargetYear && SeasonFirst <= s.month <= SeasonLast && x == WeighOne(s, p);
      assert s.month == m;
    }
  }

  lemma MonthGroupNonEmpty(samples: seq<Sample>, p: Params, m: int)
    ensures MonthGroup(SeasonSeries(samples, p), m) != [] <==>
      SeasonFirst <= m <= SeasonLast && HasSampleIn(samples, TargetYear, m)
  {
    var g := MonthGroup(SeasonSeries(samples, p), m);
    if g != [] {
      MonthGroupMembers(samples, p, m, g[0]);
      assert g[0] in g;
    }
    if SeasonFirst <= m <= SeasonLast && HasSampleIn(samples, TargetYear, m) {
      var s :| s in samples && s.year == TargetYear && s.month == m;
      MonthGroupMembers(samples, p, m, WeighOne(s, p));
    }
  }

  /** The table lists its months in calendar order, each once. */
  lemma MonthsInCalendarOrder(samples: seq<Sample>, p: Params)
    ensures var rows := Rows(samples, p);
      forall i, j :: 0 <= i < j < |rows| ==> rows[i].month < rows[j].month
  {
    RowMonthsAreKeys(samples, p);
  }

  /** Row `i` of the table is for the `i`-th grouped month. */
  lemma RowMonthsAreKeys(samples: seq<Sample>, p: Params)
    ensures var rows, ks := Rows(samples, p), GroupKeys(SeasonSeries(samples, p));
      |rows| == |ks| && forall i :: 0 <= i < |rows| ==> rows[i].month == ks[i]
  {
    var means := GroupMeans(SeasonSeries(samples, p));
    WithCostsMonths(means, p);
  }

  /** The cost columns keep each row's month. */
  lemma WithCostsMonths(means: seq<MonthMean>, p: Params)
    requires forall i :: 0 <= i < |means| ==> 1 <= means[i].month <= 12
    ensures |WithCosts(means, p)| == |means|
    ensures forall i :: 0 <= i < |means| ==> WithCosts(means, p)[i].month == means[i].month
  {
    var rows := WithCosts(means, p);
    forall i | 0 <= i < |means|
      ensures rows[i].month == means[i].month
    {
      assert rows[i] == MonthRow(means[i], p.annualConsumption, p.currentPrice);
    }
  }

  /** The table lists month `m` exactly when `m` is in the season and some
      sample of the target year falls in it. */
  lemma MonthListedIffSampled(samples: seq<Sample>, p: Params, m: int)
    ensures ListsMonth(Rows(samples, p), m) <==>
      SeasonFirst <= m <= SeasonLast && HasSampleIn(samples, TargetYear, m)
  {
    var rows := Rows(samples, p);
    var ws := SeasonSeries(samples, p);
    var ks := GroupKeys(ws);
    RowMonthsAreKeys(samples, p);
    ListsMonthIffKey(rows, ks, m);
    MonthGroupNonEmpty(samples, p, m);
    GroupMonthsFrom(ws, SeasonFirst, m);
  }

  /** A table whose months are the keys, in order, lists exactly the keys. */
  lemma ListsMonthIffKey(rows: seq<MonthlyRow>, ks: seq<int>, m: int)
    requires |rows| == |ks|
    requires forall i :: 0 <= i < |rows| ==> rows[i].month == ks[i]
    ensures ListsMonth(rows, m) <==> m in ks
  {
    if ListsMonth(rows, m) {
      var i :| 0 <= i < |rows| && rows[i].month == m;
      assert ks[i] == m;
    }
    if m in ks {
      var i :| 0 <= i < |ks| && ks[i] == m;
      assert rows[i].month == m;
    }
  }

  /** Each row's price is the weighted mean of its month's group, which is
      not empty. */
  lemma RowPriceIsGroupMean(samples: seq<Sample>, p: Params, i: nat)
    requires i < |Rows(samples, p)|
    ensures var row := Rows(samples, p)[i];
      && SeasonFirst <= row.month <= SeasonLast
      && MonthGroup(SeasonSeries(samples, p), row.month) != []
      && row.price == WeightedMean(MonthGroup(SeasonSeries(samples, p), row.month))
  {
    var ws := SeasonSeries(samples, p);
    var ks := GroupKeys(ws);
    assert Rows(samples, p)[i] == MonthRow(Mean(ws, ks[i]), p.annualConsumption, p.currentPrice);
    GroupMonthsFrom(ws, SeasonFirst, ks[i]);
  }

  /** Every weight is positive when the peak weight is. */
  lemma GroupWeightsPositive(samples: seq<Sample>, p: Params, m: int)
    requires p.peakWeight > 0.0
    ensures forall x :: x in MonthGroup(SeasonSeries(samples, p), m) ==> x.weight > 0.0
  {
    forall x | x in MonthGroup(SeasonSeries(samples, p), m)
      ensures x.weight > 0.0
    {
      MonthGroupMembers(samples, p, m, x);
    }
  }

  /** A month whose 2025 prices are all present has no missing FLIX price. */
  lemma GroupAllPriced(samples: seq<Sample>, p: Params, m: int)
    requires forall s :: s in samples && s.year == TargetYear && s.month == m ==> s.price.Num?
    ensures AllPriced(MonthGroup(SeasonSeries(samples, p), m))
  {
    forall x | x in MonthGroup(SeasonSeries(samples, p), m)
      ensures x.flix.Num?
    {
      MonthGroupMembers(samples, p, m, x);
    }
  }

  /** With a positive peak weight, each month without missing prices gets a
      price, and it lies between the month's lowest and highest FLIX price. */
  lemma RowPriceWithinMonthRange(samples: seq<Sample>, p: Params, i: nat)
    requires i < |Rows(samples, p)|
    requires p.peakWeight > 0.0
    requires forall s :: s in samples && s.year == TargetYear && s.month == Rows(samples, p)[i].month ==> s.price.Num?
    ensures var row := Rows(samples, p)[i];
      var g := MonthGroup(SeasonSeries(samples, p), row.month);
      && g != [] && AllPriced(g)
      && row.price.Some?
      && MinFlix(g) <= row.price.value <= MaxFlix(g)
  {
    RowPriceIsGroupMean(samples, p, i);
    var m := Rows(samples, p)[i].month;
    var g := MonthGroup(SeasonSeries(samples, p), m);
    GroupWeightsPositive(samples, p, m);
    GroupAllPriced(samples, p, m);
    MeanWithinRange(g);
  }

  /** The table's price for a month with a missing hour: with a positive peak
      weight and positive prices, a month holding a 2025 sample with a price
      and one without gets a price strictly below the weighted mean of its
      priced hours. */
  lemma MissingHourLowersRowPrice(samples: seq<Sample>, p: Params, i: nat, priced: Sample, missing: Sample)
    requires i < |Rows(samples, p)|
    requires p.peakWeight > 0.0
    requires forall s :: s in samples && s.price.Num? ==> s.price.value + p.surcharge > 0.0
    requires priced in samples && priced.year == TargetYear && priced.month == Rows(samples, p)[i].month && priced.price.Num?
    requires missing in samples && missing.year == TargetYear && missing.month == Rows(samples, p)[i].month && missing.price.NaN?
    ensures var g := MonthGroup(SeasonSeries(samples, p), Rows(samples, p)[i].month);
      && Rows(samples, p)[i].price.Some? && PricedMean(g).Some?
      && Rows(samples, p)[i].price.value < PricedMean(g).value
  {
    RowPriceIsGroupMean(samples, p, i);
    var m := Rows(samples, p)[i].month;
    var g := MonthGroup(SeasonSeries(samples, p), m);
    MonthGroupMembers(samples, p, m, WeighOne(priced, p));
    MonthGroupMembers(samples, p, m, WeighOne(missing, p));
    GroupWeightsPositive(samples, p, m);
    GroupPricesPositive(samples, p, m);
    MissingPriceLowersMean(g, WeighOne(priced, p), WeighOne(missing, p));
  }

  lemma GroupPricesPositive(samples: seq<Sample>, p: Params, m: int)
    requires forall s :: s in samples && s.price.Num? ==> s.price.value + p.surcharge > 0.0
    ensures forall x :: x in MonthGroup(SeasonSeries(samples, p), m) && x.flix.Num? ==> x.flix.value > 0.0
  {
    forall x | x in MonthGroup(SeasonSeries(samples, p), m) && x.flix.Num?
      ensures x.flix.value > 0.0
    {
      MonthGroupMembers(samples, p, m, x);
    }
  }

  /** With peak weight 1.0 each month's price is the plain mean of its FLIX
      prices. */
  lemma UnitPeakWeightGivesPlainMean(samples: seq<Sample>, p: Params, i: nat)
    requires i < |Rows(samples, p)|
    requires p.peakWeight == 1.0
    ensures var row := Rows(samples, p)[i];
      var g := MonthGroup(SeasonSeries(samples, p), row.month);
      g != [] && row.price == Some(SumFlix(g) / |g| as real)
  {
    RowPriceIsGroupMean(samples, p, i);
    var m := Rows(samples, p)[i].month;
    var g := MonthGroup(SeasonSeries(samples, p), m);
    forall x | x in g
      ensures x.weight == 1.0
    {
      MonthGroupMembers(samples, p, m, x);
    }
    MeanOfUnitWeights(g);
  }

  /** A group whose fixing prices are all `c` has mean c + surcharge when its
      weights do not sum to zero, which a positive peak weight guarantees. A
      zero sum, which a zero or negative peak weight can give, leaves the
      month without a price (NaN at line 160). */
  lemma ConstantGroupMean(samples: seq<Sample>, p: Params, m: int, c: real)
    requires MonthGroup(SeasonSeries(samples, p), m) != []
    requires p.peakWeight > 0.0 || SumW(MonthGroup(SeasonSeries(samples, p), m)) != 0.0
    requires forall s :: s in samples && s.year == TargetYear && s.month == m ==> s.price == Num(c)
    ensures WeightedMean(MonthGroup(SeasonSeries(samples, p), m)) == Some(c + p.surcharge)
  {
    var g := MonthGroup(SeasonSeries(samples, p), m);
    GroupFlixConstant(samples, p, m, c);
    if p.peakWeight > 0.0 {
      GroupWeightsPositive(samples, p, m);
      SumWPositive(g);
    }
    MeanOfConstant(g, c + p.surcharge);
  }

  lemma GroupFlixConstant(samples: seq<Sample>, p: Params, m: int, c: real)
    requires forall s :: s in samples && s.year == TargetYear && s.month == m ==> s.price == Num(c)
    ensures forall x :: x in MonthGroup(SeasonSeries(samples, p), m) ==> x.flix == Num(c + p.surcharge)
  {
    forall x | x in MonthGroup(SeasonSeries(samples, p), m)
      ensures x.flix == Num(c + p.surcharge)
    {
      MonthGroupMembers(samples, p, m, x);
    }
  }

  /** A listed month whose fixing prices are all `c` gets price c + surcharge,
      whatever hours are weighted, as long as its weights do not sum to zero
      (a positive peak weight guarantees that). */
  lemma ConstantMonthPrice(samples: seq<Sample>, p: Params, i: nat, c: real)
    requires i < |Rows(samples, p)|
    requires p.peakWeight > 0.0 || SumW(MonthGroup(SeasonSeries(samples, p), Rows(samples, p)[i].month)) != 0.0
    requires forall s :: s in samples && s.year == TargetYear && s.month == Rows(samples, p)[i].month ==> s.price == Num(c)
    ensures Rows(samples, p)[i].price == Some(c + p.surcharge)
  {
    RowPriceIsGroupMean(samples, p, i);
    ConstantGroupMean(samples, p, Rows(samples, p)[i].month, c);
  }

  /** A listed month whose weights sum to zero, as a zero peak weight over a
      month sampled only inside the window gives, has no price: line 160
      divides by zero and pandas shows NaN. */
  lemma ZeroWeightMonthHasNoPrice(samples: seq<Sample>, p: Params, i: nat)
    requires i < |Rows(samples, p)|
    requires SumW(MonthGroup(SeasonSeries(samples, p), Rows(samples, p)[i].month)) == 0.0
    ensures Rows(samples, p)[i].price.None?
  {
    RowPriceIsGroupMean(samples, p, i);
  }

  lemma WeighIgnoresPeakWeight(ys: seq<Sample>, p: Params)
    requires p.peakStart >= p.peakEnd
    ensures Weigh(ys, p) == Weigh(ys, p.(peakWeight := 1.0))
  {
    var q := p.(peakWeight := 1.0);
    assert forall k :: 0 <= k < |ys| ==> Weigh(ys, p)[k] == Weigh(ys, q)[k];
  }

  lemma RowsIgnorePeakWeight(samples: seq<Sample>, p: Params)
    requires p.peakStart >= p.peakEnd
    ensures Rows(samples, p) == Rows(samples, p.(peakWeight := 1.0))
  {
    var q := p.(peakWeight := 1.0);
    WeighIgnoresPeakWeight(Filter(samples, InTargetYear), p);
    var ws := SeasonSeries(samples, p);
    assert ws == SeasonSeries(samples, q);
    var means := GroupMeans(ws);
    assert WithCosts(means, p) == WithCosts(means, q);
  }

  /** When the window is empty (start >= end) no hour is up-weighted, so the
      peak weight does not change the table. */
  lemma EmptyWindowIgnoresPeakWeight(samples: seq<Sample>, p: Params)
    requires p.peakStart >= p.peakEnd
    ensures Aggregate(samples, p) == Aggregate(samples, p.(peakWeight := 1.0))
  {
    WeighIgnoresPeakWeight(Filter(samples, InTargetYear), p);
    assert SeasonSeries(samples, p) == SeasonSeries(samples, p.(peakWeight := 1.0));
    RowsIgnorePeakWeight(samples, p);
  }

  // ---------------------------------------------------------------------------
  // The computation as the script runs it
  // ---------------------------------------------------------------------------

  /** Lines 143-148: every weight set to 1.0, then overwritten with the peak
      weight where start <= hour < end. An hour equal to `end` keeps 1.0, and
      an empty window (start >= end) up-weights nothing. */
  method AssignWeights(hours: seq<int>, p: Params) returns (w: seq<real>)
    ensures |w| == |hours|
    ensures forall i :: 0 <= i < |hours| ==> w[i] == (if p.peakStart <= hours[i] < p.peakEnd then p.peakWeight else 1.0)
    ensures forall i :: 0 <= i < |hours| && hours[i] == p.peakEnd ==> w[i] == 1.0
    ensures p.peakStart >= p.peakEnd ==> forall i :: 0 <= i < |hours| ==> w[i] == 1.0
  {
    var a := new real[|hours|];
    var i := 0;
    while i < a.Length
      invariant 0 <= i <= a.Length
      invariant forall k :: 0 <= k < i ==> a[k] == 1.0
    {
      a[i] := 1.0;
      i := i + 1;
    }
    i := 0;
    while i < a.Length
      invariant 0 <= i <= a.Length
      invariant forall k :: 0 <= k < i ==> a[k] == Weight(hours[k], p)
      invariant forall k :: i <= k < a.Length ==> a[k] == 1.0
    {
      if p.peakStart <= hours[i] < p.peakEnd {
        a[i] := p.peakWeight;
      }
      i := i + 1;
    }
    w := a[..];
  }

  /** Line 151 with the weights of lines 143-148: each sample with its FLIX
      price and its weight. */
  method PriceAndWeigh(ys: seq<Sample>, weights: seq<real>, p: Params) returns (r: seq<Weighted>)
    requires |weights| == |ys|
    requires forall i :: 0 <= i < |ys| ==> weights[i] == Weight(ys[i].hour, p)
    ensures r == Weigh(ys, p)
  {
    r := [];
    var i := 0;
    while i < |ys|
      invariant 0 <= i <= |ys|
      invariant |r| == i
      invariant forall k :: 0 <= k < i ==> r[k] == WeighOne(ys[k], p)
    {
      var s := ys[i];
      var flix := if s.price.NaN? then NaN else Num(s.price.value + p.surcharge);
      r := r + [Weighted(s.year, s.month, s.hour, flix, weights[i])];
      i := i + 1;
    }
  }

  /** Lines 164-168: the label, consumption, cost and savings columns. */
  method AddCostColumns(means: seq<MonthMean>, p: Params) returns (rows: seq<MonthlyRow>)
    requires forall i :: 0 <= i < |means| ==> 1 <= means[i].month <= 12
    ensures rows == WithCosts(means, p)
  {
    var consumption := p.annualConsumption / 12.0;
    rows := [];
    var i := 0;
    while i < |means|
      invariant 0 <= i <= |means|
      invariant |rows| == i
      invariant forall k :: 0 <= k < i ==> rows[k] == MonthRow(means[k], p.annualConsumption, p.currentPrice)
    {
      var mm := means[i];
      var period := PeriodLabel(TargetYear, mm.month);
      var currentCost := p.currentPrice * consumption;
      var row;
      if mm.price.None? {
        row := MonthlyRow(period, mm.month, None, consumption, None, currentCost, None);
      } else {
        var flixCost := mm.price.value * consumption;
        row := MonthlyRow(period, mm.month, mm.price, consumption, Some(flixCost), currentCost, Some(currentCost - flixCost));
      }
      ghost var expected := MonthRow(mm, p.annualConsumption, p.currentPrice);
      if mm.price.Some? {
        assert expected.flixCost.value == row.flixCost.value;
        assert expected.savings.value == row.savings.value;
      }
      assert row == expected;
      rows := rows + [row];
      i := i + 1;
    }
  }

  /** Lines 132-168 in order: year filter, stop when empty, weights, FLIX
      price, season filter, grouped weighted mean, cost columns. */
  method MonthlyFlix(samples: seq<Sample>, p: Params) returns (r: Result<seq<MonthlyRow>, AggError>)
    ensures r == Aggregate(samples, p)
  {
    var ys := Select(samples, InTargetYear);
    if ys == [] {
      return Err(NoDataForYear);
    }
    var hours := seq(|ys|, i requires 0 <= i < |ys| => ys[i].hour);
    var weights := AssignWeights(hours, p);
    var weighed := PriceAndWeigh(ys, weights, p);
    var season := Select(weighed, InSeason);
    if season == [] {
      return Err(EmptySeason);
    }
    var keys := GroupKeys(season);
    var means := Apply(keys, k => Mean(season, k));
    assert means == GroupMeans(season);
    var rows := AddCostColumns(means, p);
    r := Ok(rows);
  }
}

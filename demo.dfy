/** The synthetic series the dashboard falls back on when no file is
    uploaded: one sample for every hour of 2024, priced by a fixed formula. */
module Demo {
  import opened Series

  /** Days in month `m` of 2024, a leap year. */
  function DaysIn2024(m: int): int
    requires 1 <= m <= 12
  {
    if m == 2 then 29 else if m == 4 || m == 6 || m == 9 || m == 11 then 30 else 31
  }

  /** Days of 2024 from the first of month `m` to the end of the year. */
  function DaysFrom(m: int): nat
    requires 1 <= m <= 13
    decreases 13 - m
  {
    if m == 13 then 0 else DaysIn2024(m) + DaysFrom(m + 1)
  }

  /** The demo price of an hour: 430 + (hour mod 6) * 7 + month. Over the
      months 1..12 it stays within [431, 477]. */
  function DemoPrice(month: int, hour: int): (r: int)
    requires 1 <= month <= 12 && 0 <= hour
    ensures 431 <= r <= 477
  {
    430 + (hour % 6) * 7 + month
  }

  /** The hours of month `m`, in order. */
  function DemoMonth(m: int): (r: seq<Sample>)
    requires 1 <= m <= 12
    ensures |r| == 24 * DaysIn2024(m)
    ensures forall x :: x in r ==>
      && x.year == 2024 && x.month == m
      && 1 <= x.day <= DaysIn2024(m) && 0 <= x.hour < 24
      && x.price.Num? && 431.0 <= x.price.value <= 477.0
  {
    seq(24 * DaysIn2024(m), k requires 0 <= k < 24 * DaysIn2024(m) =>
      Sample(2024, m, k / 24 + 1, k % 24, Num(DemoPrice(m, k % 24) as real)))
  }

  /** The hours from the first of month `m` to the end of 2024, in order. */
  function DemoFrom(m: int): (r: seq<Sample>)
    requires 1 <= m <= 13
    decreases 13 - m
    ensures |r| == 24 * DaysFrom(m)
    ensures forall x :: x in r ==>
      && x.year == 2024 && m <= x.month <= 12
      && 0 <= x.hour < 24 && x.price.Num? && 431.0 <= x.price.value <= 477.0
  {
    if m == 13 then [] else DemoMonth(m) + DemoFrom(m + 1)
  }

  /** `pd.date_range("2024-01-01", "2024-12-31 23:00", freq="H")` with the
      demo price of each hour. 2024 is a leap year: the series has
      366 * 24 = 8784 samples, every one of them dated 2024 and priced within
      [431, 477]. */
  function DemoSeries(): (r: seq<Sample>)
    ensures |r| == 8784
    ensures forall x :: x in r ==> x.year == 2024 && x.price.Num? && 431.0 <= x.price.value <= 477.0
  {
    assert DaysFrom(1) == 366;
    DemoFrom(1)
  }

  lemma HourIndex(d: int, h: int)
    requires 1 <= d && 0 <= h < 24
    ensures ((d - 1) * 24 + h) / 24 == d - 1 && ((d - 1) * 24 + h) % 24 == h
  {
  }

  /** Hour `h` of day `d` sits at position (d - 1) * 24 + h of its month. */
  lemma DemoMonthAt(m: int, d: int, h: int)
    requires 1 <= m <= 12 && 1 <= d <= DaysIn2024(m) && 0 <= h < 24
    ensures (d - 1) * 24 + h < |DemoMonth(m)|
    ensures DemoMonth(m)[(d - 1) * 24 + h] == Sample(2024, m, d, h, Num(DemoPrice(m, h) as real))
  {
    HourIndex(d, h);
  }

  /** Every hour of month `m` of 2024 is in DemoFrom(m0) for m0 <= m, carrying
      the demo price of that hour. */
  lemma {:induction false} DemoFromCovers(m0: int, m: int, d: int, h: int)
    requires 1 <= m0 <= m <= 12 && 1 <= d <= DaysIn2024(m) && 0 <= h < 24
    ensures Sample(2024, m, d, h, Num(DemoPrice(m, h) as real)) in DemoFrom(m0)
    decreases m - m0
  {
    if m0 == m {
      DemoFromStartsWithMonth(m, d, h);
    } else {
      DemoFromCovers(m0 + 1, m, d, h);
      DemoFromGrows(m0, Sample(2024, m, d, h, Num(DemoPrice(m, h) as real)));
    }
  }

  /** The hours of month `m` open DemoFrom(m). */
  lemma DemoFromStartsWithMonth(m: int, d: int, h: int)
    requires 1 <= m <= 12 && 1 <= d <= DaysIn2024(m) && 0 <= h < 24
    ensures Sample(2024, m, d, h, Num(DemoPrice(m, h) as real)) in DemoFrom(m)
  {
    var k := (d - 1) * 24 + h;
    DemoMonthAt(m, d, h);
    assert DemoFrom(m)[k] == DemoMonth(m)[k];
  }

  /** DemoFrom(m) holds everything DemoFrom(m + 1) holds. */
  lemma DemoFromGrows(m: int, x: Sample)
    requires 1 <= m <= 12 && x in DemoFrom(m + 1)
    ensures x in DemoFrom(m)
  {
    assert DemoFrom(m) == DemoMonth(m) + DemoFrom(m + 1);
  }

  /** One sample for every hour of 2024: each (month, day, hour) of the year
      appears in the demo series, priced by the demo formula. */
  lemma DemoCoversEveryHour(m: int, d: int, h: int)
    requires 1 <= m <= 12 && 1 <= d <= DaysIn2024(m) && 0 <= h < 24
    ensures Sample(2024, m, d, h, Num(DemoPrice(m, h) as real)) in DemoSeries()
  {
    DemoFromCovers(1, m, d, h);
  }
}

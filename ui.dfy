/** The arithmetic of the e-paper screen in src/ui.cpp: the 12-hour clock,
    the number of decimals a price is shown with, the vertical offset of
    the large layout, and the history chart's value range and dashed
    reference line. The drawing itself is not modelled. */
module Ui {

  // ---------------------------------------------------------------- clock

  /** `TIME_24H` of the `TimeFormat` enum (`TIME_12H` is 1). */
  const TIME_24H: int := 0

  /** What `formatTimeString` puts on screen for the hour: the hour shown
      and the AM/PM text (empty in 24-hour mode). */
  datatype Face = Face(hour: int, suffix: string)

  /** `formatTimeString`'s hour arithmetic for a `tm_hour` in 0..23. */
  function ClockFace(hour: int, timeFormat: int): (f: Face)
    requires 0 <= hour < 24
    ensures timeFormat == TIME_24H ==> f == Face(hour, "")
    ensures timeFormat != TIME_24H ==> 1 <= f.hour <= 12
    ensures timeFormat != TIME_24H ==> (f.suffix == "PM" <==> hour >= 12)
    ensures timeFormat != TIME_24H ==> (f.suffix == "AM" <==> hour < 12)
  {
    if timeFormat == TIME_24H then Face(hour, "")
    else
      var h := hour % 12;
      Face(if h == 0 then 12 else h, if hour >= 12 then "PM" else "AM")
  }

  /** Reading a 12-hour face back as a 24-hour hour. */
  function FromTwelveHour(f: Face): (hour: int)
    requires 1 <= f.hour <= 12
    ensures f.suffix == "PM" ==> 12 <= hour < 24
    ensures f.suffix != "PM" ==> 0 <= hour < 12
  {
    (if f.hour == 12 then 0 else f.hour) + (if f.suffix == "PM" then 12 else 0)
  }

  /** The 12-hour face loses nothing: every hour of the day is read back. */
  lemma {:induction false} TwelveHourRoundTrip(hour: int, timeFormat: int)
    requires 0 <= hour < 24 && timeFormat != TIME_24H
    ensures FromTwelveHour(ClockFace(hour, timeFormat)) == hour
  {
    var f := ClockFace(hour, timeFormat);
    if hour < 12 {
      assert f.suffix == "AM";
      assert f.suffix != "PM";
    } else {
      assert f.suffix == "PM";
    }
  }

  /** Midnight and noon both show as 12. */
  lemma {:induction false} MidnightAndNoon()
    ensures ClockFace(0, 1) == Face(12, "AM")
    ensures ClockFace(12, 1) == Face(12, "PM")
    ensures ClockFace(23, 1) == Face(11, "PM")
  {
  }

  // ---------------------------------------------------------------- price text

  /** The longest price text that fits: nine digits and a decimal point. */
  const MAX_PRICE_CHARS: int := 10

  /** The decimal counts tried, most precise first. */
  const DECIMALS: seq<int> := [4, 2, 0]

  function Pow10(n: nat): (p: nat)
    ensures p >= 1
  {
    if n == 0 then 1 else 10 * Pow10(n - 1)
  }

  /** The number of decimal digits of a positive integer. */
  function Digits(n: nat): (d: nat)
    requires n >= 1
    ensures d >= 1
    ensures Pow10(d - 1) <= n < Pow10(d)
    decreases n
  {
    if n < 10 then 1 else 1 + Digits(n / 10)
  }

  /** The integer digits of a price: 1 below 1.0 (shown as "0."), else the
      digits of its integer part, which `floor(log10(price)) + 1` computes. */
  function IntDigits(price: real): (d: int)
    ensures price < 1.0 ==> d == 1
    ensures price >= 1.0 ==> d >= 1 && Pow10(d - 1) <= price.Floor < Pow10(d)
  {
    if price < 1.0 then 1 else Digits(price.Floor)
  }

  /** Characters of a price with `dec` decimals: the digits, the point if
      any, the decimals. */
  function TotalLen(intDigits: int, dec: int): int {
    intDigits + (if dec > 0 then 1 else 0) + dec
  }

  /** A decimal count the currency allows and the screen has room for. */
  predicate Fits(intDigits: int, dec: int, maxDecimals: int) {
    dec <= maxDecimals && TotalLen(intDigits, dec) <= MAX_PRICE_CHARS
  }

  /** The first candidate of `cands` that fits, else 0. */
  function FirstFit(cands: seq<int>, intDigits: int, maxDecimals: int): (dec: int)
    ensures dec == 0 || dec in cands
    ensures dec in cands && dec != 0 ==> Fits(intDigits, dec, maxDecimals)
    ensures forall i :: 0 <= i < |cands| && cands[i] != dec && Fits(intDigits, cands[i], maxDecimals) ==>
              exists j :: 0 <= j < i && cands[j] == dec
    decreases |cands|
  {
    if cands == [] then 0
    else if Fits(intDigits, cands[0], maxDecimals) then cands[0]
    else FirstFit(cands[1..], intDigits, maxDecimals)
  }

  /** `detectDecimalPlaces`. */
  method DetectDecimalPlaces(price: real, maxDecimals: int) returns (dec: int)
    ensures dec == FirstFit(DECIMALS, IntDigits(price), maxDecimals)
  {
    var intDigits: int;
    if price < 1.0 {
      intDigits := 1;
    } else {
      intDigits := Digits(price.Floor);
    }
    var i := 0;
    while i < |DECIMALS|
      invariant 0 <= i <= |DECIMALS|
      invariant FirstFit(DECIMALS, intDigits, maxDecimals) == FirstFit(DECIMALS[i..], intDigits, maxDecimals)
    {
      var d := DECIMALS[i];
      if d <= maxDecimals {
        var totalLen := intDigits + (if d > 0 then 1 else 0) + d;
        if totalLen <= MAX_PRICE_CHARS {
          return d;
        }
      }
      assert DECIMALS[i..][1..] == DECIMALS[i + 1..];
      i := i + 1;
    }
    return 0;
  }

  /** The decimals chosen are 0, 2 or 4, never more than the currency
      allows when it allows any, and the most the screen has room for. */
  lemma {:induction false} DecimalsChosen(price: real, maxDecimals: int)
    ensures var dec := FirstFit(DECIMALS, IntDigits(price), maxDecimals);
            && (dec == 0 || dec == 2 || dec == 4)
            && (maxDecimals >= 0 ==> dec <= maxDecimals)
            && (dec != 0 ==> TotalLen(IntDigits(price), dec) <= MAX_PRICE_CHARS)
            && (Fits(IntDigits(price), 4, maxDecimals) ==> dec == 4)
            && (Fits(IntDigits(price), 2, maxDecimals) ==> dec >= 2)
  {
    var d := IntDigits(price);
    if !Fits(d, 4, maxDecimals) {
      assert DECIMALS[1..] == [2, 0];
      if !Fits(d, 2, maxDecimals) {
        assert DECIMALS[1..][1..] == [0];
      }
    }
  }

  /** Below 1.0 a price has room for four decimals: with a currency that
      allows four, it is shown with four. */
  lemma {:induction false} SmallPriceFourDecimals(price: real)
    requires price < 1.0
    ensures FirstFit(DECIMALS, IntDigits(price), 4) == 4
  {
  }

  /** A price of ten integer digits has no room for a decimal point. */
  lemma {:induction false} TenDigitsNoDecimals(price: real)
    requires price >= 1.0 && IntDigits(price) == 10
    ensures FirstFit(DECIMALS, IntDigits(price), 4) == 0
  {
    assert DECIMALS[1..] == [2, 0];
    assert DECIMALS[1..][1..] == [0];
  }

  // ---------------------------------------------------------------- layout

  /** `largeContentYOffset`: the large date/time layout shifts the price
      and chart down by 8 pixels. */
  function LargeContentYOffset(dtSize: int): (dy: int)
    ensures dy == 8 <==> dtSize == 1
    ensures dy == 0 || dy == 8
  {
    if dtSize == 1 then 8 else 0
  }

  // ---------------------------------------------------------------- chart

  const MIN_POINTS_FOR_CHART: int := 4

  function Min(a: real, b: real): real { if a < b then a else b }
  function Max(a: real, b: real): real { if a > b then a else b }

  /** The smallest value of a non-empty sequence. */
  function SeqMin(s: seq<real>): (m: real)
    requires |s| >= 1
    ensures forall i :: 0 <= i < |s| ==> m <= s[i]
    ensures exists i :: 0 <= i < |s| && m == s[i]
    decreases |s|
  {
    if |s| == 1 then s[0] else Min(SeqMin(s[..|s| - 1]), s[|s| - 1])
  }

  /** The largest value of a non-empty sequence. */
  function SeqMax(s: seq<real>): (m: real)
    requires |s| >= 1
    ensures forall i :: 0 <= i < |s| ==> s[i] <= m
    ensures exists i :: 0 <= i < |s| && m == s[i]
    decreases |s|
  {
    if |s| == 1 then s[0] else Max(SeqMax(s[..|s| - 1]), s[|s| - 1])
  }

  /** The vertical range of the chart, or none while too few samples have
      been collected. */
  datatype ChartRange = Collecting | Range(lo: real, hi: real)

  /** The values the range must cover: the samples (the chart stays in
      USD, so they are taken as stored), and the previous day's reference
      when its line is shown. */
  function Plotted(prices: seq<real>, showRef: bool, refPrice: real): seq<real> {
    prices + (if showRef then [refPrice] else [])
  }

  /** The range `drawHistoryChart` scales to: the least and greatest
      plotted value, widened to one unit when they coincide. */
  function RangeOf(prices: seq<real>, showRef: bool, refPrice: real): (r: ChartRange)
    ensures r.Collecting? <==> |prices| < MIN_POINTS_FOR_CHART
    ensures r.Range? ==> r.lo < r.hi
    ensures r.Range? ==> forall i :: 0 <= i < |prices| ==> r.lo <= prices[i] <= r.hi
    ensures r.Range? && showRef ==> r.lo <= refPrice <= r.hi
  {
    if |prices| < MIN_POINTS_FOR_CHART then Collecting
    else
      var v := Plotted(prices, showRef, refPrice);
      assert forall i :: 0 <= i < |prices| ==> prices[i] == v[i];
      assert showRef ==> refPrice == v[|v| - 1];
      var lo := SeqMin(v);
      var hi := SeqMax(v);
      Range(lo, if lo == hi then lo + 1.0 else hi)
  }

  /** The range is as tight as it can be: both ends are plotted values
      unless all values coincide, when only the top is moved up. */
  lemma {:induction false} RangeIsTight(prices: seq<real>, showRef: bool, refPrice: real)
    requires |prices| >= MIN_POINTS_FOR_CHART
    ensures var r := RangeOf(prices, showRef, refPrice);
            var v := Plotted(prices, showRef, refPrice);
            && r.lo in v
            && (r.hi in v || ((forall i :: 0 <= i < |v| ==> v[i] == r.lo) && r.hi == r.lo + 1.0))
  {
    var v := Plotted(prices, showRef, refPrice);
    var lo, hi := SeqMin(v), SeqMax(v);
    if lo == hi {
      assert forall i :: 0 <= i < |v| ==> lo <= v[i] <= hi;
    }
  }

  /** The scan over the samples: their least and greatest value. */
  method ScanExtremes(prices: seq<real>) returns (minP: real, maxP: real)
    requires |prices| >= 1
    ensures minP == SeqMin(prices) && maxP == SeqMax(prices)
  {
    minP := prices[0];
    maxP := prices[0];
    var i := 1;
    while i < |prices|
      invariant 1 <= i <= |prices|
      invariant minP == SeqMin(prices[..i]) && maxP == SeqMax(prices[..i])
    {
      assert prices[..i + 1][..i] == prices[..i];
      var p := prices[i];
      if p < minP {
        minP := p;
      }
      if p > maxP {
        maxP := p;
      }
      i := i + 1;
    }
    assert prices[..i] == prices;
  }

  /** The min/max scan of `drawHistoryChart`, with the reference and the
      widening. */
  method ScanRange(prices: seq<real>, showRef: bool, refPrice: real) returns (r: ChartRange)
    ensures r == RangeOf(prices, showRef, refPrice)
  {
    if |prices| < MIN_POINTS_FOR_CHART {
      return Collecting;
    }
    ghost var v := Plotted(prices, showRef, refPrice);
    var minP, maxP := ScanExtremes(prices);
    if showRef {
      assert v[..|v| - 1] == prices;
      var p := refPrice;
      if p < minP {
        minP := p;
      }
      if p > maxP {
        maxP := p;
      }
    } else {
      assert v == prices;
    }
    if minP == maxP {
      maxP := minP + 1.0;
    }
    r := Range(minP, maxP);
  }

  /** Division by a positive width keeps the sign and the order against 1. */
  lemma {:induction false} RatioBounds(a: real, b: real)
    requires 0.0 < b
    ensures a <= 0.0 ==> a / b <= 0.0
    ensures b <= a ==> a / b >= 1.0
  {
    var q := a / b;
    assert q * b == a;
  }

  /** The row of the previous-day line: the reference normalised into the
      range, clamped to [0, 1], and scaled into the chart's height from
      the bottom (`int()` truncates a non-negative value downwards). */
  function DayAvgRow(refPrice: real, lo: real, hi: real, chartTop: int, chartBottom: int): (y: int)
    requires lo < hi && chartTop <= chartBottom
    ensures chartTop <= y <= chartBottom
    ensures refPrice <= lo ==> y == chartBottom
    ensures refPrice >= hi ==> y == chartTop
  {
    var norm := (refPrice - lo) / (hi - lo);
    var n := if norm < 0.0 then 0.0 else if norm > 1.0 then 1.0 else norm;
    var h := chartBottom - chartTop;
    assert 0.0 <= n * h as real <= h as real by {
      assert 0.0 <= n <= 1.0;
      assert n * h as real <= 1.0 * h as real;
    }
    RatioBounds(refPrice - lo, hi - lo);
    chartBottom - (n * h as real).Floor
  }

  // ---------------------------------------------------------------- dashes

  const DASH_LEN: int := 4
  const GAP_LEN: int := 4

  /** A horizontal segment from `x1` to `x2` (both drawn). */
  datatype Segment = Segment(x1: int, x2: int)

  /** The dashes drawn from `x` up to `xEnd`: a dash of DASH_LEN cut
      short at `xEnd`, a gap of GAP_LEN, and so on. */
  function Dashes(x: int, xEnd: int): (segs: seq<Segment>)
    ensures |segs| == 0 <==> x >= xEnd
    decreases xEnd - x
  {
    if x >= xEnd then []
    else
      var x2 := if x + DASH_LEN > xEnd then xEnd else x + DASH_LEN;
      [Segment(x, x2)] + Dashes(x2 + GAP_LEN, xEnd)
  }

  /** Every dash lies within the span, is non-empty and is at most
      DASH_LEN long. */
  lemma {:induction false} DashesWithin(x: int, xEnd: int)
    ensures forall i :: 0 <= i < |Dashes(x, xEnd)| ==>
              x <= Dashes(x, xEnd)[i].x1 < Dashes(x, xEnd)[i].x2 <= xEnd
    ensures forall i :: 0 <= i < |Dashes(x, xEnd)| ==>
              Dashes(x, xEnd)[i].x2 - Dashes(x, xEnd)[i].x1 <= DASH_LEN
    decreases xEnd - x
  {
    if x < xEnd {
      var x2 := if x + DASH_LEN > xEnd then xEnd else x + DASH_LEN;
      DashesWithin(x2 + GAP_LEN, xEnd);
      var segs := Dashes(x, xEnd);
      var rest := Dashes(x2 + GAP_LEN, xEnd);
      assert segs == [Segment(x, x2)] + rest;
      forall i | 0 <= i < |segs|
        ensures x <= segs[i].x1 < segs[i].x2 <= xEnd && segs[i].x2 - segs[i].x1 <= DASH_LEN
      {
        if i > 0 {
          assert segs[i] == rest[i - 1];
        }
      }
    }
  }

  /** One dash every DASH_LEN + GAP_LEN pixels: the count is the span
      divided by 8, rounded up. */
  lemma {:induction false} DashCount(x: int, xEnd: int)
    ensures |Dashes(x, xEnd)| == if x >= xEnd then 0 else (xEnd - x + 7) / 8
    decreases xEnd - x
  {
    if x < xEnd {
      var x2 := if x + DASH_LEN > xEnd then xEnd else x + DASH_LEN;
      DashCount(x2 + GAP_LEN, xEnd);
    }
  }

  /** Consecutive dashes are separated by exactly one gap. */
  lemma {:induction false} DashesSpaced(x: int, xEnd: int)
    ensures forall i, j :: 0 <= i && j == i + 1 && j < |Dashes(x, xEnd)| ==>
              Dashes(x, xEnd)[j].x1 == Dashes(x, xEnd)[i].x2 + GAP_LEN
    decreases xEnd - x
  {
    if x < xEnd {
      var x2 := if x + DASH_LEN > xEnd then xEnd else x + DASH_LEN;
      DashesSpaced(x2 + GAP_LEN, xEnd);
      var segs := Dashes(x, xEnd);
      var rest := Dashes(x2 + GAP_LEN, xEnd);
      assert segs == [Segment(x, x2)] + rest;
      forall i, j | 0 <= i && j == i + 1 && j < |segs|
        ensures segs[j].x1 == segs[i].x2 + GAP_LEN
      {
        if i > 0 {
          assert segs[i] == rest[i - 1] && segs[j] == rest[j - 1];
        } else {
          assert segs[0] == Segment(x, x2) && segs[1] == rest[0];
          assert rest[0].x1 == x2 + GAP_LEN;
        }
      }
    }
  }

  /** Drawing one more dash leaves the remaining dashes to draw. */
  lemma AppendDash(segs: seq<Segment>, x: int, x2: int, xEnd: int)
    requires x < xEnd && x2 == (if x + DASH_LEN > xEnd then xEnd else x + DASH_LEN)
    ensures segs + Dashes(x, xEnd) == (segs + [Segment(x, x2)]) + Dashes(x2 + GAP_LEN, xEnd)
  {
    assert Dashes(x, xEnd) == [Segment(x, x2)] + Dashes(x2 + GAP_LEN, xEnd);
  }

  /** The dashed reference line of `drawHistoryChart`; the segments are
      what it draws. */
  method DrawDashes(xStart: int, xEnd: int) returns (segs: seq<Segment>)
    ensures segs == Dashes(xStart, xEnd)
  {
    segs := [];
    var x := xStart;
    while x < xEnd
      invariant xStart <= x
      invariant segs + Dashes(x, xEnd) == Dashes(xStart, xEnd)
      decreases xEnd - x
    {
      var x2 := x + DASH_LEN;
      if x2 > xEnd {
        x2 := xEnd;
      }
      AppendDash(segs, x, x2, xEnd);
      segs := segs + [Segment(x, x2)];
      x := x2 + GAP_LEN;
    }
    assert segs + Dashes(x, xEnd) == segs;
  }
}

/** Price bars and the synthetic series generator of the quick-choice game
    (Mode2.tsx:7-60).

    The generator draws from Math.random(); here the draws are an explicit
    sequence of reals in [0,1), consumed in the order the source draws them:
    one for the seed price, then three per bar (change, upper wick, lower wick).
    Calendar dates are day numbers: bar i of a series of `count` bars built on
    day `today` is dated `today - count + i`. */
module Candles {

  /** One OHLC bar (Mode2.tsx:8-14); `time` is a day number. */
  datatype Candlestick = Candlestick(time: int, open: real, high: real, low: real, close: real)

  /** The 2% volatility band of Mode2.tsx:35. */
  const Volatility: real := 0.02
  /** The largest relative wick, Mode2.tsx:39-40. */
  const WickScale: real := 0.01
  /** Random draws taken per bar: change, upper wick, lower wick. */
  const DrawsPerBar: nat := 3

  function Max(a: real, b: real): real { if a >= b then a else b }
  function Min(a: real, b: real): real { if a <= b then a else b }

  /** A value Math.random() can return. */
  predicate IsUnitDraw(u: real) { 0.0 <= u < 1.0 }

  predicate UnitDraws(rnd: seq<real>) {
    forall i :: 0 <= i < |rnd| ==> IsUnitDraw(rnd[i])
  }

  /** Enough draws, all in [0,1), to build `count` bars. */
  predicate DrawsCover(rnd: seq<real>, count: nat) {
    |rnd| >= 1 + DrawsPerBar * count && UnitDraws(rnd)
  }

  /** The seed price `100 + random*20` (Mode2.tsx:28). */
  function SeedPrice(u: real): (p: real)
    requires IsUnitDraw(u)
    ensures 100.0 <= p < 120.0
  {
    100.0 + u * 20.0
  }

  /** The relative change `(random - 0.5) * volatility` (Mode2.tsx:36). */
  function Change(u: real): (c: real)
    requires IsUnitDraw(u)
    ensures -Volatility / 2.0 <= c < Volatility / 2.0
  {
    (u - 0.5) * Volatility
  }

  /** The wick invariant of a bar, with positive prices. */
  predicate WellShaped(b: Candlestick) {
    0.0 < b.low <= Min(b.open, b.close) && Max(b.open, b.close) <= b.high
  }

  /** Every bar well shaped, and each bar opening at the previous close. */
  predicate WellFormedSeries(s: seq<Candlestick>) {
    (forall i :: 0 <= i < |s| ==> WellShaped(s[i])) &&
    (forall i :: 0 < i < |s| ==> s[i].open == s[i - 1].close)
  }

  /** Widening `hi` up and `lo` down by factors in [1, 1.01) and (0.99, 1]
      keeps the wick around the body. */
  lemma Widen(hi: real, lo: real, fUp: real, fDown: real)
    requires 0.0 < lo <= hi && 1.0 <= fUp && 0.0 < fDown <= 1.0
    ensures hi * fUp >= hi
    ensures 0.0 < lo * fDown <= lo
  {
  }

  /** Scaling a positive price by a factor within 1% of one keeps it within 1%. */
  lemma Band(x: real, f: real)
    requires x > 0.0 && 0.99 <= f < 1.01
    ensures x * 0.99 <= x * f < x * 1.01
  {
  }

  /** The close `open * (1 + change)` (Mode2.tsx:38), within 1% of the open. */
  function CloseFrom(open: real, uChange: real): (close: real)
    requires open > 0.0 && IsUnitDraw(uChange)
    ensures open * 0.99 <= close < open * 1.01
  {
    var f := 1.0 + Change(uChange);
    Band(open, f);
    open * f
  }

  /** The bar with body `open`..`close` whose wicks are widened by two draws
      (Mode2.tsx:39-40). */
  function WithWicks(time: int, open: real, close: real, uHigh: real, uLow: real): (b: Candlestick)
    requires open > 0.0 && close > 0.0 && IsUnitDraw(uHigh) && IsUnitDraw(uLow)
    ensures b.time == time && b.open == open && b.close == close && WellShaped(b)
  {
    var fUp := 1.0 + uHigh * WickScale;
    var fDown := 1.0 - uLow * WickScale;
    Widen(Max(open, close), Min(open, close), fUp, fDown);
    Candlestick(time, open, Max(open, close) * fUp, Min(open, close) * fDown, close)
  }

  /** One bar opening at `open`, built from three draws (Mode2.tsx:36-40). */
  function MakeBar(time: int, open: real, uChange: real, uHigh: real, uLow: real): (b: Candlestick)
    requires open > 0.0 && IsUnitDraw(uChange) && IsUnitDraw(uHigh) && IsUnitDraw(uLow)
    ensures b.time == time && b.open == open && WellShaped(b)
    ensures open * 0.99 <= b.close < open * 1.01
  {
    var close := CloseFrom(open, uChange);
    WithWicks(time, open, close, uHigh, uLow)
  }

  /** Reference definition: `n` bars from `firstDay` on, the first opening at
      `open`, each drawing three values from `rnd`. */
  function Bars(open: real, firstDay: int, rnd: seq<real>, n: nat): (s: seq<Candlestick>)
    requires open > 0.0 && |rnd| >= DrawsPerBar * n && UnitDraws(rnd)
    ensures |s| == n && WellFormedSeries(s)
    ensures n > 0 ==> s[0].open == open
    ensures forall i :: 0 <= i < n ==> s[i].time == firstDay + i
    decreases n
  {
    if n == 0 then []
    else
      var b := MakeBar(firstDay, open, rnd[0], rnd[1], rnd[2]);
      [b] + Bars(b.close, firstDay + 1, rnd[DrawsPerBar..], n - 1)
  }

  /** Bar `i` of `Bars` is the bar built on the previous close (or on `open`)
      from draws `3i`, `3i+1`, `3i+2`. */
  lemma {:induction false} BarsAt(open: real, firstDay: int, rnd: seq<real>, n: nat, i: nat)
    requires open > 0.0 && |rnd| >= DrawsPerBar * n && UnitDraws(rnd)
    requires i < n
    ensures Bars(open, firstDay, rnd, n)[i]
         == MakeBar(firstDay + i,
                    if i == 0 then open else Bars(open, firstDay, rnd, n)[i - 1].close,
                    rnd[3 * i], rnd[3 * i + 1], rnd[3 * i + 2])
    decreases n
  {
    if i > 0 {
      var b := MakeBar(firstDay, open, rnd[0], rnd[1], rnd[2]);
      var rest := rnd[DrawsPerBar..];
      BarsAt(b.close, firstDay + 1, rest, n - 1, i - 1);
      assert rest[3 * (i - 1)] == rnd[3 * i];
      assert rest[3 * (i - 1) + 1] == rnd[3 * i + 1];
      assert rest[3 * (i - 1) + 2] == rnd[3 * i + 2];
    }
  }

  /** The series `generateFakeCandlestickData(count)` returns for the draws `rnd`
      on day `today`. */
  function Series(count: nat, today: int, rnd: seq<real>): (s: seq<Candlestick>)
    requires DrawsCover(rnd, count)
    ensures |s| == count && WellFormedSeries(s)
    ensures count > 0 ==> 100.0 <= s[0].open < 120.0
    ensures forall i :: 0 <= i < count ==> s[i].time == today - count + i
  {
    Bars(SeedPrice(rnd[0]), today - count, rnd[1..], count)
  }

  /** Bar `i` of `Series`, stated on the draws `rnd` themselves. */
  lemma SeriesAt(count: nat, today: int, rnd: seq<real>, i: nat)
    requires DrawsCover(rnd, count) && i < count
    ensures Series(count, today, rnd)[i]
         == MakeBar(today - count + i,
                    if i == 0 then SeedPrice(rnd[0]) else Series(count, today, rnd)[i - 1].close,
                    rnd[1 + 3 * i], rnd[2 + 3 * i], rnd[3 + 3 * i])
  {
    BarsAt(SeedPrice(rnd[0]), today - count, rnd[1..], count, i);
  }

  /** generateFakeCandlestickData (Mode2.tsx:26-60): a loop that pushes one bar
      per day, each opening at the previous close. */
  method GenerateFakeCandlestickData(count: nat, today: int, rnd: seq<real>)
    returns (data: seq<Candlestick>)
    requires DrawsCover(rnd, count)
    ensures data == Series(count, today, rnd)
    ensures |data| == count && WellFormedSeries(data)
    ensures count > 0 ==> 100.0 <= data[0].open < 120.0
  {
    data := [];
    var basePrice := SeedPrice(rnd[0]);
    var startDay := today - count;
    ghost var full := Series(count, today, rnd);
    for i := 0 to count
      invariant data == full[..i]
      invariant basePrice == if i == 0 then SeedPrice(rnd[0]) else data[i - 1].close
      invariant basePrice > 0.0
    {
      var bar := MakeBar(startDay + i, basePrice, rnd[1 + 3 * i], rnd[2 + 3 * i], rnd[3 + 3 * i]);
      SeriesAt(count, today, rnd, i);
      assert full[..i + 1] == full[..i] + [bar];
      data := data + [bar];
      basePrice := bar.close;
    }
  }
}

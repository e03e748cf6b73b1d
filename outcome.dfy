/** Outcome classification and scoring of a finished series (Mode2.tsx:62-84).

    Both read only the close of the first and of the last bar, through the
    percentage change `pct = (end - start) / start * 100`. Prices are exact
    reals: the model states the arithmetic rule, not IEEE-754 rounding. */
module Outcome {
  import opened Candles

  /** The player's choice and the classified result share one type
      (Mode2.tsx:20-23). */
  datatype Direction = Up | Down | Sideways

  /** The +-5% band that separates a move from a sideways market. */
  const Threshold: real := 5.0

  /** Order facts about a percentage `pct` of a positive `start`, stated on
      plain reals so that the solver never sees the division. */
  lemma PercentFacts(start: real, end: real, pct: real)
    requires start > 0.0 && pct * start == (end - start) * 100.0
    ensures pct > Threshold <==> end > start * 1.05
    ensures pct >= Threshold <==> end >= start * 1.05
    ensures pct < -Threshold <==> end < start * 0.95
    ensures pct <= -Threshold <==> end <= start * 0.95
    ensures pct == 0.0 <==> end == start
  {
    assert (pct - 5.0) * start == pct * start - 5.0 * start;
    assert (pct + 5.0) * start == pct * start + 5.0 * start;
    SignOfProduct(pct - 5.0, start);
    SignOfProduct(pct + 5.0, start);
    SignOfProduct(pct, start);
  }

  lemma SignOfProduct(a: real, s: real)
    requires s > 0.0
    ensures a > 0.0 <==> a * s > 0.0
    ensures a == 0.0 <==> a * s == 0.0
  {
  }

  /** `((endPrice - startPrice) / startPrice) * 100`, Mode2.tsx:66 and 77:
      the change of the end price relative to the start price, in percent. */
  function ChangePercent(startPrice: real, endPrice: real): (pct: real)
    requires startPrice > 0.0
    ensures pct * startPrice == (endPrice - startPrice) * 100.0
    ensures pct > Threshold <==> endPrice > startPrice * 1.05
    ensures pct >= Threshold <==> endPrice >= startPrice * 1.05
    ensures pct < -Threshold <==> endPrice < startPrice * 0.95
    ensures pct <= -Threshold <==> endPrice <= startPrice * 0.95
    ensures pct == 0.0 <==> endPrice == startPrice
  {
    var pct := (endPrice - startPrice) / startPrice * 100.0;
    assert pct * startPrice == (endPrice - startPrice) * 100.0;
    PercentFacts(startPrice, endPrice, pct);
    pct
  }

  /** The three-way rule of Mode2.tsx:68-70: strictly above +5 is up,
      strictly below -5 is down, the closed band [-5, 5] is sideways. */
  function Classify(pct: real): (d: Direction)
    ensures d == Up <==> pct > Threshold
    ensures d == Down <==> pct < -Threshold
    ensures d == Sideways <==> -Threshold <= pct <= Threshold
  {
    if pct > Threshold then Up
    else if pct < -Threshold then Down
    else Sideways
  }

  /** The score of Mode2.tsx:79-83: 100 above the band, 0 below it, and inside
      it the clamped ramp `50 + (pct / 5) * 50`. */
  function Ramp(pct: real): (s: real)
    ensures 0.0 <= s <= 100.0
    ensures pct >= Threshold ==> s == 100.0
    ensures pct <= -Threshold ==> s == 0.0
    ensures -Threshold <= pct <= Threshold ==> s == 50.0 + 10.0 * pct
  {
    if pct > Threshold then 100.0
    else if pct < -Threshold then 0.0
    else Max(0.0, Min(100.0, 50.0 + (pct / 5.0) * 50.0))
  }

  /** The series can be classified: it has a first bar and its close is
      positive (a generated series always qualifies). */
  predicate Classifiable(data: seq<Candlestick>) {
    |data| > 0 && data[0].close > 0.0
  }

  function StartClose(data: seq<Candlestick>): real requires |data| > 0 { data[0].close }
  function EndClose(data: seq<Candlestick>): real requires |data| > 0 { data[|data| - 1].close }

  /** calculateResult (Mode2.tsx:63-71), read as a rule on the two closes. */
  function CalculateResult(data: seq<Candlestick>): (r: Direction)
    requires Classifiable(data)
    ensures r == Up <==> EndClose(data) > StartClose(data) * 1.05
    ensures r == Down <==> EndClose(data) < StartClose(data) * 0.95
    ensures r == Sideways <==> StartClose(data) * 0.95 <= EndClose(data) <= StartClose(data) * 1.05
  {
    Classify(ChangePercent(data[0].close, data[|data| - 1].close))
  }

  /** calculateScore (Mode2.tsx:74-84), read as a rule on the two closes. */
  function CalculateScore(data: seq<Candlestick>): (s: real)
    requires Classifiable(data)
    ensures 0.0 <= s <= 100.0
    ensures EndClose(data) >= StartClose(data) * 1.05 ==> s == 100.0
    ensures EndClose(data) <= StartClose(data) * 0.95 ==> s == 0.0
    ensures s == 50.0 <==> EndClose(data) == StartClose(data)
  {
    Ramp(ChangePercent(data[0].close, data[|data| - 1].close))
  }

  /** Result and score agree: an up move scores 100, a down move 0, and a
      sideways market anything in between. */
  lemma ResultAgreesWithScore(data: seq<Candlestick>)
    requires Classifiable(data)
    ensures CalculateResult(data) == Up ==> CalculateScore(data) == 100.0
    ensures CalculateResult(data) == Down ==> CalculateScore(data) == 0.0
    ensures CalculateScore(data) == 100.0 ==> CalculateResult(data) != Down
    ensures CalculateScore(data) == 0.0 ==> CalculateResult(data) != Up
  {
  }

  /** The score never decreases as the percentage change grows. */
  lemma RampMonotone(p: real, q: real)
    requires p <= q
    ensures Ramp(p) <= Ramp(q)
  {
  }

  /** With the same first close, a higher last close never scores less. */
  lemma {:induction false} ScoreMonotoneInEndClose(a: seq<Candlestick>, b: seq<Candlestick>)
    requires Classifiable(a) && Classifiable(b)
    requires StartClose(a) == StartClose(b) && EndClose(a) <= EndClose(b)
    ensures CalculateScore(a) <= CalculateScore(b)
  {
    var s := StartClose(a);
    ChangePercentMonotone(s, EndClose(a), EndClose(b));
    RampMonotone(ChangePercent(s, EndClose(a)), ChangePercent(s, EndClose(b)));
  }

  /** With the same positive start, the percentage change grows with the end
      price. */
  lemma ChangePercentMonotone(s: real, e1: real, e2: real)
    requires s > 0.0 && e1 <= e2
    ensures ChangePercent(s, e1) <= ChangePercent(s, e2)
  {
    PercentOrder(s, e1, e2, ChangePercent(s, e1), ChangePercent(s, e2));
  }

  lemma PercentOrder(s: real, e1: real, e2: real, p1: real, p2: real)
    requires s > 0.0 && e1 <= e2
    requires p1 * s == (e1 - s) * 100.0 && p2 * s == (e2 - s) * 100.0
    ensures p1 <= p2
  {
  }

  /** Both outcomes are functions of the first and the last close only:
      the bars in between, and the other prices of the end bars, do not
      matter. */
  lemma OnlyEndpointsMatter(a: seq<Candlestick>, b: seq<Candlestick>)
    requires Classifiable(a) && Classifiable(b)
    requires StartClose(a) == StartClose(b) && EndClose(a) == EndClose(b)
    ensures CalculateResult(a) == CalculateResult(b)
    ensures CalculateScore(a) == CalculateScore(b)
  {
  }

  /** The boundary convention: exactly +5% or -5% is sideways, and the ramp
      already reaches 100 and 0 there, so the score is continuous across the
      band edges while the label is not. */
  lemma BoundaryConvention()
    ensures Classify(Threshold) == Sideways && Ramp(Threshold) == 100.0
    ensures Classify(-Threshold) == Sideways && Ramp(-Threshold) == 0.0
    ensures Ramp(0.0) == 50.0 && Ramp(2.0) == 70.0
  {
  }

  /** Worked cases: from 100 to 106 is up with 100 points, to 94 is down with
      0 points, to 102 is sideways with 70 points. */
  lemma WorkedCases(data: seq<Candlestick>)
    requires Classifiable(data) && StartClose(data) == 100.0
    ensures EndClose(data) == 106.0 ==> CalculateResult(data) == Up && CalculateScore(data) == 100.0
    ensures EndClose(data) == 94.0 ==> CalculateResult(data) == Down && CalculateScore(data) == 0.0
    ensures EndClose(data) == 102.0 ==> CalculateResult(data) == Sideways && CalculateScore(data) == 70.0
  {
  }
}

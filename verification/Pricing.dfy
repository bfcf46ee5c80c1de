/** Published rates to dollars: the forecast of one generation and its padded reservation (src/services/pricing.py). */
module Pricing {
  import opened Schemas
  import opened Money

  /** USD per million tokens and the token model; `safety` pads a reservation. */
  datatype Table = Table(
    input: Usd,
    textOutput: Usd,
    imageOutput: Usd,
    inputImage: nat,
    oneK: nat,
    fourK: nat,
    charsPerToken: nat,
    safety: Usd)

  const TEXT_OUTPUT_TOKENS: nat := 8

  /** Integer division rounding up. */
  function CeilDiv(n: nat, d: nat): (q: nat)
    requires d > 0
    ensures (q as int - 1) * d < n <= q * d || (n == 0 && q == 0)
  {
    (n + d - 1) / d
  }

  /** Round half to even, the default of a decimal quantize. */
  function HalfEven(x: real): int {
    var low := x.Floor;
    var rest := x - low as real;
    if rest < 0.5 || (rest == 0.5 && low % 2 == 0) then low else low + 1
  }

  function ImageTokens(t: Table, fourK: bool): nat {
    if fourK then t.fourK else t.oneK
  }

  /** Rates are per million tokens, so tokens times rate is micro-dollars. */
  function Bill(tokens: nat, rate: Usd): real {
    tokens as real * rate
  }

  function InputTokens(t: Table, promptChars: nat, references: nat, faceDetail: Option<nat>): nat
    requires t.charsPerToken > 0
  {
    CeilDiv(promptChars, t.charsPerToken) + references * t.inputImage + faceDetail.GetOr(0)
  }

  /** Micro-dollars of one generation before rounding; `faceDetail` is the face crop's token block, if one is sent. */
  function RawMicro(t: Table, promptChars: nat, references: nat, fourK: bool, faceDetail: Option<nat>): real
    requires t.charsPerToken > 0
  {
    Bill(InputTokens(t, promptChars, references, faceDetail), t.input) + Bill(TEXT_OUTPUT_TOKENS, t.textOutput)
    + Bill(ImageTokens(t, fourK), t.imageOutput)
  }

  function PredictedMicro(t: Table, promptChars: nat, references: nat, fourK: bool, faceDetail: Option<nat>): int
    requires t.charsPerToken > 0
  {
    HalfEven(RawMicro(t, promptChars, references, fourK, faceDetail))
  }

  /** The realistic price, on the micro grid. */
  function PredictGenerationCost(t: Table, promptChars: nat, references: nat, fourK: bool,
      faceDetail: Option<nat>): real
    requires t.charsPerToken > 0
  {
    FromMicro(PredictedMicro(t, promptChars, references, fourK, faceDetail))
  }

  function TimesSafety(forecast: real, safety: Usd): real {
    forecast * safety
  }

  /** Forecast times safety, rounded up to the grid. */
  function Padded(forecast: real, safety: Usd): real {
    FromMicro(ToMicro(TimesSafety(forecast, safety)))
  }

  /** The padded price the meter holds. */
  function GenerationReserve(t: Table, promptChars: nat, references: nat, fourK: bool, faceDetail: Option<nat>): real
    requires t.charsPerToken > 0
  {
    Padded(PredictGenerationCost(t, promptChars, references, fourK, faceDetail), t.safety)
  }

  /** Quantizing moves a price by at most half a micro-dollar and keeps order. */
  lemma HalfEvenIsNearest(x: real, y: real)
    ensures -0.5 <= HalfEven(x) as real - x <= 0.5
    ensures x <= y ==> HalfEven(x) <= HalfEven(y)
  {
  }

  /** Halfway between two, the even one. */
  lemma HalfEvenTies(x: real)
    requires HalfEven(x) as real - x == 0.5 || HalfEven(x) as real - x == -0.5
    ensures HalfEven(x) % 2 == 0
  {
    var low := x.Floor;
    if low % 2 == 0 {
      assert HalfEven(x) == low;
    } else {
      NextIsEven(low);
      assert HalfEven(x) == low + 1;
    }
  }

  lemma NextIsEven(n: int)
    requires n % 2 != 0
    ensures (n + 1) % 2 == 0
  {
  }

  /** `prompt` is the least number of tokens that holds the prompt's characters. */
  predicate Holds(t: Table, prompt: nat, chars: nat) {
    prompt * t.charsPerToken >= chars && (prompt > 0 ==> (prompt - 1) * t.charsPerToken < chars)
  }

  /** What a generation costs, in micro-dollars: the prompt's tokens, one block per reference and the face crop's tokens
      at the input rate, eight tokens of text and the block of the output size at their own output rates, to the nearest
      micro-dollar and the even one of two. */
  lemma GenerationPrice(t: Table, chars: nat, prompt: nat, references: nat, fourK: bool, faceDetail: Option<nat>)
    requires t.charsPerToken > 0 && Holds(t, prompt, chars)
    ensures var face, block := if faceDetail.Some? then faceDetail.value else 0, if fourK then t.fourK else t.oneK;
      var exact := (prompt + references * t.inputImage + face) as real * t.input
                   + 8.0 * t.textOutput + block as real * t.imageOutput;
      var charged := PredictedMicro(t, chars, references, fourK, faceDetail);
      && PredictGenerationCost(t, chars, references, fourK, faceDetail) == FromMicro(charged)
      && -0.5 <= charged as real - exact <= 0.5
      && (charged as real - exact == 0.5 || charged as real - exact == -0.5 ==> charged % 2 == 0)
  {
    hide HalfEven, CeilDiv, FromMicro;
    CeilDivIsLeast(t, chars, prompt);
    var raw := RawMicro(t, chars, references, fourK, faceDetail);
    HalfEvenIsNearest(raw, 0.0);
    if HalfEven(raw) as real - raw == 0.5 || HalfEven(raw) as real - raw == -0.5 {
      HalfEvenTies(raw);
    }
  }

  lemma CeilDivIsLeast(t: Table, chars: nat, prompt: nat)
    requires t.charsPerToken > 0 && Holds(t, prompt, chars)
    ensures CeilDiv(chars, t.charsPerToken) == prompt
  {
    hide CeilDiv;
    var q, d := CeilDiv(chars, t.charsPerToken), t.charsPerToken;
    if q < prompt {
      TimesMonotone(q, prompt - 1, d);
    } else if q > prompt {
      TimesMonotone(prompt, q - 1, d);
    }
  }

  /** What each part moves the price by, before rounding: one more token of output image, one more reference, a face
      crop of `d` tokens, one more token of prompt; and the text is all that is left when nothing else is there. */
  lemma MarginalPrices(t: Table, chars: nat, references: nat, fourK: bool, d: nat)
    requires t.charsPerToken > 0
    ensures RawMicro(t.(oneK := t.oneK + 1), chars, references, false, None)
         == RawMicro(t, chars, references, false, None) + t.imageOutput
    ensures RawMicro(t.(fourK := t.fourK + 1), chars, references, true, None)
         == RawMicro(t, chars, references, true, None) + t.imageOutput
    ensures RawMicro(t, chars, references + 1, fourK, None)
         == RawMicro(t, chars, references, fourK, None) + t.inputImage as real * t.input
    ensures RawMicro(t, chars, references, fourK, Some(d))
         == RawMicro(t, chars, references, fourK, None) + d as real * t.input
    ensures RawMicro(t, chars + t.charsPerToken, references, fourK, None)
         == RawMicro(t, chars, references, fourK, None) + t.input
    ensures RawMicro(t.(oneK := 0, fourK := 0), 0, 0, fourK, None) == 8.0 * t.textOutput
  {
    hide CeilDiv;
    var prompt := CeilDiv(chars, t.charsPerToken);
    var block := if fourK then t.fourK else t.oneK;
    CeilDivIsLeast(t, chars + t.charsPerToken, prompt + 1);
    CeilDivIsLeast(t, 0, 0);
    var tokens := prompt + references * t.inputImage;
    OneMore(tokens, t.inputImage, t.input);
    OneMore(tokens, d, t.input);
    OneMore(tokens, 1, t.input);
    OneMore(t.oneK, 1, t.imageOutput);
    OneMore(t.fourK, 1, t.imageOutput);
    assert (references + 1) * t.inputImage == references * t.inputImage + t.inputImage;
  }

  lemma OneMore(tokens: nat, more: nat, rate: Usd)
    ensures Bill(tokens + more, rate) == Bill(tokens, rate) + more as real * rate
  {
    assert (tokens + more) as real == tokens as real + more as real;
  }

  /** The June 2026 table of the image model: 0.50, 3 and 60 dollars per million tokens, padded by 15 percent. */
  const DEFAULT_TABLE: Table := Table(0.5, 3.0, 60.0, 1120, 1120, 2520, 4, 1.15)

  /** At its rates a 1K edit of one photo with a prompt of 400 characters is forecast at $0.067834 and reserved at
      $0.078010. */
  lemma DefaultPrice()
    ensures PredictGenerationCost(DEFAULT_TABLE, 400, 1, false, None) == 0.067834
    ensures GenerationReserve(DEFAULT_TABLE, 400, 1, false, None) == 0.078010
  {
    GenerationPrice(DEFAULT_TABLE, 400, 100, 1, false, None);
    var micro := PredictedMicro(DEFAULT_TABLE, 400, 1, false, None);
    hide PredictedMicro;
    assert (100 + 1 * 1120 + 0) as real * 0.5 + 8.0 * 3.0 + 1120.0 * 60.0 == 67834.0;
    assert micro == 67834;
    assert 0.067834 * 1.15 * MICRO_PER_USD == 78009.1;
    assert Ceiling(78009.1) == 78010;
  }

  lemma BillMonotone(tokens: nat, more: nat, rate: Usd)
    requires tokens <= more
    ensures 0.0 <= Bill(tokens, rate) <= Bill(more, rate)
  {
    assert (more - tokens) as real * rate >= 0.0;
    assert more as real == tokens as real + (more - tokens) as real;
  }

  lemma CeilDivMonotone(n: nat, m: nat, d: nat)
    requires n <= m && d > 0
    ensures CeilDiv(n, d) <= CeilDiv(m, d)
  {
    hide CeilDiv;
    if CeilDiv(n, d) > CeilDiv(m, d) {
      TimesMonotone(CeilDiv(m, d), CeilDiv(n, d) - 1, d);
    }
  }

  lemma TimesMonotone(a: int, b: int, d: nat)
    requires a <= b
    ensures a * d <= b * d
  {
  }

  /** A longer prompt never predicts less, nor does an output with more image tokens. */
  lemma PredictionMonotone(t: Table, chars: nat, more: nat, references: nat, fourK: bool, faceDetail: Option<nat>)
    requires t.charsPerToken > 0 && chars <= more
    ensures var shorter := PredictedMicro(t, chars, references, fourK, faceDetail);
      0 <= shorter <= PredictedMicro(t, more, references, fourK, faceDetail)
    ensures t.oneK <= t.fourK ==>
      PredictedMicro(t, chars, references, false, faceDetail) <= PredictedMicro(t, chars, references, true, faceDetail)
  {
    hide Bill, HalfEven, CeilDiv;
    var raw, longer := RawMicro(t, chars, references, fourK, faceDetail), RawMicro(t, more, references, fourK,
        faceDetail);
    CeilDivMonotone(chars, more, t.charsPerToken);
    BillMonotone(InputTokens(t, chars, references, faceDetail), InputTokens(t, more, references, faceDetail), t.input);
    BillMonotone(TEXT_OUTPUT_TOKENS, TEXT_OUTPUT_TOKENS, t.textOutput);
    BillMonotone(ImageTokens(t, fourK), ImageTokens(t, fourK), t.imageOutput);
    HalfEvenIsNearest(raw, longer);
    HalfEvenIsNearest(0.0, raw);
    HalfEvenOfZero();
    if t.oneK <= t.fourK {
      BillMonotone(t.oneK, t.fourK, t.imageOutput);
      HalfEvenIsNearest(RawMicro(t, chars, references, false, faceDetail),
                        RawMicro(t, chars, references, true, faceDetail));
    }
  }

  lemma HalfEvenOfZero()
    ensures HalfEven(0.0) == 0
  {
  }

  /** The reservation lies on the grid, covers the padded forecast by less than a micro-dollar and grows with the
      prompt. It holds at least the forecast exactly when the safety factor takes off less than a micro-dollar: with a
      factor of one or more, always. */
  lemma ReserveCoversForecast(t: Table, chars: nat, more: nat, references: nat, fourK: bool, faceDetail: Option<nat>)
    requires t.charsPerToken > 0 && chars <= more
    ensures var reserve := GenerationReserve(t, chars, references, fourK, faceDetail);
      var forecast := PredictGenerationCost(t, chars, references, fourK, faceDetail);
      var padded := TimesSafety(forecast, t.safety);
      && OnGrid(reserve) && forecast >= 0.0 && padded <= reserve < padded + FromMicro(1)
      && (reserve >= forecast <==> padded > forecast - FromMicro(1))
      && (t.safety >= 1.0 ==> reserve >= forecast)
      && 0.0 <= reserve <= GenerationReserve(t, more, references, fourK, faceDetail)
  {
    PredictionsOrdered(t, chars, more, references, fourK, faceDetail);
    ForecastOnGrid(t, chars, references, fourK, faceDetail);
    hide PredictGenerationCost, Padded, OnGrid, FromMicro, TimesSafety;
    PaddedCovers(PredictGenerationCost(t, chars, references, fourK, faceDetail),
                 PredictGenerationCost(t, more, references, fourK, faceDetail), t.safety);
  }

  /** A reservation is the forecast times the safety factor, rounded up to the micro-dollar. */
  lemma ReserveIsPadded(t: Table, chars: nat, references: nat, fourK: bool, faceDetail: Option<nat>)
    requires t.charsPerToken > 0
    ensures var reserve := GenerationReserve(t, chars, references, fourK, faceDetail);
      var padded := PredictGenerationCost(t, chars, references, fourK, faceDetail) * t.safety;
      OnGrid(reserve) && padded <= reserve < padded + FromMicro(1)
  {
    hide GenerationReserve, PredictGenerationCost, OnGrid, TimesSafety, FromMicro;
    ReserveCoversForecast(t, chars, chars, references, fourK, faceDetail);
    SafetyMultiplies(PredictGenerationCost(t, chars, references, fourK, faceDetail), t.safety);
  }

  lemma SafetyMultiplies(forecast: real, safety: Usd)
    ensures TimesSafety(forecast, safety) == forecast * safety
  {
  }

  lemma ForecastOnGrid(t: Table, chars: nat, references: nat, fourK: bool, faceDetail: Option<nat>)
    requires t.charsPerToken > 0
    ensures OnGrid(PredictGenerationCost(t, chars, references, fourK, faceDetail))
  {
    hide PredictedMicro;
    MicroRoundTrip(PredictedMicro(t, chars, references, fourK, faceDetail));
  }

  lemma PredictionsOrdered(t: Table, chars: nat, more: nat, references: nat, fourK: bool, faceDetail: Option<nat>)
    requires t.charsPerToken > 0 && chars <= more
    ensures var shorter := PredictGenerationCost(t, chars, references, fourK, faceDetail);
      0.0 <= shorter <= PredictGenerationCost(t, more, references, fourK, faceDetail)
  {
    PredictionMonotone(t, chars, more, references, fourK, faceDetail);
    hide PredictedMicro;
    FromMicroMonotone(0, PredictedMicro(t, chars, references, fourK, faceDetail));
    FromMicroMonotone(PredictedMicro(t, chars, references, fourK, faceDetail),
                      PredictedMicro(t, more, references, fourK, faceDetail));
  }

  lemma PaddedCovers(forecast: real, larger: real, safety: Usd)
    requires 0.0 <= forecast <= larger && OnGrid(forecast)
    ensures OnGrid(Padded(forecast, safety)) && 0.0 <= Padded(forecast, safety) <= Padded(larger, safety)
    ensures TimesSafety(forecast, safety) <= Padded(forecast, safety) < TimesSafety(forecast, safety) + FromMicro(1)
    ensures Padded(forecast, safety) >= forecast <==> TimesSafety(forecast, safety) > forecast - FromMicro(1)
    ensures safety >= 1.0 ==> Padded(forecast, safety) >= forecast
  {
    Scaling(forecast, larger, safety);
    var padded, more := TimesSafety(forecast, safety), TimesSafety(larger, safety);
    hide TimesSafety;
    ToMicroMonotone(padded, more);
    FromMicroMonotone(ToMicro(padded), ToMicro(more));
    PaddedReserve(padded);
    ToMicroNeverUnderReserves(padded, ToMicro(forecast) - 1);
    FromMicroOrder(ToMicro(padded), ToMicro(forecast));
    FromMicroPredecessor(ToMicro(forecast));
    hide ToMicro, FromMicro;
  }

  lemma FromMicroOrder(a: int, b: int)
    ensures FromMicro(a) >= FromMicro(b) <==> a >= b
  {
  }

  lemma FromMicroPredecessor(a: int)
    ensures FromMicro(a - 1) == FromMicro(a) - FromMicro(1) && FromMicro(1) > 0.0
  {
  }

  lemma Scaling(forecast: real, larger: real, safety: Usd)
    requires 0.0 <= forecast <= larger
    ensures 0.0 <= TimesSafety(forecast, safety) <= TimesSafety(larger, safety)
    ensures safety >= 1.0 ==> forecast <= TimesSafety(forecast, safety)
  {
    assert (larger - forecast) * safety >= 0.0;
    assert forecast * safety >= 0.0;
    if safety >= 1.0 {
      assert forecast * (safety - 1.0) >= 0.0;
    }
  }

  lemma FromMicroMonotone(a: int, b: int)
    requires a <= b
    ensures FromMicro(a) <= FromMicro(b)
  {
  }

  lemma PaddedReserve(usd: real)
    ensures usd <= FromMicro(ToMicro(usd)) < usd + FromMicro(1)
    ensures OnGrid(FromMicro(ToMicro(usd)))
  {
    CeilingIsLeast(usd * MICRO_PER_USD, 0);
    FromMicroScales(ToMicro(usd));
    MicroRoundTrip(ToMicro(usd));
  }
}

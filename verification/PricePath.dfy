/**
  The price path: AWS history to a 24-step series, the series to a 12-step window, the window to the
  flat model tensor.
 */
module PricePath {
  import opened Wrappers

  const HISTORY_STEPS: nat := 24
  const TFT_STEPS: nat := 12
  const FEATURES: nat := 10
  const VOLATILITY_WINDOW: nat := 12

  // ----- buildPriceHistory

  /** The prices present in an AWS answer, newest first as AWS lists them; None is an entry without a price. */
  function Present(history: seq<Option<real>>): seq<real> {
    if history == [] then []
    else (if history[0].Some? then [history[0].value] else []) + Present(history[1..])
  }

  /** Padding reads the first price, so a non-empty history without any price is an index panic. */
  datatype Built = Panics | Built(prices: seq<real>)

  /** How many present prices are newer than step j; steps older than the oldest price repeat it. */
  function Age(j: nat, count: nat): (k: nat)
    requires j < HISTORY_STEPS && count > 0
    ensures k < count
  {
    if HISTORY_STEPS - 1 - j < count then HISTORY_STEPS - 1 - j else count - 1
  }

  /** prices lists the present prices oldest first. */
  ghost predicate OldestFirst(prices: seq<real>, history: seq<Option<real>>) {
    var newest := Present(history);
    |prices| == |newest| && forall k :: 0 <= k < |prices| ==> prices[k] == newest[|newest| - 1 - k]
  }

  method BuildPriceHistory(history: seq<Option<real>>) returns (r: Built)
    ensures history == [] ==> r == Built([])
    ensures r.Panics? <==> history != [] && forall h :: h in history ==> h.None?
    ensures r.Built? && history != [] ==>
              && |r.prices| == HISTORY_STEPS == 24
              && var newest := Present(history);
                 |newest| > 0 && forall j :: 0 <= j < HISTORY_STEPS ==> r.prices[j] == newest[Age(j, |newest|)]
  {
    if history == [] {
      return Built([]);
    }
    PresentMeaning(history);
    var prices := ListOldestFirst(history);
    hide Present, OldestFirst;
    if prices == [] {
      NonePresent(history);
      return Panics;
    }
    var out := FitToHistory(prices);
    FittedByAge(prices, history, out);
    return Built(out);
  }

  lemma NonePresent(history: seq<Option<real>>)
    requires OldestFirst([], history)
    ensures Present(history) == []
  {
  }

  /** out[j] is the price of step j: short lists repeat their oldest price in front, long ones lose theirs. */
  ghost predicate IsFitted(prices: seq<real>, out: seq<real>) {
    && prices != [] && |out| == HISTORY_STEPS
    && forall j :: 0 <= j < HISTORY_STEPS ==>
                     var k := j + |prices| - HISTORY_STEPS; out[j] == if k >= 0 then prices[k] else prices[0]
  }

  /** Padding and truncation to 24 steps. */
  method FitToHistory(prices: seq<real>) returns (out: seq<real>)
    requires prices != []
    ensures IsFitted(prices, out)
  {
    out := prices;
    if |out| < HISTORY_STEPS {
      var padding := PadWith(prices[0], HISTORY_STEPS - |prices|);
      out := padding + prices;
    } else if |out| > HISTORY_STEPS {
      out := out[|out| - HISTORY_STEPS..];
    }
  }

  lemma FittedByAge(prices: seq<real>, history: seq<Option<real>>, out: seq<real>)
    requires OldestFirst(prices, history) && IsFitted(prices, out)
    ensures var newest := Present(history);
            |newest| > 0 && forall j :: 0 <= j < HISTORY_STEPS ==> out[j] == newest[Age(j, |newest|)]
  {
    hide Present;
  }

  /** The reversing loop: AWS lists the newest entry first. */
  method ListOldestFirst(history: seq<Option<real>>) returns (prices: seq<real>)
    ensures OldestFirst(prices, history)
  {
    hide OldestFirst;
    prices := [];
    NothingListed();
    assert history[|history|..] == [];
    var i := |history|;
    while i > 0
      invariant 0 <= i <= |history|
      invariant OldestFirst(prices, history[i..])
    {
      i := i - 1;
      OneOlderListed(prices, history, i);
      if history[i].Some? {
        prices := prices + [history[i].value];
      }
    }
    assert history[0..] == history;
  }

  lemma NothingListed()
    ensures OldestFirst([], [])
  {
  }

  /** The entry before a listed stretch is newer, so its price goes to the end. */
  lemma OneOlderListed(prices: seq<real>, history: seq<Option<real>>, i: nat)
    requires i < |history| && OldestFirst(prices, history[i + 1..])
    ensures OldestFirst(if history[i].Some? then prices + [history[i].value] else prices, history[i..])
  {
    PresentUnfolds(history, i);
    hide Present;
  }

  lemma PresentUnfolds(history: seq<Option<real>>, i: nat)
    requires i < |history|
    ensures Present(history[i..]) == (if history[i].Some? then [history[i].value] else []) + Present(history[i + 1..])
  {
    assert history[i..][1..] == history[i + 1..] && history[i..][0] == history[i];
  }

  method PadWith(x: real, n: nat) returns (padding: seq<real>)
    ensures |padding| == n && forall k :: 0 <= k < n ==> padding[k] == x
  {
    padding := [];
    for i := 0 to n
      invariant |padding| == i && forall k :: 0 <= k < i ==> padding[k] == x
    {
      padding := padding + [x];
    }
  }

  lemma {:induction false} PresentMeaning(history: seq<Option<real>>)
    ensures Present(history) == [] <==> forall h :: h in history ==> h.None?
  {
    if history != [] {
      PresentMeaning(history[1..]);
      assert history[0] in history;
      assert forall h :: h in history <==> h == history[0] || h in history[1..];
    }
  }

  // ----- normalizePriceHistory

  /** Every second entry of a list, starting at index 1. */
  function EverySecond(s: seq<real>): seq<real> {
    if |s| < 2 then [] else [s[1]] + EverySecond(s[2..])
  }

  lemma {:induction false} EverySecondAt(s: seq<real>, i: nat)
    requires 2 * i + 1 < |s|
    ensures |EverySecond(s)| == |s| / 2 && EverySecond(s)[i] == s[2 * i + 1]
  {
    if i > 0 {
      EverySecondAt(s[2..], i - 1);
    } else if |s| >= 4 {
      EverySecondAt(s[2..], 0);
    }
  }

  function Normalize(history: seq<real>, currentPrice: real): seq<real> {
    if history == [] then (if currentPrice > 0.0 then [currentPrice] else [])
    else if |history| >= 2 * TFT_STEPS then EverySecond(history[|history| - 2 * TFT_STEPS..])
    else if |history| > TFT_STEPS then history[|history| - TFT_STEPS..]
    else history
  }

  lemma LongHistory(history: seq<real>, currentPrice: real)
    requires |history| >= 2 * TFT_STEPS
    ensures Normalize(history, currentPrice) == EverySecond(history[|history| - 2 * TFT_STEPS..])
  {
  }

  lemma EverySecondUnfolds(s: seq<real>, i: nat)
    requires i + 1 < |s|
    ensures EverySecond(s[i..]) == [s[i + 1]] + EverySecond(s[i + 2..])
  {
    assert s[i..][2..] == s[i + 2..];
  }

  /** The downsampling loop. */
  method Downsample(recent: seq<real>) returns (downsampled: seq<real>)
    ensures downsampled == EverySecond(recent)
  {
    downsampled := [];
    var i := 1;
    while i < |recent|
      invariant 1 <= i && (i <= |recent| + 1 || recent == [])
      invariant recent != [] ==> downsampled + EverySecond(recent[i - 1..]) == EverySecond(recent)
      invariant recent == [] ==> downsampled == []
    {
      EverySecondUnfolds(recent, i - 1);
      hide EverySecond;
      downsampled := downsampled + [recent[i]];
      i := i + 2;
    }
  }

  method NormalizePriceHistory(history: seq<real>, currentPrice: real) returns (out: seq<real>)
    ensures out == Normalize(history, currentPrice)
  {
    if history == [] {
      if currentPrice > 0.0 {
        return [currentPrice];
      }
      return history;
    }
    if |history| >= 2 * TFT_STEPS {
      var recent := history[|history| - 2 * TFT_STEPS..];
      hide Normalize, EverySecond;
      out := Downsample(recent);
      assert |out| == TFT_STEPS by {
        EverySecondAt(recent, 0);
      }
      assert out == Normalize(history, currentPrice) by {
        LongHistory(history, currentPrice);
      }
      return;
    }
    if |history| > TFT_STEPS {
      return history[|history| - TFT_STEPS..];
    }
    return history;
  }

  /** Downsampling keeps the phase: step i of a long history is the (2i+1)-th of its last 24. */
  lemma DownsampledAt(history: seq<real>, currentPrice: real, i: nat)
    requires |history| >= 2 * TFT_STEPS && i < TFT_STEPS
    ensures |Normalize(history, currentPrice)| == TFT_STEPS
    ensures Normalize(history, currentPrice)[i] == history[|history| - 2 * TFT_STEPS + 2 * i + 1]
  {
    EverySecondAt(history[|history| - 2 * TFT_STEPS..], i);
    hide EverySecond;
  }

  /** The newest price survives whichever branch is taken. */
  lemma NormalizeKeepsNewest(history: seq<real>, currentPrice: real)
    requires history != []
    ensures 0 < |Normalize(history, currentPrice)| <= TFT_STEPS
    ensures Normalize(history, currentPrice)[|Normalize(history, currentPrice)| - 1] == history[|history| - 1]
  {
    hide EverySecond;
    if |history| >= 2 * TFT_STEPS {
      DownsampledAt(history, currentPrice, TFT_STEPS - 1);
    }
  }

  // ----- the model tensor

  /** Hour and weekday of the node state's timestamp, Sunday being 0. */
  datatype Clock = Clock(hour: nat, weekday: nat)

  predicate IsWeekend(c: Clock) {
    c.weekday == 0 || c.weekday == 6
  }

  /** The platform's square root, whatever it computes. */
  type Root = real -> real

  /** Short histories are padded in front with the current price, long ones lose their oldest entries. */
  function Window(history: seq<real>, spotPrice: real): (w: seq<real>)
    ensures |w| == TFT_STEPS
  {
    if |history| < TFT_STEPS then seq(TFT_STEPS - |history|, i => spotPrice) + history
    else history[|history| - TFT_STEPS..]
  }

  function Sum(s: seq<real>): real {
    if s == [] then 0.0 else Sum(s[..|s| - 1]) + s[|s| - 1]
  }

  function SquaresAround(s: seq<real>, mean: real): real {
    if s == [] then 0.0 else SquaresAround(s[..|s| - 1], mean) + (s[|s| - 1] - mean) * (s[|s| - 1] - mean)
  }

  /** calculateStdDev: root of the sample variance, zero below two values. */
  function StdDev(s: seq<real>, sqrt: Root): real {
    if |s| < 2 then 0.0 else sqrt(SquaresAround(s, Sum(s) / |s| as real) / (|s| - 1) as real)
  }

  /** The values calculateRollingStd looks at for step t. */
  function Trailing(w: seq<real>, t: nat): seq<real>
    requires t < |w|
  {
    w[if t + 1 < VOLATILITY_WINDOW then 0 else t + 1 - VOLATILITY_WINDOW..t + 1]
  }

  function Feature(w: seq<real>, onDemand: real, c: Clock, sqrt: Root, t: nat, f: nat): real
    requires |w| == TFT_STEPS && t < TFT_STEPS && f < FEATURES
  {
    if f == 0 then w[t]
    else if f == 1 then onDemand
    else if f == 2 then w[if t > 0 then t - 1 else t]
    else if f == 3 then w[if t >= 3 then t - 3 else t]
    else if f == 4 then StdDev(Trailing(w, t), sqrt)
    else if f == 5 then c.hour as real / 24.0
    else if f == 6 then c.weekday as real / 7.0
    else if f == 7 then (if IsWeekend(c) then 1.0 else 0.0)
    else if f == 8 then (t - (TFT_STEPS - 1)) as real
    else TFT_STEPS as real
  }

  method CalculateStdDev(s: seq<real>, sqrt: Root) returns (v: real)
    ensures v == StdDev(s, sqrt)
  {
    if |s| < 2 {
      return 0.0;
    }
    var sum := 0.0;
    for i := 0 to |s|
      invariant sum == Sum(s[..i])
    {
      assert s[..i + 1][..i] == s[..i];
      sum := sum + s[i];
    }
    assert s[..|s|] == s;
    var mean := sum / |s| as real;
    var squares := 0.0;
    for i := 0 to |s|
      invariant squares == SquaresAround(s[..i], mean)
    {
      assert s[..i + 1][..i] == s[..i];
      var diff := s[i] - mean;
      squares := squares + diff * diff;
    }
    v := sqrt(squares / (|s| - 1) as real);
  }

  method RollingStd(w: seq<real>, sqrt: Root) returns (out: array<real>)
    ensures fresh(out) && out.Length == |w| && forall t :: 0 <= t < |w| ==> out[t] == StdDev(Trailing(w, t), sqrt)
  {
    out := new real[|w|];
    for i := 0 to |w|
      invariant forall t :: 0 <= t < i ==> out[t] == StdDev(Trailing(w, t), sqrt)
    {
      var start := i - VOLATILITY_WINDOW + 1;
      if start < 0 {
        start := 0;
      }
      assert w[start..i + 1] == Trailing(w, i);
      out[i] := CalculateStdDev(w[start..i + 1], sqrt);
    }
  }

  /** The flat tensor: cell i belongs to row i / 10 and feature i % 10. */
  function Cell(w: seq<real>, onDemand: real, c: Clock, sqrt: Root, i: nat): real
    requires |w| == TFT_STEPS && i < TFT_STEPS * FEATURES
  {
    Feature(w, onDemand, c, sqrt, i / FEATURES, i % FEATURES)
  }

  lemma CellOfRow(w: seq<real>, onDemand: real, c: Clock, sqrt: Root, t: nat, f: nat)
    requires |w| == TFT_STEPS && t < TFT_STEPS && f < FEATURES
    ensures t * FEATURES + f < TFT_STEPS * FEATURES
    ensures Cell(w, onDemand, c, sqrt, t * FEATURES + f) == Feature(w, onDemand, c, sqrt, t, f)
  {
    assert (t * FEATURES + f) / FEATURES == t && (t * FEATURES + f) % FEATURES == f;
  }

  method FillRow(input: array<real>, w: seq<real>, onDemand: real, c: Clock, sqrt: Root, t: nat, volatility: real)
    requires input.Length == TFT_STEPS * FEATURES && |w| == TFT_STEPS && t < TFT_STEPS && volatility == StdDev(Trailing(w, t), sqrt)
    modifies input
    ensures forall f :: 0 <= f < FEATURES ==> input[t * FEATURES + f] == Feature(w, onDemand, c, sqrt, t, f)
    ensures forall i :: 0 <= i < input.Length && !(t * FEATURES <= i < t * FEATURES + FEATURES) ==> input[i] == old(input[i])
  {
    hide StdDev, Trailing;
    var offset := t * FEATURES;
    input[offset + 0] := w[t];
    input[offset + 1] := onDemand;
    input[offset + 2] := w[if t > 0 then t - 1 else t];
    input[offset + 3] := w[if t >= 3 then t - 3 else t];
    input[offset + 4] := volatility;
    input[offset + 5] := c.hour as real / 24.0;
    input[offset + 6] := c.weekday as real / 7.0;
    input[offset + 7] := if IsWeekend(c) then 1.0 else 0.0;
    input[offset + 8] := (t - (TFT_STEPS - 1)) as real;
    input[offset + 9] := TFT_STEPS as real;
  }

  /** The first step of BuildTFTInput. */
  method PadOrTruncate(history: seq<real>, spotPrice: real) returns (w: seq<real>)
    ensures w == Window(history, spotPrice)
  {
    w := history;
    if |w| < TFT_STEPS {
      var padding := PadWith(spotPrice, TFT_STEPS - |w|);
      w := padding + w;
    } else if |w| > TFT_STEPS {
      w := w[|w| - TFT_STEPS..];
    }
  }

  /** BuildTFTInput: row t occupies ten consecutive cells of the flat tensor, starting at 10 t. */
  method BuildTftInput(history: seq<real>, spotPrice: real, onDemand: real, c: Clock, sqrt: Root) returns (tensor: seq<real>)
    ensures |tensor| == TFT_STEPS * FEATURES
    ensures forall i :: 0 <= i < |tensor| ==> tensor[i] == Cell(Window(history, spotPrice), onDemand, c, sqrt, i)
    ensures forall t :: 0 <= t < 12 ==> IsRow(tensor, Window(history, spotPrice), onDemand, c, sqrt, t)
  {
    var w := PadOrTruncate(history, spotPrice);
    hide Window, Feature, StdDev, Trailing, Cell;
    var volatility := RollingStd(w, sqrt);
    var std := volatility[..];
    var input := new real[TFT_STEPS * FEATURES];
    for t := 0 to TFT_STEPS
      invariant Filled(input[..], w, onDemand, c, sqrt, t)
    {
      ghost var before := input[..];
      assert std[t] == StdDev(Trailing(w, t), sqrt);
      FillRow(input, w, onDemand, c, sqrt, t, std[t]);
      OneMoreRow(before, input[..], w, onDemand, c, sqrt, t);
    }
    tensor := input[..];
    hide IsRow;
    forall t | 0 <= t < 12 ensures IsRow(tensor, w, onDemand, c, sqrt, t) {
      RowMeaning(tensor, w, onDemand, c, sqrt, t);
    }
  }

  /** The ten cells of row t, one by one. */
  ghost predicate IsRow(tensor: seq<real>, w: seq<real>, onDemand: real, c: Clock, sqrt: Root, t: nat) {
    |tensor| == 120 && |w| == 12 && t < 12 && ShowsPrices(tensor[10 * t..10 * t + 5], w, onDemand, sqrt, t) && ShowsTime(tensor[10 * t + 5..10 * t + 10], c, t)
  }

  /** Price, on-demand price, the two lags, and the deviation so far. */
  ghost predicate ShowsPrices(cells: seq<real>, w: seq<real>, onDemand: real, sqrt: Root, t: nat)
    requires |cells| == 5 && |w| == 12 && t < 12
  {
    && cells[0] == w[t]
    && cells[1] == onDemand
    && cells[2] == (if t >= 1 then w[t - 1] else w[t])
    && cells[3] == (if t >= 3 then w[t - 3] else w[t])
    && cells[4] == Deviation(w[..t + 1], sqrt)
  }

  /** Hour, weekday and weekend flag, the row's distance to the last one, and the number of rows. */
  ghost predicate ShowsTime(cells: seq<real>, c: Clock, t: nat)
    requires |cells| == 5
  {
    && cells[0] * 24.0 == c.hour as real
    && cells[1] * 7.0 == c.weekday as real
    && cells[2] == (if c.weekday == 0 || c.weekday == 6 then 1.0 else 0.0)
    && cells[3] == t as real - 11.0
    && cells[4] == 12.0
  }

  /** The textbook form, in sums over the list: squares less the squared sum over n, with Bessel's correction. */
  ghost function Deviation(s: seq<real>, sqrt: Root): real {
    if |s| < 2 then 0.0 else sqrt(Spread(s) / (|s| - 1) as real)
  }

  ghost function Spread(s: seq<real>): real
    requires s != []
  {
    SquaresLessMean(SumOfSquares(s), Sum(s), |s| as real)
  }

  ghost function SquaresLessMean(squares: real, sum: real, n: real): real
    requires n > 0.0
  {
    squares - sum * sum / n
  }

  /** Squares around m, in terms of sums. */
  ghost function Expanded(squares: real, sum: real, n: real, m: real): real {
    squares - 2.0 * m * sum + n * m * m
  }

  ghost function SumOfSquares(s: seq<real>): real {
    if s == [] then 0.0 else SumOfSquares(s[..|s| - 1]) + s[|s| - 1] * s[|s| - 1]
  }

  /** Squares around any m, expanded. */
  lemma {:induction false} SquaresExpand(s: seq<real>, m: real)
    ensures SquaresAround(s, m) == Expanded(SumOfSquares(s), Sum(s), |s| as real, m)
  {
    if s != [] {
      var front, x := s[..|s| - 1], s[|s| - 1];
      SquaresExpand(front, m);
      SquareStep(SquaresAround(front, m), SumOfSquares(front), Sum(front), |front| as real, m, x);
      hide Expanded;
    }
  }

  lemma SquareStep(around: real, squares: real, sum: real, n: real, m: real, x: real)
    requires around == Expanded(squares, sum, n, m)
    ensures around + (x - m) * (x - m) == Expanded(squares + x * x, sum + x, n + 1.0, m)
  {
    assert (x - m) * (x - m) == x * x - 2.0 * m * x + m * m;
    assert 2.0 * m * (sum + x) == 2.0 * m * sum + 2.0 * m * x;
    assert (n + 1.0) * m * m == n * m * m + m * m;
  }

  /** The two-pass computation gives the textbook deviation. */
  lemma StdDevIsDeviation(s: seq<real>, sqrt: Root)
    ensures StdDev(s, sqrt) == Deviation(s, sqrt)
  {
    if |s| >= 2 {
      SpreadAroundMean(s);
      hide Spread, SquaresAround, Sum;
    }
  }

  lemma SpreadAroundMean(s: seq<real>)
    requires s != []
    ensures SquaresAround(s, Sum(s) / |s| as real) == Spread(s)
  {
    hide Expanded, SquaresLessMean, SquaresAround, Sum, SumOfSquares;
    var n, sum := |s| as real, Sum(s);
    SquaresExpand(s, sum / n);
    AroundMean(SumOfSquares(s), sum, n, sum / n);
  }

  lemma AroundMean(squares: real, sum: real, n: real, m: real)
    requires n > 0.0 && m == sum / n
    ensures Expanded(squares, sum, n, m) == SquaresLessMean(squares, sum, n)
  {
    assert n * m == sum;
    MeanSquare(n, m, sum);
  }

  lemma MeanSquare(n: real, m: real, sum: real)
    requires n > 0.0 && n * m == sum
    ensures n * m * m == sum * m && sum * sum / n == m * sum
  {
    assert sum * sum == n * (m * sum);
  }

  lemma RowMeaning(tensor: seq<real>, w: seq<real>, onDemand: real, c: Clock, sqrt: Root, t: nat)
    requires t < 12 && Filled(tensor, w, onDemand, c, sqrt, 12)
    ensures IsRow(tensor, w, onDemand, c, sqrt, t)
  {
    assert |tensor| == 120 && |w| == 12;
    hide Feature, Deviation, Filled, ShowsPrices, ShowsTime;
    var row := seq(10, f requires 0 <= f < 10 => Feature(w, onDemand, c, sqrt, t, f));
    assert tensor[10 * t..10 * t + 5] == row[..5] && tensor[10 * t + 5..10 * t + 10] == row[5..] by {
      forall f | 0 <= f < 10 ensures tensor[10 * t + f] == row[f] {
        RowCell(tensor, w, onDemand, c, sqrt, t, f);
      }
    }
    PricesShown(w, onDemand, c, sqrt, t, row[..5]);
    TimeShown(w, onDemand, c, sqrt, t, row[5..]);
  }

  lemma PricesShown(w: seq<real>, onDemand: real, c: Clock, sqrt: Root, t: nat, cells: seq<real>)
    requires |w| == 12 && t < 12 && |cells| == 5 && forall f :: 0 <= f < 5 ==> cells[f] == Feature(w, onDemand, c, sqrt, t, f)
    ensures ShowsPrices(cells, w, onDemand, sqrt, t)
  {
    StdDevIsDeviation(w[..t + 1], sqrt);
    assert Trailing(w, t) == w[..t + 1];
    hide StdDev, Deviation, Trailing;
  }

  lemma TimeShown(w: seq<real>, onDemand: real, c: Clock, sqrt: Root, t: nat, cells: seq<real>)
    requires |w| == 12 && t < 12 && |cells| == 5 && forall f :: 0 <= f < 5 ==> cells[f] == Feature(w, onDemand, c, sqrt, t, 5 + f)
    ensures ShowsTime(cells, c, t)
  {
    hide StdDev, Trailing;
  }

  lemma RowCell(tensor: seq<real>, w: seq<real>, onDemand: real, c: Clock, sqrt: Root, t: nat, f: nat)
    requires t < 12 && f < 10 && Filled(tensor, w, onDemand, c, sqrt, 12)
    ensures 10 * t + f < |tensor| && tensor[10 * t + f] == Feature(w, onDemand, c, sqrt, t, f)
  {
    CellOfRow(w, onDemand, c, sqrt, t, f);
    hide Feature, Cell;
    assert t * FEATURES + f == 10 * t + f;
  }

  /** The first rows of the tensor hold their features. */
  ghost predicate Filled(cells: seq<real>, w: seq<real>, onDemand: real, c: Clock, sqrt: Root, rows: nat) {
    && |cells| == TFT_STEPS * FEATURES && |w| == TFT_STEPS && rows <= TFT_STEPS
    && forall i :: 0 <= i < rows * FEATURES ==> cells[i] == Cell(w, onDemand, c, sqrt, i)
  }

  lemma OneMoreRow(before: seq<real>, after: seq<real>, w: seq<real>, onDemand: real, c: Clock, sqrt: Root, t: nat)
    requires t < TFT_STEPS && Filled(before, w, onDemand, c, sqrt, t) && |after| == TFT_STEPS * FEATURES
    requires forall f :: 0 <= f < FEATURES ==> after[t * FEATURES + f] == Feature(w, onDemand, c, sqrt, t, f)
    requires forall i :: 0 <= i < t * FEATURES ==> after[i] == before[i]
    ensures Filled(after, w, onDemand, c, sqrt, t + 1)
  {
    hide Feature, Cell;
    forall i | t * FEATURES <= i < (t + 1) * FEATURES ensures after[i] == Cell(w, onDemand, c, sqrt, i) {
      var f := i - t * FEATURES;
      CellOfRow(w, onDemand, c, sqrt, t, f);
      assert after[t * FEATURES + f] == Feature(w, onDemand, c, sqrt, t, f);
    }
  }

  // ----- what reaches the model

  /** The newest price of any non-empty history is feature 0 of the last row, through every stage. */
  lemma NewestReachesLastRow(history: seq<real>, spotPrice: real, onDemand: real, c: Clock, sqrt: Root)
    requires history != []
    ensures Feature(Window(Normalize(history, spotPrice), spotPrice), onDemand, c, sqrt, TFT_STEPS - 1, 0) == history[|history| - 1]
  {
    NormalizeKeepsNewest(history, spotPrice);
    hide Normalize, StdDev;
  }

  /** A full AWS series feeds row t with its (2t+1)-th price. */
  lemma FullSeriesRows(prices: seq<real>, spotPrice: real, onDemand: real, c: Clock, sqrt: Root, t: nat)
    requires |prices| == HISTORY_STEPS && t < TFT_STEPS
    ensures Feature(Window(Normalize(prices, spotPrice), spotPrice), onDemand, c, sqrt, t, 0) == prices[2 * t + 1]
  {
    DownsampledAt(prices, spotPrice, t);
    hide Normalize;
  }

  /** Lag features are feature 0 of earlier rows; the first rows fall back to their own price. */
  lemma LagsAreEarlierRows(w: seq<real>, onDemand: real, c: Clock, sqrt: Root, t: nat)
    requires |w| == TFT_STEPS && t < TFT_STEPS
    ensures Feature(w, onDemand, c, sqrt, t, 2) == Feature(w, onDemand, c, sqrt, if t > 0 then t - 1 else t, 0)
    ensures Feature(w, onDemand, c, sqrt, t, 3) == Feature(w, onDemand, c, sqrt, if t >= 3 then t - 3 else t, 0)
  {
  }

  // ----- no look-ahead

  /** What BuildTFTInput works on for a raw history and the current price. */
  function ModelWindow(history: seq<real>, price: real): (w: seq<real>)
    ensures |w| == TFT_STEPS
  {
    Window(Normalize(history, price), price)
  }

  /** Which entry of an n-step raw history is behind row t; negative for a padded row. */
  function EntryBehind(n: nat, t: nat): int {
    if n >= 2 * TFT_STEPS then n - 2 * TFT_STEPS + 2 * t + 1 else n - TFT_STEPS + t
  }

  /** Row t shows its entry, or the current price where the history is too short to have one. */
  lemma RowShowsEntry(history: seq<real>, price: real, t: nat)
    requires t < TFT_STEPS
    ensures var e := EntryBehind(|history|, t);
            e < |history| && ModelWindow(history, price)[t] == if e >= 0 then history[e] else price
  {
    if |history| >= 2 * TFT_STEPS {
      DownsampledAt(history, price, t);
      hide Normalize;
    }
  }

  lemma WindowPrefixDecides(w: seq<real>, v: seq<real>, onDemand: real, c: Clock, sqrt: Root, t: nat, f: nat)
    requires |w| == |v| == TFT_STEPS && t < TFT_STEPS && f < FEATURES && forall i :: 0 <= i <= t ==> w[i] == v[i]
    ensures Feature(w, onDemand, c, sqrt, t, f) == Feature(v, onDemand, c, sqrt, t, f)
  {
    assert Trailing(w, t) == Trailing(v, t);
    hide StdDev;
  }

  /**
    No look-ahead at a given current price: histories of one length that agree up to the entry behind
    row t give equal rows up to t, through downsampling, truncation and padding.
   */
  lemma NoLookAhead(g: seq<real>, h: seq<real>, price: real, onDemand: real, c: Clock, sqrt: Root, t: nat, u: nat, f: nat)
    requires |g| == |h| && u <= t < TFT_STEPS && f < FEATURES
    requires forall i :: 0 <= i <= EntryBehind(|h|, t) && i < |h| ==> g[i] == h[i]
    ensures Feature(ModelWindow(g, price), onDemand, c, sqrt, u, f) == Feature(ModelWindow(h, price), onDemand, c, sqrt, u, f)
  {
    hide ModelWindow, Feature;
    forall i | 0 <= i <= u ensures ModelWindow(g, price)[i] == ModelWindow(h, price)[i] {
      RowShowsEntry(g, price, i);
      RowShowsEntry(h, price, i);
    }
    WindowPrefixDecides(ModelWindow(g, price), ModelWindow(h, price), onDemand, c, sqrt, u, f);
  }

  /** No cell of the tensor depends on the current price. */
  ghost predicate IgnoresCurrentPrice(history: seq<real>, onDemand: real, c: Clock, sqrt: Root) {
    forall p, q, t, f :: p > 0.0 && q > 0.0 && 0 <= t < TFT_STEPS && 0 <= f < FEATURES ==>
      Feature(ModelWindow(history, p), onDemand, c, sqrt, t, f) == Feature(ModelWindow(history, q), onDemand, c, sqrt, t, f)
  }

  /** The current price leaks into the tensor exactly when the history does not fill it. */
  lemma IgnoresCurrentPriceIff(history: seq<real>, onDemand: real, c: Clock, sqrt: Root)
    ensures IgnoresCurrentPrice(history, onDemand, c, sqrt) <==> |history| >= TFT_STEPS
  {
    hide ModelWindow;
    if |history| >= TFT_STEPS {
      forall p, q, t, f | p > 0.0 && q > 0.0 && 0 <= t < TFT_STEPS && 0 <= f < FEATURES
        ensures Feature(ModelWindow(history, p), onDemand, c, sqrt, t, f) == Feature(ModelWindow(history, q), onDemand, c, sqrt, t, f)
      {
        hide Feature;
        forall i | 0 <= i <= t ensures ModelWindow(history, p)[i] == ModelWindow(history, q)[i] {
          RowShowsEntry(history, p, i);
          RowShowsEntry(history, q, i);
        }
        WindowPrefixDecides(ModelWindow(history, p), ModelWindow(history, q), onDemand, c, sqrt, t, f);
      }
    } else {
      RowShowsEntry(history, 1.0, 0);
      RowShowsEntry(history, 2.0, 0);
      assert Feature(ModelWindow(history, 1.0), onDemand, c, sqrt, 0, 0) == 1.0;
      assert Feature(ModelWindow(history, 2.0), onDemand, c, sqrt, 0, 0) == 2.0;
    }
  }

  // ----- the rolling buffer, whose newest entry is the current price

  /** The buffer after a tick: the new price appended, the oldest beyond 24 dropped. */
  function Rolled(buffer: seq<real>, next: real): seq<real> {
    var g := buffer + [next];
    if |g| > 2 * TFT_STEPS then g[|g| - 2 * TFT_STEPS..] else g
  }

  /** The oldest row of a short buffer is the newest price. */
  lemma ShortBufferLooksAhead(buffer: seq<real>, next: real, onDemand: real, c: Clock, sqrt: Root)
    requires |buffer| + 1 < TFT_STEPS
    ensures Feature(ModelWindow(Rolled(buffer, next), next), onDemand, c, sqrt, 0, 0) == next
  {
    RowShowsEntry(Rolled(buffer, next), next, 0);
    hide ModelWindow;
  }

  /** No row before the last depends on the price of this tick. */
  ghost predicate EarlierRowsIgnoreNewest(buffer: seq<real>, onDemand: real, c: Clock, sqrt: Root) {
    forall p, q, t, f :: p > 0.0 && q > 0.0 && 0 <= t < TFT_STEPS - 1 && 0 <= f < FEATURES ==>
      Feature(ModelWindow(Rolled(buffer, p), p), onDemand, c, sqrt, t, f) == Feature(ModelWindow(Rolled(buffer, q), q), onDemand, c, sqrt, t, f)
  }

  function RolledSize(buffer: seq<real>): nat {
    if |buffer| + 1 > 2 * TFT_STEPS then 2 * TFT_STEPS else |buffer| + 1
  }

  /** Buffers that differ only in the new price agree on every entry but the last. */
  lemma RolledAgree(buffer: seq<real>, p: real, q: real, j: int)
    ensures |Rolled(buffer, p)| == |Rolled(buffer, q)| == RolledSize(buffer)
    ensures 0 <= j < RolledSize(buffer) - 1 ==> Rolled(buffer, p)[j] == Rolled(buffer, q)[j]
  {
  }

  lemma FullBufferRow(buffer: seq<real>, p: real, q: real, onDemand: real, c: Clock, sqrt: Root, t: nat, f: nat)
    requires |buffer| + 1 >= TFT_STEPS && t < TFT_STEPS - 1 && f < FEATURES
    ensures Feature(ModelWindow(Rolled(buffer, p), p), onDemand, c, sqrt, t, f) == Feature(ModelWindow(Rolled(buffer, q), q), onDemand, c, sqrt, t, f)
  {
    hide ModelWindow, Feature, Rolled;
    forall i | 0 <= i <= t ensures ModelWindow(Rolled(buffer, p), p)[i] == ModelWindow(Rolled(buffer, q), q)[i] {
      var n := RolledSize(buffer);
      RolledAgree(buffer, p, q, EntryBehind(n, i));
      RowShowsEntry(Rolled(buffer, p), p, i);
      RowShowsEntry(Rolled(buffer, q), q, i);
    }
    WindowPrefixDecides(ModelWindow(Rolled(buffer, p), p), ModelWindow(Rolled(buffer, q), q), onDemand, c, sqrt, t, f);
  }

  /** In rolling mode there is no look-ahead exactly once the buffer, with this tick's price, fills the window. */
  lemma RollingNoLookAheadIff(buffer: seq<real>, onDemand: real, c: Clock, sqrt: Root)
    ensures EarlierRowsIgnoreNewest(buffer, onDemand, c, sqrt) <==> |buffer| + 1 >= TFT_STEPS
  {
    hide ModelWindow, Rolled, Feature;
    if |buffer| + 1 >= TFT_STEPS {
      forall p, q, t, f | p > 0.0 && q > 0.0 && 0 <= t < TFT_STEPS - 1 && 0 <= f < FEATURES
        ensures Feature(ModelWindow(Rolled(buffer, p), p), onDemand, c, sqrt, t, f)
                == Feature(ModelWindow(Rolled(buffer, q), q), onDemand, c, sqrt, t, f)
      {
        FullBufferRow(buffer, p, q, onDemand, c, sqrt, t, f);
      }
    } else {
      ShortBufferLooksAhead(buffer, 1.0, onDemand, c, sqrt);
      ShortBufferLooksAhead(buffer, 2.0, onDemand, c, sqrt);
      assert Feature(ModelWindow(Rolled(buffer, 1.0), 1.0), onDemand, c, sqrt, 0, 0)
          != Feature(ModelWindow(Rolled(buffer, 2.0), 2.0), onDemand, c, sqrt, 0, 0);
    }
  }

  /** At an unchanged current price, appending a step to a history of any length shifts the rows and rewrites none. */
  lemma FutureOnlyShifts(history: seq<real>, next: real, spotPrice: real, onDemand: real, c: Clock, sqrt: Root, t: nat)
    requires 0 < t < TFT_STEPS
    ensures Feature(Window(history + [next], spotPrice), onDemand, c, sqrt, t - 1, 0) == Feature(Window(history, spotPrice), onDemand, c, sqrt, t, 0)
    ensures Feature(Window(history + [next], spotPrice), onDemand, c, sqrt, TFT_STEPS - 1, 0) == next
  {
    hide Window;
    WindowAt(history, spotPrice, t);
    WindowAt(history + [next], spotPrice, t - 1);
    WindowAt(history + [next], spotPrice, TFT_STEPS - 1);
  }

  lemma WindowAt(history: seq<real>, spotPrice: real, t: nat)
    requires t < TFT_STEPS
    ensures var e := |history| - TFT_STEPS + t; Window(history, spotPrice)[t] == if e >= 0 then history[e] else spotPrice
  {
  }
}

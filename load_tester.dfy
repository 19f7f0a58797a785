/** The load generator's bookkeeping (load_tester.py): weighted endpoint
    choice, the request counters, their reset, and the summary figures of the
    live and final reports. The HTTP outcome of each request and the draw of
    `random.randint(1, total_weight)` are inputs. */
module Load {
  import opened Basics

  datatype Endpoint = Endpoint(path: string, weight: int)

  /** The endpoints and weights the tester is built with. */
  const DefaultEndpoints: seq<Endpoint> := [
    Endpoint("/", 30),
    Endpoint("/health", 20),
    Endpoint("/api/data", 25),
    Endpoint("/api/slow", 5),
    Endpoint("/api/memory-intensive", 8),
    Endpoint("/api/cpu-intensive", 7),
    Endpoint("/api/database", 15),
    Endpoint("/stats", 10)]

  /** `sum(ep['weight'] for ep in endpoints)`. */
  function TotalWeight(eps: seq<Endpoint>): int
  {
    if eps == [] then 0 else eps[0].weight + TotalWeight(eps[1..])
  }

  /** The weight accumulated over the first `i` endpoints. */
  function CumWeight(eps: seq<Endpoint>, i: nat): int
    requires i <= |eps|
  {
    TotalWeight(eps[..i])
  }

  predicate NonNegativeWeights(eps: seq<Endpoint>)
  {
    forall i :: 0 <= i < |eps| ==> eps[i].weight >= 0
  }

  lemma DefaultTotalWeight()
    ensures TotalWeight(DefaultEndpoints) == 120 && NonNegativeWeights(DefaultEndpoints)
  {
    var e := DefaultEndpoints;
    assert TotalWeight(e[8..]) == 0;
    assert TotalWeight(e[7..]) == 10;
    assert TotalWeight(e[6..]) == 25;
    assert TotalWeight(e[5..]) == 32;
    assert TotalWeight(e[4..]) == 40;
    assert TotalWeight(e[3..]) == 45;
    assert TotalWeight(e[2..]) == 70;
    assert TotalWeight(e[1..]) == 90;
    assert e[0..] == e;
  }

  lemma {:induction false} TotalWeightConcat(a: seq<Endpoint>, b: seq<Endpoint>)
    ensures TotalWeight(a + b) == TotalWeight(a) + TotalWeight(b)
    decreases |a|
  {
    if a == [] {
      assert a + b == b;
    } else {
      assert (a + b)[0] == a[0];
      assert (a + b)[1..] == a[1..] + b;
      TotalWeightConcat(a[1..], b);
    }
  }

  lemma CumWeightZero(eps: seq<Endpoint>)
    ensures CumWeight(eps, 0) == 0
  {
    assert eps[..0] == [];
  }

  lemma CumWeightStep(eps: seq<Endpoint>, i: nat)
    requires i < |eps|
    ensures CumWeight(eps, i + 1) == CumWeight(eps, i) + eps[i].weight
  {
    assert eps[..i + 1] == eps[..i] + [eps[i]];
    TotalWeightConcat(eps[..i], [eps[i]]);
    assert [eps[i]][1..] == [];
  }

  lemma CumWeightAll(eps: seq<Endpoint>)
    ensures CumWeight(eps, |eps|) == TotalWeight(eps)
  {
    assert eps[..|eps|] == eps;
  }

  /** The weight accumulated over a prefix, seen from the second endpoint on. */
  lemma CumWeightTail(eps: seq<Endpoint>, j: nat)
    requires 0 < |eps| && j < |eps|
    ensures CumWeight(eps, j + 1) == eps[0].weight + CumWeight(eps[1..], j)
  {
    assert eps[..j + 1][1..] == eps[1..][..j];
  }

  lemma {:induction false} CumWeightMonotone(eps: seq<Endpoint>, a: nat, b: nat)
    requires NonNegativeWeights(eps) && a <= b <= |eps|
    ensures 0 <= CumWeight(eps, a) <= CumWeight(eps, b)
    decreases b
  {
    if b == 0 {
      CumWeightZero(eps);
    } else {
      CumWeightMonotone(eps, Min(a, b - 1), b - 1);
      CumWeightStep(eps, b - 1);
    }
  }

  /** No prefix of length 1..n accumulates as much as `rand`. */
  predicate BelowDraw(eps: seq<Endpoint>, rand: int, n: nat)
    requires n <= |eps|
  {
    forall j :: 1 <= j <= n ==> CumWeight(eps, j) < rand
  }

  /** The endpoint `_weighted_choice` returns for draw `rand`, as an index. */
  function ChoiceIndex(eps: seq<Endpoint>, rand: int): (i: nat)
    requires 1 <= rand <= TotalWeight(eps)
    ensures i < |eps|
    decreases |eps|
  {
    if rand <= eps[0].weight then 0 else 1 + ChoiceIndex(eps[1..], rand - eps[0].weight)
  }

  /** The chosen index is the first one whose cumulative weight reaches the draw. */
  lemma {:induction false} ChoiceIndexIsFirstCovering(eps: seq<Endpoint>, rand: int)
    requires 1 <= rand <= TotalWeight(eps)
    ensures var i := ChoiceIndex(eps, rand);
      rand <= CumWeight(eps, i + 1) && BelowDraw(eps, rand, i)
    decreases |eps|
  {
    var i := ChoiceIndex(eps, rand);
    CumWeightTail(eps, 0);
    CumWeightZero(eps[1..]);
    if rand > eps[0].weight {
      var rest := eps[1..];
      ChoiceIndexIsFirstCovering(rest, rand - eps[0].weight);
      CumWeightTail(eps, i);
      forall j | 1 <= j <= i
        ensures CumWeight(eps, j) < rand
      {
        CumWeightTail(eps, j - 1);
        if j > 1 {
          assert CumWeight(rest, j - 1) < rand - eps[0].weight;
        }
      }
    }
  }

  /** Any index with the first-covering property is the chosen one. */
  lemma FirstCoveringIsChoice(eps: seq<Endpoint>, rand: int, i: nat)
    requires 1 <= rand <= TotalWeight(eps)
    requires i < |eps| && rand <= CumWeight(eps, i + 1) && BelowDraw(eps, rand, i)
    ensures ChoiceIndex(eps, rand) == i
  {
    ChoiceIndexIsFirstCovering(eps, rand);
  }

  /** With non-negative weights endpoint `i` is chosen exactly for the draws in
      (CumWeight(i), CumWeight(i + 1)]. */
  lemma ChoiceIndexInterval(eps: seq<Endpoint>, rand: int, i: nat)
    requires NonNegativeWeights(eps) && 1 <= rand <= TotalWeight(eps) && i < |eps|
    ensures ChoiceIndex(eps, rand) == i <==> CumWeight(eps, i) < rand <= CumWeight(eps, i + 1)
  {
    ChoiceIndexIsFirstCovering(eps, rand);
    CumWeightZero(eps);
    var k := ChoiceIndex(eps, rand);
    if k == i && i > 0 {
      assert CumWeight(eps, i) < rand;
    }
    if CumWeight(eps, i) < rand <= CumWeight(eps, i + 1) {
      forall j | 1 <= j <= i
        ensures CumWeight(eps, j) < rand
      {
        CumWeightMonotone(eps, j, i);
      }
      FirstCoveringIsChoice(eps, rand, i);
    }
  }

  /** The integers in (a, b]. */
  function Range(a: int, b: int): (s: set<int>)
    ensures forall r :: r in s <==> a < r <= b
    ensures |s| == Max(b - a, 0)
    decreases b - a
  {
    if b <= a then {} else Range(a, b - 1) + {b}
  }

  /** The draws in 1..total for which endpoint `i` is chosen. */
  function ChosenDraws(eps: seq<Endpoint>, i: nat): set<int>
  {
    set r | r in Range(0, TotalWeight(eps)) && ChoiceIndex(eps, r) == i
  }

  lemma ChosenDrawsInterval(eps: seq<Endpoint>, i: nat)
    requires NonNegativeWeights(eps) && i < |eps|
    ensures ChosenDraws(eps, i) == Range(CumWeight(eps, i), CumWeight(eps, i + 1))
  {
    CumWeightMonotone(eps, i, i + 1);
    CumWeightMonotone(eps, i + 1, |eps|);
    CumWeightAll(eps);
    var lo, hi := CumWeight(eps, i), CumWeight(eps, i + 1);
    forall r | r in Range(lo, hi)
      ensures r in ChosenDraws(eps, i)
    {
      ChoiceIndexInterval(eps, r, i);
    }
    forall r | r in ChosenDraws(eps, i)
      ensures r in Range(lo, hi)
    {
      ChoiceIndexInterval(eps, r, i);
    }
  }

  /** Over the draws 1..total, endpoint `i` is chosen exactly `weight_i` times. */
  lemma ChoiceFrequency(eps: seq<Endpoint>, i: nat)
    requires NonNegativeWeights(eps) && i < |eps|
    ensures |ChosenDraws(eps, i)| == eps[i].weight
  {
    ChosenDrawsInterval(eps, i);
    CumWeightStep(eps, i);
    assert eps[i].weight >= 0;
  }

  /** `_weighted_choice` for a draw `rand` of `random.randint(1, total_weight)`. */
  method WeightedChoice(endpoints: seq<Endpoint>, rand: int) returns (path: string)
    requires 1 <= rand <= TotalWeight(endpoints)
    ensures path == endpoints[ChoiceIndex(endpoints, rand)].path
  {
    var currentWeight := 0;
    var i := 0;
    CumWeightZero(endpoints);
    while i < |endpoints|
      invariant 0 <= i <= |endpoints|
      invariant currentWeight == CumWeight(endpoints, i)
      invariant BelowDraw(endpoints, rand, i)
    {
      CumWeightStep(endpoints, i);
      currentWeight := currentWeight + endpoints[i].weight;
      if rand <= currentWeight {
        FirstCoveringIsChoice(endpoints, rand, i);
        return endpoints[i].path;
      }
      i := i + 1;
    }
    CumWeightAll(endpoints);
    // the fallback `self.endpoints[0]['path']` is never reached
    assert false;
  }

  /** What one `requests.get` call produced. */
  datatype HttpOutcome =
    | Response(statusCode: int, elapsed: real)
    | RequestError(message: string, elapsed: real)

  /** The dictionary `_make_request` returns. */
  datatype RequestResult = RequestResult(
    success: bool, statusCode: Option<int>, responseTime: real, path: string, error: Option<string>)

  /** A status below 400 counts as a success. */
  predicate IsSuccess(o: HttpOutcome)
  {
    o.Response? && o.statusCode < 400
  }

  function CountSuccesses(outs: seq<HttpOutcome>): (n: nat)
    ensures n <= |outs|
  {
    if outs == [] then 0
    else CountSuccesses(outs[..|outs| - 1]) + (if IsSuccess(outs[|outs| - 1]) then 1 else 0)
  }

  /** Elapsed times of the requests that got an HTTP answer, in order. */
  function AnsweredTimes(outs: seq<HttpOutcome>): seq<real>
  {
    if outs == [] then []
    else
      var last := outs[|outs| - 1];
      AnsweredTimes(outs[..|outs| - 1]) + (if last.Response? then [last.elapsed] else [])
  }

  /** Messages of the requests that raised, in order. */
  function ErrorMessages(outs: seq<HttpOutcome>): seq<string>
  {
    if outs == [] then []
    else
      var last := outs[|outs| - 1];
      ErrorMessages(outs[..|outs| - 1]) + (if last.RequestError? then [last.message] else [])
  }

  /** Every request is either answered or raised. */
  lemma {:induction false} AnsweredPlusErrors(outs: seq<HttpOutcome>)
    ensures |AnsweredTimes(outs)| + |ErrorMessages(outs)| == |outs|
  {
    if outs != [] {
      AnsweredPlusErrors(outs[..|outs| - 1]);
    }
  }

  /** One request the workers issue: the endpoint draw and what the server did. */
  datatype PlannedRequest = PlannedRequest(rand: int, outcome: HttpOutcome)

  function Outcomes(plan: seq<PlannedRequest>): seq<HttpOutcome>
  {
    seq(|plan|, k requires 0 <= k < |plan| => plan[k].outcome)
  }

  /** How `start_load_test` ends: a ZeroDivisionError when dividing the rate
      among no threads, or an AttributeError at `self._plot_results()`. */
  datatype LoadTestEnding = NoThreads | NoPlotter

  class LoadTester {
    const baseUrl: string
    const endpoints: seq<Endpoint>
    var running: bool
    var totalRequests: nat
    var successfulRequests: nat
    var failedRequests: nat
    var responseTimes: seq<real>
    var errors: seq<string>

    /** The counters agree: every request succeeded or failed, and left
        either a response time or an error message. */
    ghost predicate Valid()
      reads this
    {
      && totalRequests == successfulRequests + failedRequests
      && |responseTimes| + |errors| == totalRequests
    }

    ghost predicate Zeroed()
      reads this
    {
      totalRequests == 0 && successfulRequests == 0 && failedRequests == 0
      && responseTimes == [] && errors == []
    }

    constructor (url: string)
      ensures Valid() && Zeroed() && !running
      ensures baseUrl == url && endpoints == DefaultEndpoints
    {
      baseUrl := url;
      endpoints := DefaultEndpoints;
      running := false;
      totalRequests, successfulRequests, failedRequests := 0, 0, 0;
      responseTimes, errors := [], [];
    }

    /** `_make_request`: one more request, counted as exactly one success or failure. */
    method MakeRequest(path: string, outcome: HttpOutcome) returns (result: RequestResult)
      requires Valid()
      modifies this
      ensures Valid() && running == old(running)
      ensures totalRequests == old(totalRequests) + 1
      ensures successfulRequests == old(successfulRequests) + (if IsSuccess(outcome) then 1 else 0)
      ensures failedRequests == old(failedRequests) + (if IsSuccess(outcome) then 0 else 1)
      ensures responseTimes == old(responseTimes) + (if outcome.Response? then [outcome.elapsed] else [])
      ensures errors == old(errors) + (if outcome.RequestError? then [outcome.message] else [])
      ensures result.success == IsSuccess(outcome) && result.path == path
      ensures result.responseTime == outcome.elapsed
      ensures result.statusCode == (if outcome.Response? then Some(outcome.statusCode) else None)
      ensures outcome.Response? && !IsSuccess(outcome) ==> result.error == Some("HTTP " + IntToString(outcome.statusCode))
      ensures outcome.RequestError? ==> result.error == Some(outcome.message)
      ensures result.error.None? <==> IsSuccess(outcome)
    {
      match outcome {
        case Response(code, elapsed) =>
          totalRequests := totalRequests + 1;
          responseTimes := responseTimes + [elapsed];
          if code < 400 {
            successfulRequests := successfulRequests + 1;
            result := RequestResult(true, Some(code), elapsed, path, None);
          } else {
            failedRequests := failedRequests + 1;
            result := RequestResult(false, Some(code), elapsed, path, Some("HTTP " + IntToString(code)));
          }
        case RequestError(message, elapsed) =>
          totalRequests := totalRequests + 1;
          failedRequests := failedRequests + 1;
          errors := errors + [message];
          result := RequestResult(false, None, elapsed, path, Some(message));
      }
    }

    /** The statistics reset at the start of `start_load_test`. */
    method ResetStats()
      modifies this
      ensures Valid() && Zeroed() && running == old(running)
    {
      totalRequests, successfulRequests, failedRequests := 0, 0, 0;
      responseTimes, errors := [], [];
    }

    /** `start_load_test` with the requests its workers issue, one after the
        other. `requests_per_second / num_threads` raises when there are no
        threads, and a negative thread count starts none. After the final
        report the call to `_plot_results`, which the class does not define,
        raises. */
    method StartLoadTest(numThreads: int, plan: seq<PlannedRequest>) returns (ending: LoadTestEnding)
      requires forall k :: 0 <= k < |plan| ==> 1 <= plan[k].rand <= TotalWeight(endpoints)
      modifies this
      ensures Valid() && running
      ensures ending == if numThreads == 0 then NoThreads else NoPlotter
      ensures var done := if numThreads > 0 then Outcomes(plan) else [];
        && totalRequests == |done|
        && successfulRequests == CountSuccesses(done)
        && failedRequests == |done| - CountSuccesses(done)
        && responseTimes == AnsweredTimes(done)
        && errors == ErrorMessages(done)
    {
      running := true;
      ResetStats();
      if numThreads == 0 {
        return NoThreads;
      }
      ending := NoPlotter;
      if numThreads < 0 {
        return;
      }
      var outs := Outcomes(plan);
      var k := 0;
      while k < |plan|
        invariant 0 <= k <= |plan|
        invariant Valid() && running
        invariant totalRequests == k
        invariant successfulRequests == CountSuccesses(outs[..k])
        invariant responseTimes == AnsweredTimes(outs[..k])
        invariant errors == ErrorMessages(outs[..k])
      {
        var path := WeightedChoice(endpoints, plan[k].rand);
        var _ := MakeRequest(path, plan[k].outcome);
        assert outs[..k + 1][..k] == outs[..k];
        k := k + 1;
      }
      assert outs[..k] == outs;
    }
  }

  /** `successful / max(total, 1) * 100`. */
  function SuccessRate(successful: nat, total: nat): (rate: real)
    ensures successful <= total ==> 0.0 <= rate <= 100.0
    ensures successful <= total ==> (rate == 100.0 <==> successful == total && total > 0)
    ensures rate == 0.0 <==> successful == 0
  {
    var d := Max(total, 1) as real;
    QuotientBounds(successful as real, d);
    successful as real / d * 100.0
  }

  /** The live report's performance label, by average response time in seconds. */
  datatype Performance = Excellent | Good | Slow | Poor

  function PerformanceBand(avgSeconds: real): Performance
  {
    if avgSeconds < 0.1 then Performance.Excellent
    else if avgSeconds < 0.5 then Performance.Good
    else if avgSeconds < 1.0 then Performance.Slow
    else Performance.Poor
  }

  function PerformanceRank(p: Performance): nat
  {
    match p
    case Excellent => 0
    case Good => 1
    case Slow => 2
    case Poor => 3
  }

  /** The final report's reliability label, by success rate in percent. */
  datatype Reliability = Excellent | Good | Fair | Poor

  function ReliabilityBand(rate: real): Reliability
  {
    if rate >= 99.0 then Reliability.Excellent
    else if rate >= 95.0 then Reliability.Good
    else if rate >= 90.0 then Reliability.Fair
    else Reliability.Poor
  }

  function ReliabilityRank(r: Reliability): nat
  {
    match r
    case Excellent => 0
    case Good => 1
    case Fair => 2
    case Poor => 3
  }

  /** The final report's speed label, by average response time in seconds. */
  datatype Speed = VeryFast | Fast | Moderate | Slow

  function SpeedBand(avgSeconds: real): Speed
  {
    if avgSeconds < 0.1 then VeryFast
    else if avgSeconds < 0.5 then Fast
    else if avgSeconds < 1.0 then Moderate
    else Speed.Slow
  }

  function SpeedRank(s: Speed): nat
  {
    match s
    case VeryFast => 0
    case Fast => 1
    case Moderate => 2
    case Slow => 3
  }

  /** The three labels are monotone: a slower average or a lower success rate
      never earns a better label, and each cut point separates two labels. */
  lemma BandsMonotone(a: real, b: real)
    requires a <= b
    ensures PerformanceRank(PerformanceBand(a)) <= PerformanceRank(PerformanceBand(b))
    ensures SpeedRank(SpeedBand(a)) <= SpeedRank(SpeedBand(b))
    ensures ReliabilityRank(ReliabilityBand(b)) <= ReliabilityRank(ReliabilityBand(a))
  {
  }

  /** Every cut point of the three labels: 0.1 s, 0.5 s and 1 s for the two
      time labels, 99 %, 95 % and 90 % for reliability. */
  lemma BandCutPoints(avg: real, rate: real)
    ensures PerformanceBand(avg) == Performance.Excellent <==> avg < 0.1
    ensures PerformanceBand(avg) == Performance.Good <==> 0.1 <= avg < 0.5
    ensures PerformanceBand(avg) == Performance.Slow <==> 0.5 <= avg < 1.0
    ensures PerformanceBand(avg) == Performance.Poor <==> avg >= 1.0
    ensures SpeedBand(avg) == VeryFast <==> avg < 0.1
    ensures SpeedBand(avg) == Fast <==> 0.1 <= avg < 0.5
    ensures SpeedBand(avg) == Moderate <==> 0.5 <= avg < 1.0
    ensures SpeedBand(avg) == Speed.Slow <==> avg >= 1.0
    ensures ReliabilityBand(rate) == Reliability.Excellent <==> rate >= 99.0
    ensures ReliabilityBand(rate) == Reliability.Good <==> 95.0 <= rate < 99.0
    ensures ReliabilityBand(rate) == Fair <==> 90.0 <= rate < 95.0
    ensures ReliabilityBand(rate) == Reliability.Poor <==> rate < 90.0
  {
  }

  /** The speed label and the live performance label use the same cut points. */
  lemma SpeedMatchesPerformance(avg: real)
    ensures SpeedRank(SpeedBand(avg)) == PerformanceRank(PerformanceBand(avg))
  {
  }

  /** The cell glyphs exactly as load_tester.py spells them: each is three code points. */
  const FilledGlyph: string := "â–ˆ"
  const EmptyGlyph: string := "â–±"

  /** `_create_progress_bar`: `int(value / max_value * width)` full cells, at most
      `width`; green above 0.9 of the maximum, yellow above 0.7, else red. */
  function ProgressBar(value: real, maxValue: real, width: int): (b: Bar)
    ensures maxValue == 0.0 ==> b == Bar(Plain, 0, Max(width, 0))
    ensures maxValue != 0.0 ==> b.color != Plain
    ensures maxValue > 0.0 ==> (b.color == Green <==> value > 0.9 * maxValue)
    ensures maxValue > 0.0 ==> (b.color == Red <==> value <= 0.7 * maxValue)
  {
    if maxValue == 0.0 then
      Bar(Plain, 0, Max(width, 0))
    else
      var filled := ScaledCells(value, maxValue, width);
      Bar(BarColor(value, maxValue), Max(filled, 0), Max(width - filled, 0))
  }

  /** A bar on a positive maximum has `width` cells, the full ones being the
      truncated share of `value`, and is all full once `value` reaches the maximum. */
  lemma ProgressBarCells(value: real, maxValue: real, width: int)
    requires maxValue > 0.0 && value >= 0.0 && width >= 0
    ensures var b := ProgressBar(value, maxValue, width);
      && b.filled + b.empty == width
      && b.filled == Min((value / maxValue * width as real).Floor, width)
      && (value >= maxValue ==> b.filled == width && b.empty == 0)
  {
  }

  /** Green above 0.9 of the maximum, yellow above 0.7, else red. */
  function BarColor(value: real, maxValue: real): (c: Color)
    requires maxValue != 0.0
    ensures c != Plain
    ensures maxValue > 0.0 ==> (c == Green <==> value > 0.9 * maxValue)
    ensures maxValue > 0.0 ==> (c == Red <==> value <= 0.7 * maxValue)
  {
    var ratio := value / maxValue;
    RatioCompare(value, maxValue, 0.9);
    RatioCompare(value, maxValue, 0.7);
    if ratio > 0.9 then Green else if ratio > 0.7 then Yellow else Red
  }

  /** The drawn bar: cell `i` is the three code points of the full glyph for
      the first `filled` cells and of the empty glyph for the rest. */
  function Render(b: Bar): (s: string)
    ensures |s| == 3 * (b.filled + b.empty)
    ensures forall i :: 0 <= i < b.filled ==> Block(s, 3, i) == FilledGlyph
    ensures forall i :: b.filled <= i < b.filled + b.empty ==> Block(s, 3, i) == EmptyGlyph
  {
    RenderBlocks(b);
    Repeat(FilledGlyph, b.filled) + Repeat(EmptyGlyph, b.empty)
  }

  lemma RenderBlocks(b: Bar)
    ensures var s := Repeat(FilledGlyph, b.filled) + Repeat(EmptyGlyph, b.empty);
      && |s| == 3 * (b.filled + b.empty)
      && (forall i :: 0 <= i < b.filled ==> Block(s, 3, i) == FilledGlyph)
      && (forall i :: b.filled <= i < b.filled + b.empty ==> Block(s, 3, i) == EmptyGlyph)
  {
    var f := Repeat(FilledGlyph, b.filled);
    var e := Repeat(EmptyGlyph, b.empty);
    var s := f + e;
    assert |f| == 3 * b.filled && |e| == 3 * b.empty;
    forall i | 0 <= i < b.filled
      ensures Block(s, 3, i) == FilledGlyph
    {
      RepeatBlock(FilledGlyph, b.filled, i);
      assert s[3 * i .. 3 * i + 3] == f[3 * i .. 3 * i + 3];
    }
    forall i | b.filled <= i < b.filled + b.empty
      ensures Block(s, 3, i) == EmptyGlyph
    {
      var j := i - b.filled;
      RepeatBlock(EmptyGlyph, b.empty, j);
      assert 3 * i == |f| + 3 * j;
      assert s[3 * i .. 3 * i + 3] == e[3 * j .. 3 * j + 3];
    }
  }

  /** `int(n * p)`, the index of a percentile in a list of `n` sorted times. */
  function PercentileIndex(n: nat, p: real): (i: int)
    requires 0.0 <= p
    ensures 0 <= i
    ensures n >= 1 && p < 1.0 ==> i < n
  {
    FractionBelow(n, p);
    (n as real * p).Floor
  }

  lemma FractionBelow(n: nat, p: real)
    ensures n >= 1 && p < 1.0 ==> n as real * p < n as real
  {
    if n >= 1 && p < 1.0 {
      assert n as real * p == n as real - n as real * (1.0 - p);
      assert n as real * (1.0 - p) > 0.0;
    }
  }

  lemma PercentileIndexMonotone(n: nat, p: real, q: real)
    requires 0.0 <= p <= q
    ensures PercentileIndex(n, p) <= PercentileIndex(n, q)
  {
    assert n as real * q == n as real * p + n as real * (q - p);
    assert n as real * (q - p) >= 0.0;
  }

  predicate SortedAsc(s: seq<real>)
  {
    forall i, j :: 0 <= i <= j < |s| ==> s[i] <= s[j]
  }

  function Insert(x: real, s: seq<real>): (r: seq<real>)
    requires SortedAsc(s)
    ensures |r| == |s| + 1 && (r[0] == x || (s != [] && r[0] == s[0]))
    ensures SortedAsc(r) && multiset(r) == multiset(s) + multiset{x}
  {
    if s == [] then [x]
    else if x <= s[0] then
      SortedCons(x, s);
      [x] + s
    else
      assert s == [s[0]] + s[1..];
      var t := Insert(x, s[1..]);
      SortedCons(s[0], t);
      [s[0]] + t
  }

  lemma SortedCons(h: real, t: seq<real>)
    requires SortedAsc(t) && (t != [] ==> h <= t[0])
    ensures SortedAsc([h] + t)
  {
    var r := [h] + t;
    forall i, j | 0 <= i <= j < |r|
      ensures r[i] <= r[j]
    {
      if 0 < i {
        assert r[i] == t[i - 1] && r[j] == t[j - 1];
      } else if 0 < j {
        assert t[0] <= t[j - 1];
      }
    }
  }

  /** `sorted(response_times)`. */
  function Sort(s: seq<real>): (r: seq<real>)
    ensures SortedAsc(r) && multiset(r) == multiset(s)
  {
    if s == [] then []
    else
      assert s == s[..|s| - 1] + [s[|s| - 1]];
      Insert(s[|s| - 1], Sort(s[..|s| - 1]))
  }

  function MinOf(s: seq<real>): (m: real)
    requires s != []
    ensures m in s && forall i :: 0 <= i < |s| ==> m <= s[i]
  {
    if |s| == 1 then s[0] else var t := MinOf(s[1..]); if s[0] <= t then s[0] else t
  }

  function MaxOf(s: seq<real>): (m: real)
    requires s != []
    ensures m in s && forall i :: 0 <= i < |s| ==> s[i] <= m
  {
    if |s| == 1 then s[0] else var t := MaxOf(s[1..]); if s[0] >= t then s[0] else t
  }

  /** The figures of `_print_final_stats`, response times in seconds. */
  datatype FinalStats = FinalStats(
    avg: real, min: real, max: real,
    p50: real, p90: real, p95: real, p99: real,
    successRate: real, reliability: Reliability, speed: Speed)

  /** The final figures. Each percentile is an element of the sorted times at
      index `int(n * p)`; the fallbacks of the source are never taken. */
  function Summarize(successful: nat, total: nat, times: seq<real>): (r: FinalStats)
    ensures r.successRate == SuccessRate(successful, total)
    ensures r.reliability == ReliabilityBand(r.successRate) && r.speed == SpeedBand(r.avg)
    ensures times == [] ==> r.avg == r.min == r.max == r.p50 == r.p90 == r.p95 == r.p99 == 0.0
    ensures times != [] ==>
      r.avg == SumReals(times) / |times| as real && r.min == MinOf(times) && r.max == MaxOf(times)
    ensures times != [] ==>
      var s := Sort(times);
      && r.p50 == s[PercentileIndex(|s|, 0.50)] && r.p90 == s[PercentileIndex(|s|, 0.90)]
      && r.p95 == s[PercentileIndex(|s|, 0.95)] && r.p99 == s[PercentileIndex(|s|, 0.99)]
    ensures times != [] ==> r.min <= r.p50 <= r.p90 <= r.p95 <= r.p99 <= r.max
  {
    var rate := SuccessRate(successful, total);
    if times == [] then
      FinalStats(0.0, 0.0, 0.0, 0.0, 0.0, 0.0, 0.0, rate, ReliabilityBand(rate), SpeedBand(0.0))
    else
      var avg := SumReals(times) / |times| as real;
      var lo, hi := MinOf(times), MaxOf(times);
      var sorted := Sort(times);
      var n := |sorted|;
      assert |sorted| == |multiset(sorted)| == |multiset(times)| == |times|;
      var i50, i90 := PercentileIndex(n, 0.50), PercentileIndex(n, 0.90);
      var i95, i99 := PercentileIndex(n, 0.95), PercentileIndex(n, 0.99);
      PercentileIndexMonotone(n, 0.50, 0.90);
      PercentileIndexMonotone(n, 0.90, 0.95);
      PercentileIndexMonotone(n, 0.95, 0.99);
      var p50 := if i50 < n then sorted[i50] else avg;
      var p90 := if i90 < n then sorted[i90] else hi;
      var p95 := if i95 < n then sorted[i95] else hi;
      var p99 := if i99 < n then sorted[i99] else hi;
      SortedWithinBounds(times, sorted, i50);
      SortedWithinBounds(times, sorted, i99);
      FinalStats(avg, lo, hi, p50, p90, p95, p99, rate, ReliabilityBand(rate), SpeedBand(avg))
  }

  /** An element of the sorted times lies between the minimum and the maximum. */
  lemma SortedWithinBounds(times: seq<real>, sorted: seq<real>, i: int)
    requires times != [] && multiset(sorted) == multiset(times) && 0 <= i < |sorted|
    ensures MinOf(times) <= sorted[i] <= MaxOf(times)
  {
    assert sorted[i] in multiset(sorted);
    assert sorted[i] in times;
  }

  /** Sum of the counts of a histogram. */
  ghost function TotalCount(m: map<string, nat>): nat
    decreases |m|
  {
    if m == map[] then 0
    else
      var k :| k in m;
      m[k] + TotalCount(m - {k})
  }

  /** TotalCount does not depend on which key it takes first. */
  lemma {:induction false} TotalCountRemove(m: map<string, nat>, k: string)
    requires k in m
    ensures TotalCount(m) == m[k] + TotalCount(m - {k})
    decreases |m|
  {
    var j :| j in m && TotalCount(m) == m[j] + TotalCount(m - {j});
    if j != k {
      assert |m - {j}| < |m| && |m - {k}| < |m| by {
        assert |m - {j}| == |m| - 1 && |m - {k}| == |m| - 1;
      }
      TotalCountRemove(m - {j}, k);
      TotalCountRemove(m - {k}, j);
      assert m - {j} - {k} == m - {k} - {j};
    }
  }

  /** `counts` is the histogram of `errors`: one key per distinct message, each
      mapped to its number of occurrences, the counts adding up to `|errors|`. */
  ghost predicate Histogram(counts: map<string, nat>, errors: seq<string>)
  {
    && counts.Keys == (set e | e in errors)
    && (forall e :: e in counts ==> counts[e] == multiset(errors)[e])
    && TotalCount(counts) == |errors|
  }

  /** One more occurrence of `error` adds one to the total. */
  lemma BumpTotal(counts: map<string, nat>, error: string, c: nat)
    requires c == if error in counts then counts[error] else 0
    ensures TotalCount(counts[error := c + 1]) == TotalCount(counts) + 1
  {
    var next := counts[error := c + 1];
    assert next - {error} == counts - {error};
    TotalCountRemove(next, error);
    if error in counts {
      TotalCountRemove(counts, error);
    } else {
      assert counts - {error} == counts;
    }
  }

  /** Counting one more message keeps the histogram. */
  lemma HistogramStep(counts: map<string, nat>, errors: seq<string>, error: string, c: nat)
    requires Histogram(counts, errors)
    requires c == if error in counts then counts[error] else 0
    ensures Histogram(counts[error := c + 1], errors + [error])
  {
    BumpTotal(counts, error, c);
    var next := counts[error := c + 1];
    assert next.Keys == (set e | e in errors + [error]);
    assert multiset(errors + [error]) == multiset(errors) + multiset{error};
  }

  /** The error histogram of `_print_final_stats`: each distinct message maps to
      its number of occurrences, and the counts add up to the number of errors. */
  method ErrorCounts(errors: seq<string>) returns (counts: map<string, nat>)
    ensures counts.Keys == set e | e in errors
    ensures forall e :: e in counts ==> counts[e] == multiset(errors)[e]
    ensures TotalCount(counts) == |errors|
  {
    counts := map[];
    var i := 0;
    while i < |errors|
      invariant 0 <= i <= |errors|
      invariant Histogram(counts, errors[..i])
    {
      var error := errors[i];
      var c := if error in counts then counts[error] else 0;
      HistogramStep(counts, errors[..i], error, c);
      counts := counts[error := c + 1];
      TakeSnoc(errors, i);
      i := i + 1;
    }
    assert errors[..i] == errors;
  }
}

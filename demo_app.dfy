/** The demonstration web service (demo_app.py): the shared `app_state`
    counters, what each route does to them and answers, and the background
    recovery of the health flag. Each `random` draw and each delay is an
    input of the route that uses it. */
module Demo {
  import opened Basics

  datatype HealthStatus = Healthy | Degraded

  /** The JSON bodies the routes answer with, reduced to the fields that
      depend on the state or on the draws. */
  datatype Body =
    | HomeBody(requestsServed: nat)
    | HealthBody(status: HealthStatus, served: Option<nat>, errors: Option<nat>)
    | ErrorBody(message: string)
    | DataBody(processingTime: real)
    | SlowBody(processingTime: real)
    | MemoryBody(result: real)
    | CpuBody(total: int)
    | DatabaseBody(queryTime: real, recordsFound: int)
    | StatsBody(totalRequests: nat, errorCount: nat, errorRate: real, healthStatus: HealthStatus)

  datatype Response = Response(status: int, body: Body)

  /** One request with the draws its handler makes. */
  datatype Request =
    | Home
    | Health(draw: real)
    | Data(processingTime: real, draw: real)
    | Slow(delay: real)
    | MemoryIntensive(rows: seq<seq<real>>)
    | CpuIntensive
    | Database(queryTime: real, draw: real, records: int)
    | Stats

  /** The draws a handler can receive from `random.random()` and the shape of
      the matrix `memory_intensive` fills. */
  predicate WellFormed(r: Request)
  {
    match r
    case Health(d) => 0.0 <= d < 1.0
    case Data(_, d) => 0.0 <= d < 1.0
    case Database(_, d, _) => 0.0 <= d < 1.0
    case MemoryIntensive(rows) => |rows| == MatrixSize && Filled(rows, MatrixSize)
    case _ => true
  }

  /** The requests whose handler records an error. */
  predicate RecordsError(r: Request)
  {
    match r
    case Data(_, d) => d < 0.05
    case Database(_, d, _) => d < 0.08
    case _ => false
  }

  const MatrixSize: nat := 1000
  const CpuLoopBound: nat := 1000000

  /** `error_count / max(request_count, 1)`. */
  function ErrorRate(errors: nat, requests: nat): (r: real)
    ensures requests == 0 ==> r == errors as real
    ensures errors <= requests ==> 0.0 <= r <= 1.0
    ensures r == 0.0 <==> errors == 0
  {
    var d := Max(requests, 1) as real;
    QuotientBounds(errors as real, d);
    errors as real / d
  }

  /** The sum of i * i for i in [0, n). */
  function SumSquares(n: nat): nat
  {
    if n == 0 then 0 else SumSquares(n - 1) + (n - 1) * (n - 1)
  }

  lemma {:induction false} SumSquaresClosedForm(n: nat)
    ensures 6 * SumSquares(n) == (n - 1) * n * (2 * n - 1)
  {
    if n > 0 {
      SumSquaresClosedForm(n - 1);
      ClosedFormStep(n);
    }
  }

  /** The induction step of the closed form, as a polynomial identity. */
  lemma ClosedFormStep(n: int)
    ensures (n - 1 - 1) * (n - 1) * (2 * (n - 1) - 1) + 6 * ((n - 1) * (n - 1)) == (n - 1) * n * (2 * n - 1)
  {
    var m := n - 1;
    var c := m * m * m;
    assert (m - 1) * m == m * m - m;
    assert (m * m - m) * (2 * m - 1) == 2 * c - 3 * (m * m) + m;
    assert m * (m + 1) == m * m + m;
    assert (m * m + m) * (2 * m + 1) == 2 * c + 3 * (m * m) + m;
  }

  /** The figure `/api/cpu-intensive` answers with. */
  lemma CpuIntensiveResult()
    ensures SumSquares(CpuLoopBound) == 333332833333500000
  {
    SumSquaresClosedForm(CpuLoopBound);
  }

  /** The accumulation loop of `cpu_intensive`. */
  method SquareSum(n: nat) returns (result: nat)
    ensures result == SumSquares(n)
    ensures 6 * result == (n - 1) * n * (2 * n - 1)
  {
    result := 0;
    var i := 0;
    while i < n
      invariant 0 <= i <= n
      invariant result == SumSquares(i)
    {
      result := result + i * i;
      i := i + 1;
    }
    SumSquaresClosedForm(n);
  }

  /** `sum(sum(row) for row in large_data)`. */
  function MatrixSum(rows: seq<seq<real>>): real
  {
    if rows == [] then 0.0 else MatrixSum(rows[..|rows| - 1]) + SumReals(rows[|rows| - 1])
  }

  /** Rows of `w` draws of `random.random()`, each in [0, 1). */
  predicate Filled(rows: seq<seq<real>>, w: nat)
  {
    forall i :: 0 <= i < |rows| ==>
      |rows[i]| == w && forall j :: 0 <= j < w ==> 0.0 <= rows[i][j] < 1.0
  }

  /** A row of draws in [0, 1) sums to at least 0 and below its length. */
  lemma {:induction false} RowSumBounds(row: seq<real>)
    requires forall j :: 0 <= j < |row| ==> 0.0 <= row[j] < 1.0
    ensures 0.0 <= SumReals(row) <= |row| as real
    ensures row != [] ==> SumReals(row) < |row| as real
  {
    if row != [] {
      var init := row[..|row| - 1];
      assert forall j :: 0 <= j < |init| ==> init[j] == row[j];
      RowSumBounds(init);
    }
  }

  /** A matrix of draws in [0, 1) sums to at least 0 and below its cell count. */
  lemma {:induction false} MatrixSumBounds(rows: seq<seq<real>>, w: nat)
    requires Filled(rows, w)
    ensures 0.0 <= MatrixSum(rows) <= (|rows| * w) as real
    ensures |rows| > 0 && w > 0 ==> MatrixSum(rows) < (|rows| * w) as real
  {
    if rows != [] {
      var init := rows[..|rows| - 1];
      var last := rows[|rows| - 1];
      assert forall i :: 0 <= i < |init| ==> init[i] == rows[i];
      MatrixSumBounds(init, w);
      RowSumBounds(last);
      assert |rows| * w == |init| * w + w;
    }
  }

  /** The fill loop of `memory_intensive`, then `sum(sum(row) for row in
      large_data)`: the total of every cell, at least 0 and below the number
      of cells when every cell is a draw in [0, 1). */
  method FillAndSum(rows: seq<seq<real>>) returns (result: real)
    ensures result == MatrixSum(rows)
    ensures Filled(rows, MatrixSize) ==> 0.0 <= result <= (|rows| * MatrixSize) as real
    ensures Filled(rows, MatrixSize) && rows != [] ==> result < (|rows| * MatrixSize) as real
  {
    var largeData: seq<seq<real>> := [];
    var i := 0;
    while i < |rows|
      invariant 0 <= i <= |rows|
      invariant largeData == rows[..i]
    {
      largeData := largeData + [rows[i]];
      i := i + 1;
    }
    assert largeData == rows;
    result := 0.0;
    var j := 0;
    while j < |largeData|
      invariant 0 <= j <= |largeData|
      invariant result == MatrixSum(largeData[..j])
    {
      assert largeData[..j + 1][..j] == largeData[..j];
      result := result + SumReals(largeData[j]);
      j := j + 1;
    }
    assert largeData[..j] == rows;
    if Filled(rows, MatrixSize) {
      MatrixSumBounds(rows, MatrixSize);
    }
  }

  /** The module-level `app_state` dictionary. */
  class AppState {
    var requestCount: nat
    var errorCount: nat
    var healthStatus: HealthStatus

    /** Each request records at most one error. */
    ghost predicate Valid()
      reads this
    {
      errorCount <= requestCount
    }

    constructor ()
      ensures Valid() && requestCount == 0 && errorCount == 0 && healthStatus == Healthy
    {
      requestCount, errorCount, healthStatus := 0, 0, Healthy;
    }

    /** `/`. */
    method Home() returns (resp: Response)
      requires Valid()
      modifies this
      ensures Valid() && requestCount == old(requestCount) + 1
      ensures errorCount == old(errorCount) && healthStatus == old(healthStatus)
      ensures resp == Response(200, HomeBody(requestCount))
    {
      requestCount := requestCount + 1;
      resp := Response(200, HomeBody(requestCount));
    }

    /** `/health`: with a draw below 0.1 the service reports itself degraded
        with a 503; otherwise healthy with a 200. */
    method HealthCheck(draw: real) returns (resp: Response)
      requires Valid()
      modifies this
      ensures Valid() && requestCount == old(requestCount) + 1 && errorCount == old(errorCount)
      ensures healthStatus == (if draw < 0.1 then Degraded else Healthy)
      ensures resp.status == (if draw < 0.1 then 503 else 200)
      ensures resp.body.HealthBody? && resp.body.status == healthStatus
      ensures draw >= 0.1 ==> resp.body == HealthBody(Healthy, Some(requestCount), Some(errorCount))
    {
      requestCount := requestCount + 1;
      if draw < 0.1 {
        healthStatus := Degraded;
        return Response(503, HealthBody(Degraded, None, None));
      }
      healthStatus := Healthy;
      resp := Response(200, HealthBody(Healthy, Some(requestCount), Some(errorCount)));
    }

    /** `/api/data`: a draw below 0.05 is an error answered with 500. */
    method GetData(processingTime: real, draw: real) returns (resp: Response)
      requires Valid()
      modifies this
      ensures Valid() && requestCount == old(requestCount) + 1 && healthStatus == old(healthStatus)
      ensures errorCount == old(errorCount) + (if draw < 0.05 then 1 else 0)
      ensures resp.status == 500 <==> draw < 0.05
      ensures resp == (if draw < 0.05 then Response(500, ErrorBody("Service temporarily unavailable"))
                       else Response(200, DataBody(processingTime)))
    {
      requestCount := requestCount + 1;
      if draw < 0.05 {
        errorCount := errorCount + 1;
        return Response(500, ErrorBody("Service temporarily unavailable"));
      }
      resp := Response(200, DataBody(processingTime));
    }

    /** `/api/slow`. */
    method SlowEndpoint(delay: real) returns (resp: Response)
      requires Valid()
      modifies this
      ensures Valid() && requestCount == old(requestCount) + 1
      ensures errorCount == old(errorCount) && healthStatus == old(healthStatus)
      ensures resp == Response(200, SlowBody(delay))
    {
      requestCount := requestCount + 1;
      resp := Response(200, SlowBody(delay));
    }

    /** `/api/memory-intensive`, with the matrix of draws it fills. */
    method MemoryIntensive(rows: seq<seq<real>>) returns (resp: Response)
      requires Valid()
      modifies this
      ensures Valid() && requestCount == old(requestCount) + 1
      ensures errorCount == old(errorCount) && healthStatus == old(healthStatus)
      ensures resp == Response(200, MemoryBody(MatrixSum(rows)))
    {
      requestCount := requestCount + 1;
      var result := FillAndSum(rows);
      resp := Response(200, MemoryBody(result));
    }

    /** `/api/cpu-intensive`. */
    method CpuIntensive() returns (resp: Response)
      requires Valid()
      modifies this
      ensures Valid() && requestCount == old(requestCount) + 1
      ensures errorCount == old(errorCount) && healthStatus == old(healthStatus)
      ensures resp == Response(200, CpuBody(333332833333500000))
    {
      requestCount := requestCount + 1;
      var result := SquareSum(CpuLoopBound);
      CpuIntensiveResult();
      resp := Response(200, CpuBody(result));
    }

    /** `/api/database`: a draw below 0.08 is a timeout answered with 504. */
    method DatabaseSimulation(queryTime: real, draw: real, records: int) returns (resp: Response)
      requires Valid()
      modifies this
      ensures Valid() && requestCount == old(requestCount) + 1 && healthStatus == old(healthStatus)
      ensures errorCount == old(errorCount) + (if draw < 0.08 then 1 else 0)
      ensures resp.status == 504 <==> draw < 0.08
      ensures resp == (if draw < 0.08 then Response(504, ErrorBody("Database connection timeout"))
                       else Response(200, DatabaseBody(queryTime, records)))
    {
      requestCount := requestCount + 1;
      if draw < 0.08 {
        errorCount := errorCount + 1;
        return Response(504, ErrorBody("Database connection timeout"));
      }
      resp := Response(200, DatabaseBody(queryTime, records));
    }

    /** `/stats`: reads the counters and changes nothing. */
    method GetStats() returns (resp: Response)
      ensures resp == Response(200, StatsBody(requestCount, errorCount, ErrorRate(errorCount, requestCount), healthStatus))
      ensures Valid() ==> 0.0 <= resp.body.errorRate <= 1.0
    {
      resp := Response(200, StatsBody(requestCount, errorCount, ErrorRate(errorCount, requestCount), healthStatus));
    }

    /** Dispatch one request to its route. Every route but `/stats` counts
        exactly one request, and only the failing draws of `/api/data` and
        `/api/database` count an error. */
    method Serve(r: Request) returns (resp: Response)
      requires Valid() && WellFormed(r)
      modifies this
      ensures Valid()
      ensures requestCount == old(requestCount) + (if r.Stats? then 0 else 1)
      ensures errorCount == old(errorCount) + (if RecordsError(r) then 1 else 0)
      ensures !r.Health? ==> healthStatus == old(healthStatus)
      ensures r.Health? ==> (healthStatus == Degraded <==> r.draw < 0.1)
      ensures resp.status != 200 <==> RecordsError(r) || (r.Health? && r.draw < 0.1)
    {
      match r
      case Home => resp := Home();
      case Health(d) => resp := HealthCheck(d);
      case Data(t, d) => resp := GetData(t, d);
      case Slow(t) => resp := SlowEndpoint(t);
      case MemoryIntensive(rows) => resp := MemoryIntensive(rows);
      case CpuIntensive => resp := CpuIntensive();
      case Database(t, d, n) => resp := DatabaseSimulation(t, d, n);
      case Stats => resp := GetStats();
    }

    /** The 500 error handler: it counts an error without a request. */
    method InternalError() returns (resp: Response)
      modifies this
      ensures errorCount == old(errorCount) + 1
      ensures requestCount == old(requestCount) && healthStatus == old(healthStatus)
      ensures resp == Response(500, ErrorBody("Internal server error"))
    {
      errorCount := errorCount + 1;
      resp := Response(500, ErrorBody("Internal server error"));
    }

    /** The 503 error handler: it counts an error without a request. */
    method ServiceUnavailable() returns (resp: Response)
      modifies this
      ensures errorCount == old(errorCount) + 1
      ensures requestCount == old(requestCount) && healthStatus == old(healthStatus)
      ensures resp == Response(503, ErrorBody("Service temporarily unavailable"))
    {
      errorCount := errorCount + 1;
      resp := Response(503, ErrorBody("Service temporarily unavailable"));
    }

    /** One pass of `background_task`: a degraded service recovers when the
        draw is below 0.7; a healthy one stays healthy. */
    method BackgroundStep(draw: real)
      modifies this
      ensures healthStatus == (if old(healthStatus) == Degraded && draw < 0.7 then Healthy else old(healthStatus))
      ensures requestCount == old(requestCount) && errorCount == old(errorCount)
    {
      if healthStatus == Degraded && draw < 0.7 {
        healthStatus := Healthy;
      }
    }

    /** Passes of `background_task` with no request in between: the service
        ends healthy iff it was healthy or one of the draws was below 0.7. */
    method BackgroundTask(draws: seq<real>)
      modifies this
      ensures healthStatus == Healthy <==>
        old(healthStatus) == Healthy || exists i :: 0 <= i < |draws| && draws[i] < 0.7
      ensures requestCount == old(requestCount) && errorCount == old(errorCount)
    {
      var k := 0;
      while k < |draws|
        invariant 0 <= k <= |draws|
        invariant requestCount == old(requestCount) && errorCount == old(errorCount)
        invariant healthStatus == Healthy <==>
          old(healthStatus) == Healthy || exists i :: 0 <= i < k && draws[i] < 0.7
      {
        BackgroundStep(draws[k]);
        k := k + 1;
      }
    }
  }
}

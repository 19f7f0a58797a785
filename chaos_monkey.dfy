/** The chaos experiment registry and its scheduler tick (chaos_monkey.py).

    What the environment contributes is passed in: the index `random.choice`
    picks, the draw of `random.random()`, whether something raises while a
    fault acquires its resource or a KeyboardInterrupt arrives while it is
    held, and the state of the temporary-file directory. */
module Chaos {
  import opened Basics

  /** The closed set of fault kinds. */
  datatype ChaosType = CpuStress | MemoryStress | NetworkLatency | ServiceKill | DiskFill | ProcessHang

  /** One experiment record; `target` and `parameters` may be absent (None in the source). */
  datatype Experiment = Experiment(
    name: string,
    chaosType: ChaosType,
    duration: int,
    probability: real,
    target: Option<string>,
    parameters: Option<map<string, int>>)

  const DefaultCores: int := 2
  const DefaultMb: int := 100
  const DefaultLatencyMs: int := 1000
  const DefaultSizeMb: int := 10
  const DefaultService: string := "demo_service"

  /** Bytes in one chunk of memory stress and in one megabyte of disk fill. */
  const MiB: nat := 1024 * 1024
  const TempFile: string := "/tmp/chaos_monkey_temp.dat"
  /** Seconds the service-kill handler waits for the simulated restart. */
  const RestartSeconds: int := 2

  /** `experiment.parameters.get(key, default) if experiment.parameters else default`:
      an absent or empty dictionary and a missing key all give the default. */
  function Param(e: Experiment, key: string, default: int): (r: int)
    ensures e.parameters.Some? && key in e.parameters.value ==> r == e.parameters.value[key]
    ensures e.parameters.None? || key !in e.parameters.value ==> r == default
  {
    if e.parameters.Some? && |e.parameters.value| > 0 then
      if key in e.parameters.value then e.parameters.value[key] else default
    else
      default
  }

  function Cores(e: Experiment): int { Param(e, "cores", DefaultCores) }
  function MemoryMb(e: Experiment): int { Param(e, "mb", DefaultMb) }
  function LatencyMs(e: Experiment): int { Param(e, "latency_ms", DefaultLatencyMs) }
  function SizeMb(e: Experiment): int { Param(e, "size_mb", DefaultSizeMb) }

  /** `experiment.target or "demo_service"`: an empty target is falsy too. */
  function ServiceName(e: Experiment): string
  {
    if e.target.Some? && e.target.value != "" then e.target.value else DefaultService
  }

  /** The per-kind defaults of the handlers. */
  lemma DefaultsApply(e: Experiment)
    ensures e.parameters.None? || e.parameters.value == map[] ==>
      Cores(e) == 2 && MemoryMb(e) == 100 && LatencyMs(e) == 1000 && SizeMb(e) == 10
    ensures e.target.None? || e.target == Some("") ==> ServiceName(e) == "demo_service"
    ensures e.target.Some? && e.target.value != "" ==> ServiceName(e) == e.target.value
    ensures ServiceName(e) != ""
  {
  }

  /** What happens to one execution of a handler. */
  datatype Hazard =
    | Calm
      /** acquiring unit `step` raises: the start of worker `step`, the allocation
          of chunk `step`, or the temp-file write after `step` bytes */
    | RaisesAt(step: nat)
      /** a KeyboardInterrupt arrives while the fault is held */
    | UserInterrupt

  /** What a handler did. */
  datatype Report =
    | CpuReport(workersStarted: nat, workersJoined: nat)
    | MemoryReport(chunks: seq<nat>, chunksHeldAfter: nat)
    | LatencyReport(latencyMs: int, heldSeconds: int)
    | KillReport(service: string)
    | DiskReport(path: string, bytesWritten: nat)
    | HangReport(heldSeconds: int)

  function ReportKind(r: Report): ChaosType
  {
    match r
    case CpuReport(_, _) => CpuStress
    case MemoryReport(_, _) => MemoryStress
    case LatencyReport(_, _) => NetworkLatency
    case KillReport(_) => ServiceKill
    case DiskReport(_, _) => DiskFill
    case HangReport(_) => ProcessHang
  }

  /** How `_execute_experiment` ends. */
  datatype Outcome =
    | Completed(report: Report)    // the handler returned
    | Failed(report: Report)       // the handler raised an Exception; it was caught and logged
    | Interrupted(report: Report)  // a KeyboardInterrupt passed through

  /** The temporary-file directory: path to file size in bytes. */
  type Disk = map<string, nat>

  datatype Effect = Effect(outcome: Outcome, disk: Disk)

  /** Iterations of `for _ in range(n)`. */
  function Units(n: int): nat { Max(n, 0) }

  /** Whether an acquisition of `n` units is cut short by the hazard. */
  predicate AcquisitionFails(n: nat, h: Hazard)
  {
    h.RaisesAt? && h.step < n
  }

  /** Units acquired before the acquisition stops. */
  function Acquired(n: nat, h: Hazard): (a: nat)
    ensures a <= n
    ensures a < n <==> AcquisitionFails(n, h)
  {
    if AcquisitionFails(n, h) then h.step else n
  }

  /** The hold phase `time.sleep(duration)`: a negative duration raises
      ValueError; a KeyboardInterrupt may arrive while sleeping. */
  function Hold(duration: int, h: Hazard, r: Report): (o: Outcome)
    ensures o.report == r
    ensures o.Interrupted? <==> duration >= 0 && h.UserInterrupt?
    ensures o.Failed? <==> duration < 0
  {
    if duration < 0 then Failed(r)
    else if h.UserInterrupt? then Interrupted(r)
    else Completed(r)
  }

  /** `num_cores` workers started, then every one joined; a failed start ends
      the handler with the workers started so far left unjoined, and an
      interrupt during the first join leaves them all unjoined. */
  function CpuStressSpec(e: Experiment, h: Hazard): Outcome
  {
    var n := Units(Cores(e));
    if AcquisitionFails(n, h) then Failed(CpuReport(h.step, 0))
    else if h.UserInterrupt? then Interrupted(CpuReport(n, 0))
    else Completed(CpuReport(n, n))
  }

  /** `mb` chunks of one MiB allocated, held, and the list cleared in `finally`. */
  function MemoryStressSpec(e: Experiment, h: Hazard): Outcome
  {
    var n := Units(MemoryMb(e));
    var chunks := seq(Acquired(n, h), _ => MiB);
    if AcquisitionFails(n, h) then Failed(MemoryReport(chunks, 0))
    else Hold(e.duration, h, MemoryReport(chunks, 0))
  }

  function NetworkLatencySpec(e: Experiment, h: Hazard): Outcome
  {
    Hold(e.duration, h, LatencyReport(LatencyMs(e), e.duration))
  }

  function ServiceKillSpec(e: Experiment, h: Hazard): Outcome
  {
    Hold(RestartSeconds, h, KillReport(ServiceName(e)))
  }

  function ProcessHangSpec(e: Experiment, h: Hazard): Outcome
  {
    Hold(e.duration, h, HangReport(e.duration))
  }

  /** The three handlers that only sleep: none of them acquires anything, so a
      raise while acquiring cannot reach them; network latency and process hang
      hold for the experiment's duration and fail exactly on a negative one;
      service kill holds its fixed 2 seconds and so never fails. */
  lemma SleepingHandlers(e: Experiment, h: Hazard)
    ensures h.RaisesAt? ==>
      && NetworkLatencySpec(e, h) == NetworkLatencySpec(e, Calm)
      && ServiceKillSpec(e, h) == ServiceKillSpec(e, Calm)
      && ProcessHangSpec(e, h) == ProcessHangSpec(e, Calm)
    ensures NetworkLatencySpec(e, h).report == LatencyReport(LatencyMs(e), e.duration)
    ensures NetworkLatencySpec(e, h).Failed? <==> e.duration < 0
    ensures ServiceKillSpec(e, h) ==
      if h.UserInterrupt? then Interrupted(KillReport(ServiceName(e))) else Completed(KillReport(ServiceName(e)))
    ensures ProcessHangSpec(e, h).report == HangReport(e.duration)
    ensures ProcessHangSpec(e, h).Completed? <==> e.duration >= 0 && !h.UserInterrupt?
  {
  }

  /** `_disk_fill`: write `size_mb * 1024 * 1024` bytes of "0" to the temp file,
      hold, and in `finally` remove the file if it exists. */
  function DiskFillSpec(e: Experiment, h: Hazard, disk: Disk): (r: Effect)
    ensures r.disk == disk - {TempFile}
    ensures r.outcome.report == DiskReport(TempFile, Acquired(Units(SizeMb(e) * MiB), h))
    ensures !AcquisitionFails(Units(SizeMb(e) * MiB), h) ==>
      r.outcome.report.bytesWritten == Units(SizeMb(e)) * MiB
  {
    var total := Units(SizeMb(e) * MiB);
    var written := Acquired(total, h);
    var report := DiskReport(TempFile, written);
    var during := disk[TempFile := written];
    var outcome := if AcquisitionFails(total, h) then Failed(report) else Hold(e.duration, h, report);
    var after := during - {TempFile};
    Effect(outcome, after)
  }

  /** `_execute_experiment`: the handler for the experiment's own kind runs, and
      every Exception it raises is caught; only a KeyboardInterrupt escapes. */
  function ExecutionSpec(e: Experiment, h: Hazard, disk: Disk): (r: Effect)
    ensures ReportKind(r.outcome.report) == e.chaosType
    ensures r.outcome.Interrupted? ==> h.UserInterrupt?
    ensures r.disk == if e.chaosType == DiskFill then disk - {TempFile} else disk
  {
    match e.chaosType
    case CpuStress => Effect(CpuStressSpec(e, h), disk)
    case MemoryStress => Effect(MemoryStressSpec(e, h), disk)
    case NetworkLatency => Effect(NetworkLatencySpec(e, h), disk)
    case ServiceKill => Effect(ServiceKillSpec(e, h), disk)
    case DiskFill => DiskFillSpec(e, h, disk)
    case ProcessHang => Effect(ProcessHangSpec(e, h), disk)
  }

  /** CPU stress starts exactly `cores` workers and, unless interrupted or a
      start fails, joins all of them before returning. */
  lemma CpuStressJoinsAll(e: Experiment, h: Hazard)
    ensures var o := CpuStressSpec(e, h);
      && o.report.workersStarted <= Units(Cores(e))
      && (h.Calm? ==> o == Completed(CpuReport(Units(Cores(e)), Units(Cores(e)))))
      && (o.Completed? ==> o.report.workersJoined == o.report.workersStarted == Units(Cores(e)))
  {
  }

  /** Memory stress holds `mb` chunks of 1024*1024 bytes at its peak, fewer only
      when an allocation raises, and the list is empty on every exit path. */
  lemma MemoryStressReleases(e: Experiment, h: Hazard)
    ensures var o := MemoryStressSpec(e, h);
      && o.report.chunksHeldAfter == 0
      && |o.report.chunks| <= Units(MemoryMb(e))
      && (forall i :: 0 <= i < |o.report.chunks| ==> o.report.chunks[i] == MiB)
      && (!AcquisitionFails(Units(MemoryMb(e)), h) ==> |o.report.chunks| == Units(MemoryMb(e)))
      && (o.Completed? <==> !AcquisitionFails(Units(MemoryMb(e)), h) && e.duration >= 0 && !h.UserInterrupt?)
  {
  }

  /** `_cpu_stress`: a started worker is remembered by its index. */
  method CpuStressHandler(e: Experiment, h: Hazard) returns (out: Outcome)
    ensures out == CpuStressSpec(e, h)
  {
    var numCores := Cores(e);
    var workers: seq<nat> := [];
    var k := 0;
    while k < numCores
      invariant 0 <= k <= Units(numCores)
      invariant |workers| == k
      invariant !AcquisitionFails(k, h)
    {
      if h == RaisesAt(k) {
        // thread.start() raised: the workers started so far are never joined
        return Failed(CpuReport(|workers|, 0));
      }
      workers := workers + [k];
      k := k + 1;
    }
    if h.UserInterrupt? {
      return Interrupted(CpuReport(|workers|, 0));
    }
    var joined := 0;
    while joined < |workers|
      invariant joined <= |workers|
    {
      joined := joined + 1;
    }
    out := Completed(CpuReport(|workers|, joined));
  }

  /** `_memory_stress`: the chunk list is a local filled one MiB at a time. */
  method MemoryStressHandler(e: Experiment, h: Hazard) returns (out: Outcome)
    ensures out == MemoryStressSpec(e, h)
  {
    var mb := MemoryMb(e);
    var memoryHog: seq<nat> := [];
    var raised := false;
    var k := 0;
    while k < mb && !raised
      invariant 0 <= k <= Units(mb)
      invariant memoryHog == seq(k, _ => MiB)
      invariant !AcquisitionFails(k, h)
      invariant raised ==> h == RaisesAt(k) && k < Units(mb)
      decreases Units(mb) - k, if raised then 0 else 1
    {
      if h == RaisesAt(k) {
        raised := true;
      } else {
        memoryHog := memoryHog + [MiB];
        k := k + 1;
      }
    }
    var peak := memoryHog;
    var report: Report;
    if raised {
      memoryHog := [];  // finally
      report := MemoryReport(peak, |memoryHog|);
      out := Failed(report);
    } else {
      memoryHog := [];  // finally
      report := MemoryReport(peak, |memoryHog|);
      out := Hold(e.duration, h, report);
    }
  }

  /** `_execute_experiment`: dispatch on the experiment's kind. */
  method ExecuteExperiment(e: Experiment, h: Hazard, disk: Disk) returns (out: Outcome, disk': Disk)
    ensures Effect(out, disk') == ExecutionSpec(e, h, disk)
  {
    disk' := disk;
    match e.chaosType {
      case CpuStress =>
        out := CpuStressHandler(e, h);
      case MemoryStress =>
        out := MemoryStressHandler(e, h);
      case NetworkLatency =>
        out := NetworkLatencySpec(e, h);
      case ServiceKill =>
        out := ServiceKillSpec(e, h);
      case DiskFill =>
        var r := DiskFillSpec(e, h, disk);
        out, disk' := r.outcome, r.disk;
      case ProcessHang =>
        out := ProcessHangSpec(e, h);
    }
  }

  /** What one iteration of the `start` loop is given. */
  datatype TickInput = TickInput(pick: nat, draw: real, hazard: Hazard)

  /** `random.choice` yields an index of the registry and `random.random()` a draw in [0, 1). */
  predicate ValidTick(t: TickInput, registrySize: nat)
  {
    (registrySize > 0 ==> t.pick < registrySize) && 0.0 <= t.draw < 1.0
  }

  datatype TickOutcome =
    | Idle
    | Skipped(experiment: Experiment)
    | Executed(experiment: Experiment, outcome: Outcome)

  datatype TickEffect = TickEffect(tick: TickOutcome, disk: Disk)

  /** One tick: nothing on an empty registry; otherwise the picked experiment
      runs exactly when the draw is strictly below its probability. */
  function TickSpec(experiments: seq<Experiment>, t: TickInput, disk: Disk): (r: TickEffect)
    requires ValidTick(t, |experiments|)
    ensures experiments == [] ==> r == TickEffect(Idle, disk)
    ensures experiments != [] ==> !r.tick.Idle? && r.tick.experiment == experiments[t.pick]
    ensures experiments != [] ==> (r.tick.Executed? <==> t.draw < experiments[t.pick].probability)
    ensures experiments != [] && experiments[t.pick].probability <= 0.0 ==> r == TickEffect(Skipped(experiments[t.pick]), disk)
    ensures experiments != [] && experiments[t.pick].probability >= 1.0 ==> r.tick.Executed?
    ensures r.tick.Executed? ==> r.tick.outcome == ExecutionSpec(r.tick.experiment, t.hazard, disk).outcome
  {
    if experiments == [] then
      TickEffect(Idle, disk)
    else
      var e := experiments[t.pick];
      if t.draw < e.probability then
        var x := ExecutionSpec(e, t.hazard, disk);
        TickEffect(Executed(e, x.outcome), x.disk)
      else
        TickEffect(Skipped(e), disk)
  }

  /** A KeyboardInterrupt out of an experiment ends the `start` loop. */
  predicate Stops(t: TickOutcome)
  {
    t.Executed? && t.outcome.Interrupted?
  }

  predicate ValidTicks(inputs: seq<TickInput>, registrySize: nat)
  {
    forall k :: 0 <= k < |inputs| ==> ValidTick(inputs[k], registrySize)
  }

  /** The ticks of one `start` call and the directory after it; `raised` is
      whether the ValueError of a negative `time.sleep(interval)` passed out of
      `start` (after `stop` ran in `finally`). */
  datatype RunEffect = RunEffect(ticks: seq<TickOutcome>, disk: Disk, raised: bool)

  /** One tick per input until an interrupt escapes an experiment or the sleep
      after a tick raises on a negative interval; the inputs running out stands
      for an interrupt during the sleep. */
  function RunSpec(experiments: seq<Experiment>, interval: int, inputs: seq<TickInput>, disk: Disk): RunEffect
    requires ValidTicks(inputs, |experiments|)
    decreases |inputs|
  {
    if inputs == [] then
      RunEffect([], disk, false)
    else
      var first := TickSpec(experiments, inputs[0], disk);
      if Stops(first.tick) then
        RunEffect([first.tick], first.disk, false)
      else if interval < 0 then
        RunEffect([first.tick], first.disk, true)
      else
        var rest := RunSpec(experiments, interval, inputs[1..], first.disk);
        RunEffect([first.tick] + rest.ticks, rest.disk, rest.raised)
  }

  /** Across any number of ticks: an experiment runs only when its draw is below
      its probability (so probability 0 never runs and probability 1 always
      does), and an empty registry never runs anything. */
  lemma {:induction false} RunGate(experiments: seq<Experiment>, interval: int, inputs: seq<TickInput>, disk: Disk)
    requires ValidTicks(inputs, |experiments|)
    ensures var r := RunSpec(experiments, interval, inputs, disk);
      && |r.ticks| <= |inputs|
      && (forall k :: 0 <= k < |r.ticks| ==> (r.ticks[k].Idle? <==> experiments == []))
      && (forall k :: 0 <= k < |r.ticks| && experiments != [] ==>
            r.ticks[k].experiment == experiments[inputs[k].pick]
            && (r.ticks[k].Executed? <==> inputs[k].draw < experiments[inputs[k].pick].probability))
    decreases |inputs|
  {
    if inputs != [] {
      var first := TickSpec(experiments, inputs[0], disk);
      if !Stops(first.tick) && interval >= 0 {
        RunGate(experiments, interval, inputs[1..], first.disk);
        var rest := RunSpec(experiments, interval, inputs[1..], first.disk);
        assert RunSpec(experiments, interval, inputs, disk).ticks == [first.tick] + rest.ticks;
        forall k | 1 <= k < |rest.ticks| + 1
          ensures inputs[k] == inputs[1..][k - 1]
        {
        }
      }
    }
  }

  /** How a run ends: before the inputs run out only on an interrupt or on the
      ValueError of a negative interval; that error escapes exactly when the
      interval is negative and the last tick was not interrupted, which is
      right after the first tick. */
  lemma {:induction false} RunEnding(experiments: seq<Experiment>, interval: int, inputs: seq<TickInput>, disk: Disk)
    requires ValidTicks(inputs, |experiments|)
    ensures var r := RunSpec(experiments, interval, inputs, disk);
      && |r.ticks| <= |inputs|
      && (forall k :: 0 <= k < |r.ticks| - 1 ==> !Stops(r.ticks[k]))
      && (|r.ticks| < |inputs| ==> r.ticks != [] && (Stops(r.ticks[|r.ticks| - 1]) || r.raised))
      && (r.raised <==> interval < 0 && r.ticks != [] && !Stops(r.ticks[|r.ticks| - 1]))
      && (interval < 0 ==> |r.ticks| == Min(1, |inputs|))
    decreases |inputs|
  {
    if inputs != [] {
      var first := TickSpec(experiments, inputs[0], disk);
      if !Stops(first.tick) && interval >= 0 {
        RunEnding(experiments, interval, inputs[1..], first.disk);
        var rest := RunSpec(experiments, interval, inputs[1..], first.disk);
        assert RunSpec(experiments, interval, inputs, disk).ticks == [first.tick] + rest.ticks;
      }
    }
  }

  /** A registry where every experiment has probability 0 never runs one: with
      a non-negative interval it ticks once per input. */
  lemma {:induction false} ZeroProbabilityNeverRuns(experiments: seq<Experiment>, interval: int, inputs: seq<TickInput>, disk: Disk)
    requires ValidTicks(inputs, |experiments|)
    requires forall i :: 0 <= i < |experiments| ==> experiments[i].probability <= 0.0
    ensures var r := RunSpec(experiments, interval, inputs, disk);
      && |r.ticks| == (if interval < 0 then Min(1, |inputs|) else |inputs|)
      && forall k :: 0 <= k < |r.ticks| ==> !r.ticks[k].Executed?
  {
    RunGate(experiments, interval, inputs, disk);
    RunEnding(experiments, interval, inputs, disk);
  }

  /** The scheduler: an append-only registry and the `running` flag. */
  class ChaosMonkey {
    var experiments: seq<Experiment>
    var running: bool

    constructor ()
      ensures experiments == [] && !running
    {
      experiments := [];
      running := false;
    }

    /** `add_experiment`: the new entry goes at the end; nothing else changes. */
    method AddExperiment(e: Experiment)
      modifies this
      ensures experiments == old(experiments) + [e]
      ensures running == old(running)
    {
      experiments := experiments + [e];
    }

    /** `stop`: clears the flag (the source's thread list is never filled). */
    method Stop()
      modifies this
      ensures !running && experiments == old(experiments)
    {
      running := false;
    }

    /** The body of the `start` loop. */
    method Tick(t: TickInput, disk: Disk) returns (tick: TickOutcome, disk': Disk)
      requires ValidTick(t, |experiments|)
      ensures TickEffect(tick, disk') == TickSpec(experiments, t, disk)
    {
      tick, disk' := Idle, disk;
      if |experiments| > 0 {
        var experiment := experiments[t.pick];
        if t.draw < experiment.probability {
          var out;
          out, disk' := ExecuteExperiment(experiment, t.hazard, disk);
          tick := Executed(experiment, out);
        } else {
          tick := Skipped(experiment);
        }
      }
    }

    /** `start`: tick, then `time.sleep(interval)`, while running. An interrupt
        ends the loop; a negative interval makes the sleep raise ValueError,
        which `except KeyboardInterrupt` does not catch. Either way `stop` runs. */
    method Start(interval: int, inputs: seq<TickInput>, disk: Disk)
      returns (ticks: seq<TickOutcome>, disk': Disk, raised: bool)
      requires ValidTicks(inputs, |experiments|)
      modifies this
      ensures experiments == old(experiments) && !running
      ensures RunEffect(ticks, disk', raised) == RunSpec(experiments, interval, inputs, disk)
    {
      running := true;
      ticks, disk', raised := [], disk, false;
      ghost var whole := RunSpec(experiments, interval, inputs, disk);
      assert inputs[0..] == inputs;
      var i := 0;
      while running
        invariant experiments == old(experiments) && running && !raised
        invariant Resumes(whole, experiments, interval, inputs, i, ticks, disk')
        decreases |inputs| - i
      {
        if i == |inputs| {
          assert ticks + [] == ticks;
          break;
        }
        var tick, next := Tick(inputs[i], disk');
        ResumesStep(whole, experiments, interval, inputs, i, ticks, disk', tick, next);
        ticks, disk' := ticks + [tick], next;
        if Stops(tick) {
          break;
        }
        if interval < 0 {
          raised := true;
          break;
        }
        i := i + 1;
      }
      Stop();
    }
  }

  /** After `ticks`, ending with disk `d`, the run `whole` goes on as RunSpec
      on the inputs from `i`. */
  ghost predicate Resumes(whole: RunEffect, experiments: seq<Experiment>, interval: int,
                          inputs: seq<TickInput>, i: int, ticks: seq<TickOutcome>, d: Disk)
  {
    && 0 <= i <= |inputs|
    && ValidTicks(inputs[i..], |experiments|)
    && var rest := RunSpec(experiments, interval, inputs[i..], d);
      whole == RunEffect(ticks + rest.ticks, rest.disk, rest.raised)
  }

  /** One iteration of the `start` loop: the tick stops the run, or the sleep
      after it raises, and the run is then complete; otherwise it resumes at
      the next input. */
  lemma ResumesStep(whole: RunEffect, experiments: seq<Experiment>, interval: int, inputs: seq<TickInput>,
                    i: int, ticks: seq<TickOutcome>, d: Disk, tick: TickOutcome, next: Disk)
    requires Resumes(whole, experiments, interval, inputs, i, ticks, d) && i < |inputs|
    requires ValidTick(inputs[i], |experiments|)
    requires TickEffect(tick, next) == TickSpec(experiments, inputs[i], d)
    ensures Stops(tick) ==> whole == RunEffect(ticks + [tick], next, false)
    ensures !Stops(tick) && interval < 0 ==> whole == RunEffect(ticks + [tick], next, true)
    ensures !Stops(tick) && interval >= 0 ==> Resumes(whole, experiments, interval, inputs, i + 1, ticks + [tick], next)
  {
    assert inputs[i..][0] == inputs[i] && inputs[i..][1..] == inputs[i + 1..];
    if !Stops(tick) && interval >= 0 {
      var rest := RunSpec(experiments, interval, inputs[i + 1..], next);
      assert (ticks + [tick]) + rest.ticks == ticks + ([tick] + rest.ticks);
    }
  }

  /** `create_sample_experiments`: one experiment of each kind, with
      kind-specific parameters, in the order of the source. */
  function SampleExperiments(): (r: seq<Experiment>)
    ensures |r| == 6
    ensures forall i :: 0 <= i < |r| ==> 0.0 <= r[i].probability <= 1.0 && r[i].duration > 0
    ensures forall i, j :: 0 <= i < j < |r| ==> r[i].chaosType != r[j].chaosType
  {
    [ Experiment("Light CPU Stress", CpuStress, 10, 0.3, None, Some(map["cores" := 2])),
      Experiment("Memory Allocation Test", MemoryStress, 15, 0.2, None, Some(map["mb" := 50])),
      Experiment("Network Latency Simulation", NetworkLatency, 8, 0.4, None, Some(map["latency_ms" := 500])),
      Experiment("Service Kill Test", ServiceKill, 5, 0.1, Some("web_service"), None),
      Experiment("Temporary Disk Fill", DiskFill, 12, 0.2, None, Some(map["size_mb" := 20])),
      Experiment("Process Hang Simulation", ProcessHang, 6, 0.3, None, None) ]
  }

  /** The parameters each sample experiment ends up using. */
  lemma SampleParameters()
    ensures var s := SampleExperiments();
      && Cores(s[0]) == 2 && MemoryMb(s[1]) == 50 && LatencyMs(s[2]) == 500
      && ServiceName(s[3]) == "web_service" && SizeMb(s[4]) == 20 && s[5].parameters.None?
  {
  }
}

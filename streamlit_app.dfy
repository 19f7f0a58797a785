/** The dashboard's bookkeeping (streamlit_app.py): the registry of the
    components it has launched, and how it classifies the demo service's
    health answer. Launching and terminating a process, and the HTTP request,
    are inputs: what `subprocess.Popen`, `terminate()` and `requests.get`
    did. */
module Dashboard {
  import opened Basics

  /** The script each launchable component runs. */
  const Scripts: map<string, string> := map[
    "demo_app" := "demo_app.py",
    "load_tester" := "load_tester.py",
    "system_monitor" := "system_monitor.py"]

  /** A launched process: its id and the script it was started with. */
  datatype Process = Process(pid: int, script: string)

  /** What `subprocess.Popen` did. */
  datatype Launch = Spawned(pid: int) | SpawnFailed(message: string)

  /** Every tracked process runs the script of its component. */
  predicate WellTracked(procs: map<string, Process>)
  {
    forall c :: c in procs ==> c in Scripts && procs[c].script == Scripts[c]
  }

  datatype StartResult = StartResult(procs: map<string, Process>, ok: bool)

  /** `start_component` on the registry `procs`. */
  function Started(procs: map<string, Process>, component: string, launch: Launch): (r: StartResult)
    ensures component in procs ==> r == StartResult(procs, true)
    ensures component !in procs && component !in Scripts ==> r == StartResult(procs, false)
    ensures component !in procs && component in Scripts && launch.SpawnFailed? ==> r == StartResult(procs, false)
    ensures component !in procs && component in Scripts && launch.Spawned? ==>
      r == StartResult(procs[component := Process(launch.pid, Scripts[component])], true)
    ensures r.ok <==> component in r.procs
    ensures r.procs.Keys <= procs.Keys + {component}
    ensures WellTracked(procs) ==> WellTracked(r.procs)
  {
    if component in procs then StartResult(procs, true)
    else if component !in Scripts then StartResult(procs, false)
    else match launch
      case SpawnFailed(_) => StartResult(procs, false)
      case Spawned(pid) => StartResult(procs[component := Process(pid, Scripts[component])], true)
  }

  /** `stop_component` on the registry `procs`; `terminateFails` is whether
      `terminate()` raised, which keeps the entry. */
  function Stopped(procs: map<string, Process>, component: string, terminateFails: bool): (r: map<string, Process>)
    ensures component !in procs || terminateFails ==> r == procs
    ensures component in procs && !terminateFails ==> component !in r && r.Keys == procs.Keys - {component}
    ensures forall c :: c in r ==> c in procs && r[c] == procs[c]
  {
    if component in procs && !terminateFails then procs - {component} else procs
  }

  /** Stopping a component just started gives back the registry before it. */
  lemma StopUndoesStart(procs: map<string, Process>, component: string, launch: Launch)
    requires component !in procs
    ensures Stopped(Started(procs, component, launch).procs, component, false) == procs
  {
    var r := Started(procs, component, launch).procs;
    if component in r {
      assert r - {component} == procs;
    }
  }

  /** Starting a running component again changes nothing and reports success. */
  lemma StartIsIdempotent(procs: map<string, Process>, component: string, first: Launch, second: Launch)
    ensures var once := Started(procs, component, first);
      once.ok ==> Started(once.procs, component, second) == once
  {
  }

  /** The dashboard state the registry lives in. */
  class StreamlitChaosDemo {
    const baseUrl: string
    var runningProcesses: map<string, Process>

    ghost predicate Valid()
      reads this
    {
      WellTracked(runningProcesses)
    }

    constructor ()
      ensures Valid() && runningProcesses == map[] && baseUrl == "http://localhost:8080"
    {
      baseUrl := "http://localhost:8080";
      runningProcesses := map[];
    }

    method StartComponent(component: string, launch: Launch) returns (ok: bool)
      requires Valid()
      modifies this
      ensures Valid()
      ensures StartResult(runningProcesses, ok) == Started(old(runningProcesses), component, launch)
    {
      if component in runningProcesses {
        return true;
      }
      if component == "demo_app" || component == "load_tester" || component == "system_monitor" {
        match launch
        case SpawnFailed(_) =>
          return false;
        case Spawned(pid) =>
          runningProcesses := runningProcesses[component := Process(pid, Scripts[component])];
          return true;
      }
      return false;
    }

    method StopComponent(component: string, terminateFails: bool)
      requires Valid()
      modifies this
      ensures Valid()
      ensures runningProcesses == Stopped(old(runningProcesses), component, terminateFails)
    {
      if component in runningProcesses {
        if !terminateFails {
          runningProcesses := runningProcesses - {component};
        }
      }
    }
  }

  /** What `response.json()` gives, or the message of the error it raises. */
  datatype Json = Parsed(data: map<string, string>) | Malformed(message: string)

  /** What the `/health` request produced: an answer, or an exception. */
  datatype HealthProbe =
    | Answered(statusCode: int, elapsedSeconds: real, body: Json)
    | Raised(error: string)

  datatype AppStatus = Healthy | Degraded | Unreachable

  /** The record `check_demo_app_status` returns. */
  datatype StatusRecord = StatusRecord(
    status: AppStatus, responseTimeMs: real, data: map<string, string>, error: Option<string>)

  /** `check_demo_app_status`: only a 200 whose body parses is healthy; any
      other status code is degraded; an exception, including a body that does
      not parse, is unreachable. Only a healthy answer reports a response time. */
  function CheckDemoAppStatus(p: HealthProbe): (r: StatusRecord)
    ensures r.status == Healthy <==> p.Answered? && p.statusCode == 200 && p.body.Parsed?
    ensures r.status == Degraded <==> p.Answered? && p.statusCode != 200
    ensures r.status == Unreachable <==> p.Raised? || (p.statusCode == 200 && p.body.Malformed?)
    ensures r.status == Healthy ==> r.responseTimeMs == p.elapsedSeconds * 1000.0 && r.data == p.body.data
    ensures r.status != Healthy ==> r.responseTimeMs == 0.0 && r.data == map[]
    ensures r.error.Some? <==> r.status == Unreachable
  {
    match p
    case Raised(e) => StatusRecord(Unreachable, 0.0, map[], Some(e))
    case Answered(code, elapsed, body) =>
      if code != 200 then StatusRecord(Degraded, 0.0, map[], None)
      else match body
        case Malformed(e) => StatusRecord(Unreachable, 0.0, map[], Some(e))
        case Parsed(data) => StatusRecord(Healthy, elapsed * 1000.0, data, None)
  }
}

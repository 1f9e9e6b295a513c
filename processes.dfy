/** `ChromeProcessManager` (skyvern/webeye/browser_factory_optimizations.py:59-227):
    the Chrome processes started for managed debugging ports, each with
    its profile directory and its monitor task, all three kept under the
    same port. Processes, directories and tasks are identities; what the
    operating system answers is passed in. */
module Processes {
  import opened Wrappers
  import opened PyStr
  import opened Errors
  import opened Ports

  type ProcessId = nat

  /** The monitor task watching one process. */
  datatype Monitor = Monitor(process: ProcessId)

  /** Effects on processes and files, in order. */
  datatype ProcessStep =
    | CancelMonitor(port: int)
    | Terminate(process: ProcessId)
    | Kill(process: ProcessId)
    | RemoveDir(dir: string)

  /** The fixed flags of `start_chrome`, the debugging port first. */
  function OptimizedFlags(port: int): (r: seq<string>)
    ensures |r| == 16 && r[0] == "--remote-debugging-port=" + IntToString(port)
  {
    ["--remote-debugging-port=" + IntToString(port), "--no-first-run", "--no-default-browser-check",
     "--disable-infobars", "--disable-extensions", "--disable-dev-shm-usage", "--no-sandbox",
     "--disable-gpu", "--disable-software-rasterizer", "--disable-background-timer-throttling",
     "--disable-backgrounding-occluded-windows", "--disable-renderer-backgrounding",
     "--disable-features=TranslateUI", "--disable-ipc-flooding-protection", "--password-store=basic",
     "--use-mock-keychain"]
  }

  /** The command line: the executable, the fixed flags, the caller's
      flags in order, and the profile directory last. */
  function ChromeArgv(chromePath: string, args: seq<string>, port: int, tempDir: string): (r: seq<string>)
    ensures |r| == 18 + |args|
    ensures r[0] == chromePath && r[1] == "--remote-debugging-port=" + IntToString(port)
    ensures r[17..17 + |args|] == args
    ensures r[|r| - 1] == "--user-data-dir=" + tempDir
  {
    [chromePath] + OptimizedFlags(port) + args + ["--user-data-dir=" + tempDir]
  }

  /** What the operating system answers while `stop_chrome` runs: whether
      the monitor task had already finished, whether the process was still
      running, whether it outlived the ten second wait, and whether
      signalling it raised. */
  datatype StopInputs = StopInputs(monitorDone: bool, running: bool, waitTimesOut: bool, signalFails: bool)

  /** The effects of `stop_chrome` on `port` given the records it finds:
      none for an untracked port; otherwise cancelling a monitor still
      running, terminating a running process and killing it after the
      wait, then, unless a signal raised, removing the directory. */
  function StopSteps(port: int, processes: map<int, ProcessId>, tempDirs: map<int, string>,
                     monitors: map<int, Monitor>, s: StopInputs): seq<ProcessStep> {
    if port !in processes then []
    else
      var pid := processes[port];
      var cancel := if port in monitors && !s.monitorDone then [CancelMonitor(port)] else [];
      if s.running && s.signalFails then cancel + [Terminate(pid)]
      else
        cancel + (if s.running then [Terminate(pid)] + (if s.waitTimesOut then [Kill(pid)] else []) else [])
        + (if port in tempDirs && tempDirs[port] != "" then [RemoveDir(tempDirs[port])] else [])
  }

  /** A process is signalled only while it runs, killed only after it
      outlived the wait, and its directory goes only once it was stopped. */
  lemma StopStepsOrder(port: int, processes: map<int, ProcessId>, tempDirs: map<int, string>,
                       monitors: map<int, Monitor>, s: StopInputs)
    ensures var steps := StopSteps(port, processes, tempDirs, monitors, s);
      && (port !in processes ==> steps == [])
      && (forall i :: 0 <= i < |steps| && steps[i].Terminate? ==> s.running && steps[i].process == processes[port])
      && (forall i :: 0 <= i < |steps| && steps[i].Kill? ==>
            s.waitTimesOut && 0 < i && steps[i - 1] == Terminate(processes[port]))
      && (forall i :: 0 <= i < |steps| && steps[i].RemoveDir? ==>
            i == |steps| - 1 && !(s.running && s.signalFails) && steps[i].dir == tempDirs[port])
  {
  }

  /** Where `cleanup_all` stands after stopping `order[..i]`: the ports
      still to visit are tracked and unhandled, every originally tracked
      port is handled or still to visit, a port stays tracked exactly when
      it is unhandled or its stop failed, and a port stopped successfully
      was released. */
  ghost predicate CleanupProgress(orig: map<int, ProcessId>, order: seq<int>, i: int, handled: set<int>,
                                  failed: set<int>, procs: map<int, ProcessId>, used: set<int>,
                                  stops: int -> StopInputs)
  {
    && 0 <= i <= |order|
    && (forall k :: i <= k < |order| ==> order[k] !in handled && order[k] in procs)
    && (forall p :: p in orig <==> p in order[i..] || p in handled)
    && (forall p :: p in procs <==> (p in orig && p !in handled) || p in failed)
    && (forall p :: p in failed <==> p in handled && stops(p).running && stops(p).signalFails)
    && (forall p :: p in procs ==> p in orig && procs[p] == orig[p])
    && (forall p :: p in handled && p !in failed ==> p !in used)
  }

  /** One `stop_chrome` call of `cleanup_all` keeps its progress. */
  lemma CleanupStep(orig: map<int, ProcessId>, order: seq<int>, i: int, handled: set<int>, failed: set<int>,
                    procs: map<int, ProcessId>, used: set<int>, stops: int -> StopInputs,
                    ok: bool, procs': map<int, ProcessId>, used': set<int>)
    requires CleanupProgress(orig, order, i, handled, failed, procs, used, stops) && i < |order|
    requires forall a, b :: 0 <= a < b < |order| ==> order[a] != order[b]
    requires ok <==> !(order[i] in procs && stops(order[i]).running && stops(order[i]).signalFails)
    requires procs' == if ok && order[i] in procs then procs - {order[i]} else procs
    requires used' == if ok && order[i] in procs then used - {order[i]} else used
    ensures CleanupProgress(orig, order, i + 1, handled + {order[i]},
                            if ok then failed else failed + {order[i]}, procs', used', stops)
  {
    assert order[i..] == [order[i]] + order[i + 1..];
  }

  class ChromeProcessManager {
    var processes: map<int, ProcessId>
    var tempDirs: map<int, string>
    var monitors: map<int, Monitor>

    /** The three records are kept in step, and each monitor watches the
        process recorded under its port. */
    predicate Valid()
      reads this
    {
      && processes.Keys == tempDirs.Keys && tempDirs.Keys == monitors.Keys
      && forall p :: p in monitors ==> monitors[p].process == processes[p]
    }

    constructor()
      ensures Valid() && processes == map[] && tempDirs == map[] && monitors == map[]
    {
      processes := map[];
      tempDirs := map[];
      monitors := map[];
    }

    /** `_cleanup_chrome_resources`: the directory is removed, the port
        released and all three records dropped. */
    method CleanupResources(port: int, ports: PortManager) returns (steps: seq<ProcessStep>)
      modifies this, ports
      ensures processes == old(processes) - {port} && tempDirs == old(tempDirs) - {port}
      ensures monitors == old(monitors) - {port}
      ensures ports.usedPorts == old(ports.usedPorts) - {port}
      ensures steps == if port in old(tempDirs) && old(tempDirs)[port] != "" then [RemoveDir(old(tempDirs)[port])] else []
      ensures old(Valid()) ==> Valid()
    {
      steps := [];
      if port in tempDirs && tempDirs[port] != "" {
        steps := [RemoveDir(tempDirs[port])];
      }
      ports.ReleasePort(port);
      processes := processes - {port};
      tempDirs := tempDirs - {port};
      monitors := monitors - {port};
    }

    /** `start_chrome`: `tempDir` is what `mkdtemp` produced and `launch`
        what `Popen` produced. On success the process, its directory and its
        monitor are recorded under `port`; on failure the port's resources
        are cleaned up and the error raised again. `argv` is the command
        line Chrome was started with, None when it never was. When `Popen`
        fails after `mkdtemp` succeeded, the fresh directory is not yet
        recorded, so the cleanup does not remove it: it is left on disk. */
    method StartChrome(chromePath: string, args: seq<string>, port: int, ports: PortManager,
                       tempDir: Result<string, Exc>, launch: Result<ProcessId, Exc>)
      returns (r: Result<ProcessId, Exc>, argv: Option<seq<string>>, steps: seq<ProcessStep>)
      modifies this, ports
      ensures old(Valid()) ==> Valid()
      ensures argv.Some? <==> tempDir.Ok?
      ensures argv.Some? ==> argv.value == ChromeArgv(chromePath, args, port, tempDir.value)
      ensures r.Ok? <==> tempDir.Ok? && launch.Ok?
      ensures r.Ok? ==>
        && r.value == launch.value
        && processes == old(processes)[port := launch.value]
        && tempDirs == old(tempDirs)[port := tempDir.value]
        && monitors == old(monitors)[port := Monitor(launch.value)]
        && ports.usedPorts == old(ports.usedPorts) && steps == []
      ensures r.Err? ==>
        && r.error == (if tempDir.Err? then tempDir.error else launch.error)
        && processes == old(processes) - {port} && tempDirs == old(tempDirs) - {port}
        && monitors == old(monitors) - {port}
        && ports.usedPorts == old(ports.usedPorts) - {port}
        && steps == if port in old(tempDirs) && old(tempDirs)[port] != "" then [RemoveDir(old(tempDirs)[port])] else []
    {
      steps := [];
      if tempDir.Err? {
        argv := None;
        steps := CleanupResources(port, ports);
        return Err(tempDir.error), argv, steps;
      }
      argv := Some(ChromeArgv(chromePath, args, port, tempDir.value));
      if launch.Err? {
        steps := CleanupResources(port, ports);
        return Err(launch.error), argv, steps;
      }
      processes := processes[port := launch.value];
      tempDirs := tempDirs[port := tempDir.value];
      monitors := monitors[port := Monitor(launch.value)];
      return Ok(launch.value), argv, steps;
    }

    /** `stop_chrome`: an untracked port is already stopped. For a tracked
        one the monitor is cancelled, a running process terminated and, if
        it outlives the wait, killed; then its resources are cleaned up. A
        signal that raises gives False and keeps the records. */
    method StopChrome(port: int, ports: PortManager, s: StopInputs) returns (r: bool, steps: seq<ProcessStep>)
      modifies this, ports
      ensures old(Valid()) ==> Valid()
      ensures r <==> !(port in old(processes) && s.running && s.signalFails)
      ensures var stopped := r && port in old(processes);
        && processes == (if stopped then old(processes) - {port} else old(processes))
        && tempDirs == (if stopped then old(tempDirs) - {port} else old(tempDirs))
        && monitors == (if stopped then old(monitors) - {port} else old(monitors))
        && ports.usedPorts == (if stopped then old(ports.usedPorts) - {port} else old(ports.usedPorts))
      ensures steps == StopSteps(port, old(processes), old(tempDirs), old(monitors), s)
    {
      if port !in processes {
        return true, [];
      }
      var pid := processes[port];
      steps := [];
      if port in monitors && !s.monitorDone {
        steps := steps + [CancelMonitor(port)];
      }
      if s.running {
        steps := steps + [Terminate(pid)];
        if s.signalFails {
          return false, steps;
        }
        if s.waitTimesOut {
          steps := steps + [Kill(pid)];
        }
      }
      var removed := CleanupResources(port, ports);
      steps := steps + removed;
      return true, steps;
    }

    /** `cleanup_all`: every tracked process is stopped; `order` is the
        list of tracked ports and `stops(p)` the answers for port `p`. A
        port stays tracked exactly when stopping it failed. */
    method CleanupAll(order: seq<int>, ports: PortManager, stops: int -> StopInputs) returns (failed: set<int>)
      requires Valid()
      requires forall p :: p in order <==> p in processes
      requires forall i, j :: 0 <= i < j < |order| ==> order[i] != order[j]
      modifies this, ports
      ensures Valid()
      ensures failed == processes.Keys
      ensures forall p :: p in failed <==> p in old(processes) && stops(p).running && stops(p).signalFails
      ensures forall p :: p in processes ==> processes[p] == old(processes)[p]
      ensures forall p :: p in old(processes) && p !in failed ==> p !in ports.usedPorts
    {
      failed := {};
      ghost var handled: set<int> := {};
      for i := 0 to |order|
        invariant Valid()
        invariant CleanupProgress(old(processes), order, i, handled, failed, processes, ports.usedPorts, stops)
      {
        var p := order[i];
        ghost var before, usedBefore := processes, ports.usedPorts;
        var ok, _ := StopChrome(p, ports, stops(p));
        CleanupStep(old(processes), order, i, handled, failed, before, usedBefore, stops, ok, processes, ports.usedPorts);
        if !ok {
          failed := failed + {p};
        }
        handled := handled + {p};
      }
      assert forall p :: p in processes <==> p in failed;
    }
  }
}
